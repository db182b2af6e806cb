/** The fail-fast parsers of test/unknown.test.ts: `tryFromUnknown` of
    `RateLimit`, `Resources`, `GithubRateLimitResponse` and
    `GithubRateLimitResponseWrong`. Each is a chain of conversions, each
    followed by `unwrap()`, inside a `try` whose `catch` returns the thrown
    error as `Err`; here every `x = conv(...).unwrap()` is `var x :- conv(...)`,
    so the first failing conversion's error is the whole result, unchanged.
 */
module RateLimitParsers {
  import opened Js
  import opened Results
  import opened UtilsTypes

  datatype RateLimit = RateLimit(limit: int, remaining: int, reset: int, used: int, resource: string)

  datatype Resources = Resources(core: RateLimit)

  datatype GithubRateLimitResponse = GithubRateLimitResponse(resources: Resources, full_json: UnknownObject)

  /** Reads its nested object from the misspelt key "resourcess". */
  datatype GithubRateLimitResponseWrong = GithubRateLimitResponseWrong(resourcess: Resources, full_json: UnknownObject)

  /** An object whose `limit`, `remaining`, `reset` and `used` are numbers and
      whose `resource` is a string. */
  predicate IsRateLimitShape(v: Value) {
    && v.Obj?
    && Get(v.entries, "limit").Num?
    && Get(v.entries, "remaining").Num?
    && Get(v.entries, "reset").Num?
    && Get(v.entries, "used").Num?
    && Get(v.entries, "resource").Str?
  }

  function RateLimitTryFromUnknown(unk: Value): (r: Result<RateLimit, Error>)
    ensures r.IsOk() <==> IsRateLimitShape(unk)
    ensures r.IsOk() ==> var o := unk.entries;
      r.data == RateLimit(Get(o, "limit").n, Get(o, "remaining").n, Get(o, "reset").n,
                          Get(o, "used").n, Get(o, "resource").s)
  {
    var unkObj :- UnknownToObject(unk);
    var limit :- UnknownToNumber(Get(unkObj, "limit"));
    var remaining :- UnknownToNumber(Get(unkObj, "remaining"));
    var reset :- UnknownToNumber(Get(unkObj, "reset"));
    var used :- UnknownToNumber(Get(unkObj, "used"));
    var resource :- UnknownToString(Get(unkObj, "resource"));
    Ok(RateLimit(limit, remaining, reset, used, resource))
  }

  /** First error wins: a non-object reports `unknownToObject`; otherwise the
      first of `limit`, `remaining`, `reset`, `used` (numbers) and `resource`
      (a string), in that order, whose kind is wrong names the error. */
  lemma RateLimitFailFast(unk: Value)
    ensures !unk.Obj? ==>
      RateLimitTryFromUnknown(unk) == Err(Error("Error unknownToObject typeof value is " + TypeofName(unk)))
    ensures unk.Obj? ==> var o := unk.entries; var r := RateLimitTryFromUnknown(unk);
      && (!Get(o, "limit").Num? ==>
            r == Err(Error("Error unknownToNumber typeof value is " + TypeofName(Get(o, "limit")))))
      && (Get(o, "limit").Num? && !Get(o, "remaining").Num? ==>
            r == Err(Error("Error unknownToNumber typeof value is " + TypeofName(Get(o, "remaining")))))
      && (Get(o, "limit").Num? && Get(o, "remaining").Num? && !Get(o, "reset").Num? ==>
            r == Err(Error("Error unknownToNumber typeof value is " + TypeofName(Get(o, "reset")))))
      && (Get(o, "limit").Num? && Get(o, "remaining").Num? && Get(o, "reset").Num? && !Get(o, "used").Num? ==>
            r == Err(Error("Error unknownToNumber typeof value is " + TypeofName(Get(o, "used")))))
      && (Get(o, "limit").Num? && Get(o, "remaining").Num? && Get(o, "reset").Num? && Get(o, "used").Num?
          && !Get(o, "resource").Str? ==>
            r == Err(Error("Error unknownToString typeof value is " + TypeofName(Get(o, "resource")))))
  {
  }

  function ResourcesTryFromUnknown(unk: Value): (r: Result<Resources, Error>)
    ensures !unk.Obj? ==> r == Err(Error("Error unknownToObject typeof value is " + TypeofName(unk)))
    ensures unk.Obj? ==> var inner := RateLimitTryFromUnknown(Get(unk.entries, "core"));
      && (r.IsOk() <==> inner.IsOk())
      && (inner.IsErr() ==> r == Err(inner.error))
      && (r.IsOk() ==> r.data.core == inner.data)
  {
    var unkObj :- UnknownToObject(unk);
    var core :- RateLimitTryFromUnknown(Get(unkObj, "core"));
    Ok(Resources(core))
  }

  function GithubRateLimitResponseTryFromUnknown(unk: Value): (r: Result<GithubRateLimitResponse, Error>)
    ensures !unk.Obj? ==> r == Err(Error("Error unknownToObject typeof value is " + TypeofName(unk)))
    ensures unk.Obj? ==> var inner := ResourcesTryFromUnknown(Get(unk.entries, "resources"));
      && (r.IsOk() <==> inner.IsOk())
      && (inner.IsErr() ==> r == Err(inner.error))
      && (r.IsOk() ==> r.data.resources == inner.data && Obj(r.data.full_json) == unk)
  {
    var unkObj :- UnknownToObject(unk);
    var resources :- ResourcesTryFromUnknown(Get(unkObj, "resources"));
    Ok(GithubRateLimitResponse(resources, unkObj))
  }

  function GithubRateLimitResponseWrongTryFromUnknown(unk: Value): (r: Result<GithubRateLimitResponseWrong, Error>)
    ensures !unk.Obj? ==> r == Err(Error("Error unknownToObject typeof value is " + TypeofName(unk)))
    ensures unk.Obj? ==> var inner := ResourcesTryFromUnknown(Get(unk.entries, "resourcess"));
      && (r.IsOk() <==> inner.IsOk())
      && (inner.IsErr() ==> r == Err(inner.error))
      && (r.IsOk() ==> r.data.resourcess == inner.data && Obj(r.data.full_json) == unk)
  {
    var unkObj :- UnknownToObject(unk);
    var resourcess :- ResourcesTryFromUnknown(Get(unkObj, "resourcess"));
    Ok(GithubRateLimitResponseWrong(resourcess, unkObj))
  }

  /** End to end: the response parses exactly when `resources.core` has the
      rate-limit shape, and then every field is copied from it. */
  lemma GithubRateLimitResponseParses(unk: Value)
    ensures GithubRateLimitResponseTryFromUnknown(unk).IsOk() <==>
      && unk.Obj?
      && Get(unk.entries, "resources").Obj?
      && IsRateLimitShape(Get(Get(unk.entries, "resources").entries, "core"))
    ensures GithubRateLimitResponseTryFromUnknown(unk).IsOk() ==>
      var core := Get(Get(unk.entries, "resources").entries, "core").entries;
      GithubRateLimitResponseTryFromUnknown(unk).data.resources.core ==
        RateLimit(Get(core, "limit").n, Get(core, "remaining").n, Get(core, "reset").n,
                  Get(core, "used").n, Get(core, "resource").s)
  {
  }

  /** An object without the key "resourcess" makes the wrong parser fail on
      the `undefined` it reads there. */
  lemma WrongParserOnMissingKey(unk: Value)
    requires unk.Obj?
    requires forall i :: 0 <= i < |unk.entries| ==> unk.entries[i].0 != "resourcess"
    ensures GithubRateLimitResponseWrongTryFromUnknown(unk) ==
      Err(Error("Error unknownToObject typeof value is undefined"))
  {
    assert Get(unk.entries, "resourcess") == Undefined;
    assert "Error unknownToObject typeof value is " + TypeofName(Undefined)
      == "Error unknownToObject typeof value is undefined";
    assert ResourcesTryFromUnknown(Undefined) == Err(Error("Error unknownToObject typeof value is undefined"));
  }

  /** A response shaped like GitHub's `/rate_limit` answer. */
  function SampleRateLimit(): Value {
    Obj([("limit", Num(60)), ("remaining", Num(59)), ("reset", Num(1700000000)),
         ("used", Num(1)), ("resource", Str("core"))])
  }

  function SampleResponse(): Value {
    Obj([("resources", Obj([("core", SampleRateLimit()), ("search", SampleRateLimit())])),
         ("rate", SampleRateLimit())])
  }

  /** The parse-only half of the `getGithubRateLimits` test: the correct
      parser reads `resources.core.resource == "core"`, the wrong one fails
      with the `undefined` message. */
  lemma SampleResponseScenarios()
    ensures GithubRateLimitResponseTryFromUnknown(SampleResponse()).IsOk()
    ensures GithubRateLimitResponseTryFromUnknown(SampleResponse()).data.resources.core.resource == "core"
    ensures GithubRateLimitResponseWrongTryFromUnknown(SampleResponse()).IsErr()
    ensures GithubRateLimitResponseWrongTryFromUnknown(SampleResponse()).error.message ==
      "Error unknownToObject typeof value is undefined"
  {
    var core := SampleRateLimit().entries;
    assert Get(core, "limit") == Num(60);
    assert Get(core, "remaining") == Num(59);
    assert Get(core, "reset") == Num(1700000000);
    assert Get(core, "used") == Num(1);
    assert Get(core, "resource") == Str("core");
    assert IsRateLimitShape(SampleRateLimit());
    var resources := Get(SampleResponse().entries, "resources");
    assert resources == Obj([("core", SampleRateLimit()), ("search", SampleRateLimit())]);
    assert Get(resources.entries, "core") == SampleRateLimit();
    assert Get(SampleResponse().entries, "resourcess") == Undefined;
    WrongParserOnMissingKey(SampleResponse());
  }
}
