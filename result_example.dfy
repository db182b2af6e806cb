/** The `getEven` example of test/result.test.ts and the observable contract
    of `Result` that its tests exercise. */
module ResultExample {
  import opened Results
  import opened Js

  /** `Ok(x)` for an even `x`, otherwise an `Err` naming `x`. JavaScript's
      `%` truncates while Dafny's is Euclidean, but the two agree on whether
      the remainder by 2 is zero. The message's "event" is the source's. */
  function GetEven(x: int): (r: Result<int, string>)
    ensures r.IsOk() <==> x % 2 == 0
    ensures r.IsOk() ==> r.data == x
    ensures r.IsErr() ==> r.error == "number x=" + NumberToString(x) + " is not event"
  {
    if x % 2 == 0 then Ok(x) else Err("number x=" + NumberToString(x) + " is not event")
  }

  /** `getEven(1)` fails and `getEven(2)` succeeds, and both ways of telling
      the variants apart agree on each. */
  lemma GetEvenExamples()
    ensures GetEven(1).IsErr() && !GetEven(1).IsOk() && GetEven(1).Err?
    ensures GetEven(1).error == "number x=1 is not event"
    ensures GetEven(2).IsOk() && !GetEven(2).IsErr() && GetEven(2).Ok?
    ensures GetEven(2).Unwrap() == 2
  {
  }

  /** `Ok.new(v).data == v` and `Err.new(e).error == e`, as the tests check
      on numbers, booleans and strings. */
  lemma ConstructorExamples()
    ensures Result<int, string>.Ok(12).data == 12
    ensures Result<bool, string>.Ok(false).data == false
    ensures Result<int, string>.Err("some error").error == "some error"
    ensures Result<bool, int>.Err(23).error == 23
  {
  }

  /** `someOk.map(d => newOkData)` is an `Ok`, not an `Err`, holding
      `newOkData`. */
  lemma MapExample(someOkData: (int, bool), newOkData: (int, bool))
    ensures Result<(int, bool), string>.Ok(someOkData).Map(d => newOkData) == Ok(newOkData)
  {
  }
}
