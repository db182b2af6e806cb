/** The static members of class `UtilsTypes` (src/utils_types.ts): runtime
    shape guards over an `unknown` value, two structural guards that scan an
    array or an object's entries, and the conversions that wrap a guard into
    a `Result`, each with a variant that also accepts `null` and `undefined`.
 */
module UtilsTypes {
  import opened Js
  import opened Results

  // ---------------------------------------------------------------------
  // Shape guards (`value != null && typeof value === ...`)
  // ---------------------------------------------------------------------

  function IsString(v: Value): (r: bool)
    ensures r <==> v.Str?
  {
    !IsNullish(v) && TypeofName(v) == "string"
  }

  function IsNumber(v: Value): (r: bool)
    ensures r <==> v.Num?
  {
    !IsNullish(v) && TypeofName(v) == "number"
  }

  function IsBoolean(v: Value): (r: bool)
    ensures r <==> v.Bool?
  {
    !IsNullish(v) && TypeofName(v) == "boolean"
  }

  /** An object for `typeof` that `Array.isArray` accepts. */
  function IsArray(v: Value): (r: bool)
    ensures r <==> v.Arr?
  {
    !IsNullish(v) && TypeofName(v) == "object" && v.Arr?
  }

  /** An object for `typeof` that `Array.isArray` rejects. */
  function IsUnknownObject(v: Value): (r: bool)
    ensures r <==> v.Obj?
  {
    !IsNullish(v) && TypeofName(v) == "object" && !v.Arr?
  }

  /** No guard accepts `null` or `undefined`, and no value is both an array
      and an object. */
  lemma GuardsOnNullish(v: Value)
    requires IsNullish(v)
    ensures !IsString(v) && !IsNumber(v) && !IsBoolean(v)
    ensures !IsArray(v) && !IsUnknownObject(v)
  {
  }

  lemma ArrayObjectExclusive(v: Value)
    ensures !(IsArray(v) && IsUnknownObject(v))
  {
  }

  // ---------------------------------------------------------------------
  // Structural guards
  // ---------------------------------------------------------------------

  /** Every element satisfies `valueF`. */
  function AllSatisfy(arr: seq<Value>, valueF: Value -> bool): bool {
    |arr| == 0 || (valueF(arr[0]) && AllSatisfy(arr[1..], valueF))
  }

  lemma {:induction false} AllSatisfyIff(arr: seq<Value>, valueF: Value -> bool)
    ensures AllSatisfy(arr, valueF) <==> forall i :: 0 <= i < |arr| ==> valueF(arr[i])
  {
    if |arr| > 0 {
      AllSatisfyIff(arr[1..], valueF);
      assert forall i :: 1 <= i < |arr| ==> arr[1..][i - 1] == arr[i];
    }
  }

  /** Every entry's key, seen as a string value, satisfies `keyF`, and its
      value satisfies `valueF`. */
  function RecordSatisfies(obj: UnknownObject, keyF: Value -> bool, valueF: Value -> bool): bool {
    |obj| == 0 || (keyF(Str(obj[0].0)) && valueF(obj[0].1) && RecordSatisfies(obj[1..], keyF, valueF))
  }

  lemma {:induction false} RecordSatisfiesIff(obj: UnknownObject, keyF: Value -> bool, valueF: Value -> bool)
    ensures RecordSatisfies(obj, keyF, valueF) <==>
      forall i :: 0 <= i < |obj| ==> keyF(Str(obj[i].0)) && valueF(obj[i].1)
  {
    if |obj| > 0 {
      RecordSatisfiesIff(obj[1..], keyF, valueF);
      assert forall i :: 1 <= i < |obj| ==> obj[1..][i - 1] == obj[i];
    }
  }

  /** The `for ... of` scan over `arr`. `calls` counts the invocations of
      `valueF`: the scan stops at the first element that fails. */
  method IsUnknownArrayTypeArray(arr: seq<Value>, valueF: Value -> bool) returns (r: bool, ghost calls: nat)
    ensures r <==> forall i :: 0 <= i < |arr| ==> valueF(arr[i])
    ensures r == AllSatisfy(arr, valueF)
    ensures r ==> calls == |arr|
    ensures !r ==> (0 < calls <= |arr| && !valueF(arr[calls - 1])
      && forall j :: 0 <= j < calls - 1 ==> valueF(arr[j]))
  {
    AllSatisfyIff(arr, valueF);
    calls := 0;
    for i := 0 to |arr|
      invariant calls == i
      invariant forall j :: 0 <= j < i ==> valueF(arr[j])
    {
      calls := calls + 1;
      if !valueF(arr[i]) {
        return false, calls;
      }
    }
    return true, calls;
  }

  /** The `for ... of Object.entries(obj)` scan. The key reaches `keyF` as a
      string value. `examined` counts the entries looked at: the scan stops at
      the first entry whose key or value fails. */
  method IsUnknownObjectRecord(obj: UnknownObject, keyF: Value -> bool, valueF: Value -> bool)
    returns (r: bool, ghost examined: nat)
    ensures r <==> forall i :: 0 <= i < |obj| ==> keyF(Str(obj[i].0)) && valueF(obj[i].1)
    ensures r == RecordSatisfies(obj, keyF, valueF)
    ensures r ==> examined == |obj|
    ensures !r ==> (0 < examined <= |obj|
      && !(keyF(Str(obj[examined - 1].0)) && valueF(obj[examined - 1].1))
      && forall j :: 0 <= j < examined - 1 ==> keyF(Str(obj[j].0)) && valueF(obj[j].1))
  {
    RecordSatisfiesIff(obj, keyF, valueF);
    examined := 0;
    for i := 0 to |obj|
      invariant examined == i
      invariant forall j :: 0 <= j < i ==> keyF(Str(obj[j].0)) && valueF(obj[j].1)
    {
      examined := examined + 1;
      var (keyUnk, valueUnk) := obj[i];
      if !keyF(Str(keyUnk)) {
        return false, examined;
      }
      if !valueF(valueUnk) {
        return false, examined;
      }
    }
    return true, examined;
  }

  /** With `isNumber` as the key guard every non-empty object is rejected,
      because `Object.entries` hands the guard string keys. */
  lemma NumberKeyGuardRejects(obj: UnknownObject, valueF: Value -> bool)
    requires |obj| > 0
    ensures !RecordSatisfies(obj, IsNumber, valueF)
  {
  }

  // ---------------------------------------------------------------------
  // Conversions
  // ---------------------------------------------------------------------

  /** Widens a conversion's result from `T` to `T | null`. */
  function OrNull<T>(r: Result<T, Error>): (w: Result<Option<T>, Error>)
    ensures w.IsOk() <==> r.IsOk()
    ensures r.IsOk() ==> w.data == Some(r.data)
    ensures r.IsErr() ==> w.error == r.error
  {
    r.Map(d => Some(d))
  }

  function UnknownToString(v: Value): (r: Result<string, Error>)
    ensures r.IsOk() <==> IsString(v)
    ensures r.IsOk() ==> v == Str(r.data)
    ensures r.IsErr() ==> r.error.message == "Error unknownToString typeof value is " + TypeofName(v)
  {
    if IsString(v) then Ok(v.s)
    else Err(Error("Error unknownToString typeof value is " + TypeofName(v)))
  }

  function UnknownToStringNullable(v: Value): (r: Result<Option<string>, Error>)
    ensures r.IsOk() <==> IsNullish(v) || IsString(v)
    ensures IsNullish(v) ==> r == Ok(None)
    ensures !IsNullish(v) ==> r == OrNull(UnknownToString(v))
  {
    if IsNullish(v) then Ok(None) else OrNull(UnknownToString(v))
  }

  function UnknownToNumber(v: Value): (r: Result<int, Error>)
    ensures r.IsOk() <==> IsNumber(v)
    ensures r.IsOk() ==> v == Num(r.data)
    ensures r.IsErr() ==> r.error.message == "Error unknownToNumber typeof value is " + TypeofName(v)
  {
    if IsNumber(v) then Ok(v.n)
    else Err(Error("Error unknownToNumber typeof value is " + TypeofName(v)))
  }

  function UnknownToNumberNullable(v: Value): (r: Result<Option<int>, Error>)
    ensures r.IsOk() <==> IsNullish(v) || IsNumber(v)
    ensures IsNullish(v) ==> r == Ok(None)
    ensures !IsNullish(v) ==> r == OrNull(UnknownToNumber(v))
  {
    if IsNullish(v) then Ok(None) else OrNull(UnknownToNumber(v))
  }

  function UnknownToBoolean(v: Value): (r: Result<bool, Error>)
    ensures r.IsOk() <==> IsBoolean(v)
    ensures r.IsOk() ==> v == Bool(r.data)
    ensures r.IsErr() ==> r.error.message == "Error unknownToBoolean typeof value is " + TypeofName(v)
  {
    if IsBoolean(v) then Ok(v.b)
    else Err(Error("Error unknownToBoolean typeof value is " + TypeofName(v)))
  }

  function UnknownToBooleanNullable(v: Value): (r: Result<Option<bool>, Error>)
    ensures r.IsOk() <==> IsNullish(v) || IsBoolean(v)
    ensures IsNullish(v) ==> r == Ok(None)
    ensures !IsNullish(v) ==> r == OrNull(UnknownToBoolean(v))
  {
    if IsNullish(v) then Ok(None) else OrNull(UnknownToBoolean(v))
  }

  function UnknownToArray(v: Value): (r: Result<seq<Value>, Error>)
    ensures r.IsOk() <==> IsArray(v)
    ensures r.IsOk() ==> v == Arr(r.data)
    ensures r.IsErr() ==> r.error.message == "Error unknownToArray typeof value is " + TypeofName(v)
  {
    if IsArray(v) then Ok(v.elems)
    else Err(Error("Error unknownToArray typeof value is " + TypeofName(v)))
  }

  function UnknownToArrayNullable(v: Value): (r: Result<Option<seq<Value>>, Error>)
    ensures r.IsOk() <==> IsNullish(v) || IsArray(v)
    ensures IsNullish(v) ==> r == Ok(None)
    ensures !IsNullish(v) ==> r == OrNull(UnknownToArray(v))
  {
    if IsNullish(v) then Ok(None) else OrNull(UnknownToArray(v))
  }

  function UnknownToObject(v: Value): (r: Result<UnknownObject, Error>)
    ensures r.IsOk() <==> IsUnknownObject(v)
    ensures r.IsOk() ==> v == Obj(r.data)
    ensures r.IsErr() ==> r.error.message == "Error unknownToObject typeof value is " + TypeofName(v)
  {
    if IsUnknownObject(v) then Ok(v.entries)
    else Err(Error("Error unknownToObject typeof value is " + TypeofName(v)))
  }

  function UnknownToObjectNullable(v: Value): (r: Result<Option<UnknownObject>, Error>)
    ensures r.IsOk() <==> IsNullish(v) || IsUnknownObject(v)
    ensures IsNullish(v) ==> r == Ok(None)
    ensures !IsNullish(v) ==> r == OrNull(UnknownToObject(v))
  {
    if IsNullish(v) then Ok(None) else OrNull(UnknownToObject(v))
  }

  /** Because of `typeof`, a missing (`undefined`) input is reported as
      "undefined" and a `null` input as "object". */
  lemma NullishMessages()
    ensures UnknownToObject(Undefined).error.message == "Error unknownToObject typeof value is undefined"
    ensures UnknownToObject(Null).error.message == "Error unknownToObject typeof value is object"
    ensures UnknownToString(Undefined).error.message == "Error unknownToString typeof value is undefined"
    ensures UnknownToString(Null).error.message == "Error unknownToString typeof value is object"
    ensures UnknownToNumber(Undefined).error.message == "Error unknownToNumber typeof value is undefined"
    ensures UnknownToNumber(Null).error.message == "Error unknownToNumber typeof value is object"
    ensures UnknownToBoolean(Undefined).error.message == "Error unknownToBoolean typeof value is undefined"
    ensures UnknownToBoolean(Null).error.message == "Error unknownToBoolean typeof value is object"
    ensures UnknownToArray(Undefined).error.message == "Error unknownToArray typeof value is undefined"
    ensures UnknownToArray(Null).error.message == "Error unknownToArray typeof value is object"
  {
    assert TypeofName(Undefined) == "undefined" && TypeofName(Null) == "object";
  }

  // The fixed messages below are written as the concatenation of the
  // template's text and the `typeof` results it fills in.

  /** The failure of `unknownArrayToArrayType`: `typeof arr` and
      `typeof valueF`, where `arr` is an array and `valueF` a function. */
  function ArrayTypeError(arr: seq<Value>): (e: Error)
    ensures e.message == "Error unknownArrayToArrayType typeof value is " + "object" + ", valueF=" + "function"
  {
    var arrType, fnType := TypeofName(Arr(arr)), TypeofName(Fn);
    assert arrType == "object" && fnType == "function";
    Error("Error unknownArrayToArrayType typeof value is " + arrType + ", valueF=" + fnType)
  }

  /** The failure of `unknownObjectToRecord`: `typeof obj`, `typeof keyF` and
      `typeof valueF`, where `obj` is an object and the guards are functions. */
  function RecordError(obj: UnknownObject): (e: Error)
    ensures e.message ==
      "Error unknownObjectToRecord typeof value is " + "object" + ", keyF=" + "function" + ", valueF=" + "function"
  {
    var objType, fnType := TypeofName(Obj(obj)), TypeofName(Fn);
    assert objType == "object" && fnType == "function";
    Error("Error unknownObjectToRecord typeof value is " + objType + ", keyF=" + fnType + ", valueF=" + fnType)
  }

  /** `arr` is typed `unknown[]`, so `typeof arr` is always "object" and the
      message is fixed. */
  method UnknownArrayToArrayType(arr: seq<Value>, valueF: Value -> bool) returns (r: Result<seq<Value>, Error>)
    ensures r.IsOk() <==> forall i :: 0 <= i < |arr| ==> valueF(arr[i])
    ensures r.IsOk() ==> r.data == arr
    ensures r.IsErr() ==> r.error.message == "Error unknownArrayToArrayType typeof value is " + "object" + ", valueF=" + "function"
  {
    var ok: bool;
    ghost var calls: nat;
    ok, calls := IsUnknownArrayTypeArray(arr, valueF);
    if ok {
      r := Ok(arr);
    } else {
      r := Err(ArrayTypeError(arr));
    }
  }

  /** `arr` is typed `unknown[] | null | undefined`. */
  method UnknownArrayToArrayTypeNullable(arr: Value, valueF: Value -> bool)
    returns (r: Result<Option<seq<Value>>, Error>)
    requires arr.Arr? || IsNullish(arr)
    ensures IsNullish(arr) ==> r == Ok(None)
    ensures arr.Arr? ==> (r.IsOk() <==> forall i :: 0 <= i < |arr.elems| ==> valueF(arr.elems[i]))
    ensures arr.Arr? && r.IsOk() ==> r.data == Some(arr.elems)
    ensures r.IsErr() ==> r.error.message == "Error unknownArrayToArrayType typeof value is " + "object" + ", valueF=" + "function"
  {
    if IsNullish(arr) {
      r := Ok(None);
    } else {
      var res := UnknownArrayToArrayType(arr.elems, valueF);
      r := OrNull(res);
    }
  }

  /** `obj` is typed `UnknownObject`, so `typeof obj` is always "object" and
      the message is fixed. */
  method UnknownObjectToRecord(obj: UnknownObject, keyF: Value -> bool, valueF: Value -> bool)
    returns (r: Result<UnknownObject, Error>)
    ensures r.IsOk() <==> forall i :: 0 <= i < |obj| ==> keyF(Str(obj[i].0)) && valueF(obj[i].1)
    ensures r.IsOk() ==> r.data == obj
    ensures r.IsErr() ==> (r.error.message ==
      "Error unknownObjectToRecord typeof value is " + "object" + ", keyF=" + "function" + ", valueF=" + "function")
  {
    var ok: bool;
    ghost var examined: nat;
    ok, examined := IsUnknownObjectRecord(obj, keyF, valueF);
    if ok {
      r := Ok(obj);
    } else {
      r := Err(RecordError(obj));
    }
  }

  /** `obj` is typed `UnknownObject | null | undefined`. */
  method UnknownObjectToRecordNullable(obj: Value, keyF: Value -> bool, valueF: Value -> bool)
    returns (r: Result<Option<UnknownObject>, Error>)
    requires obj.Obj? || IsNullish(obj)
    ensures IsNullish(obj) ==> r == Ok(None)
    ensures obj.Obj? ==> (r.IsOk() <==>
      forall i :: 0 <= i < |obj.entries| ==> keyF(Str(obj.entries[i].0)) && valueF(obj.entries[i].1))
    ensures obj.Obj? && r.IsOk() ==> r.data == Some(obj.entries)
    ensures r.IsErr() ==> (r.error.message ==
      "Error unknownObjectToRecord typeof value is " + "object" + ", keyF=" + "function" + ", valueF=" + "function")
  {
    if IsNullish(obj) {
      r := Ok(None);
    } else {
      var res := UnknownObjectToRecord(obj.entries, keyF, valueF);
      r := OrNull(res);
    }
  }
}
