/** Input/output pairs of test/utils_types.test.ts, stated over the guards,
    the conversions and the functional specifications of the two scans. */
module UtilsTypesExamples {
  import opened Js
  import opened Results
  import opened UtilsTypes

  /** Every expectation of the five guard tests, on the values `'test'`,
      `''`, `null`, `undefined`, `5`, `0`, `true`, `false`, `{}`, `[]` and
      `Symbol()`. */
  lemma GuardExamples()
    ensures IsString(Str("test")) && IsString(Str("")) && !IsString(Null) && !IsString(Undefined)
    ensures !IsString(Num(5)) && !IsString(Num(0)) && !IsString(Bool(true)) && !IsString(Bool(false))
    ensures !IsString(Obj([])) && !IsString(Arr([])) && !IsString(Sym)
    ensures !IsNumber(Str("test")) && !IsNumber(Str("")) && !IsNumber(Null) && !IsNumber(Undefined)
    ensures IsNumber(Num(5)) && IsNumber(Num(0)) && !IsNumber(Bool(true)) && !IsNumber(Bool(false))
    ensures !IsNumber(Obj([])) && !IsNumber(Arr([])) && !IsNumber(Sym)
    ensures !IsBoolean(Str("test")) && !IsBoolean(Str("")) && !IsBoolean(Null) && !IsBoolean(Undefined)
    ensures !IsBoolean(Num(5)) && !IsBoolean(Num(0)) && IsBoolean(Bool(true)) && IsBoolean(Bool(false))
    ensures !IsBoolean(Obj([])) && !IsBoolean(Arr([])) && !IsBoolean(Sym)
    ensures !IsArray(Str("test")) && !IsArray(Str("")) && !IsArray(Null) && !IsArray(Undefined)
    ensures !IsArray(Num(5)) && !IsArray(Num(0)) && !IsArray(Bool(true)) && !IsArray(Bool(false))
    ensures !IsArray(Obj([])) && IsArray(Arr([])) && !IsArray(Sym)
    ensures !IsUnknownObject(Str("test")) && !IsUnknownObject(Str("")) && !IsUnknownObject(Null)
    ensures !IsUnknownObject(Undefined) && !IsUnknownObject(Num(5)) && !IsUnknownObject(Num(0))
    ensures !IsUnknownObject(Bool(true)) && !IsUnknownObject(Bool(false))
    ensures IsUnknownObject(Obj([])) && !IsUnknownObject(Arr([])) && !IsUnknownObject(Sym)
  {
  }

  lemma ArrayScanExamples()
    ensures AllSatisfy([Str("adf"), Str("some"), Str("diff")], IsString)
    ensures !AllSatisfy([Str("adf"), Str("some"), Str("diff")], IsNumber)
    ensures !AllSatisfy([Num(5), Str("some"), Bool(false)], IsString)
    ensures !AllSatisfy([Num(5), Str("some"), Bool(false)], IsNumber)
    ensures forall f: Value -> bool :: AllSatisfy([], f)
  {
  }

  /** `{ a: 'asdf', 5: 6, 'diff': true }` and its neighbours. `Object.entries`
      lists the integer-like key first, as the string "5". */
  lemma RecordScanExamples()
    ensures !RecordSatisfies([("5", Num(6)), ("a", Str("asdf")), ("diff", Bool(true))], IsString, IsString)
    ensures !RecordSatisfies([("5", Num(6)), ("a", Str("asdf")), ("diff", Bool(true))], IsNumber, IsString)
    ensures !RecordSatisfies([("a", Str("asdf")), ("b", Num(6)), ("diff", Bool(true))], IsString, IsString)
    ensures !RecordSatisfies([("a", Str("asdf")), ("b", Num(6)), ("diff", Bool(true))], IsString, IsNumber)
    ensures RecordSatisfies([("a", Str("asdf")), ("b", Str("bValue")), ("diff", Str("diffVal"))], IsString, IsString)
    ensures !RecordSatisfies([("a", Str("asdf")), ("b", Str("bValue")), ("diff", Str("diffVal"))], IsString, IsNumber)
    ensures !RecordSatisfies([("5", Str("a"))], IsNumber, IsNumber)
    ensures !RecordSatisfies([("4", Num(5))], IsString, IsString)
  {
  }

  /** Every expectation of the string, number and boolean conversion tests
      and of their nullable variants. */
  lemma PrimitiveConversionExamples()
    ensures UnknownToString(Str("abcd")) == Ok("abcd")
    ensures UnknownToString(Null).IsErr() && UnknownToString(Undefined).IsErr()
    ensures UnknownToString(Num(5)).IsErr()
    ensures UnknownToString(Num(5)).error.message == "Error unknownToString typeof value is number"
    ensures UnknownToStringNullable(Str("abcd")) == Ok(Some("abcd"))
    ensures UnknownToStringNullable(Null) == Ok(None) && UnknownToStringNullable(Undefined) == Ok(None)
    ensures UnknownToStringNullable(Num(5)).IsErr()
    ensures UnknownToNumber(Num(4)) == Ok(4)
    ensures UnknownToNumber(Null).IsErr() && UnknownToNumber(Undefined).IsErr()
    ensures UnknownToNumber(Str("test")).IsErr()
    ensures UnknownToNumberNullable(Num(4)) == Ok(Some(4))
    ensures UnknownToNumberNullable(Null) == Ok(None) && UnknownToNumberNullable(Undefined) == Ok(None)
    ensures UnknownToNumberNullable(Str("test")).IsErr()
    ensures UnknownToBoolean(Bool(true)) == Ok(true)
    ensures UnknownToBoolean(Null).IsErr() && UnknownToBoolean(Undefined).IsErr()
    ensures UnknownToBoolean(Str("test")).IsErr()
    ensures UnknownToBooleanNullable(Bool(false)) == Ok(Some(false))
    ensures UnknownToBooleanNullable(Null) == Ok(None) && UnknownToBooleanNullable(Undefined) == Ok(None)
    ensures UnknownToBooleanNullable(Str("test")).IsErr()
  {
    assert TypeofName(Num(5)) == "number";
  }

  /** Every expectation of the array and object conversion tests and of
      their nullable variants. */
  lemma ContainerConversionExamples()
    ensures UnknownToArray(Arr([Str("a")])) == Ok([Str("a")])
    ensures UnknownToArray(Null).IsErr() && UnknownToArray(Undefined).IsErr()
    ensures UnknownToArray(Str("test")).IsErr()
    ensures UnknownToArrayNullable(Arr([Num(5), Num(6)])) == Ok(Some([Num(5), Num(6)]))
    ensures UnknownToArrayNullable(Null) == Ok(None) && UnknownToArrayNullable(Undefined) == Ok(None)
    ensures UnknownToArrayNullable(Str("test")).IsErr()
    ensures UnknownToObject(Obj([("a", Str("a")), ("b", Num(5))])) == Ok([("a", Str("a")), ("b", Num(5))])
    ensures UnknownToObject(Null).IsErr() && UnknownToObject(Undefined).IsErr()
    ensures UnknownToObject(Str("test")).IsErr()
    ensures UnknownToObjectNullable(Obj([("a", Str("a")), ("b", Bool(true)), ("c", Null)]))
      == Ok(Some([("a", Str("a")), ("b", Bool(true)), ("c", Null)]))
    ensures UnknownToObjectNullable(Null) == Ok(None) && UnknownToObjectNullable(Undefined) == Ok(None)
    ensures UnknownToObjectNullable(Str("test")).IsErr()
  {
  }
}
