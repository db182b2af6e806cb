/** The JavaScript values that reach the conversions as `unknown`
    (typically the result of decoding JSON), the `typeof` operator over them,
    the `Error` objects the conversions fail with, property lookup on an
    object, and the decimal text of a number in a template literal.
 */
module Js {

  /** An `unknown` JavaScript value. Numbers are integers; an object is the
      ordered list of its string-keyed entries, as `Object.entries` lists
      them. */
  datatype Value =
    | Undefined
    | Null
    | Bool(b: bool)
    | Num(n: int)
    | Str(s: string)
    | Sym
    | Fn
    | Arr(elems: seq<Value>)
    | Obj(entries: seq<(string, Value)>)

  /** The `UnknownObject` of utils_types.ts: the entries of a plain object. */
  type UnknownObject = seq<(string, Value)>

  /** A JavaScript `Error`; the tests look only at its `message`. */
  datatype Error = Error(message: string)

  /** The text the `typeof` operator yields. */
  function TypeofName(v: Value): (r: string)
    ensures r == "object" <==> v.Null? || v.Arr? || v.Obj?
    ensures r == "undefined" <==> v.Undefined?
    ensures r == "function" <==> v.Fn?
  {
    match v
    case Undefined => "undefined"
    case Null => "object"
    case Bool(_) => "boolean"
    case Num(_) => "number"
    case Str(_) => "string"
    case Sym => "symbol"
    case Fn => "function"
    case Arr(_) => "object"
    case Obj(_) => "object"
  }

  /** `value == null`: loose equality holds for `null` and `undefined`. */
  predicate IsNullish(v: Value): (r: bool)
    ensures r ==> TypeofName(v) == "undefined" || TypeofName(v) == "object"
    ensures r <==> !(v.Bool? || v.Num? || v.Str? || v.Sym? || v.Fn? || v.Arr? || v.Obj?)
  {
    v.Null? || v.Undefined?
  }

  /** Property access `obj.key`: the value of the first entry with that key;
      a missing key reads as `undefined`. */
  function Get(obj: UnknownObject, key: string): (r: Value)
    ensures (forall i :: 0 <= i < |obj| ==> obj[i].0 != key) ==> r == Undefined
    ensures forall i :: 0 <= i < |obj| && obj[i].0 == key && (forall j :: 0 <= j < i ==> obj[j].0 != key) ==> r == obj[i].1
    decreases |obj|
  {
    if |obj| == 0 then Undefined
    else if obj[0].0 == key then obj[0].1
    else Get(obj[1..], key)
  }

  function DigitChar(d: nat): (c: char)
    requires d < 10
    ensures '0' <= c <= '9'
  {
    (('0' as int) + d) as char
  }

  /** Decimal digits of `n`, without leading zeros. */
  function NatToDecimal(n: nat): (s: string)
    ensures |s| >= 1
    ensures forall i :: 0 <= i < |s| ==> '0' <= s[i] <= '9'
    ensures n >= 1 ==> s[0] != '0'
  {
    if n < 10 then [DigitChar(n)] else NatToDecimal(n / 10) + [DigitChar(n % 10)]
  }

  /** The number a string of decimal digits denotes. */
  function DecimalValue(s: string): int {
    if |s| == 0 then 0 else DecimalValue(s[..|s| - 1]) * 10 + (s[|s| - 1] as int - '0' as int)
  }

  /** `${x}` for an integer `x`. */
  function NumberToString(x: int): (s: string)
    ensures |s| >= 1 && (s[0] == '-' <==> x < 0)
    ensures forall i :: (if x < 0 then 1 else 0) <= i < |s| ==> '0' <= s[i] <= '9'
    ensures |s| >= 2 && s[0] != '-' ==> s[0] != '0'
  {
    if x < 0 then "-" + NatToDecimal(-x) else NatToDecimal(x)
  }

  lemma {:induction false} NatToDecimalRoundTrip(n: nat)
    ensures DecimalValue(NatToDecimal(n)) == n
  {
    if n >= 10 {
      var s := NatToDecimal(n);
      assert s[..|s| - 1] == NatToDecimal(n / 10);
      NatToDecimalRoundTrip(n / 10);
    }
  }

  /** The text of a number reads back as that number, with a leading `-`
      exactly for negative numbers. */
  lemma NumberToStringRoundTrip(x: int)
    ensures var s := NumberToString(x);
      |s| >= 1 && (s[0] == '-' <==> x < 0) &&
      (x >= 0 ==> DecimalValue(s) == x) &&
      (x < 0 ==> DecimalValue(s[1..]) == -x)
  {
    if x < 0 {
      NatToDecimalRoundTrip(-x);
      assert NumberToString(x)[1..] == NatToDecimal(-x);
    } else {
      NatToDecimalRoundTrip(x);
    }
  }
}
