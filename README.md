# Result and unknown-value conversions, in Dafny

A model of a small TypeScript library for handling values of unknown shape,
such as freshly decoded JSON. It has three parts:

- `Result<T, E>`, a container that holds either a success value (`Ok`, field
  `data`) or an error (`Err`, field `error`), with `isOk`, `isErr`, `map`
  and `unwrap`;
- the static members of class `UtilsTypes`: shape guards (`isString`,
  `isNumber`, `isBoolean`, `isArray`, `isUnknownObject`), two scanning
  guards for typed arrays and records, and the `unknownToX` conversions that
  return a `Result` whose error message names the function and the
  `typeof` of the value, each with a `...Nullable` variant that maps
  `null`/`undefined` to `Ok(null)`;
- the fail-fast parsers of the GitHub rate-limit response
  (`RateLimit`, `Resources`, `GithubRateLimitResponse`,
  `GithubRateLimitResponseWrong`), which chain conversions with `unwrap()`
  and report the first failure, and the `getEven` example.

Files and modules:

- `results.dfy`, module `Results`: `Result` and `Option` (`None` is the
  `null` of a `T | null` result). `Result` is failure-compatible, so
  `var x :- conv(v);` is `const x = conv(v).unwrap()` inside a `try` whose
  `catch` returns the thrown error as `Err`.
- `js_values.dfy`, module `Js`: the `Value` datatype for an `unknown`
  JavaScript value, `typeof`, `Error`, property lookup, and the decimal
  text of an integer.
- `utils_types.dfy`, module `UtilsTypes`: guards and conversions. The two
  scanning guards are methods with loops, specified by the recursive
  functions `AllSatisfy` and `RecordSatisfies`; the conversions that call
  them are methods too. Everything else is a function.
- `result_example.dfy`, module `ResultExample`: `getEven` and the tests of
  `Result`.
- `rate_limit.dfy`, module `RateLimitParsers`: the four `tryFromUnknown`
  parsers.
- `utils_types_examples.dfy`, module `UtilsTypesExamples`: concrete cases of
  the utils_types tests.

Modelling choices:

- Numbers are `int`.
- An object is the ordered list of its string-keyed entries, the order in
  which `Object.entries` lists them. A numeric key such as `5` is the
  string `"5"`. Keys reach the key guard as `Str` values.
- Property access `obj.key` gives the value of the first entry with that
  key, and `Undefined` when there is none.
- `src/result.ts` is not part of this model. `Result` is built from how the
  tests and `utils_types.ts` use it.
- The two `...Nullable` conversions of arrays and records take a `Value`.
  Their `requires` states the parameter's TypeScript type
  (`unknown[] | null | undefined`, `UnknownObject | null | undefined`).
- The scanning guards return a ghost count of the elements they examined.
  It shows that the scan stops at the first failing element.

## Model

| member | source | states |
|---|---|---|
| `Results.Result.IsOk` | data/blogs/2_typescript_result_unknown/code/test/result.test.ts:95-96 | `isOk()` is true exactly when the result is not an `Err` |
| `Results.Result.IsErr` | data/blogs/2_typescript_result_unknown/code/test/result.test.ts:131-132 | `isErr()` is true exactly when the result is not an `Ok` |
| `Results.Result.Map` | data/blogs/2_typescript_result_unknown/code/test/result.test.ts:39-51 | on `Ok` the result is `Ok` of `f(data)`; on `Err` the same error passes through (by definition of the model) |
| `Results.Result.Unwrap` | data/blogs/2_typescript_result_unknown/code/test/result.test.ts:88-94 | callable only on `Ok`; returns exactly the held data |
| `Results.Result.PropagateFailure` | data/blogs/2_typescript_result_unknown/code/test/unknown.test.ts:43-46 | an `Err` re-wrapped by the `catch` keeps its error unchanged |
| `Results.OkErrExclusive` | data/blogs/2_typescript_result_unknown/code/test/result.test.ts:95-98 | `isOk()` and `isErr()` always disagree and each agrees with the variant tag (`instanceof`) |
| `Results.MapThenUnwrap` | data/blogs/2_typescript_result_unknown/code/test/result.test.ts:39-51 | `Ok(v).map(f)` is `Ok` and unwraps to `f(v)` |
| `Js.TypeofName` | data/blogs/2_typescript_result_unknown/code/src/utils_types.ts:64 | `typeof` is "object" exactly for null, arrays and objects, "undefined" exactly for undefined, "function" exactly for functions |
| `Js.Get` | data/blogs/2_typescript_result_unknown/code/test/unknown.test.ts:94-99 | a missing key reads as `Undefined`; otherwise the value of the first entry with that key |
| `Js.IsNullish` | data/blogs/2_typescript_result_unknown/code/src/utils_types.ts:68 | `value == null` holds for null and undefined and for no boolean, number, string, symbol, function, array or object; `typeof` of such a value is "undefined" or "object" |
| `Js.NumberToString` | data/blogs/2_typescript_result_unknown/code/test/result.test.ts:60 | `${x}` for an integer: non-empty, a leading "-" exactly when negative, decimal digits after it, no leading zero on a multi-digit text (see `NumberToStringRoundTrip`) |
| `Js.NatToDecimal` | data/blogs/2_typescript_result_unknown/code/test/result.test.ts:60 | the text of a non-negative integer is non-empty, all decimal digits, with no leading zero |
| `Js.NatToDecimalRoundTrip` | data/blogs/2_typescript_result_unknown/code/test/result.test.ts:60 | the decimal text of `n` reads back as `n` |
| `Js.NumberToStringRoundTrip` | data/blogs/2_typescript_result_unknown/code/test/result.test.ts:60 | the text of an integer starts with "-" exactly when it is negative, and its digits read back as its magnitude |
| `UtilsTypes.IsString` | data/blogs/2_typescript_result_unknown/code/src/utils_types.ts:8-10 | true exactly for a string value |
| `UtilsTypes.IsNumber` | data/blogs/2_typescript_result_unknown/code/src/utils_types.ts:12-14 | true exactly for a number value |
| `UtilsTypes.IsBoolean` | data/blogs/2_typescript_result_unknown/code/src/utils_types.ts:16-18 | true exactly for a boolean value |
| `UtilsTypes.IsArray` | data/blogs/2_typescript_result_unknown/code/src/utils_types.ts:20-22 | true exactly for an array |
| `UtilsTypes.IsUnknownObject` | data/blogs/2_typescript_result_unknown/code/src/utils_types.ts:24-26 | true exactly for a non-array object (not null, not a function) |
| `UtilsTypes.GuardsOnNullish` | data/blogs/2_typescript_result_unknown/code/test/utils_types.test.ts:29-97 | no guard accepts `null` or `undefined` |
| `UtilsTypes.ArrayObjectExclusive` | data/blogs/2_typescript_result_unknown/code/src/utils_types.ts:20-26 | no value is both an array and an unknown object |
| `UtilsTypes.AllSatisfyIff` | data/blogs/2_typescript_result_unknown/code/src/utils_types.ts:31-40 | the array scan's specification holds exactly when every element satisfies the guard |
| `UtilsTypes.RecordSatisfiesIff` | data/blogs/2_typescript_result_unknown/code/src/utils_types.ts:45-58 | the record scan's specification holds exactly when every entry's string key passes the key guard and its value the value guard |
| `UtilsTypes.IsUnknownArrayTypeArray` | data/blogs/2_typescript_result_unknown/code/src/utils_types.ts:31-40 | true iff every element satisfies `valueF`; on false, the guard was called up to and including the first failing element and no further |
| `UtilsTypes.IsUnknownObjectRecord` | data/blogs/2_typescript_result_unknown/code/src/utils_types.ts:45-58 | true iff every entry passes both guards; on false, the scan stopped at the first failing entry |
| `UtilsTypes.NumberKeyGuardRejects` | data/blogs/2_typescript_result_unknown/code/test/utils_types.test.ts:265 | with `isNumber` as key guard, every non-empty object is rejected |
| `UtilsTypes.UnknownToString` | data/blogs/2_typescript_result_unknown/code/src/utils_types.ts:60-66 | `Ok` iff `isString`, holding the input's string unchanged; otherwise the message "Error unknownToString typeof value is " + typeof |
| `UtilsTypes.UnknownToStringNullable` | data/blogs/2_typescript_result_unknown/code/src/utils_types.ts:67-73 | `Ok(null)` for null and undefined; otherwise exactly the plain conversion's outcome; `Ok` iff nullish or a string |
| `UtilsTypes.UnknownToNumber` | data/blogs/2_typescript_result_unknown/code/src/utils_types.ts:75-81 | `Ok` iff `isNumber`, holding the input's number; otherwise the `unknownToNumber` message with typeof |
| `UtilsTypes.UnknownToNumberNullable` | data/blogs/2_typescript_result_unknown/code/src/utils_types.ts:82-88 | `Ok(null)` for null and undefined; otherwise exactly the plain conversion's outcome |
| `UtilsTypes.UnknownToBoolean` | data/blogs/2_typescript_result_unknown/code/src/utils_types.ts:90-96 | `Ok` iff `isBoolean`, holding the input's boolean; otherwise the `unknownToBoolean` message with typeof |
| `UtilsTypes.UnknownToBooleanNullable` | data/blogs/2_typescript_result_unknown/code/src/utils_types.ts:97-103 | `Ok(null)` for null and undefined; otherwise exactly the plain conversion's outcome |
| `UtilsTypes.UnknownToArray` | data/blogs/2_typescript_result_unknown/code/src/utils_types.ts:105-111 | `Ok` iff `isArray`, holding the input's elements; otherwise the `unknownToArray` message with typeof |
| `UtilsTypes.UnknownToArrayNullable` | data/blogs/2_typescript_result_unknown/code/src/utils_types.ts:112-118 | `Ok(null)` for null and undefined; otherwise exactly the plain conversion's outcome |
| `UtilsTypes.UnknownToObject` | data/blogs/2_typescript_result_unknown/code/src/utils_types.ts:120-126 | `Ok` iff `isUnknownObject`, holding the input's entries; otherwise the `unknownToObject` message with typeof |
| `UtilsTypes.UnknownToObjectNullable` | data/blogs/2_typescript_result_unknown/code/src/utils_types.ts:127-133 | `Ok(null)` for null and undefined; otherwise exactly the plain conversion's outcome |
| `UtilsTypes.NullishMessages` | data/blogs/2_typescript_result_unknown/code/test/unknown.test.ts:177 | an `undefined` input is reported as "undefined" and a `null` input as "object", e.g. "Error unknownToObject typeof value is undefined" |
| `UtilsTypes.ArrayTypeError` | data/blogs/2_typescript_result_unknown/code/src/utils_types.ts:144 | the message is "Error unknownArrayToArrayType typeof value is object, valueF=function" |
| `UtilsTypes.RecordError` | data/blogs/2_typescript_result_unknown/code/src/utils_types.ts:171 | the message is "Error unknownObjectToRecord typeof value is object, keyF=function, valueF=function" |
| `UtilsTypes.UnknownArrayToArrayType` | data/blogs/2_typescript_result_unknown/code/src/utils_types.ts:138-146 | `Ok(arr)` unchanged iff every element passes `valueF`; otherwise the fixed array message |
| `UtilsTypes.UnknownArrayToArrayTypeNullable` | data/blogs/2_typescript_result_unknown/code/src/utils_types.ts:151-159 | `Ok(null)` for null and undefined; for an array, the plain conversion's outcome |
| `UtilsTypes.UnknownObjectToRecord` | data/blogs/2_typescript_result_unknown/code/src/utils_types.ts:164-173 | `Ok(obj)` unchanged iff every entry passes both guards; otherwise the fixed record message |
| `UtilsTypes.UnknownObjectToRecordNullable` | data/blogs/2_typescript_result_unknown/code/src/utils_types.ts:178-187 | `Ok(null)` for null and undefined; for an object, the plain conversion's outcome |
| `UtilsTypesExamples.GuardExamples` | data/blogs/2_typescript_result_unknown/code/test/utils_types.test.ts:29-97 | every expected answer of the five guard tests, on all eleven test values, including `[]` as array only and `{}` as object only |
| `UtilsTypesExamples.ArrayScanExamples` | data/blogs/2_typescript_result_unknown/code/test/utils_types.test.ts:100-107 | the array scan tests' answers, and every guard accepts the empty array |
| `UtilsTypesExamples.RecordScanExamples` | data/blogs/2_typescript_result_unknown/code/test/utils_types.test.ts:109-119 | the record scan tests' answers, with numeric keys seen as strings and listed first, as `Object.entries` lists them |
| `UtilsTypesExamples.PrimitiveConversionExamples` | data/blogs/2_typescript_result_unknown/code/test/utils_types.test.ts:122-186 | every expected answer of the string, number and boolean conversion tests and their nullable variants, e.g. `unknownToString(5)` fails with "... typeof value is number" |
| `UtilsTypesExamples.ContainerConversionExamples` | data/blogs/2_typescript_result_unknown/code/test/utils_types.test.ts:188-230 | every expected answer of the array and object conversion tests and their nullable variants |
| `ResultExample.GetEven` | data/blogs/2_typescript_result_unknown/code/test/result.test.ts:56-62 | `Ok(x)` iff `x` is even; otherwise the error "number x=" + the text of `x` + " is not event" |
| `ResultExample.GetEvenExamples` | data/blogs/2_typescript_result_unknown/code/test/result.test.ts:95-134 | `getEven(1)` is `Err` by both tests and `getEven(2)` is `Ok(2)` by both |
| `ResultExample.ConstructorExamples` | data/blogs/2_typescript_result_unknown/code/test/result.test.ts:14-36 | `Ok.new(v).data == v` and `Err.new(e).error == e` |
| `ResultExample.MapExample` | data/blogs/2_typescript_result_unknown/code/test/result.test.ts:39-51 | `someOk.map(d => newOkData)` is `Ok(newOkData)` |
| `RateLimitParsers.RateLimitTryFromUnknown` | data/blogs/2_typescript_result_unknown/code/test/unknown.test.ts:92-115 | `Ok` iff the input is an object with number `limit`, `remaining`, `reset`, `used` and string `resource`; then the five fields are copied |
| `RateLimitParsers.RateLimitFailFast` | data/blogs/2_typescript_result_unknown/code/test/unknown.test.ts:94-99 | a non-object gives the `unknownToObject` error; otherwise the first mismatching field, in source order, gives the error |
| `RateLimitParsers.ResourcesTryFromUnknown` | data/blogs/2_typescript_result_unknown/code/test/unknown.test.ts:60-74 | a non-object gives the `unknownToObject` error; otherwise the inner `core` parse's error is returned unchanged, and on success `core` is its result |
| `RateLimitParsers.GithubRateLimitResponseTryFromUnknown` | data/blogs/2_typescript_result_unknown/code/test/unknown.test.ts:34-50 | the inner `resources` error is returned unchanged; on success `resources` is the inner result and `full_json` is the input object |
| `RateLimitParsers.GithubRateLimitResponseWrongTryFromUnknown` | data/blogs/2_typescript_result_unknown/code/test/unknown.test.ts:129-145 | as the correct parser, reading the key "resourcess" |
| `RateLimitParsers.GithubRateLimitResponseParses` | data/blogs/2_typescript_result_unknown/code/test/unknown.test.ts:36-42 | end to end: the response parses iff `resources.core` has the rate-limit shape, and then every field is copied from it |
| `RateLimitParsers.WrongParserOnMissingKey` | data/blogs/2_typescript_result_unknown/code/test/unknown.test.ts:129-132 | on an object lacking "resourcess" the wrong parser fails with "Error unknownToObject typeof value is undefined" |
| `RateLimitParsers.SampleResponseScenarios` | data/blogs/2_typescript_result_unknown/code/test/unknown.test.ts:154-178 | on a GitHub-shaped response the correct parser reads `resource == "core"` and the wrong one fails with the "undefined" message |

## Left out

- `fetchJson` and the live GitHub test: HTTP, `async`, the response status and `DOMException` handling are network I/O. Their parse-only scenarios are modelled on a hand-built response value.
- JavaScript number semantics (floating point, `NaN`, `Infinity`, `-0`): numbers are integers, and the tests only use integers.
- Symbol-keyed properties, the rule that `Object.entries` lists integer-like keys first, and lookups that reach the prototype chain: an object is an ordered list of string-keyed entries. Duplicate keys are not excluded; lookup takes the first.
- `bigint`, boxed primitives (`new String(...)`) and other host objects: they are not value kinds of the model.
- Results.Result.Unwrap: does not model the thrown exception; it requires `isOk()`. The parsers model `unwrap()` inside `try/catch` with `:-` instead.
- The `catch` branch for a thrown value that is not an `Error` ("unexpected error"): every value thrown by `unwrap()` here is the conversion's `Error`, so the branch cannot be reached.
- The TypeScript type predicates (`value is V`, `obj is Record<K, V>`) and the generic key bound `K extends string | number | symbol`: static typing only. The narrowing is stated as postconditions.
- `console.log` calls and the unused `SomeDto`/`SomeChildDto` classes.
