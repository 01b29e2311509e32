# fromJsonObj — a Dafny model of the tag-driven JSON reconstructor

This project models `fromJsonObj` and its helper `fillJsonObj` from
mega-nice-json. The reconstructor turns an already-parsed JSON value into an
object graph:

- null, undefined, booleans, numbers and strings come back unchanged;
- arrays are rebuilt element by element;
- objects are dispatched on their `@class` tag. `Date` and `BigInt` are
  built-in conversions. A tag with a `converter` entry is handed to that
  function. A tag with an `instantiator` entry yields a fresh instance that
  `fillJsonObj` populates, or that populates itself through its own
  `fillJsonObj` method. Anything else becomes a plain record of its
  reconstructed fields, and the tag is never copied.

The library source `src/json.ts` is not part of this model. The behaviour
follows its test suite, `test/fromJsonObj.test.ts`. Where the tests are
silent, the model makes a choice, and each choice is listed under
"Modelling choices" or "## Left out": tag precedence, a number or a missing
`value` under `BigInt`, and a `Date` whose `date` is not a string.

Files:

- `json.dfy` (module `JsonValues`): the input type `Json`, the result type
  `Value`, the plain deep copy `Plain` and its inverse `ToJson`.
- `decimal.dfy` (module `Decimal`): the base-10 integer literal parser used
  for `BigInt` strings, and the canonical rendering of an integer.
- `reconstruct.dfy` (module `Reconstruct`): options, tag resolution, the pure
  recursion `FromJsonObj` and default field filling `ReconstructFields`, and
  the properties of both.
- `fill.dfy` (module `FieldFiller`): `fillJsonObj` as an in-place update. A
  class `Instance` has mutable fields. Its `DefaultFill` loop is proved
  against `ReconstructFields`. `Instantiate` (create, then fill) is proved to
  give the value `FromJsonObj` describes.
- `fixtures.dfy` (module `FromJsonObjTests`): the suite's classes
  `TestClass1`–`TestClass4`, its `instantiator` table and its two converters.
  Each test case is stated as an equation and proved, except the JSON-text
  test (left out below). The Date test is stated for every ISO string, by
  `Reconstruct.DateKeepsIsoString`.

Modelling choices:

- Numbers are integers. A Date is its ISO string (`VDate`). An instance is a
  class name plus a field map (`VInstance`).
- A converter is a total function. It receives the raw JSON object and the
  fields that default filling produces for that object. A converter that
  "calls `fillJsonObj` on an object it created" uses that second argument.
- A class's own `fillJsonObj` is a function. It maps the raw object, the
  default-filled fields and the current fields to the new fields.
- Tag precedence is built-in, then converter, then instantiator, then plain
  record. The tests never put one tag in two tables, so this order is a
  modelling choice, not tested behaviour.

## Model

| member | source | states |
|---|---|---|
| `Reconstruct.FromJsonObj` | test/fromJsonObj.test.ts:53-86 | scalars, null and undefined equal their plain copy; an array gives an array of the same length; an object without `@class` gives a record with the same keys |
| `Reconstruct.ResolveOrder` | test/fromJsonObj.test.ts:14-51 | the dispatch order: no tag gives a record; `Date` and `BigInt` are built in whatever the options hold; otherwise a converter entry wins over an instantiator entry, and a tag in neither table gives a record (the order between tables is a modelling choice) |
| `Reconstruct.ReconstructFields` | test/fromJsonObj.test.ts:100-105 | default field filling produces exactly the input's keys minus `@class` |
| `Reconstruct.ReconstructFieldsShape` | test/fromJsonObj.test.ts:100-105 | in default field filling, each key except `@class` holds that field reconstructed on its own |
| `Reconstruct.ScalarsUnchanged` | test/fromJsonObj.test.ts:133-136 | null, undefined, booleans, numbers and strings are returned unchanged |
| `Reconstruct.ArrayElementwise` | test/fromJsonObj.test.ts:53-67 | an array keeps its length and order, and element i of the result is element i reconstructed on its own |
| `Reconstruct.UntaggedObjectIsRecord` | test/fromJsonObj.test.ts:69-85 | an object without `@class` becomes a plain record with exactly the same keys, each value reconstructed |
| `Reconstruct.UnknownTagIsRecord` | test/fromJsonObj.test.ts:34-51 | a tag in neither table and not built in gives, without error, a plain record of all the non-tag fields |
| `Reconstruct.ConverterResultVerbatim` | test/fromJsonObj.test.ts:88-120 | a converter's return value is the result, whatever the instantiator table holds |
| `Reconstruct.InstantiatorBuildsInstance` | test/fromJsonObj.test.ts:14-32 | a tag in the instantiator table gives an instance of that class. Without its own `fillJsonObj`, the instance has its initial fields overwritten by every reconstructed non-tag field. With one, the fields are that method's result |
| `Reconstruct.DateTagIsBuiltin` | test/fromJsonObj.test.ts:144-155 | the `Date` tag gives the same result under any options, and a string `date` field gives a Date holding that string |
| `Reconstruct.DateKeepsIsoString` | test/fromJsonObj.test.ts:144-155 | `{'@class':'Date', date: iso}` gives a Date whose ISO rendering is exactly `iso` |
| `Reconstruct.BigIntPolicy` | test/fromJsonObj.test.ts:157-237 | under `BigInt`: undefined gives undefined, null gives null, true gives 1, false gives 0, a number n gives the BigInt n (a modelling choice), a literal string gives the integer it denotes (sign and digits, leading zeros ignored), any other string is returned unchanged, and an object or array is reconstructed as an ordinary value |
| `Reconstruct.BigIntMissingValueIsUndefined` | test/fromJsonObj.test.ts:169-177 | a `BigInt` object with no `value` key gives undefined, as `value: undefined` does in the test (a modelling choice for the missing key) |
| `Reconstruct.BigIntFromDecimalString` | test/fromJsonObj.test.ts:157-167 | every integer written in base 10 comes back as that integer under `BigInt` |
| `Reconstruct.UntaggedIsDeepCopy` | test/fromJsonObj.test.ts:209-227 | a value with no `@class` anywhere comes back deep-equal to the input |
| `Reconstruct.ReconstructPlainIsIdentity` | test/fromJsonObj.test.ts:34-51 | a design-level property that no test states: any plain value with no `@class` key anywhere, such as the record built for an unknown tag, is reconstructed to itself |
| `JsonValues.ToJsonRoundTrip` | test/fromJsonObj.test.ts:209-227 | a supporting fact for the deep-copy results these tests compare, not itself tested: a plain value read as JSON and copied back is the same value, and without `@class` keys it reads as tag-free JSON |
| `JsonValues.PlainRoundTrip` | test/fromJsonObj.test.ts:209-227 | a supporting fact for the deep-copy results these tests compare, not itself tested: a deep copy of JSON is plain, and reading it back as JSON gives the original |
| `Decimal.ParseInt` | test/fromJsonObj.test.ts:157-167 | the `BigInt` string parser succeeds exactly on an optional sign followed by one or more decimal digits, and then gives the literal's value as defined digit by digit, independently of the parser |
| `Decimal.SignAndLeadingZeros` | test/fromJsonObj.test.ts:229-237 | `"a"` does not parse, as the test needs; the rest is design-level and untested: `"+3"` parses to 3, `"-007"` to -7, and the empty string and `"-"` do not parse |
| `Decimal.ParseIntRoundTrip` | test/fromJsonObj.test.ts:157-167 | parsing the canonical rendering of any integer gives that integer back |
| `FieldFiller.Instance.constructor` | test/fromJsonObj.test.ts:253-258 | the instantiator's factory gives an instance of the class with its initial fields |
| `FieldFiller.Instance.DefaultFill` | test/fromJsonObj.test.ts:100-105 | the in-place per-field copy assigns every non-tag key its reconstructed value. Fields the JSON does not mention keep their values. The new fields equal the old ones overwritten by default filling |
| `FieldFiller.FillJsonObj` | test/fromJsonObj.test.ts:122-131 | `fillJsonObj` uses the target's own method when it has one, and the default per-field copy otherwise |
| `FieldFiller.Instantiate` | test/fromJsonObj.test.ts:25-31 | creating the instance and filling it in place gives the same value as the reconstructor's instantiator path |
| `FromJsonObjTests.TestClass3Fill` | test/fromJsonObj.test.ts:243-248 | `TestClass3.fillJsonObj` sets field `a` to the JSON's `a` followed by "a" and leaves the other fields in place |
| `FromJsonObjTests.ConvertTestClass1` | test/fromJsonObj.test.ts:101-105 | the `TestClass1` converter gives a `TestClass1` holding exactly the default-filled fields |
| `FromJsonObjTests.ConvertTestClass6` | test/fromJsonObj.test.ts:106-110 | the `TestClass6` converter gives a `TestClass4` whose only field `a` is "a" followed by the JSON's `a` |
| `FromJsonObjTests.MixedArrayTest` | test/fromJsonObj.test.ts:53-67 | on its own, the mixed array converts to two instances around the unchanged string and number, in order |
| `FromJsonObjTests.EmptyObjectTest` | test/fromJsonObj.test.ts:6-12 | `{}` becomes `{}` |
| `FromJsonObjTests.CorrespondingClassTest` | test/fromJsonObj.test.ts:14-32 | nested tagged fields and array elements are instantiated as their classes |
| `FromJsonObjTests.UnknownClassTest` | test/fromJsonObj.test.ts:34-51 | an unregistered tag gives plain records at every level, and the array keeps its single element |
| `FromJsonObjTests.ArrayOfClassesTest` | test/fromJsonObj.test.ts:69-86 | the same mixed array inside an untagged object converts the same way, and the object's other fields pass through |
| `FromJsonObjTests.ConverterTest` | test/fromJsonObj.test.ts:88-120 | a converter that fills through `fillJsonObj` gets its nested fields converted, giving `a1` and `a2` |
| `FromJsonObjTests.OwnFillJsonObjTest` | test/fromJsonObj.test.ts:122-131 | the class's own `fillJsonObj` is used, so `a: 'a'` gives `'aa'` |
| `FromJsonObjTests.NullTest` | test/fromJsonObj.test.ts:133-136 | null gives null |
| `FromJsonObjTests.BigIntScalarTests` | test/fromJsonObj.test.ts:157-207 | under `BigInt`, `"3"` gives 3, undefined gives undefined, null gives null, true gives 1 and false gives 0 |
| `FromJsonObjTests.BigIntObjectValueTest` | test/fromJsonObj.test.ts:209-217 | under `BigInt`, `value: {b: 1}` comes back as the record `{b: 1}` |
| `FromJsonObjTests.BigIntArrayValueTest` | test/fromJsonObj.test.ts:219-227 | under `BigInt`, `value: ['a', 1]` comes back as the array `['a', 1]` |
| `FromJsonObjTests.BigIntNonLiteralStringTest` | test/fromJsonObj.test.ts:229-237 | under `BigInt`, `value: 'a'` comes back as the string `'a'` |

## Left out

- Parsing JSON text, when `fromJsonObj` is given a string at the top level (test/fromJsonObj.test.ts:138-142). The standard parser does this. The model starts from an already-parsed `Json` value, and a string input is returned unchanged.
- Real date semantics. A Date is only its ISO string. A `date` field that is not a string gives `VInvalidDate`; how a JavaScript Date would read a number or null is not modelled. Every string, even one JavaScript's `Date` rejects (such as `"abc"`, whose `toISOString()` would throw), is modelled as a valid Date.
- JavaScript object identity: `instanceof` and prototypes are replaced by a class name on `VInstance`.
- Floating-point numbers: numbers are integers.
- Converters and own `fillJsonObj` methods are total, side-effect-free functions. A hook that throws, mutates shared state, or re-enters `fromJsonObj` on arbitrary input is not modelled. A converter sees the default-filled fields instead of being able to call `fillJsonObj` itself.
- Precedence between built-in tags, converters and instantiators when a tag is in more than one table. The model fixes one order; no test exercises it.
- A non-string `@class` value is treated as no tag.
- `Reconstruct.BigIntPolicy`: a number `value` gives the BigInt of that number. No test covers it, and the library's behaviour there is not known.
- `Reconstruct.BigIntMissingValueIsUndefined`: an object with no `value` key is treated like `value: undefined`. The test only covers a `value` key holding undefined.
- `FromJsonObjTests.JsToString`: numbers are written in plain base 10. JavaScript uses exponent form from 1e21 on.
- `Decimal.ParseInt`: accepts only an optional sign and decimal digits. JavaScript's own `BigInt` string grammar also accepts surrounding whitespace, the empty string (as 0) and hexadecimal, octal and binary prefixes; these are not modelled.
- `fillJsonObj` on an arbitrary target object is modelled only for `FieldFiller.Instance`.
- The mocha/chai test harness.
