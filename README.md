# tipo — a verified model of a tiny JavaScript type detector

tipo answers "what kind of value is this?" for any JavaScript value. It does
not use duck typing, and it works across frames and with the wrapper objects
made by `new String()`, `new Number()` and `new Boolean()`. The repository
has two hand-written variants:

- `src/tipo.js`: a class with the static methods `getDetectedType`,
  `isString`, `isNumber`, `isArray`, `isFunction`, `isObject`,
  `isUndefined`, `isNull` and `isBoolean`;
- `tipo.js`: an older global script that offers the same checks as
  `tipo.type`, `tipo.string`, `tipo.number`, `tipo.array`,
  `tipo.function`, `tipo.object`, `tipo.undefined`, `tipo.null` and
  `tipo.boolean`.

Every operation is a total, pure function of one value. The model follows
the same shape:

- `js_values.dfy` (module `JsValues`) defines the values as a closed
  datatype: undefined, null, primitive booleans, numbers and strings, their
  wrapper objects, arrays, functions, plain objects, and the remaining
  ECMAScript 2015 built-in tags (Arguments, Error, Date, RegExp). It also
  models the abstract operations the detectors use, following ECMA-262 6th
  edition (ECMAScript 2015):
  - the builtinTag of `Object.prototype.toString`, section 19.1.3.6;
  - ToObject, section 7.1.13, and `Object(v)`, section 19.1.1.1;
  - strict equality, section 7.2.13;
  - `Array.isArray`, section 22.1.2.2;
  - binding a missing argument to undefined, section 9.2.12.
- `tag_text.dfy` (module `TagText`) models the regular-expression
  replacement `replace(/\[object |]/g, '')`, with or without the `i` flag,
  as a left-to-right scan. It also models `toLowerCase`, and proves that the
  replacement turns `"[object " + T + "]"` back into `T`.
- `tipo.dfy` (module `Tipo`) models `src/tipo.js`.
- `tipo_legacy.dfy` (module `TipoLegacy`) models `tipo.js`. Each of its
  eight predicates is proved equal to its `src/tipo.js` counterpart, and
  `tipo.type`, once lower-cased, is proved equal to `getDetectedType`.
- `tipo_corpus.dfy` (module `TipoCorpus`) copies the table of sample values
  from `test/tipo.js`. It proves that every expectation the tests draw from
  that table holds in the model.

The host's `if (Array.isArray)` feature test is modelled as the parameter
`nativeIsArray`, which says whether the host has `Array.isArray`. Every object
value carries a reference (`ref`), so `===` on objects compares identity. The
object that `Object(v)` allocates for a primitive takes its reference from a
parameter; `Tipo.IsObjectAnyAllocation` proves that the choice does not change
the answer.

The detectors partition the values: for every value exactly one of the
eight predicates holds, except that `isObject` also holds beside the tag
predicate of a wrapper object, an array or a function
(`Tipo.ExactlyOneOfEight`). Plain objects, and objects tagged Arguments,
Error, Date or RegExp, satisfy `isObject` alone.

## Model

| member | source | states |
|---|---|---|
| `JsValues.BuiltinTag` | src/tipo.js:28 | the builtinTag step of `Object.prototype.toString` (section 19.1.3.6 of ECMA-262 2015): Undefined, Null, Boolean, Number and String for primitives and their wrappers, Array, Function, Arguments, Error, Date and RegExp for those objects, Object otherwise; its properties are stated by `JsValues.BuiltinTagIsWord` |
| `JsValues.ObjectToString` | src/tipo.js:44 | `Object.prototype.toString.call(v)`, the call every tag comparison makes (src/tipo.js:28, 44, 61, 78, 94, 159 and tipo.js:26): "[object " + builtinTag + "]"; `JsValues.ObjectToStringHasTag` states that the tag can be read back |
| `Tipo.EmptyFunctionResult` | src/tipo.js:128-130 | the value of the empty self-invoking function (also tipo.js:120), which is undefined; `Tipo.IsUndefined` and `TipoLegacy.Undefined` compare with it |
| `JsValues.BuiltinTagIsWord` | src/tipo.js:28 | the tag Object.prototype.toString reports is always one of the ECMAScript 2015 builtin tags (Undefined, Null, Array, String, Arguments, Function, Error, Boolean, Number, Date, RegExp, Object) and is made of ASCII letters only, so it holds no bracket |
| `JsValues.ObjectToStringHasTag` | src/tipo.js:44 | the text "[object T]" determines T: the tag can be read back from between the decoration |
| `JsValues.ToObject` | src/tipo.js:112 | ToObject fails (TypeError) exactly for undefined and null, always yields a non-primitive with the same builtin tag, and returns an object argument unchanged |
| `JsValues.ObjectConstructor` | src/tipo.js:112 | `Object(v)` is always a non-primitive; it is `v` itself when `v` is an object and a newly allocated object otherwise |
| `JsValues.StrictEquals` | src/tipo.js:144 | `x === y` holds exactly when the two values are identical and not NaN (NaN equals nothing; objects compare by reference) |
| `JsValues.ArrayIsArray` | src/tipo.js:73-74 | Array.isArray holds exactly for values whose builtin tag is Array, and never for a primitive |
| `TagText.Strip` | src/tipo.js:29 | the global replacement that removes "[object " and "]" never lengthens the text and leaves no "]" in it |
| `TagText.Lower` | src/tipo.js:29 | lower-casing keeps the text equal up to case and leaves no upper-case letter |
| `TagText.LowerIsUnique` | src/tipo.js:29 | the only text equal to `s` up to case and free of upper-case letters is `Lower(s)`, so Lower's contract determines it |
| `TagText.LowerIsIdempotent` | src/tipo.js:29 | lower-casing twice is lower-casing once |
| `TagText.StripKeepsPlainText` | src/tipo.js:29 | bracket-free text followed by "]" loses exactly the "]", with or without the i flag (by induction over the text) |
| `TagText.StripDecoration` | src/tipo.js:28-29 | the replacement maps "[object " + T + "]" to T for every bracket-free T, with or without the i flag |
| `TagText.StripKeepsUnmatchedBracket` | src/tipo.js:29 | a "[" that does not begin a match of "[object " is kept, and the bracket-free rest loses only its closing "]" |
| `TagText.IgnoreCaseStripsUpperPrefix` | src/tipo.js:29 | with the i flag, an upper-case "[OBJECT " is removed too: "[OBJECT " + T + "]" becomes T |
| `TagText.CaseSensitiveKeepsUpperPrefix` | tipo.js:27 | without the i flag, "[OBJECT " + T + "]" keeps its upper-case prefix and loses only the "]", so the /g and /gi expressions do differ on such non-tag text |
| `Tipo.GetDetectedType` | src/tipo.js:27-30 | for every value the result is exactly the lower-cased builtin tag |
| `Tipo.DetectedTypeIsTypeName` | src/tipo.js:27-30 | the detected type of every kind of value is its lower-case name: "string" for primitive and wrapped strings, "array", "function", "object", "undefined", "null", ... |
| `Tipo.TagTextComparison` | src/tipo.js:44 | comparing the toString text with "[object T]" is comparing the builtin tag with T |
| `Tipo.StringTagText` | src/tipo.js:44 | the toString text is "[object String]" exactly for primitive and wrapped strings |
| `Tipo.NumberTagText` | src/tipo.js:61 | the toString text is "[object Number]" exactly for primitive and wrapped numbers |
| `Tipo.ArrayTagText` | src/tipo.js:78 | the toString text is "[object Array]" exactly for arrays |
| `Tipo.FunctionTagText` | src/tipo.js:94 | the toString text is "[object Function]" exactly for functions |
| `Tipo.BooleanTagText` | src/tipo.js:159 | the toString text is "[object Boolean]" exactly for primitive and wrapped booleans |
| `Tipo.IsString` | src/tipo.js:39-45 | true exactly when getDetectedType is "string", i.e. exactly for primitive and wrapped strings |
| `Tipo.IsNumber` | src/tipo.js:56-62 | true exactly when getDetectedType is "number", i.e. exactly for primitive and wrapped numbers, NaN and the infinities included |
| `Tipo.IsArray` | src/tipo.js:71-79 | on either branch (Array.isArray present or not) true exactly when getDetectedType is "array", i.e. exactly for arrays |
| `Tipo.IsFunction` | src/tipo.js:88-95 | true exactly when getDetectedType is "function", i.e. exactly for functions |
| `Tipo.IsObject` | src/tipo.js:106-113 | `v === Object(v)` holds exactly for non-primitives |
| `Tipo.IsUndefined` | src/tipo.js:122-131 | comparing with the result of an empty function is true exactly for undefined, i.e. when getDetectedType is "undefined" |
| `Tipo.IsNull` | src/tipo.js:141-145 | true exactly for null, i.e. when getDetectedType is "null" |
| `Tipo.IsBoolean` | src/tipo.js:154-160 | true exactly when getDetectedType is "boolean", i.e. exactly for primitive and wrapped booleans |
| `Tipo.IsObjectAnyAllocation` | src/tipo.js:106-113 | the answer of `v === Object(v)` does not depend on the reference a newly allocated object receives |
| `Tipo.IsArrayBranchesAgree` | src/tipo.js:71-79 | the Array.isArray branch and the "[object Array]" fallback agree on every value |
| `Tipo.NaNAndInfinityAreNumbers` | src/tipo.js:48-62 | NaN and both infinities, primitive or wrapped, satisfy isNumber and are detected as "number" |
| `Tipo.WrappersAreObjects` | src/tipo.js:98-113 | a wrapper object satisfies isObject and its tag predicate; the primitive it wraps is not an object yet has the same detected type |
| `Tipo.UndefinedAndNull` | src/tipo.js:122-145 | a call without argument binds its parameter to undefined (section 9.2.12 of ECMA-262 2015), so `tipo.isUndefined()` is true as test/tipo.js:395-397 checks; undefined and null each satisfy their own predicate and not the other's |
| `Tipo.ExactlyOneOfEight` | src/tipo.js:39-160 | for every value and either isArray branch, exactly one of the eight predicates holds, except that isObject holds beside isString, isNumber or isBoolean for a wrapper and beside isArray or isFunction for an array or a function |
| `Tipo.TagPredicatesExclusive` | src/tipo.js:39-160 | at most one of isString, isNumber, isArray, isFunction, isBoolean, isNull, isUndefined holds, exactly one for a primitive; arrays and functions are also objects; a plain object satisfies only isObject |
| `TipoLegacy.Type` | tipo.js:25-28 | `tipo.type` is the builtin tag itself, not lower-cased; the /g expression gives the same text as the /gi one of src/tipo.js on every toString text, so the variants differ only on text that is not a tag string (`TagText.CaseSensitiveKeepsUpperPrefix`); lower-casing it gives getDetectedType of src/tipo.js |
| `TipoLegacy.String` | tipo.js:36-42 | true exactly when `tipo.type` is "String", and equal to isString of src/tipo.js |
| `TipoLegacy.Number` | tipo.js:52-58 | true exactly when `tipo.type` is "Number", and equal to isNumber of src/tipo.js |
| `TipoLegacy.Array` | tipo.js:66-73 | true exactly when `tipo.type` is "Array" on either branch, and equal to isArray of src/tipo.js |
| `TipoLegacy.Function` | tipo.js:81-88 | true exactly when `tipo.type` is "Function", and equal to isFunction of src/tipo.js |
| `TipoLegacy.Object` | tipo.js:99-106 | true exactly for non-primitives, and equal to isObject of src/tipo.js |
| `TipoLegacy.Undefined` | tipo.js:114-121 | true exactly for undefined, and equal to isUndefined of src/tipo.js |
| `TipoLegacy.Null` | tipo.js:130-134 | true exactly for null, and equal to isNull of src/tipo.js |
| `TipoLegacy.Boolean` | tipo.js:142-148 | true exactly when `tipo.type` is "Boolean", and equal to isBoolean of src/tipo.js |
| `TipoLegacy.ArrayBranchesAgreeAndNaNIsNumber` | tipo.js:45-73 | both branches of `tipo.array` agree, and `tipo.number(NaN)` is true |
| `TipoCorpus.StringSamplesAsExpected` | test/tipo.js:14-38 | the string entries of the test table are strings and are objects exactly when constructed with `new String` |
| `TipoCorpus.NumberSamplesAsExpected` | test/tipo.js:39-68 | the number literals and `new Number(...)` entries are numbers, and are objects exactly when constructed with `new Number` |
| `TipoCorpus.NumberCallSamplesAsExpected` | test/tipo.js:69-98 | `Number(...)` called as a function, NaN and Infinity are numbers and not objects |
| `TipoCorpus.ArraySamplesAsExpected` | test/tipo.js:99-118 | the array entries, empty ones among them, are arrays and objects |
| `TipoCorpus.FunctionSamplesAsExpected` | test/tipo.js:119-157 | the function entries are functions and objects; `new namedFunction()` is a plain object |
| `TipoCorpus.ObjectSamplesAsExpected` | test/tipo.js:158-172 | the object entries are plain objects |
| `TipoCorpus.SentinelSamplesAsExpected` | test/tipo.js:173-189 | undefined, the result of an empty function and null are named "undefined", "undefined" and "null" and are not objects |
| `TipoCorpus.BooleanSamplesAsExpected` | test/tipo.js:190-214 | the boolean entries are booleans and are objects exactly when constructed with `new Boolean` |
| `TipoCorpus.SamplesAsExpected` | test/tipo.js:13-215 | every entry of the table carries the type name and object flag the model gives its value |
| `TipoCorpus.ExpectedSamplePasses` | test/tipo.js:217-463 | an entry that is as expected passes every check the tests make of it |
| `TipoCorpus.SamplesMeetExpectations` | test/tipo.js:217-463 | for every entry of the table, getDetectedType gives its type, isObject its object flag, and each tag predicate holds exactly for the entries of its type |

## Left out

- `tipo.noConflict` and the saving and restoring of `window.tipo` in `tipo.js` are left out. They bind a browser global and contain no type logic.
- `dist/tipo.js` is not part of this model. It is the transpiled build of `src/tipo.js`, and its class helpers are transpiler plumbing.
- The build tasks in `gulpfile.js` and the DOM demo page in `test/test.js` are not part of this model.
- Numbers are opaque and have no arithmetic. IEEE-754 doubles are not modelled.
- JsValues.StrictEquals: does not model that `+0 === -0`, because finite numbers are opaque ids. No detector compares two numbers.
- Object references are plain numbers on the values. No heap is modelled, so nothing forces two values with the same reference to be the same object.
- Tipo.IsObject: always lets `Object(v)` allocate reference 0. `Tipo.IsObjectAnyAllocation` proves that any other reference gives the same answer.
- TagText.Lower: lower-cases ASCII letters only. Full Unicode `toLowerCase` is not modelled. Every builtin tag is ASCII, so `getDetectedType` is unaffected.
- TagText.CharMatches: models case-insensitive matching as ASCII case folding. This is exact for the ASCII pattern "[object ": without the u flag, a character at or above 128 never canonicalizes to one below 128.
- `@@toStringTag` is not modelled. That leaves out user-defined tags and the ES2015 objects that carry one (Symbol, Map, Set, Promise, Math, JSON, generators and others). Symbol primitives are left out as well.
- Proxies (which Array.isArray sees through), cross-realm objects and host objects are not modelled.
- Rebinding the global `undefined` is not modelled. That is the hazard the empty-function comparison in `isUndefined` guards against; the model has one undefined value.
