/**
 The class `tipo` of src/tipo.js: nine static, total functions of one value.
 Every one is a single expression over the text Object.prototype.toString
 gives for the value, over Array.isArray, over `v === Object(v)`, or over
 strict equality with undefined or null.
 */
module Tipo {

  import opened JsValues
  import opened TagText

  /** The lower-case name under which each kind of value is reported. */
  function TypeName(v: Value): string {
    match v
    case Undefined => "undefined"
    case Null => "null"
    case Bool(_) => "boolean"
    case BoxedBool(_, _) => "boolean"
    case Num(_) => "number"
    case BoxedNum(_, _) => "number"
    case Str(_) => "string"
    case BoxedStr(_, _) => "string"
    case Arr(_, _) => "array"
    case Func(_, _) => "function"
    case PlainObj(_) => "object"
    case ArgumentsObj(_) => "arguments"
    case ErrorObj(_) => "error"
    case DateObj(_) => "date"
    case RegExpObj(_) => "regexp"
  }

  /** The built-in tag with "[object " and "]" removed and lower-cased:
      exactly the lower-cased tag. */
  function GetDetectedType(v: Value): (r: string)
    ensures r == Lower(BuiltinTag(v))
  {
    BuiltinTagIsWord(v);
    StripDecoration(BuiltinTag(v), true);
    Lower(Strip(ObjectToString(v), true))
  }

  /* The lower-case forms of the twelve tags, proved a few at a time so
     that DetectedTypeIsTypeName need not unfold every literal at once. */

  lemma LowerSentinelTags()
    ensures Lower("Undefined") == "undefined" && Lower("Null") == "null"
  {
    LowerIsUnique("Undefined", "undefined");
    LowerIsUnique("Null", "null");
  }

  lemma LowerPrimitiveTags()
    ensures Lower("Boolean") == "boolean" && Lower("Number") == "number"
    ensures Lower("String") == "string"
  {
    LowerIsUnique("Boolean", "boolean");
    LowerIsUnique("Number", "number");
    LowerIsUnique("String", "string");
  }

  lemma LowerObjectTags()
    ensures Lower("Array") == "array" && Lower("Function") == "function"
    ensures Lower("Object") == "object"
  {
    LowerIsUnique("Array", "array");
    LowerIsUnique("Function", "function");
    LowerIsUnique("Object", "object");
  }

  lemma LowerArgumentsErrorTags()
    ensures Lower("Arguments") == "arguments" && Lower("Error") == "error"
  {
    LowerIsUnique("Arguments", "arguments");
    LowerIsUnique("Error", "error");
  }

  lemma LowerDateRegExpTags()
    ensures Lower("Date") == "date" && Lower("RegExp") == "regexp"
  {
    LowerIsUnique("Date", "date");
    LowerIsUnique("RegExp", "regexp");
  }

  /** For every value the detected type is its lower-case name. */
  lemma DetectedTypeIsTypeName(v: Value)
    ensures GetDetectedType(v) == TypeName(v)
  {
    LowerSentinelTags();
    LowerPrimitiveTags();
    LowerObjectTags();
    LowerArgumentsErrorTags();
    LowerDateRegExpTags();
  }

  /** Comparing the text of Object.prototype.toString with "[object T]"
      is comparing the built-in tag with T. */
  lemma TagTextComparison(v: Value, t: string)
    ensures ObjectToString(v) == Prefix + t + "]" <==> BuiltinTag(v) == t
  {
    var s, u := ObjectToString(v), Prefix + t + "]";
    if s == u {
      ObjectToStringHasTag(v);
      assert u[|Prefix|..|u| - 1] == t;
    }
  }

  /** The values whose tag text is "[object String]". */
  lemma StringTagText(v: Value)
    ensures ObjectToString(v) == "[object String]" <==> v.Str? || v.BoxedStr?
  {
    TagTextComparison(v, "String");
  }

  /** The values whose tag text is "[object Number]". */
  lemma NumberTagText(v: Value)
    ensures ObjectToString(v) == "[object Number]" <==> v.Num? || v.BoxedNum?
  {
    TagTextComparison(v, "Number");
  }

  /** The values whose tag text is "[object Array]". */
  lemma ArrayTagText(v: Value)
    ensures ObjectToString(v) == "[object Array]" <==> v.Arr?
  {
    TagTextComparison(v, "Array");
  }

  /** The values whose tag text is "[object Function]". */
  lemma FunctionTagText(v: Value)
    ensures ObjectToString(v) == "[object Function]" <==> v.Func?
  {
    TagTextComparison(v, "Function");
  }

  /** The values whose tag text is "[object Boolean]". */
  lemma BooleanTagText(v: Value)
    ensures ObjectToString(v) == "[object Boolean]" <==> v.Bool? || v.BoxedBool?
  {
    TagTextComparison(v, "Boolean");
  }

  function IsString(v: Value): (r: bool)
    ensures r <==> GetDetectedType(v) == "string"
    ensures r <==> v.Str? || v.BoxedStr?
  {
    StringTagText(v);
    DetectedTypeIsTypeName(v);
    ObjectToString(v) == "[object String]"
  }

  /** True for every Number, NaN and the infinities included. */
  function IsNumber(v: Value): (r: bool)
    ensures r <==> GetDetectedType(v) == "number"
    ensures r <==> v.Num? || v.BoxedNum?
  {
    NumberTagText(v);
    DetectedTypeIsTypeName(v);
    ObjectToString(v) == "[object Number]"
  }

  /** Array.isArray when the host has it (`nativeIsArray`), otherwise the
      tag comparison; both branches give the same answer. */
  function IsArray(v: Value, nativeIsArray: bool): (r: bool)
    ensures r <==> GetDetectedType(v) == "array"
    ensures r <==> v.Arr?
  {
    ArrayTagText(v);
    DetectedTypeIsTypeName(v);
    if nativeIsArray then ArrayIsArray(v)
    else ObjectToString(v) == "[object Array]"
  }

  function IsFunction(v: Value): (r: bool)
    ensures r <==> GetDetectedType(v) == "function"
    ensures r <==> v.Func?
  {
    FunctionTagText(v);
    DetectedTypeIsTypeName(v);
    ObjectToString(v) == "[object Function]"
  }

  /** `v === Object(v)`: true exactly for non-primitives, so wrapper
      objects, arrays and functions are objects. The reference the Object
      constructor would allocate does not matter (IsObjectAnyAllocation). */
  function IsObject(v: Value): (r: bool)
    ensures r <==> !IsPrimitive(v)
  {
    StrictEquals(v, ObjectConstructor(v, 0))
  }

  /** What a function with an empty body returns when called. */
  function EmptyFunctionResult(): Value {
    Undefined
  }

  function IsUndefined(v: Value): (r: bool)
    ensures r <==> v == Undefined
    ensures r <==> GetDetectedType(v) == "undefined"
  {
    DetectedTypeIsTypeName(v);
    StrictEquals(v, EmptyFunctionResult())
  }

  function IsNull(v: Value): (r: bool)
    ensures r <==> v == Null
    ensures r <==> GetDetectedType(v) == "null"
  {
    DetectedTypeIsTypeName(v);
    StrictEquals(v, Null)
  }

  function IsBoolean(v: Value): (r: bool)
    ensures r <==> GetDetectedType(v) == "boolean"
    ensures r <==> v.Bool? || v.BoxedBool?
  {
    BooleanTagText(v);
    DetectedTypeIsTypeName(v);
    ObjectToString(v) == "[object Boolean]"
  }

  /** `v === Object(v)` gives the same answer whatever reference a new
      object would receive. */
  lemma IsObjectAnyAllocation(v: Value, alloc: Ref)
    ensures StrictEquals(v, ObjectConstructor(v, alloc)) == IsObject(v)
  {
  }

  /** The two branches of IsArray agree on every value. */
  lemma IsArrayBranchesAgree(v: Value)
    ensures IsArray(v, true) == IsArray(v, false)
  {
  }

  /** NaN and the infinities carry the Number tag, boxed or not. */
  lemma NaNAndInfinityAreNumbers(neg: bool, alloc: Ref)
    ensures IsNumber(Num(NaN)) && IsNumber(BoxedNum(alloc, NaN))
    ensures IsNumber(Num(Infinity(neg))) && IsNumber(BoxedNum(alloc, Infinity(neg)))
    ensures GetDetectedType(Num(NaN)) == "number"
  {
  }

  /** A wrapper object satisfies both IsObject and its own tag predicate;
      the primitive it wraps satisfies only the tag predicate. */
  lemma WrappersAreObjects(v: Value)
    requires v.BoxedStr? || v.BoxedNum? || v.BoxedBool?
    ensures IsObject(v)
    ensures IsString(v) || IsNumber(v) || IsBoolean(v)
    ensures var p := if v.BoxedStr? then Str(v.s) else if v.BoxedNum? then Num(v.n) else Bool(v.b);
      !IsObject(p) && GetDetectedType(p) == GetDetectedType(v)
  {
    if v.BoxedStr? {
      assert IsString(v);
    } else if v.BoxedNum? {
      assert IsNumber(v);
    } else {
      assert IsBoolean(v);
    }
  }

  /** A call with no argument sees undefined; undefined and null are told
      apart. */
  lemma UndefinedAndNull(args: seq<Value>)
    requires |args| == 0
    ensures IsUndefined(Parameter(args))
    ensures IsUndefined(Undefined) && !IsNull(Undefined)
    ensures IsNull(Null) && !IsUndefined(Null)
  {
  }

  /** How many of the seven tag-like predicates hold. */
  function TagPredicateCount(v: Value, nativeIsArray: bool): nat {
    (if IsString(v) then 1 else 0) + (if IsNumber(v) then 1 else 0)
    + (if IsArray(v, nativeIsArray) then 1 else 0) + (if IsFunction(v) then 1 else 0)
    + (if IsBoolean(v) then 1 else 0) + (if IsNull(v) then 1 else 0)
    + (if IsUndefined(v) then 1 else 0)
  }

  /** The values that are objects and carry a tag predicate of their own:
      wrappers, arrays and functions. */
  predicate IsTaggedObject(v: Value) {
    v.BoxedStr? || v.BoxedNum? || v.BoxedBool? || v.Arr? || v.Func?
  }

  /** Exactly one of the eight predicates holds for every value, except
      that isObject holds besides the tag predicate of a wrapper, an array
      or a function. */
  lemma ExactlyOneOfEight(v: Value, nativeIsArray: bool)
    ensures !IsTaggedObject(v) ==>
      (if IsObject(v) then 1 else 0) + TagPredicateCount(v, nativeIsArray) == 1
    ensures IsTaggedObject(v) ==> IsObject(v) && TagPredicateCount(v, nativeIsArray) == 1
  {
    TagPredicatesExclusive(v, nativeIsArray);
  }

  /** At most one of the seven holds for any value, exactly one for a
      primitive; IsObject holds besides whenever the value is not a
      primitive, and a plain object satisfies IsObject alone. */
  lemma TagPredicatesExclusive(v: Value, nativeIsArray: bool)
    ensures TagPredicateCount(v, nativeIsArray) <= 1
    ensures IsPrimitive(v) ==> TagPredicateCount(v, nativeIsArray) == 1
    ensures IsArray(v, nativeIsArray) || IsFunction(v) ==> IsObject(v)
    ensures v.PlainObj? ==> TagPredicateCount(v, nativeIsArray) == 0 && IsObject(v)
  {
  }
}
