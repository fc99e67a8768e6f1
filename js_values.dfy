/**
 JavaScript values as far as the type-detection functions can tell them apart,
 and the few ECMAScript 2015 (ECMA-262, 6th edition) abstract operations the
 detectors rely on: the built-in tag of Object.prototype.toString, ToObject,
 the Object constructor called as a function, strict equality and
 Array.isArray.
 */
module JsValues {

  import TagText

  /** A Number value. Numbers are opaque: `Finite(id)` stands for one finite
      double (the id only tells doubles apart, there is no arithmetic);
      NaN and the two infinities are distinguished kinds. */
  datatype NumKind = Finite(id: int) | NaN | Infinity(negative: bool)

  /** An object reference. Every object value carries the reference of the
      object it denotes, so two object values are the same object exactly
      when they are equal. */
  type Ref = nat

  /** The closed set of values the model distinguishes: the five primitive
      kinds, the three wrapper objects made by `new Boolean`, `new Number`
      and `new String`, and the objects whose built-in tag differs. */
  datatype Value =
    | Undefined
    | Null
    | Bool(b: bool)
    | Num(n: NumKind)
    | Str(s: string)
    | BoxedBool(ref: Ref, b: bool)
    | BoxedNum(ref: Ref, n: NumKind)
    | BoxedStr(ref: Ref, s: string)
    | Arr(ref: Ref, elems: seq<Value>)
    | Func(ref: Ref, name: string)
    | PlainObj(ref: Ref)
    | ArgumentsObj(ref: Ref)
    | ErrorObj(ref: Ref)
    | DateObj(ref: Ref)
    | RegExpObj(ref: Ref)

  /** The value is of a primitive type, i.e. its ECMAScript Type is not Object. */
  predicate IsPrimitive(v: Value) {
    v.Undefined? || v.Null? || v.Bool? || v.Num? || v.Str?
  }

  /** Every builtinTag that step 17 of section 19.1.3.6 can choose, together
      with the two fixed answers of steps 1 and 2. */
  const BuiltinTags: set<string> :=
    {"Undefined", "Null", "Array", "String", "Arguments", "Function",
     "Error", "Boolean", "Number", "Date", "RegExp", "Object"}

  /** The string consists of ASCII letters only. */
  predicate IsAsciiWord(t: string) {
    forall i :: 0 <= i < |t| ==> 'A' <= t[i] <= 'Z' || 'a' <= t[i] <= 'z'
  }

  /** The tag Object.prototype.toString reports for `v` (section 19.1.3.6):
      "Undefined" and "Null" for the two sentinels; otherwise the tag of
      ToObject(v), so a primitive reports the tag of its wrapper object. */
  function BuiltinTag(v: Value): string {
    match v
    case Undefined => "Undefined"
    case Null => "Null"
    case Bool(_) => "Boolean"
    case BoxedBool(_, _) => "Boolean"
    case Num(_) => "Number"
    case BoxedNum(_, _) => "Number"
    case Str(_) => "String"
    case BoxedStr(_, _) => "String"
    case Arr(_, _) => "Array"
    case Func(_, _) => "Function"
    case PlainObj(_) => "Object"
    case ArgumentsObj(_) => "Arguments"
    case ErrorObj(_) => "Error"
    case DateObj(_) => "Date"
    case RegExpObj(_) => "RegExp"
  }

  /** The tag is one of the builtin tags and is a word of ASCII letters,
      so it holds no bracket. */
  lemma BuiltinTagIsWord(v: Value)
    ensures BuiltinTag(v) in BuiltinTags
    ensures IsAsciiWord(BuiltinTag(v))
  {
  }

  /** Object.prototype.toString.call(v): "[object " + tag + "]". */
  function ObjectToString(v: Value): string {
    TagText.Prefix + BuiltinTag(v) + "]"
  }

  /** The tag can be read back from the text Object.prototype.toString
      produces, so comparing that text with "[object T]" compares tags. */
  lemma ObjectToStringHasTag(v: Value)
    ensures |ObjectToString(v)| == |TagText.Prefix| + |BuiltinTag(v)| + 1
    ensures ObjectToString(v)[|TagText.Prefix|..|ObjectToString(v)| - 1] == BuiltinTag(v)
  {
  }

  /** ToObject (section 7.1.13): the sentinels throw a TypeError (None);
      a primitive is wrapped in a new object with reference `alloc`;
      an object is returned as it is. */
  function ToObject(v: Value, alloc: Ref): (r: Option<Value>)
    ensures r.None? <==> v.Undefined? || v.Null?
    ensures r.Some? ==> !IsPrimitive(r.value) && BuiltinTag(r.value) == BuiltinTag(v)
    ensures r.Some? && !IsPrimitive(v) ==> r.value == v
  {
    match v
    case Undefined => None
    case Null => None
    case Bool(b) => Some(BoxedBool(alloc, b))
    case Num(n) => Some(BoxedNum(alloc, n))
    case Str(s) => Some(BoxedStr(alloc, s))
    case _ => Some(v)
  }

  /** `Object(v)`, the Object constructor called as a function (section
      19.1.1.1): a new empty ordinary object for undefined and null,
      ToObject(v) for everything else. `alloc` is the reference a newly
      allocated object receives. */
  function ObjectConstructor(v: Value, alloc: Ref): (o: Value)
    ensures !IsPrimitive(o)
    ensures !IsPrimitive(v) ==> o == v
    ensures IsPrimitive(v) ==> o.ref == alloc
  {
    if v.Undefined? || v.Null? then PlainObj(alloc) else ToObject(v, alloc).value
  }

  /** `x === y`, the Strict Equality Comparison of section 7.2.13: false
      when the types differ; NaN equals nothing; numbers, strings and
      booleans compare by value; objects by reference. */
  function StrictEquals(x: Value, y: Value): (r: bool)
    ensures r <==> x == y && x != Num(NaN)
  {
    match (x, y)
    case (Undefined, Undefined) => true
    case (Null, Null) => true
    case (Bool(a), Bool(b)) => a == b
    case (Num(a), Num(b)) => a != NaN && b != NaN && a == b
    case (Str(a), Str(b)) => a == b
    case _ => !IsPrimitive(x) && !IsPrimitive(y) && x == y
  }

  /** Array.isArray(v) (section 22.1.2.2): true exactly for Array exotic
      objects. */
  function ArrayIsArray(v: Value): (r: bool)
    ensures r ==> !IsPrimitive(v)
    ensures r <==> BuiltinTag(v) == "Array"
  {
    v.Arr?
  }

  /** The value a one-parameter function sees for its parameter when called
      with `args`: a missing argument binds the parameter to undefined
      (section 9.2.12). */
  function Parameter(args: seq<Value>): Value {
    if |args| == 0 then Undefined else args[0]
  }

  datatype Option<T> = None | Some(value: T)
}
