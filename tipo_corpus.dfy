/**
 The table of sample values of test/tipo.js, each with the type name it is
 expected to report and whether it is a non-primitive, and the proof that
 the model meets every expectation the tests draw from the table.
 */
module TipoCorpus {

  import opened JsValues
  import opened Tipo

  datatype Sample = Sample(test: Value, typ: string, isAnObject: bool)

  /** One sample per entry of the table, in its order. Finite numbers are
      named by opaque ids (0 for 0, 1 for 4, 2 for 4.8, 3 for 1,
      4 for 2); every wrapper,
      array, function and object is a distinct reference. */
  function Samples(): seq<Sample> {
    StringSamples() + NumberSamples() + NumberCallSamples() + ArraySamples() + FunctionSamples()
    + ObjectSamples() + SentinelSamples() + BooleanSamples()
  }

  function StringSamples(): seq<Sample> {
    [ Sample(Str("\"I am a teapot\""), "string", false),
      Sample(BoxedStr(1, "\"short and stout\""), "string", true),
      Sample(Str(""), "string", false),
      Sample(BoxedStr(2, ""), "string", true),
      Sample(Str("4"), "string", false) ]
  }

  /** Number literals and `new Number(...)`. */
  function NumberSamples(): seq<Sample> {
    [ Sample(Num(Finite(1)), "number", false),
      Sample(Num(Finite(2)), "number", false),
      Sample(BoxedNum(3, Finite(1)), "number", true),
      Sample(BoxedNum(4, Finite(2)), "number", true),
      Sample(BoxedNum(5, Finite(1)), "number", true),
      Sample(BoxedNum(6, Finite(0)), "number", true) ]
  }

  /** `Number(...)` called as a function, NaN and Infinity. */
  function NumberCallSamples(): seq<Sample> {
    [ Sample(Num(Finite(2)), "number", false),
      Sample(Num(Finite(1)), "number", false),
      Sample(Num(Finite(0)), "number", false),
      Sample(Num(NaN), "number", false),
      Sample(Num(NaN), "number", false),
      Sample(Num(Infinity(false)), "number", false) ]
  }

  function ArraySamples(): seq<Sample> {
    var elems := [Num(Finite(0)), Num(Finite(3)), Num(Finite(4)), Str("foo"), Str("bar")];
    [ Sample(Arr(7, elems), "array", true),
      Sample(Arr(8, elems), "array", true),
      Sample(Arr(9, []), "array", true),
      Sample(Arr(10, []), "array", true) ]
  }

  /** Includes `new namedFunction()`, an ordinary object, and the
      constructors String and Array, which are functions. The first entry
      is an anonymous function written as the value of the property `test`,
      so it takes that key as its name. */
  function FunctionSamples(): seq<Sample> {
    [ Sample(Func(11, "test"), "function", true),
      Sample(Func(12, "anonymous"), "function", true),
      Sample(Func(13, "foo"), "function", true),
      Sample(Func(14, "namedFunction"), "function", true),
      Sample(PlainObj(15), "object", true),
      Sample(Func(16, "String"), "function", true),
      Sample(Func(17, "Array"), "function", true) ]
  }

  function ObjectSamples(): seq<Sample> {
    [ Sample(PlainObj(18), "object", true),
      Sample(PlainObj(19), "object", true),
      Sample(PlainObj(20), "object", true) ]
  }

  function SentinelSamples(): seq<Sample> {
    [ Sample(Undefined, "undefined", false),
      Sample(EmptyFunctionResult(), "undefined", false),
      Sample(Null, "null", false) ]
  }

  function BooleanSamples(): seq<Sample> {
    [ Sample(Bool(false), "boolean", false),
      Sample(BoxedBool(21, false), "boolean", true),
      Sample(Bool(true), "boolean", false),
      Sample(BoxedBool(22, true), "boolean", true),
      Sample(BoxedBool(23, false), "boolean", true) ]
  }

  /** The sample's expectations, stated over the model's own vocabulary. */
  predicate AsExpected(x: Sample) {
    x.typ == TypeName(x.test) && x.isAnObject == !IsPrimitive(x.test)
  }

  /** What the tests check of one sample, given that it is as expected. */
  predicate PassesTests(x: Sample, nativeIsArray: bool) {
    && GetDetectedType(x.test) == x.typ
    && IsObject(x.test) == x.isAnObject
    && (IsString(x.test) <==> x.typ == "string")
    && (IsNumber(x.test) <==> x.typ == "number")
    && (IsArray(x.test, nativeIsArray) <==> x.typ == "array")
    && (IsFunction(x.test) <==> x.typ == "function")
    && (IsBoolean(x.test) <==> x.typ == "boolean")
    && (IsUndefined(x.test) <==> x.typ == "undefined")
    && (IsNull(x.test) <==> x.typ == "null")
  }

  lemma ExpectedSamplePasses(x: Sample, nativeIsArray: bool)
    requires AsExpected(x)
    ensures PassesTests(x, nativeIsArray)
  {
    DetectedTypeIsTypeName(x.test);
  }

  /** Every entry of the table agrees with the model's names and its
      notion of primitive. */
  lemma StringSamplesAsExpected()
    ensures forall x :: x in StringSamples() ==> AsExpected(x)
  {
  }

  lemma NumberSamplesAsExpected()
    ensures forall x :: x in NumberSamples() ==> AsExpected(x)
  {
  }

  lemma NumberCallSamplesAsExpected()
    ensures forall x :: x in NumberCallSamples() ==> AsExpected(x)
  {
  }

  lemma ArraySamplesAsExpected()
    ensures forall x :: x in ArraySamples() ==> AsExpected(x)
  {
  }

  lemma FunctionSamplesAsExpected()
    ensures forall x :: x in FunctionSamples() ==> AsExpected(x)
  {
  }

  lemma ObjectSamplesAsExpected()
    ensures forall x :: x in ObjectSamples() ==> AsExpected(x)
  {
  }

  lemma SentinelSamplesAsExpected()
    ensures forall x :: x in SentinelSamples() ==> AsExpected(x)
  {
  }

  lemma BooleanSamplesAsExpected()
    ensures forall x :: x in BooleanSamples() ==> AsExpected(x)
  {
  }

  lemma SamplesAsExpected()
    ensures forall x :: x in Samples() ==> AsExpected(x)
  {
    StringSamplesAsExpected();
    NumberSamplesAsExpected();
    NumberCallSamplesAsExpected();
    ArraySamplesAsExpected();
    FunctionSamplesAsExpected();
    ObjectSamplesAsExpected();
    SentinelSamplesAsExpected();
    BooleanSamplesAsExpected();
  }

  /** Every sample reports its expected type name, IsObject answers its
      expected flag, and each tag predicate holds exactly for the samples
      of its type. */
  lemma SamplesMeetExpectations(nativeIsArray: bool)
    ensures forall x :: x in Samples() ==> PassesTests(x, nativeIsArray)
  {
    SamplesAsExpected();
    forall x | x in Samples()
      ensures PassesTests(x, nativeIsArray)
    {
      ExpectedSamplePasses(x, nativeIsArray);
    }
  }
}
