/**
 The older global-script variant in tipo.js: `tipo.type` and the eight
 predicates `tipo.string` ... `tipo.boolean`. It differs from src/tipo.js
 only in `tipo.type`, whose regular expression has no i flag and whose
 result is not lower-cased.
 */
module TipoLegacy {

  import JV = JsValues
  import opened TagText
  import Tipo

  /** `tipo.type`: the built-in tag itself, e.g. "String" or "Array".
      Lower-casing it gives GetDetectedType of src/tipo.js, and on these
      texts the missing i flag changes nothing. */
  function Type(v: JV.Value): (r: string)
    ensures r == JV.BuiltinTag(v)
    ensures r == Strip(JV.ObjectToString(v), true)
    ensures Lower(r) == Tipo.GetDetectedType(v)
  {
    JV.BuiltinTagIsWord(v);
    StripDecoration(JV.BuiltinTag(v), false);
    StripDecoration(JV.BuiltinTag(v), true);
    Strip(JV.ObjectToString(v), false)
  }

  function String(v: JV.Value): (r: bool)
    ensures r <==> Type(v) == "String"
    ensures r == Tipo.IsString(v)
  {
    Tipo.StringTagText(v);
    JV.ObjectToString(v) == "[object String]"
  }

  /** True for NaN too: it carries the Number tag. */
  function Number(v: JV.Value): (r: bool)
    ensures r <==> Type(v) == "Number"
    ensures r == Tipo.IsNumber(v)
  {
    Tipo.NumberTagText(v);
    JV.ObjectToString(v) == "[object Number]"
  }

  /** Array.isArray when the host has it, otherwise the tag comparison. */
  function Array(v: JV.Value, nativeIsArray: bool): (r: bool)
    ensures r <==> Type(v) == "Array"
    ensures r == Tipo.IsArray(v, nativeIsArray)
  {
    Tipo.ArrayTagText(v);
    if nativeIsArray then JV.ArrayIsArray(v)
    else JV.ObjectToString(v) == "[object Array]"
  }

  function Function(v: JV.Value): (r: bool)
    ensures r <==> Type(v) == "Function"
    ensures r == Tipo.IsFunction(v)
  {
    Tipo.FunctionTagText(v);
    JV.ObjectToString(v) == "[object Function]"
  }

  /** `perhaps === Object(perhaps)`: true exactly for non-primitives. */
  function Object(v: JV.Value): (r: bool)
    ensures r <==> !JV.IsPrimitive(v)
    ensures r == Tipo.IsObject(v)
  {
    JV.StrictEquals(v, JV.ObjectConstructor(v, 0))
  }

  function Undefined(v: JV.Value): (r: bool)
    ensures r <==> v == JV.Undefined
    ensures r == Tipo.IsUndefined(v)
  {
    JV.StrictEquals(v, Tipo.EmptyFunctionResult())
  }

  function Null(v: JV.Value): (r: bool)
    ensures r <==> v == JV.Null
    ensures r == Tipo.IsNull(v)
  {
    JV.StrictEquals(v, JV.Null)
  }

  function Boolean(v: JV.Value): (r: bool)
    ensures r <==> Type(v) == "Boolean"
    ensures r == Tipo.IsBoolean(v)
  {
    Tipo.BooleanTagText(v);
    JV.ObjectToString(v) == "[object Boolean]"
  }

  /** The two branches of `tipo.array` agree, and NaN is a number here too. */
  lemma ArrayBranchesAgreeAndNaNIsNumber(v: JV.Value)
    ensures Array(v, true) == Array(v, false)
    ensures Number(JV.Num(JV.NaN))
  {
  }
}
