/** The JavaScript values the chat provider may hand back, with the three
    language operations the send path applies to them: `typeof`, truthiness
    and property access (plain and optional-chained). */
module JsValues {
  import opened Options

  /** A JavaScript value. Numbers are reals plus NaN (infinities behave like any
      other non-zero number here, and -0 like 0). Arrays are objects whose
      keys are their indices. */
  datatype Value =
    | Undefined
    | Null
    | Bool(b: bool)
    | Number(n: real)
    | NaN
    | BigInt(i: int)
    | Str(s: string)
    | Symbol
    | Function
    | Object(props: map<string, Value>)

  /** The string the `typeof` operator yields. */
  function TypeOf(v: Value): (t: string)
    ensures t == "object" <==> v.Null? || v.Object?
    ensures t == "string" <==> v.Str?
  {
    match v
    case Undefined => "undefined"
    case Null => "object"
    case Bool(_) => "boolean"
    case Number(_) => "number"
    case NaN => "number"
    case BigInt(_) => "bigint"
    case Str(_) => "string"
    case Symbol => "symbol"
    case Function => "function"
    case Object(_) => "object"
  }

  /** ToBoolean: what `if (v)` and `!v` test. */
  predicate Truthy(v: Value)
  {
    match v
    case Undefined => false
    case Null => false
    case Bool(b) => b
    case Number(n) => n != 0.0
    case NaN => false
    case BigInt(i) => i != 0
    case Str(s) => s != ""
    case Symbol => true
    case Function => true
    case Object(_) => true
  }

  /** `v.key` on a value that is not null or undefined. Only objects carry the
      keys the send path reads; primitives and functions have no own property
      of those names, so the lookup yields `undefined`. */
  function Get(v: Value, key: string): (r: Value)
    requires v != Undefined && v != Null
    ensures v.Object? && key in v.props ==> r == v.props[key]
    ensures !(v.Object? && key in v.props) ==> r == Undefined
  {
    match v
    case Object(props) => if key in props then props[key] else Undefined
    case _ => Undefined
  }

  /** `v?.key`: short-circuits to `undefined` on a nullish receiver. */
  function GetOptional(v: Value, key: string): (r: Value)
    ensures (v == Undefined || v == Null) ==> r == Undefined
    ensures v.Object? && key in v.props ==> r == v.props[key]
    ensures !(v.Object? && key in v.props) ==> r == Undefined
  {
    if v == Undefined || v == Null then Undefined else Get(v, key)
  }

  /** The string conversion a template literal `${v}` applies. Strings are used
      as they are; `undefined`, `null` and the booleans have fixed names; a
      symbol makes the conversion throw; every other value is converted by the
      host (`toText`), which may also throw, for instance on an object without
      a `toString`. `None` means the conversion threw. */
  function TemplateString(v: Value, toText: Value -> Option<string>): (r: Option<string>)
    ensures v.Str? ==> r == Some(v.s)
    ensures v == Undefined ==> r == Some("undefined")
    ensures v == Null ==> r == Some("null")
    ensures v.Bool? ==> r == Some(if v.b then "true" else "false")
    ensures v.Symbol? ==> r == None
  {
    match v
    case Str(s) => Some(s)
    case Undefined => Some("undefined")
    case Null => Some("null")
    case Bool(b) => if b then Some("true") else Some("false")
    case Symbol => None
    case _ => toText(v)
  }

  /** The object test of the normalizer, `v && typeof v === 'object'`, holds of
      exactly the object values: `typeof null` is "object" but null is falsy. */
  lemma TruthyObjectIsObject(v: Value)
    ensures (Truthy(v) && TypeOf(v) == "object") <==> v.Object?
  {
  }
}
