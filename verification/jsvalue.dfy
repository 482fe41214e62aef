/** The JavaScript values the bridge inspects: configuration entries, the global
    object and the namespace tree hanging off it. */
module JsValue {

  /** A JavaScript value. Objects are trees of named properties; functions are
      opaque and identified by a number. Numbers are integers in this model. */
  datatype Value =
    | Undefined
    | Null
    | Bool(b: bool)
    | Num(n: int)
    | Str(s: string)
    | Obj(props: map<string, Value>)
    | Fn(id: nat)

  /** JavaScript truthiness: `undefined`, `null`, `false`, `0` and `""` are falsy. */
  predicate Truthy(v: Value) {
    match v
    case Undefined => false
    case Null => false
    case Bool(b) => b
    case Num(n) => n != 0
    case Str(s) => |s| > 0
    case Obj(_) => true
    case Fn(_) => true
  }

  /** The string the `typeof` operator yields. */
  function TypeOf(v: Value): string {
    match v
    case Undefined => "undefined"
    case Null => "object"
    case Bool(_) => "boolean"
    case Num(_) => "number"
    case Str(_) => "string"
    case Obj(_) => "object"
    case Fn(_) => "function"
  }

  /** Property lookup `v[k]` on a value that is neither `undefined` nor `null`:
      an own property of an object, and `undefined` otherwise (properties that
      primitives and functions inherit are not modelled). */
  function Prop(v: Value, k: string): (r: Value)
    ensures v.Obj? && k in v.props ==> r == v.props[k]
    ensures !(v.Obj? && k in v.props) ==> r == Undefined
  {
    match v
    case Obj(m) => if k in m then m[k] else Undefined
    case _ => Undefined
  }

  /** A property lookup on a plain object record, `obj[k]`, where a missing key
      reads as `undefined`. */
  function Get(obj: map<string, Value>, k: string): (r: Value)
    ensures k in obj ==> r == obj[k]
    ensures k !in obj ==> r == Undefined
  {
    if k in obj then obj[k] else Undefined
  }
}
