/**
 * The JavaScript values a handler reads out of a JSON request body, with the
 * two JavaScript rules the handlers lean on: truthiness (`!x`) and reading a
 * property (`p.productoId`), which throws when `p` is null or undefined.
 * Numbers are finite (NaN and the infinities are not modelled).
 */
module JsValue {
  import opened Wrappers

  datatype Value =
    | Undefined
    | Null
    | Bool(b: bool)
    | Num(n: real)
    | Str(s: string)
    | Arr(elems: seq<Value>)
    | Obj(props: map<string, Value>)

  /** JavaScript truthiness: `!v` holds exactly when `Truthy(v)` does not. */
  predicate Truthy(v: Value)
  {
    match v
    case Undefined => false
    case Null => false
    case Bool(b) => b
    case Num(n) => n != 0.0
    case Str(s) => s != ""
    case Arr(_) => true
    case Obj(_) => true
  }

  /** A property of a request body read by destructuring; absent keys read as undefined. */
  function Field(props: map<string, Value>, key: string): (v: Value)
  {
    if key in props then props[key] else Undefined
  }

  /**
   * The member read `v.key`: `None` when JavaScript throws a TypeError
   * (reading a property of null or undefined), otherwise the property's value.
   * Arrays, strings, numbers and booleans have none of the keys read here.
   */
  function Member(v: Value, key: string): (m: Option<Value>)
  {
    match v
    case Undefined => None
    case Null => None
    case Obj(props) => Some(Field(props, key))
    case _ => Some(Undefined)
  }

  /** The integer a number denotes when it is used as a record id; `None` for anything else. */
  function IntId(v: Value): (id: Option<int>)
  {
    if v.Num? && v.n == v.n.Floor as real then Some(v.n.Floor) else None
  }
}
