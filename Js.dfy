/**
 * The slice of JavaScript semantics the two components rely on: the values a
 * response body can hold, truthiness (what `!!v`, `a || b` and `a && b` test),
 * property reads, which throw on `null` and `undefined`, optional chaining,
 * and the two ways an awaited promise settles.
 */
module Js {

  /** A JavaScript value. `Obj` stands for every object, arrays included, by
      its own properties; `Num` holds the finite numbers and `NaN` the one
      falsy non-finite number. The infinities are truthy like every nonzero
      `Num`, so they are not told apart here. */
  datatype Value =
    | Undefined
    | Null
    | Bool(b: bool)
    | Num(n: real)
    | NaN
    | Str(s: string)
    | Obj(props: map<string, Value>)

  predicate Nullish(v: Value) {
    v.Undefined? || v.Null?
  }

  /** ToBoolean: false, 0, NaN, "", null and undefined are falsy. */
  predicate Truthy(v: Value) {
    match v
    case Undefined => false
    case Null => false
    case Bool(b) => b
    case Num(n) => n != 0.0
    case NaN => false
    case Str(s) => s != ""
    case Obj(_) => true
  }

  /** `v.key` on a value that is neither null nor undefined (reading a
      property of those throws a TypeError, which callers model). A missing
      property reads as undefined; primitives own none of the properties the
      components read. */
  function Get(v: Value, key: string): Value
    requires !Nullish(v)
  {
    if v.Obj? && key in v.props then v.props[key] else Undefined
  }

  /** `v?.key`: undefined when `v` is null or undefined, never throws. */
  function OptGet(v: Value, key: string): Value {
    if Nullish(v) then Undefined else Get(v, key)
  }

  /** `a || b`: the first operand when it is truthy, otherwise the second. */
  function Or(a: Value, b: Value): (r: Value)
    ensures Truthy(r) <==> Truthy(a) || Truthy(b)
    ensures r == a || r == b
    ensures Truthy(a) ==> r == a
    ensures !Truthy(a) ==> r == b
  {
    if Truthy(a) then a else b
  }

  /** How an awaited promise settles: with a value, or by throwing `reason`. */
  datatype Settled<+T> = Resolved(value: T) | Rejected(reason: Value)
}
