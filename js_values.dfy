/** The JavaScript values a Tiled property bag can hold, and JavaScript's
    notion of a truthy value. */
module JsValues {
  import opened HitArea

  /** A JavaScript number. Finite numbers are reals (rounding is not modelled);
      -0 and +0 are both Finite(0.0), as `===` does not tell them apart. */
  datatype Number = Finite(x: real) | Infinite(negative: bool) | NaN

  datatype Value =
    | Undefined
    | Null
    | Bool(b: bool)
    | Num(n: Number)
    | Str(s: string)
    | Arr(items: seq<Value>)
    | Obj(fields: map<string, Value>)
    | ShapeV(shape: Shape<Value>)

  const PositiveInfinity: Value := Num(Infinite(false))

  /** JavaScript truthiness: false, 0, NaN, "", null and undefined are falsy. */
  predicate Truthy(v: Value)
  {
    match v
    case Undefined => false
    case Null => false
    case Bool(b) => b
    case Num(n) => (n.Finite? && n.x != 0.0) || n.Infinite?
    case Str(s) => s != ""
    case _ => true
  }

  /** Property access `obj.k`: a missing property reads as undefined. */
  function Get(m: map<string, Value>, k: string): Value
  {
    if k in m then m[k] else Undefined
  }
}
