/** JSON-like values as the Python back end holds them after `response.json()`,
    with Python's truthiness and `float(...)` conversion. */
module Json {
  import opened Wrappers

  datatype Value =
    | Null
    | Bool(b: bool)
    | Int(i: int)
    | Float(r: real)
    | Str(s: string)
    | List(items: seq<Value>)
    | Dict(fields: map<string, Value>)

  type Object = map<string, Value>

  /** Python's `bool(v)`. */
  predicate Truthy(v: Value) {
    match v
    case Null => false
    case Bool(b) => b
    case Int(i) => i != 0
    case Float(r) => r != 0.0
    case Str(s) => s != ""
    case List(items) => items != []
    case Dict(fields) => fields != map[]
  }

  /** `d.get(k)`: the value, or None when the key is absent. */
  function Get(d: Object, k: string): Value {
    if k in d then d[k] else Null
  }

  /** Python's `float(s)` on a string: the number it spells, or None when it
      raises `ValueError`. Supplied by the caller. */
  type PyFloat = string -> Option<real>

  /** `float(v)`, or None when it raises (`ValueError` or `TypeError`). */
  function ToFloat(v: Value, parse: PyFloat): Option<real> {
    match v
    case Bool(b) => Some(if b then 1.0 else 0.0)
    case Int(i) => Some(i as real)
    case Float(r) => Some(r)
    case Str(s) => parse(s)
    case _ => None
  }

  /** `float(v or 0)`: falsy values count as zero. */
  function FloatOrZero(v: Value, parse: PyFloat): Option<real> {
    if Truthy(v) then ToFloat(v, parse) else Some(0.0)
  }

  /** Python's `int(x)` on a float: truncation toward zero. */
  function Trunc(x: real): int {
    if x >= 0.0 then x.Floor else -((-x).Floor)
  }

  lemma TruncSpec(x: real)
    ensures Trunc(x) == 0 <==> -1.0 < x < 1.0
    ensures x >= 0.0 ==> Trunc(x) as real <= x < Trunc(x) as real + 1.0
    ensures x < 0.0 ==> Trunc(x) as real - 1.0 < x <= Trunc(x) as real
  {
  }
}
