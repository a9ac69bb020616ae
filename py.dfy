/** The Python values the AI server passes around, and its conversions. */
module Py {
  import opened Base

  /** A Python float. */
  datatype Float = Finite(r: real) | NaN | Inf(positive: bool)

  datatype PyValue =
    | PyNone
    | PyBool(b: bool)
    | PyInt(i: int)
    | PyFloat(f: Float)
    | PyStr(s: string)
    | PyList(items: seq<PyValue>)

  /** `float(text)` and `int(text)`, kept abstract: `None` when they raise. */
  type FloatParser = string -> Option<Float>
  type IntParser = string -> Option<int>

  /** `float(v)`; `None` when it raises. */
  function ToFloat(v: PyValue, parse: FloatParser): Option<Float> {
    match v
    case PyBool(b) => Some(Finite(if b then 1.0 else 0.0))
    case PyInt(i) => Some(Finite(i as real))
    case PyFloat(f) => Some(f)
    case PyStr(s) => parse(s)
    case _ => None
  }

  /** `int(v)`, truncating a float toward zero; `None` when it raises. */
  function ToInt(v: PyValue, parse: IntParser): (r: Option<int>)
    ensures v.PyFloat? && v.f.Finite? ==> r.Some? && Abs(r.value as real) <= Abs(v.f.r) < Abs(r.value as real) + 1.0
    ensures v.PyFloat? && v.f.Finite? && r.value != 0 ==> (r.value > 0 <==> v.f.r > 0.0)
  {
    match v
    case PyBool(b) => Some(if b then 1 else 0)
    case PyInt(i) => Some(i)
    case PyFloat(f) =>
      if f.Finite? then Some(if f.r >= 0.0 then f.r.Floor else -((-f.r).Floor)) else None
    case PyStr(s) => parse(s)
    case _ => None
  }

  /** `bool(v)`. */
  predicate Truthy(v: PyValue) {
    match v
    case PyNone => false
    case PyBool(b) => b
    case PyInt(i) => i != 0
    case PyFloat(f) => f != Finite(0.0)
    case PyStr(s) => s != ""
    case PyList(items) => items != []
  }
}
