/**
 * The Python values that flow through the backend (the scalars of a pandas row and of a
 * record dict), with Python's truthiness, `str(v)` and `float(v)`.
 */
module Py {
  import opened Common
  import opened Text
  import opened Numbers

  /** A scalar: `None` (also pandas' NaN/NaT), a bool, an int, a float or a str. */
  datatype PyValue = PNone | PBool(b: bool) | PInt(i: int) | PFloat(x: real) | PStr(s: string)

  /** `bool(v)`. */
  predicate Truthy(v: PyValue) {
    match v
    case PNone => false
    case PBool(b) => b
    case PInt(i) => i != 0
    case PFloat(x) => x != 0.0
    case PStr(s) => s != ""
  }

  /** `a or b`. */
  function Or(a: PyValue, b: PyValue): (r: PyValue)
    ensures Truthy(a) ==> r == a
    ensures !Truthy(a) ==> r == b
  {
    if Truthy(a) then a else b
  }

  /** `str(v)`; `floatRepr` is Python's shortest round-tripping `repr` of a float. */
  function Str(v: PyValue, floatRepr: real -> string): (r: string)
    ensures v.PStr? ==> r == v.s
    ensures v.PInt? ==> r == IntToString(v.i)
  {
    match v
    case PNone => "None"
    case PBool(b) => if b then "True" else "False"
    case PInt(i) => IntToString(i)
    case PFloat(x) => floatRepr(x)
    case PStr(s) => s
  }

  /** `float(v)`; `None` stands for the `TypeError`/`ValueError` it raises. */
  function Float(v: PyValue): (r: Option<real>)
    ensures v.PInt? ==> r == Some(v.i as real)
    ensures v.PFloat? ==> r == Some(v.x)
    ensures v.PNone? ==> r.None?
  {
    match v
    case PNone => None
    case PBool(b) => Some(if b then 1.0 else 0.0)
    case PInt(i) => Some(i as real)
    case PFloat(x) => Some(x)
    case PStr(s) => PyFloat(s)
  }

  /** `float(v or 0)`: every falsy value counts as 0.0. */
  function FloatOr0(v: PyValue): (r: Option<real>)
    ensures !Truthy(v) ==> r == Some(0.0)
    ensures Truthy(v) ==> r == Float(v)
  {
    if Truthy(v) then Float(v) else Some(0.0)
  }
}
