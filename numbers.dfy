// Python / NumPy floating-point values as extended reals. Rounding and the sign
// of zero are not modelled; NaN also stands for a missing cell, as in pandas.
module Numbers {
  datatype Num = Fin(r: real) | PosInf | NegInf | NaN

  function Neg(a: Num): (r: Num)
    ensures r.NaN? <==> a.NaN?
  {
    match a
    case Fin(x) => Fin(-x)
    case PosInf => NegInf
    case NegInf => PosInf
    case NaN => NaN
  }

  function Add(a: Num, b: Num): (r: Num)
    ensures r.NaN? <==> a.NaN? || b.NaN? || (a.PosInf? && b.NegInf?) || (a.NegInf? && b.PosInf?)
    ensures a.Fin? && b.Fin? ==> r == Fin(a.r + b.r)
  {
    match (a, b)
    case (NaN, _) => NaN
    case (_, NaN) => NaN
    case (PosInf, NegInf) => NaN
    case (NegInf, PosInf) => NaN
    case (PosInf, _) => PosInf
    case (_, PosInf) => PosInf
    case (NegInf, _) => NegInf
    case (_, NegInf) => NegInf
    case (Fin(x), Fin(y)) => Fin(x + y)
  }

  function Sub(a: Num, b: Num): (r: Num)
    ensures a.Fin? && b.Fin? ==> r == Fin(a.r - b.r)
    ensures a.NaN? || b.NaN? ==> r.NaN?
  {
    Add(a, Neg(b))
  }

  /** Sign of a non-NaN value: -1, 0 or 1. */
  function Sign(a: Num): int
    requires !a.NaN?
  {
    match a
    case PosInf => 1
    case NegInf => -1
    case Fin(x) => if x > 0.0 then 1 else if x < 0.0 then -1 else 0
  }

  function InfOfSign(s: int): Num
  {
    if s >= 0 then PosInf else NegInf
  }

  function Mul(a: Num, b: Num): (r: Num)
    ensures a.Fin? && b.Fin? ==> r == Fin(a.r * b.r)
    ensures a.NaN? || b.NaN? ==> r.NaN?
  {
    if a.NaN? || b.NaN? then NaN
    else if a.Fin? && b.Fin? then Fin(a.r * b.r)
    else if Sign(a) == 0 || Sign(b) == 0 then NaN
    else InfOfSign(Sign(a) * Sign(b))
  }

  /** `a / b` as NumPy evaluates it (x/0 is an infinity of x's sign, 0/0 is NaN). */
  function Div(a: Num, b: Num): (r: Num)
    ensures a.Fin? && b.Fin? && b.r != 0.0 ==> r == Fin(a.r / b.r)
    ensures a.Fin? && b.Fin? && b.r == 0.0 ==> (r.NaN? <==> a.r == 0.0) && !r.Fin?
    ensures a.NaN? || b.NaN? ==> r.NaN?
  {
    if a.NaN? || b.NaN? then NaN
    else if a.Fin? && b.Fin? then
      if b.r != 0.0 then Fin(a.r / b.r)
      else if a.r == 0.0 then NaN
      else InfOfSign(Sign(a))
    else if !a.Fin? && !b.Fin? then NaN
    else if a.Fin? then Fin(0.0)
    else InfOfSign(Sign(a) * (if Sign(b) == 0 then 1 else Sign(b)))
  }

  /** `a > t`; every comparison with NaN is false. */
  predicate Gt(a: Num, t: real)
  {
    match a
    case Fin(x) => x > t
    case PosInf => true
    case NegInf => false
    case NaN => false
  }

  /** `s.clip(lo, hi)`: NaN stays NaN, infinities go to the nearer bound. */
  function Clip(a: Num, lo: real, hi: real): (r: Num)
    requires lo <= hi
    ensures r.NaN? <==> a.NaN?
    ensures !r.NaN? ==> r.Fin? && lo <= r.r <= hi
    ensures a.Fin? && lo <= a.r <= hi ==> r == a
  {
    match a
    case NaN => NaN
    case PosInf => Fin(hi)
    case NegInf => Fin(lo)
    case Fin(x) => Fin(if x < lo then lo else if x > hi then hi else x)
  }

  function Pow10(n: nat): (r: real)
    ensures r >= 1.0
  {
    if n == 0 then 1.0 else 10.0 * Pow10(n - 1)
  }

  /** Python's `sum`: `0 + v1 + v2 + ...`. */
  function Total(vs: seq<Num>): Num
  {
    if vs == [] then Fin(0.0) else Add(Total(vs[..|vs| - 1]), vs[|vs| - 1])
  }

}
