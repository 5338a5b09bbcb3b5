/** The part of double-precision arithmetic that the analysis code relies on
    when it divides by a quantity that can be zero: a finite value, a signed
    infinity, or NaN. Finite values are exact reals; rounding is not modelled. */
module Floats {

  datatype Float = Finite(value: real) | Infinite(negative: bool) | NaN

  /** Python's `abs` on a float. */
  function Abs(x: Float): Float
  {
    match x
    case Finite(v) => Finite(if v < 0.0 then -v else v)
    case Infinite(_) => Infinite(false)
    case NaN => NaN
  }

  /** IEEE division `x / y` (numpy semantics: no exception on a zero divisor). */
  function Div(x: Float, y: Float): Float
  {
    match (x, y)
    case (NaN, _) => NaN
    case (_, NaN) => NaN
    case (Finite(a), Finite(b)) =>
      if b != 0.0 then Finite(a / b)
      else if a == 0.0 then NaN
      else Infinite(a < 0.0)
    case (Finite(_), Infinite(_)) => Finite(0.0)
    case (Infinite(n), Finite(b)) => Infinite(if b < 0.0 then !n else n)
    case (Infinite(_), Infinite(_)) => NaN
  }

  /** `x < c` for a float and a real constant: false whenever `x` is NaN. */
  predicate Below(x: Float, c: real)
  {
    match x
    case Finite(v) => v < c
    case Infinite(n) => n
    case NaN => false
  }

  /** A square-root function for the non-negative reals (the role `np.sqrt`
      plays for the analysis code). */
  ghost predicate IsSqrt(root: real -> real)
  {
    forall v: real {:trigger root(v)} :: v >= 0.0 ==> root(v) >= 0.0 && root(v) * root(v) == v
  }

  /** `np.sqrt` on a float: NaN below zero. */
  function Sqrt(x: Float, root: real -> real): Float
  {
    match x
    case Finite(v) => if v >= 0.0 then Finite(root(v)) else NaN
    case Infinite(n) => if n then NaN else Infinite(false)
    case NaN => NaN
  }

  /** A square root of a positive number is positive. */
  lemma SqrtPositive(root: real -> real, v: real)
    requires IsSqrt(root) && v > 0.0
    ensures root(v) > 0.0
  {
    assert root(v) >= 0.0 && root(v) * root(v) == v;
  }
}
