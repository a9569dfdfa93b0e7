/** Java's `double` as the coordinate code uses it: a finite value, NaN, or
    one of the two infinities, with the IEEE 754 rules for the special values.
    Finite values are exact reals: rounding, overflow to infinity and the
    sign of zero are not modelled. */
module JavaDouble {

  datatype Double = Finite(v: real) | NaN | PosInf | NegInf

  /** `Math.PI`, written as Java prints it. */
  const PI: real := 3.141592653589793

  /** `0.0` */
  const ZERO: Double := Finite(0.0)

  predicate IsNaN(d: Double) { d.NaN? }

  predicate IsInfinite(d: Double) { d.PosInf? || d.NegInf? }

  /** -1, 0 or 1; a zero is taken to be +0. Undefined (0) for NaN. */
  function Sign(d: Double): int
  {
    match d
    case Finite(x) => if x > 0.0 then 1 else if x < 0.0 then -1 else 0
    case PosInf => 1
    case NegInf => -1
    case NaN => 0
  }

  function InfinityOfSign(s: int): Double
  {
    if s < 0 then NegInf else PosInf
  }

  function Neg(a: Double): Double
  {
    match a
    case Finite(x) => Finite(-x)
    case PosInf => NegInf
    case NegInf => PosInf
    case NaN => NaN
  }

  function Add(a: Double, b: Double): Double
  {
    match (a, b)
    case (Finite(x), Finite(y)) => Finite(x + y)
    case (NaN, _) => NaN
    case (_, NaN) => NaN
    case (PosInf, NegInf) => NaN
    case (NegInf, PosInf) => NaN
    case (PosInf, _) => PosInf
    case (NegInf, _) => NegInf
    case (_, PosInf) => PosInf
    case (_, NegInf) => NegInf
  }

  function Sub(a: Double, b: Double): Double
  {
    Add(a, Neg(b))
  }

  function Mul(a: Double, b: Double): Double
  {
    match (a, b)
    case (Finite(x), Finite(y)) => Finite(x * y)
    case (NaN, _) => NaN
    case (_, NaN) => NaN
    case _ =>
      // at least one infinity: infinity times zero is NaN
      if Sign(a) == 0 || Sign(b) == 0 then NaN else InfinityOfSign(Sign(a) * Sign(b))
  }

  function Div(a: Double, b: Double): Double
  {
    match (a, b)
    case (NaN, _) => NaN
    case (_, NaN) => NaN
    case (Finite(x), Finite(y)) =>
      if y != 0.0 then Finite(x / y)
      else if x == 0.0 then NaN
      else InfinityOfSign(Sign(a))
    case (Finite(_), _) => Finite(0.0)
    case (_, Finite(_)) => InfinityOfSign(Sign(a) * (if Sign(b) < 0 then -1 else 1))
    case _ => NaN
  }

  /** `Math.abs` */
  function Abs(a: Double): Double
  {
    match a
    case Finite(x) => Finite(if x < 0.0 then -x else x)
    case NaN => NaN
    case _ => PosInf
  }

  /** `a < b`; every comparison with NaN is false. */
  predicate Lt(a: Double, b: Double)
  {
    match (a, b)
    case (NaN, _) => false
    case (_, NaN) => false
    case (Finite(x), Finite(y)) => x < y
    case (NegInf, NegInf) => false
    case (NegInf, _) => true
    case (Finite(_), PosInf) => true
    case _ => false
  }

  /** `a <= b` */
  predicate Le(a: Double, b: Double)
  {
    !a.NaN? && !b.NaN? && (Lt(a, b) || a == b)
  }

  /** `a > b` */
  predicate Gt(a: Double, b: Double) { Lt(b, a) }

  /** `a >= b` */
  predicate Ge(a: Double, b: Double) { Le(b, a) }

  function RealAbs(x: real): real
  {
    if x < 0.0 then -x else x
  }
}
