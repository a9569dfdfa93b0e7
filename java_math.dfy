/** The `java.lang.Math` functions the coordinate code calls. Their numeric
    results are not modelled: a MathLib is any choice of the six functions
    within the ranges `java.lang.Math` documents (the result types below),
    and `Laws` adds the few exact values and the sign rule of atan2 that the
    proofs rely on. */
module JavaMath {
  import opened JavaDouble

  const TWO: Double := Finite(2.0)

  /** sin and cos of a finite argument lie in [-1, 1]. */
  type UnitReal = r: real | -1.0 <= r <= 1.0

  /** atan2 of finite arguments lies in [-PI, PI]. */
  type AngleReal = r: real | -PI <= r <= PI

  /** sqrt is NaN, +infinity or a finite value >= 0. */
  predicate NotNegative(d: Double)
  {
    d.NaN? || d.PosInf? || (d.Finite? && d.v >= 0.0)
  }

  type SqrtResult = d: Double | NotNegative(d) witness ZERO

  /** acos is NaN (argument outside [-1, 1] or NaN) or lies in [0, PI]. */
  predicate AcosValue(d: Double)
  {
    d.NaN? || (d.Finite? && 0.0 <= d.v <= PI)
  }

  type AcosResult = d: Double | AcosValue(d) witness ZERO

  datatype MathLib = MathLib(
    sqrt: Double -> SqrtResult,
    pow: (Double, Double) -> Double,
    sin: real -> UnitReal,
    cos: real -> UnitReal,
    acos: Double -> AcosResult,
    atan2: (real, real) -> AngleReal)

  /** `Math.sin`: NaN for NaN and the infinities. */
  function Sin(m: MathLib, d: Double): Double
  {
    if d.Finite? then Finite(m.sin(d.v)) else NaN
  }

  /** `Math.cos`: NaN for NaN and the infinities. */
  function Cos(m: MathLib, d: Double): Double
  {
    if d.Finite? then Finite(m.cos(d.v)) else NaN
  }

  /** `Math.atan2`, which the model only applies to finite arguments. */
  function Atan2(m: MathLib, y: Double, x: Double): Double
    requires y.Finite? && x.Finite?
  {
    Finite(m.atan2(y.v, x.v))
  }

  /** atan2 is negative exactly when y is. */
  predicate Atan2Sign(y: real, r: real)
  {
    r < 0.0 <==> y < 0.0
  }

  ghost predicate Laws(m: MathLib)
  {
    // sqrt is exact at zero
    && m.sqrt(ZERO) == ZERO
    // 0.0 squared is 0.0
    && m.pow(ZERO, TWO) == ZERO
    && (forall y, x :: Atan2Sign(y, m.atan2(y, x)))
  }
}
