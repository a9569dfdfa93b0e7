/** org.wahlzeit.utils.DoubleValuesUtil: the finiteness test, the epsilon
    comparison and the non-zero guard used by the coordinate classes. */
module DoubleValuesUtil {
  import opened JavaDouble
  import opened Outcomes

  /** `EPSm8` */
  const EPSm8: real := 0.00000001
  const EPS: Double := Finite(EPSm8)

  /** `isValidDouble`: neither NaN nor infinite. */
  function IsValidDouble(d: Double): (r: bool)
    ensures r <==> d.Finite?
  {
    !(IsNaN(d) || IsInfinite(d))
  }

  /** `compareDoubles`: false when either is NaN, otherwise `|a - b| < EPSm8`.
      The Java expression evaluated on infinities also yields false, so the
      comparison holds exactly for two finite values closer than EPSm8. */
  function CompareDoubles(a: Double, b: Double): (r: bool)
    ensures IsNaN(a) || IsNaN(b) ==> !r
    ensures r <==> a.Finite? && b.Finite? && RealAbs(a.v - b.v) < EPSm8
  {
    if IsNaN(a) || IsNaN(b) then false
    else Lt(Abs(Sub(a, b)), EPS)
  }

  lemma CompareDoublesSymmetric(a: Double, b: Double)
    ensures CompareDoubles(a, b) == CompareDoubles(b, a)
  {
  }

  lemma CompareDoublesReflexive(a: Double)
    ensures CompareDoubles(a, a) <==> IsValidDouble(a)
  {
  }

  /** A finite value in [-EPSm8, EPSm8], both bounds included. */
  predicate IsNearZero(d: Double)
  {
    d.Finite? && -EPSm8 <= d.v <= EPSm8
  }

  /** `assertDoubleIsNotZero`: throws IllegalArgumentException when
      `-EPSm8 <= d <= EPSm8`, both bounds included. NaN and the infinities
      fail both comparisons and pass. */
  function AssertDoubleIsNotZero(d: Double): (r: Outcome)
    ensures r.Fail? <==> IsNearZero(d)
    ensures r.Fail? ==> r.error == IllegalArgument
  {
    if Ge(d, Neg(EPS)) && Le(d, EPS) then Fail(IllegalArgument) else Pass
  }
}
