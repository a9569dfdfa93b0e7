/** The range checks of SphericCoordinate: `assertIsValidPhi`,
    `assertIsValidTheta`, `assertIsValidRadius`, the argument check at the
    head of `getInstance` and `assertClassInvariants`. */
module SphericRules {
  import opened JavaDouble
  import opened Outcomes
  import opened DoubleValuesUtil


  /** `2 * Math.PI` */
  const TWO_PI: Double := Mul(Finite(2.0), Finite(PI))

  predicate IsPhi(d: Double) { d.Finite? && 0.0 <= d.v < 2.0 * PI }

  predicate IsTheta(d: Double) { d.Finite? && 0.0 <= d.v <= PI }

  predicate IsRadius(d: Double) { d.Finite? && 0.0 <= d.v }

  /** The field types of a SphericCoordinate: the class invariant. */
  type Phi = d: Double | IsPhi(d) witness Finite(0.0)
  type Theta = d: Double | IsTheta(d) witness Finite(0.0)
  type Radius = d: Double | IsRadius(d) witness Finite(0.0)

  /** `assertIsValidPhi`: rejects non-finite values, `phi < 0` and
      `phi >= 2 PI`. */
  function AssertIsValidPhi(phi: Double): (r: Outcome)
    ensures r.Pass? <==> IsPhi(phi)
    ensures r.Fail? ==> r.error == IllegalArgument
  {
    if !IsValidDouble(phi) || Lt(phi, ZERO) || Ge(phi, TWO_PI) then Fail(IllegalArgument) else Pass
  }

  /** `assertIsValidTheta`: rejects non-finite values, `theta < 0` and
      `theta > PI`. */
  function AssertIsValidTheta(theta: Double): (r: Outcome)
    ensures r.Pass? <==> IsTheta(theta)
    ensures r.Fail? ==> r.error == IllegalArgument
  {
    if !IsValidDouble(theta) || Lt(theta, ZERO) || Gt(theta, Finite(PI)) then Fail(IllegalArgument) else Pass
  }

  /** `assertIsValidRadius`: rejects non-finite values and `radius < 0`. */
  function AssertIsValidRadius(radius: Double): (r: Outcome)
    ensures r.Pass? <==> IsRadius(radius)
    ensures r.Fail? ==> r.error == IllegalArgument
  {
    if !IsValidDouble(radius) || Lt(radius, ZERO) then Fail(IllegalArgument) else Pass
  }

  /** The checks `getInstance` makes before it looks the key up: all three
      finite, then the three range asserts in order. */
  function GetInstanceCheck(phi: Double, theta: Double, radius: Double): (r: Outcome)
    ensures r.Pass? <==> IsPhi(phi) && IsTheta(theta) && IsRadius(radius)
    ensures r.Fail? ==> r.error == IllegalArgument
  {
    if !(IsValidDouble(phi) && IsValidDouble(theta) && IsValidDouble(radius)) then Fail(IllegalArgument)
    else if AssertIsValidPhi(phi).Fail? then AssertIsValidPhi(phi)
    else if AssertIsValidTheta(theta).Fail? then AssertIsValidTheta(theta)
    else AssertIsValidRadius(radius)
  }

  /** `assertClassInvariants` of SphericCoordinate: the same conditions,
      reported as IllegalStateException. */
  function ClassInvariantCheck(phi: Double, theta: Double, radius: Double): (r: Outcome)
    ensures r.Pass? <==> IsPhi(phi) && IsTheta(theta) && IsRadius(radius)
    ensures r.Fail? ==> r.error == IllegalState
  {
    if IsNaN(phi) || IsNaN(theta) || IsNaN(radius) then Fail(IllegalState)
    else if IsInfinite(phi) || IsInfinite(theta) || IsInfinite(radius) then Fail(IllegalState)
    else if Lt(phi, ZERO) || Ge(phi, TWO_PI) then Fail(IllegalState)
    else if Lt(theta, ZERO) || Gt(theta, Finite(PI)) then Fail(IllegalState)
    else if Lt(radius, ZERO) then Fail(IllegalState)
    else Pass
  }

  /** The boundaries: phi = 2 PI is rejected; phi = 0, theta = PI and
      radius = 0 are accepted. */
  lemma Boundaries()
    ensures AssertIsValidPhi(TWO_PI) == Fail(IllegalArgument)
    ensures AssertIsValidPhi(ZERO) == Pass
    ensures AssertIsValidTheta(Finite(PI)) == Pass
    ensures AssertIsValidTheta(ZERO) == Pass
    ensures AssertIsValidRadius(ZERO) == Pass
    ensures GetInstanceCheck(ZERO, Finite(PI), ZERO) == Pass
  {
  }

  /** An instance that passed the checks of `getInstance` passes
      `assertClassInvariants`. */
  lemma ChecksAgree(phi: Double, theta: Double, radius: Double)
    ensures GetInstanceCheck(phi, theta, radius).Pass? <==> ClassInvariantCheck(phi, theta, radius).Pass?
  {
  }
}
