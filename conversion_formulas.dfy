/** The arithmetic of the coordinate conversions, the Cartesian distance and
    the central angle, over the values of the fields (no objects, no
    tables). The Math functions come from a MathLib; the lemmas that need
    facts about them assume `Laws`. */
module ConversionFormulas {
  import opened JavaDouble
  import opened Outcomes
  import opened JavaMath
  import opened DoubleValuesUtil
  import opened SphericRules
  import opened CoordinateHash

  const ORIGIN: Triple := Triple(ZERO, ZERO, ZERO)

  predicate AllFinite(t: Triple)
  {
    t.v1.Finite? && t.v2.Finite? && t.v3.Finite?
  }

  /** `sqrt(pow(x, 2) + pow(y, 2) + pow(z, 2))` */
  function RadiusOf(m: MathLib, x: Double, y: Double, z: Double): Double
  {
    m.sqrt(Add(Add(m.pow(x, TWO), m.pow(y, TWO)), m.pow(z, TWO)))
  }

  /** `cartesianCoordinateAsSphericRadius`: the radius, checked by
      `assertIsValidRadius`. */
  function AsSphericRadius(m: MathLib, x: Double, y: Double, z: Double): (r: Result<Double>)
    ensures r.Ok? <==> IsRadius(RadiusOf(m, x, y, z))
    ensures r.Ok? ==> r.value == RadiusOf(m, x, y, z)
    ensures r.Err? ==> r.error == IllegalArgument
  {
    var radius := RadiusOf(m, x, y, z);
    match AssertIsValidRadius(radius)
    case Pass => Ok(radius)
    case Fail(e) => Err(e)
  }

  /** `cartesianCoordinateAsSphericTheta`: x must not be near zero, then
      `atan2(y, x)` must lie in [0, PI]. */
  function AsSphericTheta(m: MathLib, x: Double, y: Double): (r: Result<Double>)
    requires x.Finite? && y.Finite?
    ensures r.Ok? <==> !IsNearZero(x) && IsTheta(Atan2(m, y, x))
    ensures r.Ok? ==> r.value == Atan2(m, y, x)
    ensures r.Err? ==> r.error == IllegalArgument
  {
    match AssertDoubleIsNotZero(x)
    case Fail(e) => Err(e)
    case Pass =>
      var theta := Atan2(m, y, x);
      match AssertIsValidTheta(theta)
      case Pass => Ok(theta)
      case Fail(e) => Err(e)
  }

  /** `cartesianCoordinateAsSphericPhi`: a valid radius that is not near
      zero, then `acos(z / radius)` must lie in [0, 2 PI). */
  function AsSphericPhi(m: MathLib, x: Double, y: Double, z: Double): (r: Result<Double>)
    ensures r.Ok? <==>
              var radius := RadiusOf(m, x, y, z);
              IsRadius(radius) && !IsNearZero(radius) && IsPhi(m.acos(Div(z, radius)))
    ensures r.Ok? ==> r.value == m.acos(Div(z, RadiusOf(m, x, y, z)))
    ensures r.Err? ==> r.error == IllegalArgument
  {
    match AsSphericRadius(m, x, y, z)
    case Err(e) => Err(e)
    case Ok(radius) =>
      match AssertDoubleIsNotZero(radius)
      case Fail(e) => Err(e)
      case Pass =>
        var phi := m.acos(Div(z, radius));
        match AssertIsValidPhi(phi)
        case Pass => Ok(phi)
        case Fail(e) => Err(e)
  }

  /** The guarded block of `asSphericCoordinate`: phi, theta and radius in
      that order; an IllegalArgumentException from any of them becomes a
      CoordinateConversionException. The result is (phi, theta, radius). */
  function AsSphericValues(m: MathLib, x: Double, y: Double, z: Double): (r: Result<Triple>)
    requires x.Finite? && y.Finite? && z.Finite?
    ensures r.Ok? <==> AsSphericPhi(m, x, y, z).Ok? && AsSphericTheta(m, x, y).Ok? && AsSphericRadius(m, x, y, z).Ok?
    ensures r.Err? ==> r.error == CoordinateConversion
    ensures r.Ok? ==> IsPhi(r.value.v1) && IsTheta(r.value.v2) && IsRadius(r.value.v3)
    ensures r.Ok? ==> r.value == Triple(m.acos(Div(z, RadiusOf(m, x, y, z))), Atan2(m, y, x), RadiusOf(m, x, y, z))
  {
    match AsSphericPhi(m, x, y, z)
    case Err(_) => Err(CoordinateConversion)
    case Ok(phi) =>
      match AsSphericTheta(m, x, y)
      case Err(_) => Err(CoordinateConversion)
      case Ok(theta) =>
        match AsSphericRadius(m, x, y, z)
        case Err(_) => Err(CoordinateConversion)
        case Ok(radius) => Ok(Triple(phi, theta, radius))
  }

  /** With the documented behaviour of the Math functions, a finite point
      converts exactly when its radius is finite and not near zero, acos
      gives a number, x is not near zero and y is not negative. */
  lemma AsSphericValuesSucceeds(m: MathLib, x: Double, y: Double, z: Double)
    requires Laws(m)
    requires x.Finite? && y.Finite? && z.Finite?
    ensures AsSphericValues(m, x, y, z).Ok? <==>
              var radius := RadiusOf(m, x, y, z);
              && radius.Finite? && !IsNearZero(radius)
              && !m.acos(Div(z, radius)).NaN?
              && !IsNearZero(x)
              && y.v >= 0.0
  {
    assert Atan2Sign(y.v, m.atan2(y.v, x.v));
  }

  /** A point with negative y never converts to spheric: atan2 is then
      negative and fails `assertIsValidTheta`. */
  lemma NegativeYNeverConverts(m: MathLib, x: Double, y: Double, z: Double)
    requires Laws(m)
    requires x.Finite? && y.Finite? && z.Finite?
    requires y.v < 0.0
    ensures AsSphericValues(m, x, y, z) == Err(CoordinateConversion)
  {
    assert Atan2Sign(y.v, m.atan2(y.v, x.v));
  }

  /** The origin never converts to spheric: its radius is exactly zero. */
  lemma OriginNeverConverts(m: MathLib)
    requires Laws(m)
    ensures AsSphericValues(m, ZERO, ZERO, ZERO) == Err(CoordinateConversion)
  {
    assert RadiusOf(m, ZERO, ZERO, ZERO) == ZERO;
  }

  /** The guarded block of `asCartesianCoordinate`:
      (r sin(phi) cos(theta), r sin(phi) sin(theta), r cos(phi)), each
      product evaluated left to right. Finite arguments give finite values,
      so the `CartesianCoordinate.getInstance` that follows does not throw;
      a zero radius gives the origin whatever the angles. */
  function AsCartesianValues(m: MathLib, phi: Double, theta: Double, radius: Double): (r: Triple)
    ensures phi.Finite? && theta.Finite? && radius.Finite? ==> AllFinite(r)
    ensures phi.Finite? && theta.Finite? && radius == ZERO ==> r == ORIGIN
  {
    Triple(
      Mul(Mul(radius, Sin(m, phi)), Cos(m, theta)),
      Mul(Mul(radius, Sin(m, phi)), Sin(m, theta)),
      Mul(radius, Cos(m, phi)))
  }

  /** `doGetCartesianDistance`:
      `sqrt(pow(x1 - x2, 2) + pow(y1 - y2, 2) + pow(z1 - z2, 2))`. */
  function CartesianDistance(m: MathLib, a: Triple, b: Triple): (r: Double)
    ensures NotNegative(r)
  {
    m.sqrt(Add(Add(m.pow(Sub(a.v1, b.v1), TWO), m.pow(Sub(a.v2, b.v2), TWO)), m.pow(Sub(a.v3, b.v3), TWO)))
  }

  /** The distance from a finite point to a point with the same values is
      zero (for instance between two origins). */
  lemma DistanceToSameValuesIsZero(m: MathLib, a: Triple)
    requires Laws(m)
    requires AllFinite(a)
    ensures CartesianDistance(m, a, a) == ZERO
  {
    assert Sub(a.v1, a.v1) == ZERO;
    assert Sub(a.v2, a.v2) == ZERO;
    assert Sub(a.v3, a.v3) == ZERO;
  }

  /** `doGetCentralAngle`, by the spherical law of cosines:
      `acos(sin(phi1) sin(phi2) + cos(phi1) cos(phi2) cos(|theta1 - theta2|))`.
      Whatever the arguments, the angle is NaN or lies in [0, PI]. */
  function CentralAngle(m: MathLib, a: Triple, b: Triple): (angle: Double)
    ensures angle.NaN? || (angle.Finite? && 0.0 <= angle.v <= PI)
  {
    var longitudeDiff := Abs(Sub(a.v2, b.v2));
    m.acos(Add(Mul(Sin(m, a.v1), Sin(m, b.v1)), Mul(Mul(Cos(m, a.v1), Cos(m, b.v1)), Cos(m, longitudeDiff))))
  }
}
