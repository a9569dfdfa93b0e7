/** CartesianCoordinate and SphericCoordinate: immutable value objects that
    are obtained only through `getInstance`, which interns them in a static
    table keyed by `doGetHashCode` of the three field values. The two static
    tables are the objects CartesianCache and SphericCache; a method that
    may reach `getInstance` takes the table it may insert into. */
module Coordinates {
  import opened JavaDouble
  import opened Outcomes
  import opened JavaMath
  import opened DoubleValuesUtil
  import opened CoordinateHash
  import opened SphericRules
  import opened ConversionFormulas
  import opened Interning

  type FiniteDouble = d: Double | d.Finite? witness ZERO

  class CartesianCoordinate {
    const x: FiniteDouble
    const y: FiniteDouble
    const z: FiniteDouble

    /** The private constructor; only `getInstance` calls it. */
    constructor (x: FiniteDouble, y: FiniteDouble, z: FiniteDouble)
      ensures this.x == x && this.y == y && this.z == z
    {
      this.x := x;
      this.y := y;
      this.z := z;
    }

    function Fields(): Triple
    {
      Triple(x, y, z)
    }

    /** `assertClassInvariants`: no field is NaN or infinite. The field
        types make this hold of every instance, so it never throws. */
    function AssertClassInvariants(): (r: Outcome)
      ensures r == Pass
    {
      if IsNaN(x) || IsNaN(y) || IsNaN(z) then Fail(IllegalState)
      else if IsInfinite(x) || IsInfinite(y) || IsInfinite(z) then Fail(IllegalState)
      else Pass
    }

    /** `hashCode()`: the key the instance's own values intern under. */
    function HashCode(longBits: LongBits): (r: int)
      ensures r == KeyOf(longBits, Fields())
    {
      DoGetHashCode(longBits, x, y, z)
    }

    /** `setX`: a non-finite x is rejected; otherwise the instance for
        (x, this.y, this.z) is looked up or created. The receiver does not
        change (its fields are constant). */
    method SetX(x: Double, cache: CartesianCache) returns (r: Result<CartesianCoordinate>)
      requires cache.Valid()
      modifies cache
      ensures cache.Valid()
      ensures !x.Finite? ==> r == Err(IllegalArgument) && unchanged(cache)
      ensures x.Finite? ==> r.Ok? && cache.InternedAt(old(cache.cartCoordMap), Triple(x, this.y, this.z), r.value)
    {
      if !IsValidDouble(x) {
        return Err(IllegalArgument);
      }
      r := cache.GetInstance(x, this.y, this.z);
    }

    /** `setY` */
    method SetY(y: Double, cache: CartesianCache) returns (r: Result<CartesianCoordinate>)
      requires cache.Valid()
      modifies cache
      ensures cache.Valid()
      ensures !y.Finite? ==> r == Err(IllegalArgument) && unchanged(cache)
      ensures y.Finite? ==> r.Ok? && cache.InternedAt(old(cache.cartCoordMap), Triple(this.x, y, this.z), r.value)
    {
      if !IsValidDouble(y) {
        return Err(IllegalArgument);
      }
      r := cache.GetInstance(this.x, y, this.z);
    }

    /** `setZ` */
    method SetZ(z: Double, cache: CartesianCache) returns (r: Result<CartesianCoordinate>)
      requires cache.Valid()
      modifies cache
      ensures cache.Valid()
      ensures !z.Finite? ==> r == Err(IllegalArgument) && unchanged(cache)
      ensures z.Finite? ==> r.Ok? && cache.InternedAt(old(cache.cartCoordMap), Triple(this.x, this.y, z), r.value)
    {
      if !IsValidDouble(z) {
        return Err(IllegalArgument);
      }
      r := cache.GetInstance(this.x, this.y, z);
    }

    /** `asSphericCoordinate`: the guarded computation of (phi, theta,
        radius), whose IllegalArgumentException becomes a
        CoordinateConversionException, then `SphericCoordinate.getInstance`,
        which cannot reject the checked values. */
    method AsSphericCoordinate(m: MathLib, sc: SphericCache) returns (r: Result<SphericCoordinate>)
      requires sc.Valid()
      modifies sc
      ensures sc.Valid()
      ensures r.Err? <==> AsSphericValues(m, x, y, z).Err?
      ensures r.Err? ==> r.error == CoordinateConversion && unchanged(sc)
      ensures r.Ok? ==> sc.InternedAt(old(sc.sphereCoordMap), AsSphericValues(m, x, y, z).value, r.value)
    {
      var values := AsSphericValues(m, x, y, z);
      if values.Err? {
        return Err(values.error);
      }
      var t := values.value;
      r := sc.GetInstance(t.v1, t.v2, t.v3);
    }

    /** `isEqualHelper`: the argument is converted to Cartesian (which
        cannot fail, so the catch that returns false is never taken) and the
        three pairs of values are compared with `compareDoubles`. A null
        argument throws NullPointerException. */
    method IsEqualHelper(coordinate: Option<Coordinate>, m: MathLib, cc: CartesianCache) returns (r: Result<bool>)
      requires cc.Valid()
      modifies cc
      ensures cc.Valid()
      ensures r == CartesianEquality(Fields(), coordinate, m, old(cc.View()), cc.longBits)
      ensures coordinate.None? ==> unchanged(cc)
      ensures coordinate.Some? ==> cc.View() == CartesianViewAfter(m, old(cc.View()), cc.longBits, coordinate.value)
      ensures Grows(old(cc.cartCoordMap), cc.cartCoordMap)
    {
      if coordinate.None? {
        return Err(NullPointer);
      }
      var cartCoord := AsCartesianCoordinate(coordinate.value, m, cc);
      var eqX := CompareDoubles(this.x, cartCoord.x);
      var eqY := CompareDoubles(this.y, cartCoord.y);
      var eqZ := CompareDoubles(this.z, cartCoord.z);
      r := Ok(eqX && eqY && eqZ);
    }
  }

  class SphericCoordinate {
    const phi: Phi
    const theta: Theta
    const radius: Radius

    /** The private constructor; only `getInstance` calls it. */
    constructor (phi: Phi, theta: Theta, radius: Radius)
      ensures this.phi == phi && this.theta == theta && this.radius == radius
    {
      this.phi := phi;
      this.theta := theta;
      this.radius := radius;
    }

    function Fields(): Triple
    {
      Triple(phi, theta, radius)
    }

    /** `assertClassInvariants`: the field types make the check pass for
        every instance, so it never throws. */
    function AssertClassInvariants(): (r: Outcome)
      ensures r == Pass
    {
      ClassInvariantCheck(phi, theta, radius)
    }

    /** `hashCode()`: the key the instance's own values intern under. */
    function HashCode(longBits: LongBits): (r: int)
      ensures r == KeyOf(longBits, Fields())
    {
      DoGetHashCode(longBits, phi, theta, radius)
    }

    /** `newSphericCoordinateWithPhi`: `assertIsValidPhi`, then the
        instance for (phi, this.theta, this.radius). */
    method NewSphericCoordinateWithPhi(phi: Double, cache: SphericCache) returns (r: Result<SphericCoordinate>)
      requires cache.Valid()
      modifies cache
      ensures cache.Valid()
      ensures !IsPhi(phi) ==> r == Err(IllegalArgument) && unchanged(cache)
      ensures IsPhi(phi) ==> r.Ok? && cache.InternedAt(old(cache.sphereCoordMap), Triple(phi, this.theta, this.radius), r.value)
    {
      var check := AssertIsValidPhi(phi);
      if check.Fail? {
        return Err(check.error);
      }
      r := cache.GetInstance(phi, this.theta, this.radius);
    }

    /** `newSphericCoordinateWithTheta` */
    method NewSphericCoordinateWithTheta(theta: Double, cache: SphericCache) returns (r: Result<SphericCoordinate>)
      requires cache.Valid()
      modifies cache
      ensures cache.Valid()
      ensures !IsTheta(theta) ==> r == Err(IllegalArgument) && unchanged(cache)
      ensures IsTheta(theta) ==> r.Ok? && cache.InternedAt(old(cache.sphereCoordMap), Triple(this.phi, theta, this.radius), r.value)
    {
      var check := AssertIsValidTheta(theta);
      if check.Fail? {
        return Err(check.error);
      }
      r := cache.GetInstance(this.phi, theta, this.radius);
    }

    /** `newSphericCoordinateWithRadius` */
    method NewSphericCoordinateWithRadius(radius: Double, cache: SphericCache) returns (r: Result<SphericCoordinate>)
      requires cache.Valid()
      modifies cache
      ensures cache.Valid()
      ensures !IsRadius(radius) ==> r == Err(IllegalArgument) && unchanged(cache)
      ensures IsRadius(radius) ==> r.Ok? && cache.InternedAt(old(cache.sphereCoordMap), Triple(this.phi, this.theta, radius), r.value)
    {
      var check := AssertIsValidRadius(radius);
      if check.Fail? {
        return Err(check.error);
      }
      r := cache.GetInstance(this.phi, this.theta, radius);
    }

    /** `asCartesianCoordinate`: (r sin(phi) cos(theta), r sin(phi)
        sin(theta), r cos(phi)), then `CartesianCoordinate.getInstance`.
        The values are finite, so it always succeeds. */
    method AsCartesianCoordinate(m: MathLib, cc: CartesianCache) returns (r: CartesianCoordinate)
      requires cc.Valid()
      modifies cc
      ensures cc.Valid()
      ensures cc.InternedAt(old(cc.cartCoordMap), AsCartesianValues(m, phi, theta, radius), r)
    {
      var t := AsCartesianValues(m, phi, theta, radius);
      var result := cc.GetInstance(t.v1, t.v2, t.v3);
      r := result.value;
    }

    /** `isEqualHelper`: the argument is converted to spheric; if that
        fails with CoordinateConversionException the answer is false,
        otherwise phi, theta and radius are compared with `compareDoubles`.
        A null argument throws NullPointerException. */
    method IsEqualHelper(coordinate: Option<Coordinate>, m: MathLib, sc: SphericCache) returns (r: Result<bool>)
      requires sc.Valid()
      modifies sc
      ensures sc.Valid()
      ensures r == SphericEquality(Fields(), coordinate, m, old(sc.View()), sc.longBits)
      ensures coordinate.None? ==> unchanged(sc)
      ensures coordinate.Some? ==> sc.View() == SphericViewAfter(m, old(sc.View()), sc.longBits, coordinate.value)
      ensures Grows(old(sc.sphereCoordMap), sc.sphereCoordMap)
    {
      if coordinate.None? {
        return Err(NullPointer);
      }
      var converted := AsSphericCoordinate(coordinate.value, m, sc);
      if converted.Err? {
        return Ok(false);
      }
      var sphereCoord := converted.value;
      var eqPhi := CompareDoubles(this.phi, sphereCoord.phi);
      var eqTheta := CompareDoubles(this.theta, sphereCoord.theta);
      var eqRadius := CompareDoubles(this.radius, sphereCoord.radius);
      r := Ok(eqPhi && eqTheta && eqRadius);
    }
  }

  /** The field values the table holds, key by key. */
  function CartesianView(table: map<int, CartesianCoordinate>): (view: map<int, Triple>)
    ensures view.Keys == table.Keys
    ensures forall k :: k in view ==> AllFinite(view[k])
  {
    map k | k in table :: table[k].Fields()
  }

  function SphericView(table: map<int, SphericCoordinate>): (view: map<int, Triple>)
    ensures view.Keys == table.Keys
    ensures forall k :: k in view ==> IsPhi(view[k].v1) && IsTheta(view[k].v2) && IsRadius(view[k].v3)
  {
    map k | k in table :: table[k].Fields()
  }

  /** The static `cartCoordMap` of CartesianCoordinate. */
  class CartesianCache {
    var cartCoordMap: map<int, CartesianCoordinate>
    /** `Double.doubleToLongBits`. Each table carries its own copy; a
        caller that holds both tables gives them the same function. */
    const longBits: LongBits

    /** Every instance is stored under its own hash code. */
    ghost predicate Valid()
      reads this
    {
      forall k :: k in cartCoordMap ==> cartCoordMap[k].HashCode(longBits) == k
    }

    constructor (longBits: LongBits)
      ensures Valid()
      ensures cartCoordMap == map[] && this.longBits == longBits
    {
      cartCoordMap := map[];
      this.longBits := longBits;
    }

    function View(): map<int, Triple>
      reads this
    {
      CartesianView(cartCoordMap)
    }

    /** `c` is what a `getInstance` of `t` returned when the table was
        `before`: the table now holds the get-or-insert result, and the
        values of `c` are those of the entry already stored under the key of
        `t`, or `t` itself if there was none. */
    ghost predicate InternedAt(before: map<int, CartesianCoordinate>, t: Triple, c: CartesianCoordinate)
      reads this
    {
      var key := KeyOf(longBits, t);
      Interned(before, cartCoordMap, key, c) && c.Fields() == Resolve(CartesianView(before), key, t)
    }

    /** `getInstance`: non-finite values are rejected with the table
        unchanged; otherwise the entry under `doGetHashCode(x, y, z)` is
        returned, and on a miss a new instance with these values is stored
        there first. A hit is not compared with x, y, z: lookup is by the
        32-bit key only. */
    method GetInstance(x: Double, y: Double, z: Double) returns (r: Result<CartesianCoordinate>)
      requires Valid()
      modifies this
      ensures Valid()
      ensures r.Err? <==> !(x.Finite? && y.Finite? && z.Finite?)
      ensures r.Err? ==> r.error == IllegalArgument && cartCoordMap == old(cartCoordMap)
      ensures r.Ok? ==> InternedAt(old(cartCoordMap), Triple(x, y, z), r.value)
      ensures r.Ok? ==> View() == Intern(old(View()), KeyOf(longBits, Triple(x, y, z)), Triple(x, y, z))
      ensures r.Ok? ==> r.value.HashCode(longBits) == DoGetHashCode(longBits, x, y, z)
      ensures r.Ok? && KeyOf(longBits, Triple(x, y, z)) !in old(cartCoordMap) ==> fresh(r.value)
    {
      var isValidDouble := IsValidDouble(x) && IsValidDouble(y) && IsValidDouble(z);
      if !isValidDouble {
        return Err(IllegalArgument);
      }
      var key := DoGetHashCode(longBits, x, y, z);
      if key in cartCoordMap {
        r := Ok(cartCoordMap[key]);
      } else {
        var c := new CartesianCoordinate(x, y, z);
        ghost var before := CartesianView(cartCoordMap);
        cartCoordMap := cartCoordMap[key := c];
        assert View() == before[key := Triple(x, y, z)];
        r := Ok(c);
      }
    }
  }

  /** The static `sphereCoordMap` of SphericCoordinate. */
  class SphericCache {
    var sphereCoordMap: map<int, SphericCoordinate>
    /** `Double.doubleToLongBits`. Each table carries its own copy; a
        caller that holds both tables gives them the same function. */
    const longBits: LongBits

    /** Every instance is stored under its own hash code. */
    ghost predicate Valid()
      reads this
    {
      forall k :: k in sphereCoordMap ==> sphereCoordMap[k].HashCode(longBits) == k
    }

    constructor (longBits: LongBits)
      ensures Valid()
      ensures sphereCoordMap == map[] && this.longBits == longBits
    {
      sphereCoordMap := map[];
      this.longBits := longBits;
    }

    function View(): map<int, Triple>
      reads this
    {
      SphericView(sphereCoordMap)
    }

    ghost predicate InternedAt(before: map<int, SphericCoordinate>, t: Triple, s: SphericCoordinate)
      reads this
    {
      var key := KeyOf(longBits, t);
      Interned(before, sphereCoordMap, key, s) && s.Fields() == Resolve(SphericView(before), key, t)
    }

    /** `getInstance`: the finiteness and range checks, then get-or-insert
        under `doGetHashCode(phi, theta, radius)`. */
    method GetInstance(phi: Double, theta: Double, radius: Double) returns (r: Result<SphericCoordinate>)
      requires Valid()
      modifies this
      ensures Valid()
      ensures r.Err? <==> !(IsPhi(phi) && IsTheta(theta) && IsRadius(radius))
      ensures r.Err? ==> r.error == IllegalArgument && sphereCoordMap == old(sphereCoordMap)
      ensures r.Ok? ==> InternedAt(old(sphereCoordMap), Triple(phi, theta, radius), r.value)
      ensures r.Ok? ==> View() == Intern(old(View()), KeyOf(longBits, Triple(phi, theta, radius)), Triple(phi, theta, radius))
      ensures r.Ok? ==> r.value.HashCode(longBits) == DoGetHashCode(longBits, phi, theta, radius)
      ensures r.Ok? && KeyOf(longBits, Triple(phi, theta, radius)) !in old(sphereCoordMap) ==> fresh(r.value)
    {
      var check := GetInstanceCheck(phi, theta, radius);
      if check.Fail? {
        return Err(check.error);
      }
      var key := DoGetHashCode(longBits, phi, theta, radius);
      if key in sphereCoordMap {
        r := Ok(sphereCoordMap[key]);
      } else {
        var s := new SphericCoordinate(phi, theta, radius);
        sphereCoordMap := sphereCoordMap[key := s];
        r := Ok(s);
      }
    }
  }

  /** A Coordinate: one of the two concrete classes. */
  datatype Coordinate = Cartesian(c: CartesianCoordinate) | Spheric(s: SphericCoordinate)

  /** The values of what `asCartesianCoordinate` returns when the
      Cartesian table holds `view`. */
  function CartesianOf(m: MathLib, view: map<int, Triple>, longBits: LongBits, coord: Coordinate): Triple
  {
    match coord
    case Cartesian(c) => c.Fields()
    case Spheric(s) =>
      var t := AsCartesianValues(m, s.phi, s.theta, s.radius);
      Resolve(view, KeyOf(longBits, t), t)
  }

  /** The Cartesian table after `asCartesianCoordinate`. */
  function CartesianViewAfter(m: MathLib, view: map<int, Triple>, longBits: LongBits, coord: Coordinate): map<int, Triple>
  {
    match coord
    case Cartesian(_) => view
    case Spheric(s) =>
      var t := AsCartesianValues(m, s.phi, s.theta, s.radius);
      Intern(view, KeyOf(longBits, t), t)
  }

  /** The values of what `asSphericCoordinate` returns when the spheric
      table holds `view`, or the exception it throws. */
  function SphericOf(m: MathLib, view: map<int, Triple>, longBits: LongBits, coord: Coordinate): (r: Result<Triple>)
    ensures r.Err? ==> r.error == CoordinateConversion
  {
    match coord
    case Spheric(s) => Ok(s.Fields())
    case Cartesian(c) =>
      match AsSphericValues(m, c.x, c.y, c.z)
      case Err(e) => Err(e)
      case Ok(t) => Ok(Resolve(view, KeyOf(longBits, t), t))
  }

  /** The spheric table after `asSphericCoordinate`. */
  function SphericViewAfter(m: MathLib, view: map<int, Triple>, longBits: LongBits, coord: Coordinate): map<int, Triple>
  {
    match coord
    case Spheric(_) => view
    case Cartesian(c) =>
      match AsSphericValues(m, c.x, c.y, c.z)
      case Err(_) => view
      case Ok(t) => Intern(view, KeyOf(longBits, t), t)
  }

  /** All three pairs pass `compareDoubles`. */
  predicate Close(a: Triple, b: Triple)
  {
    CompareDoubles(a.v1, b.v1) && CompareDoubles(a.v2, b.v2) && CompareDoubles(a.v3, b.v3)
  }

  lemma CloseReflexive(t: Triple)
    requires AllFinite(t)
    ensures Close(t, t)
  {
    CompareDoublesReflexive(t.v1);
    CompareDoublesReflexive(t.v2);
    CompareDoublesReflexive(t.v3);
  }

  /** The answer of CartesianCoordinate's `isEqualHelper`. */
  function CartesianEquality(fields: Triple, coordinate: Option<Coordinate>, m: MathLib,
                             view: map<int, Triple>, longBits: LongBits): Result<bool>
  {
    match coordinate
    case None => Err(NullPointer)
    case Some(coord) => Ok(Close(fields, CartesianOf(m, view, longBits, coord)))
  }

  /** The answer of SphericCoordinate's `isEqualHelper`. */
  function SphericEquality(fields: Triple, coordinate: Option<Coordinate>, m: MathLib,
                           view: map<int, Triple>, longBits: LongBits): Result<bool>
  {
    match coordinate
    case None => Err(NullPointer)
    case Some(coord) =>
      match SphericOf(m, view, longBits, coord)
      case Err(_) => Ok(false)
      case Ok(t) => Ok(Close(fields, t))
  }

  /** `asCartesianCoordinate` of either class: a CartesianCoordinate
      returns itself. */
  method AsCartesianCoordinate(coord: Coordinate, m: MathLib, cc: CartesianCache) returns (r: CartesianCoordinate)
    requires cc.Valid()
    modifies cc
    ensures cc.Valid()
    ensures r.Fields() == CartesianOf(m, old(cc.View()), cc.longBits, coord)
    ensures cc.View() == CartesianViewAfter(m, old(cc.View()), cc.longBits, coord)
    ensures Grows(old(cc.cartCoordMap), cc.cartCoordMap)
    ensures coord.Cartesian? ==> r == coord.c && unchanged(cc)
  {
    match coord
    case Cartesian(c) =>
      r := c;
    case Spheric(s) =>
      r := s.AsCartesianCoordinate(m, cc);
      InternedGrows(old(cc.cartCoordMap), cc.cartCoordMap, KeyOf(cc.longBits, AsCartesianValues(m, s.phi, s.theta, s.radius)), r);
  }

  /** `asSphericCoordinate` of either class: a SphericCoordinate returns
      itself. */
  method AsSphericCoordinate(coord: Coordinate, m: MathLib, sc: SphericCache) returns (r: Result<SphericCoordinate>)
    requires sc.Valid()
    modifies sc
    ensures sc.Valid()
    ensures r.Err? <==> SphericOf(m, old(sc.View()), sc.longBits, coord).Err?
    ensures r.Err? ==> r.error == CoordinateConversion && unchanged(sc)
    ensures r.Ok? ==> r.value.Fields() == SphericOf(m, old(sc.View()), sc.longBits, coord).value
    ensures sc.View() == SphericViewAfter(m, old(sc.View()), sc.longBits, coord)
    ensures Grows(old(sc.sphereCoordMap), sc.sphereCoordMap)
    ensures coord.Spheric? ==> r == Ok(coord.s) && unchanged(sc)
  {
    match coord
    case Spheric(s) =>
      r := Ok(s);
    case Cartesian(c) =>
      ghost var values := AsSphericValues(m, c.x, c.y, c.z);
      r := c.AsSphericCoordinate(m, sc);
      if r.Ok? {
        ghost var key := KeyOf(sc.longBits, values.value);
        InternedGrows(old(sc.sphereCoordMap), sc.sphereCoordMap, key, r.value);
      }
  }
}
