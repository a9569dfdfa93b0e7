/** AbstractCoordinate: `equals` and `isEqual`, which hand the comparison to
    the receiver's `isEqualHelper`, and the distance and central-angle
    template methods, which convert both operands and check the result. Each
    method is tied to a function over the values the interning tables hold
    (their views), and the lemmas are stated on those functions. */
module AbstractCoordinate {
  import opened JavaDouble
  import opened Outcomes
  import opened JavaMath
  import opened DoubleValuesUtil
  import opened CoordinateHash
  import opened SphericRules
  import opened ConversionFormulas
  import opened Interning
  import opened Coordinates

  /** What `equals(Object)` can be given: null, a Coordinate, or an object
      of some other class. */
  datatype Object = Null | CoordinateObject(coord: Coordinate) | OtherObject

  /** `assertIsNonNullArgument` */
  function AssertIsNonNullArgument(coordinate: Option<Coordinate>): (r: Outcome)
    ensures r.Fail? <==> coordinate.None?
    ensures r.Fail? ==> r.error == IllegalArgument
  {
    if coordinate.None? then Fail(IllegalArgument) else Pass
  }

  /** The answer of `isEqual`: the receiver's `isEqualHelper`. */
  function IsEqualSpec(self: Coordinate, coordinate: Option<Coordinate>, m: MathLib,
                       cview: map<int, Triple>, cbits: LongBits,
                       sview: map<int, Triple>, sbits: LongBits): Result<bool>
  {
    match self
    case Cartesian(c) => CartesianEquality(c.Fields(), coordinate, m, cview, cbits)
    case Spheric(s) => SphericEquality(s.Fields(), coordinate, m, sview, sbits)
  }

  /** The answer of `equals`. */
  function EqualsSpec(self: Coordinate, obj: Object, m: MathLib,
                      cview: map<int, Triple>, cbits: LongBits,
                      sview: map<int, Triple>, sbits: LongBits): (r: Result<bool>)
    ensures obj == CoordinateObject(self) ==> r == Ok(true)
    ensures obj.Null? || obj.OtherObject? ==> r == Ok(false)
    ensures r.Ok?
  {
    if obj == CoordinateObject(self) then Ok(true)
    else match obj
      case Null => Ok(false)
      case OtherObject => Ok(false)
      case CoordinateObject(coord) => IsEqualSpec(self, Some(coord), m, cview, cbits, sview, sbits)
  }

  /** `isEqual`: delegates to the receiver's `isEqualHelper`, so the values
      are compared in the receiver's representation, and only the
      receiver's kind of table can grow. */
  method IsEqual(self: Coordinate, coordinate: Option<Coordinate>, m: MathLib, cc: CartesianCache, sc: SphericCache)
    returns (r: Result<bool>)
    requires cc.Valid() && sc.Valid()
    modifies cc, sc
    ensures cc.Valid() && sc.Valid()
    ensures r == IsEqualSpec(self, coordinate, m, old(cc.View()), cc.longBits, old(sc.View()), sc.longBits)
    ensures self.Cartesian? ==> unchanged(sc)
    ensures self.Spheric? ==> unchanged(cc)
    ensures Grows(old(cc.cartCoordMap), cc.cartCoordMap) && Grows(old(sc.sphereCoordMap), sc.sphereCoordMap)
  {
    match self
    case Cartesian(c) =>
      r := c.IsEqualHelper(coordinate, m, cc);
    case Spheric(s) =>
      r := s.IsEqualHelper(coordinate, m, sc);
  }

  /** `equals`: true for the same reference, false for null or an object
      that is not a Coordinate, otherwise `isEqual`. */
  method Equals(self: Coordinate, obj: Object, m: MathLib, cc: CartesianCache, sc: SphericCache)
    returns (r: bool)
    requires cc.Valid() && sc.Valid()
    modifies cc, sc
    ensures cc.Valid() && sc.Valid()
    ensures Ok(r) == EqualsSpec(self, obj, m, old(cc.View()), cc.longBits, old(sc.View()), sc.longBits)
    ensures !obj.CoordinateObject? || obj.coord == self ==> unchanged(cc) && unchanged(sc)
    ensures Grows(old(cc.cartCoordMap), cc.cartCoordMap) && Grows(old(sc.sphereCoordMap), sc.sphereCoordMap)
  {
    if obj == CoordinateObject(self) {
      return true;
    } else if obj.Null? {
      return false;
    } else if obj.OtherObject? {
      return false;
    }
    var result := IsEqual(self, Some(obj.coord), m, cc, sc);
    r := result.value;
  }

  /** Every coordinate equals itself through `isEqual` too, not only
      through the reference shortcut of `equals`. */
  lemma IsEqualReflexive(self: Coordinate, m: MathLib,
                         cview: map<int, Triple>, cbits: LongBits, sview: map<int, Triple>, sbits: LongBits)
    ensures IsEqualSpec(self, Some(self), m, cview, cbits, sview, sbits) == Ok(true)
  {
    match self
    case Cartesian(c) =>
      CompareDoublesReflexive(c.x);
      CompareDoublesReflexive(c.y);
      CompareDoublesReflexive(c.z);
    case Spheric(s) =>
      CompareDoublesReflexive(s.phi);
      CompareDoublesReflexive(s.theta);
      CompareDoublesReflexive(s.radius);
  }

  /** Two Cartesian coordinates are equal exactly when their values are
      pairwise closer than EPSm8. */
  lemma CartesianIsEqualIsClose(c: CartesianCoordinate, d: CartesianCoordinate, m: MathLib,
                                cview: map<int, Triple>, cbits: LongBits, sview: map<int, Triple>, sbits: LongBits)
    ensures IsEqualSpec(Cartesian(c), Some(Cartesian(d)), m, cview, cbits, sview, sbits) == Ok(Close(c.Fields(), d.Fields()))
    ensures Close(c.Fields(), d.Fields()) <==>
              RealAbs(c.x.v - d.x.v) < EPSm8 && RealAbs(c.y.v - d.y.v) < EPSm8 && RealAbs(c.z.v - d.z.v) < EPSm8
  {
  }

  /** The spheric origin converts to (0, 0, 0), provided the Cartesian
      table does not hold a different point under the origin's key, so
      the Cartesian origin's `isEqualHelper` accepts it. */
  lemma SphericOriginConvertsToOrigin(c: CartesianCoordinate, s: SphericCoordinate, m: MathLib,
                                      cview: map<int, Triple>, cbits: LongBits)
    requires c.Fields() == ORIGIN && s.Fields() == ORIGIN
    requires Resolve(cview, KeyOf(cbits, ORIGIN), ORIGIN) == ORIGIN
    ensures CartesianOf(m, cview, cbits, Spheric(s)) == ORIGIN
    ensures CartesianEquality(c.Fields(), Some(Spheric(s)), m, cview, cbits) == Ok(true)
  {
    assert s.radius == ZERO;
    assert AsCartesianValues(m, s.phi, s.theta, s.radius) == ORIGIN;
    CloseReflexive(ORIGIN);
  }

  /** The Cartesian origin equals the spheric origin under the same
      proviso ... */
  lemma CartesianOriginEqualsSphericOrigin(c: CartesianCoordinate, s: SphericCoordinate, m: MathLib,
                                           cview: map<int, Triple>, cbits: LongBits, sview: map<int, Triple>, sbits: LongBits)
    requires c.Fields() == ORIGIN && s.Fields() == ORIGIN
    requires Resolve(cview, KeyOf(cbits, ORIGIN), ORIGIN) == ORIGIN
    ensures EqualsSpec(Cartesian(c), CoordinateObject(Spheric(s)), m, cview, cbits, sview, sbits) == Ok(true)
  {
    SphericOriginConvertsToOrigin(c, s, m, cview, cbits);
    assert IsEqualSpec(Cartesian(c), Some(Spheric(s)), m, cview, cbits, sview, sbits) == Ok(true);
  }

  /** ... but not the other way round, so `equals` is not symmetric: the
      Cartesian origin has radius zero and cannot be converted to
      spheric. */
  lemma SphericOriginDoesNotEqualCartesianOrigin(c: CartesianCoordinate, s: SphericCoordinate, m: MathLib,
                                                 cview: map<int, Triple>, cbits: LongBits, sview: map<int, Triple>, sbits: LongBits)
    requires Laws(m)
    requires c.Fields() == ORIGIN
    ensures EqualsSpec(Spheric(s), CoordinateObject(Cartesian(c)), m, cview, cbits, sview, sbits) == Ok(false)
  {
    OriginNeverConverts(m);
    assert SphericOf(m, sview, sbits, Cartesian(c)).Err?;
  }

  /** `getCartesianDistance` as a value: a null argument is rejected with
      IllegalArgumentException; otherwise the receiver and then the argument
      are converted to Cartesian (the second against the table the first
      left behind), and a distance that is not a finite value >= 0 becomes a
      CoordinateComputationException. */
  function DistanceSpec(self: Coordinate, coordinate: Option<Coordinate>, m: MathLib,
                        view: map<int, Triple>, longBits: LongBits): (r: Result<Double>)
    ensures r.Ok? ==> r.value.Finite? && r.value.v >= 0.0
    ensures r.Err? ==> (r.error == IllegalArgument <==> coordinate.None?)
    ensures r.Err? ==> r.error == IllegalArgument || r.error == CoordinateComputation
  {
    match AssertIsNonNullArgument(coordinate)
    case Fail(e) => Err(e)
    case Pass =>
      var cartCoord := CartesianOf(m, view, longBits, self);
      var view1 := CartesianViewAfter(m, view, longBits, self);
      var cartCoord2 := CartesianOf(m, view1, longBits, coordinate.value);
      var cartDistance := CartesianDistance(m, cartCoord, cartCoord2);
      if !IsValidDouble(cartDistance) || Lt(cartDistance, ZERO) then Err(CoordinateComputation)
      else Ok(cartDistance)
  }

  /** The Cartesian table after `getCartesianDistance`. */
  function DistanceViewAfter(self: Coordinate, coordinate: Option<Coordinate>, m: MathLib,
                             view: map<int, Triple>, longBits: LongBits): map<int, Triple>
  {
    if coordinate.None? then view
    else CartesianViewAfter(m, CartesianViewAfter(m, view, longBits, self), longBits, coordinate.value)
  }

  /** `getCartesianDistance`. The conversions to Cartesian cannot fail, so
      the catch that maps a CoordinateConversionException to a
      CoordinateComputationException is never taken. */
  method GetCartesianDistance(self: Coordinate, coordinate: Option<Coordinate>, m: MathLib, cc: CartesianCache)
    returns (r: Result<Double>)
    requires cc.Valid()
    modifies cc
    ensures cc.Valid()
    ensures r == DistanceSpec(self, coordinate, m, old(cc.View()), cc.longBits)
    ensures cc.View() == DistanceViewAfter(self, coordinate, m, old(cc.View()), cc.longBits)
    ensures Grows(old(cc.cartCoordMap), cc.cartCoordMap)
  {
    var check := AssertIsNonNullArgument(coordinate);
    if check.Fail? {
      return Err(check.error);
    }
    var cartCoord := AsCartesianCoordinate(self, m, cc);
    var cartCoord2 := AsCartesianCoordinate(coordinate.value, m, cc);
    var cartDistance := CartesianDistance(m, cartCoord.Fields(), cartCoord2.Fields());
    if !IsValidDouble(cartDistance) || Lt(cartDistance, ZERO) {
      return Err(CoordinateComputation);
    }
    r := Ok(cartDistance);
  }

  /** Two Cartesian coordinates with the same values (two origins, say) are
      at distance zero. */
  lemma DistanceBetweenSameValuesIsZero(a: CartesianCoordinate, b: CartesianCoordinate, m: MathLib,
                                        view: map<int, Triple>, longBits: LongBits)
    requires Laws(m)
    requires a.Fields() == b.Fields()
    ensures DistanceSpec(Cartesian(a), Some(Cartesian(b)), m, view, longBits) == Ok(ZERO)
  {
    DistanceToSameValuesIsZero(m, a.Fields());
  }

  /** Every coordinate is at distance zero from itself: a spheric one is
      converted twice, and the second conversion finds what the first one
      stored or found. */
  lemma DistanceToItselfIsZero(self: Coordinate, m: MathLib, table: map<int, CartesianCoordinate>, longBits: LongBits)
    requires Laws(m)
    ensures DistanceSpec(self, Some(self), m, CartesianView(table), longBits) == Ok(ZERO)
  {
    var view := CartesianView(table);
    match self
    case Cartesian(c) =>
      DistanceToSameValuesIsZero(m, c.Fields());
    case Spheric(s) =>
      var t := AsCartesianValues(m, s.phi, s.theta, s.radius);
      var key := KeyOf(longBits, t);
      ResolveAfterIntern(view, key, t, t);
      DistanceToSameValuesIsZero(m, Resolve(view, key, t));
  }

  /** `getCentralAngle` as a value: a null argument is rejected with
      IllegalArgumentException; otherwise both operands are converted to
      spheric, a conversion failure becomes a CoordinateComputationException,
      and so does a result that is not finite. */
  function CentralAngleSpec(self: Coordinate, coordinate: Option<Coordinate>, m: MathLib,
                            view: map<int, Triple>, longBits: LongBits): (r: Result<Double>)
    ensures r.Ok? ==> r.value.Finite? && 0.0 <= r.value.v <= PI
    ensures r.Err? ==> (r.error == IllegalArgument <==> coordinate.None?)
    ensures r.Err? ==> r.error == IllegalArgument || r.error == CoordinateComputation
  {
    match AssertIsNonNullArgument(coordinate)
    case Fail(e) => Err(e)
    case Pass =>
      match SphericOf(m, view, longBits, self)
      case Err(_) => Err(CoordinateComputation)
      case Ok(sphereCoord) =>
        var view1 := SphericViewAfter(m, view, longBits, self);
        match SphericOf(m, view1, longBits, coordinate.value)
        case Err(_) => Err(CoordinateComputation)
        case Ok(sphereCoord2) =>
          var centralAngle := CentralAngle(m, sphereCoord, sphereCoord2);
          if !IsValidDouble(centralAngle) then Err(CoordinateComputation) else Ok(centralAngle)
  }

  /** The spheric table after `getCentralAngle`. */
  function CentralAngleViewAfter(self: Coordinate, coordinate: Option<Coordinate>, m: MathLib,
                                 view: map<int, Triple>, longBits: LongBits): map<int, Triple>
  {
    if coordinate.None? then view
    else
      match SphericOf(m, view, longBits, self)
      case Err(_) => view
      case Ok(_) =>
        var view1 := SphericViewAfter(m, view, longBits, self);
        SphericViewAfter(m, view1, longBits, coordinate.value)
  }

  /** `getCentralAngle` */
  method GetCentralAngle(self: Coordinate, coordinate: Option<Coordinate>, m: MathLib, sc: SphericCache)
    returns (r: Result<Double>)
    requires sc.Valid()
    modifies sc
    ensures sc.Valid()
    ensures r == CentralAngleSpec(self, coordinate, m, old(sc.View()), sc.longBits)
    ensures sc.View() == CentralAngleViewAfter(self, coordinate, m, old(sc.View()), sc.longBits)
    ensures Grows(old(sc.sphereCoordMap), sc.sphereCoordMap)
  {
    var check := AssertIsNonNullArgument(coordinate);
    if check.Fail? {
      return Err(check.error);
    }
    var sphereCoord := AsSphericCoordinate(self, m, sc);
    if sphereCoord.Err? {
      return Err(CoordinateComputation);
    }
    var sphereCoord2 := AsSphericCoordinate(coordinate.value, m, sc);
    if sphereCoord2.Err? {
      return Err(CoordinateComputation);
    }
    var centralAngle := CentralAngle(m, sphereCoord.value.Fields(), sphereCoord2.value.Fields());
    if !IsValidDouble(centralAngle) {
      return Err(CoordinateComputation);
    }
    r := Ok(centralAngle);
  }

  /** A Cartesian operand with negative y makes `getCentralAngle` throw
      CoordinateComputationException, on either side. */
  lemma CentralAngleRejectsNegativeY(c: CartesianCoordinate, other: Coordinate, m: MathLib,
                                     view: map<int, Triple>, longBits: LongBits)
    requires Laws(m)
    requires c.y.v < 0.0
    ensures CentralAngleSpec(Cartesian(c), Some(other), m, view, longBits) == Err(CoordinateComputation)
    ensures CentralAngleSpec(other, Some(Cartesian(c)), m, view, longBits) == Err(CoordinateComputation)
  {
    NegativeYNeverConverts(m, c.x, c.y, c.z);
  }
}
