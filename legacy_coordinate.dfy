/** org.wahlzeit.model.Coordinate: the older mutable x/y/z class. Its
    setters overwrite fields in place; equality uses its own, much tighter
    epsilon of 1e-15; its hash is the fold the interning tables use. */
module LegacyCoordinate {
  import opened JavaDouble
  import opened Outcomes
  import opened JavaMath
  import opened CoordinateHash
  import opened ConversionFormulas
  import DoubleValuesUtil

  /** `EPSm15` */
  const EPSm15: real := 0.000000000000001

  /** The private `compareDoubles`: false when either is NaN, otherwise
      `|a - b| < EPSm15`; on infinities the Java expression is false too. */
  function CompareDoubles(a: Double, b: Double): (r: bool)
    ensures IsNaN(a) || IsNaN(b) ==> !r
    ensures r <==> a.Finite? && b.Finite? && RealAbs(a.v - b.v) < EPSm15
  {
    if IsNaN(a) || IsNaN(b) then false
    else Lt(Abs(Sub(a, b)), Finite(EPSm15))
  }

  /** Two values equal under the legacy epsilon are equal under the 1e-8
      epsilon of DoubleValuesUtil; the converse fails, for instance for 0
      and 1e-10. */
  lemma LegacyComparisonIsStricter(a: Double, b: Double)
    ensures CompareDoubles(a, b) ==> DoubleValuesUtil.CompareDoubles(a, b)
    ensures DoubleValuesUtil.CompareDoubles(ZERO, Finite(0.0000000001))
    ensures !CompareDoubles(ZERO, Finite(0.0000000001))
  {
    assert 0.0000000001 < DoubleValuesUtil.EPSm8;
  }

  lemma CompareDoublesSymmetric(a: Double, b: Double)
    ensures CompareDoubles(a, b) == CompareDoubles(b, a)
  {
  }

  /** All three components pass the legacy `compareDoubles`. */
  predicate Close15(a: Triple, b: Triple)
  {
    CompareDoubles(a.v1, b.v1) && CompareDoubles(a.v2, b.v2) && CompareDoubles(a.v3, b.v3)
  }

  /** A value compares equal to itself exactly when it is finite, so a
      coordinate with a NaN or infinite component is not `isEqual` to its
      own values. */
  lemma Close15Reflexive(t: Triple)
    ensures Close15(t, t) <==> AllFinite(t)
  {
  }

  class Coordinate {
    var x: Double
    var y: Double
    var z: Double

    /** The constructor stores its arguments unchanged. */
    constructor(x: Double, y: Double, z: Double)
      ensures Fields() == Triple(x, y, z)
    {
      this.x := x;
      this.y := y;
      this.z := z;
    }

    /** The three getters, as one value. */
    function Fields(): Triple
      reads this
    {
      Triple(x, y, z)
    }

    /** `setX`: overwrites x only. */
    method SetX(v: Double)
      modifies this
      ensures Fields() == old(Fields()).(v1 := v)
    {
      x := v;
    }

    /** `setY`: overwrites y only. */
    method SetY(v: Double)
      modifies this
      ensures Fields() == old(Fields()).(v2 := v)
    {
      y := v;
    }

    /** `setZ`: overwrites z only. */
    method SetZ(v: Double)
      modifies this
      ensures Fields() == old(Fields()).(v3 := v)
    {
      z := v;
    }

    /** `getDistance`: `sqrt(pow(x1 - x2, 2) + pow(y1 - y2, 2) + pow(z1 - z2, 2))`.
        A null argument makes the first getter call throw. The result is
        never a negative number and is the distance formula the coordinate
        classes use. */
    function GetDistance(m: MathLib, coordinate: Coordinate?): (r: Result<Double>)
      reads this, coordinate
      ensures coordinate == null <==> r == Err(NullPointer)
      ensures r.Ok? ==> NotNegative(r.value)
      ensures r.Ok? ==> r.value == CartesianDistance(m, Fields(), coordinate.Fields())
    {
      if coordinate == null then Err(NullPointer)
      else Ok(m.sqrt(Add(Add(m.pow(Sub(x, coordinate.x), TWO),
                             m.pow(Sub(y, coordinate.y), TWO)),
                         m.pow(Sub(z, coordinate.z), TWO))))
    }

    /** `isEqual`: false for null, otherwise all three components compare
        equal under the legacy epsilon. */
    function IsEqual(coordinate: Coordinate?): (r: bool)
      reads this, coordinate
      ensures coordinate == null ==> !r
      ensures coordinate != null ==> (r <==> Close15(Fields(), coordinate.Fields()))
    {
      coordinate != null
      && CompareDoubles(x, coordinate.x)
      && CompareDoubles(y, coordinate.y)
      && CompareDoubles(z, coordinate.z)
    }

    /** `equals`: true for the same reference, false for null and for an
        object of another runtime class, otherwise `isEqual`. */
    function Equals(obj: Object): (r: bool)
      reads this, if obj.CoordinateObject? then {obj.coordinate} else {}
      ensures obj == CoordinateObject(this) ==> r
      ensures obj.Null? || obj.OtherObject? ==> !r
      ensures obj.CoordinateObject? && obj.coordinate != this ==> (r <==> IsEqual(obj.coordinate))
    {
      match obj
      case Null => false
      case OtherObject => false
      case CoordinateObject(c) => c == this || IsEqual(c)
    }

    /** `hashCode`: the fold of the immutable coordinate classes over the
        current field values, so it is the key those classes would intern
        the same triple under, and it follows every setter. */
    function HashCode(longBits: LongBits): (r: int)
      reads this
      ensures r == KeyOf(longBits, Fields())
    {
      DoGetHashCode(longBits, x, y, z)
    }
  }

  /** What `equals` can be handed. */
  datatype Object = Null | CoordinateObject(coordinate: Coordinate) | OtherObject

  /** `equals` is reflexive by reference even when `isEqual` is not: a
      coordinate with a NaN component equals itself but is not `isEqual` to
      itself. */
  lemma SelfEqualityIsByReference(c: Coordinate)
    requires c.x.NaN?
    ensures c.Equals(CoordinateObject(c))
    ensures !c.IsEqual(c)
  {
  }

  /** On two distinct coordinates `equals` is symmetric. */
  lemma EqualsSymmetric(a: Coordinate, b: Coordinate)
    ensures a.Equals(CoordinateObject(b)) == b.Equals(CoordinateObject(a))
  {
    if a != b {
      CompareDoublesSymmetric(a.x, b.x);
      CompareDoublesSymmetric(a.y, b.y);
      CompareDoublesSymmetric(a.z, b.z);
    }
  }

  /** The distance from a finite coordinate to one with the same values is
      zero. */
  lemma DistanceToSameValuesIsZero(m: MathLib, a: Coordinate, b: Coordinate)
    requires Laws(m)
    requires AllFinite(a.Fields()) && a.Fields() == b.Fields()
    ensures a.GetDistance(m, b) == Ok(ZERO)
  {
    ConversionFormulas.DistanceToSameValuesIsZero(m, a.Fields());
  }
}
