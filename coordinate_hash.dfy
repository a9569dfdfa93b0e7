/** `doGetHashCode` of CartesianCoordinate and SphericCoordinate, and
    `hashCode` of the legacy mutable Coordinate: the same 31-based fold over
    the long bits of three doubles, in 32-bit wrap-around arithmetic. */
module CoordinateHash {
  import opened JavaDouble

  /** A Java long as its two 32-bit words. */
  datatype LongWords = LongWords(high: bv32, low: bv32)

  /** `Double.doubleToLongBits`, which the model does not compute. */
  type LongBits = Double -> LongWords

  /** `(int) (temp ^ (temp >>> 32))`: the shift brings the high word onto
      the low word and the cast keeps the low word, so the result is the
      xor of the two words. */
  function FoldLong(temp: LongWords): bv32
  {
    temp.low ^ temp.high
  }

  /** Three doubles: (x, y, z) or (phi, theta, radius). */
  datatype Triple = Triple(v1: Double, v2: Double, v3: Double)

  /** A Java int from its 32 bits, in two's complement. */
  function ToJavaInt(b: bv32): (i: int)
  {
    if b < 0x8000_0000 then b as int else b as int - 0x1_0000_0000
  }

  /** The body of `doGetHashCode` over the three folded words: starting
      from 1, each word in turn does `result = 31 * result + word`. */
  function HashFold(a: bv32, b: bv32, c: bv32): bv32
  {
    31 * (31 * (31 * 1 + a) + b) + c
  }

  /** The fold is the polynomial 31^3 + 31^2 a + 31 b + c modulo 2^32. */
  lemma HashFoldIsPolynomial(a: bv32, b: bv32, c: bv32)
    ensures HashFold(a, b, c) == 29791 + 961 * a + 31 * b + c
  {
  }

  /** `doGetHashCode(v1, v2, v3)`: the fold of the long bits of the three
      arguments in order, read as a Java int. */
  function DoGetHashCode(longBits: LongBits, v1: Double, v2: Double, v3: Double): int
  {
    ToJavaInt(HashFold(FoldLong(longBits(v1)), FoldLong(longBits(v2)), FoldLong(longBits(v3))))
  }

  /** The interning key of a triple. */
  function KeyOf(longBits: LongBits, t: Triple): int
  {
    DoGetHashCode(longBits, t.v1, t.v2, t.v3)
  }
}
