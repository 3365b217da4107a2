/**
 * Kotlin's fixed-width integers. Dafny's `int` is unbounded, so the 32-bit
 * wrap-around of `Int` arithmetic and of `Long.toInt()` is written out here.
 */
module JvmInts {
  const TwoTo32: int := 0x1_0000_0000
  const MinInt32: int := -0x8000_0000
  const MaxInt32: int := 0x7fff_ffff

  /** Kotlin `Int`. */
  newtype Int32 = x: int | -0x8000_0000 <= x < 0x8000_0000

  /** Kotlin `Long`. */
  newtype Int64 = x: int | -0x8000_0000_0000_0000 <= x < 0x8000_0000_0000_0000

  /**
   * The one 32-bit two's-complement value congruent to `x` modulo 2^32: what
   * an overflowing `Int` product and `Long.toInt()` keep of a value.
   */
  function Wrap32(x: int): (r: Int32)
    ensures (r as int - x) % TwoTo32 == 0
    ensures MinInt32 <= x <= MaxInt32 ==> r as int == x
  {
    var m := x % TwoTo32;
    if m <= MaxInt32 then m as Int32 else (m - TwoTo32) as Int32
  }

  /** Wrap32 is the only value of its range congruent to `x`. */
  lemma Wrap32Unique(x: int, y: Int32)
    requires (y as int - x) % TwoTo32 == 0
    ensures y == Wrap32(x)
  {
    var r := Wrap32(x);
    assert ((y as int - x) - (r as int - x)) % TwoTo32 == 0;
    assert (y as int - r as int) % TwoTo32 == 0;
  }
}
