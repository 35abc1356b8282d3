/**
 * Java's 64-bit `long` arithmetic: timestamps and durations are longs, and a
 * subtraction of two longs wraps around modulo 2^64.
 */
module JavaLong {

  const LONG_MIN: int := -0x8000_0000_0000_0000
  const LONG_MAX: int := 0x7FFF_FFFF_FFFF_FFFF
  const TWO_TO_64: int := 0x1_0000_0000_0000_0000

  /** `Short.MAX_VALUE`, the port bound used by the race task. */
  const SHORT_MAX: int := 32767

  type Long = x: int | LONG_MIN <= x <= LONG_MAX

  /** Two's-complement narrowing of an integer to a long. */
  function Wrap(x: int): (r: Long)
    ensures LONG_MIN <= x <= LONG_MAX ==> r == x
    ensures (x - r) % TWO_TO_64 == 0
  {
    (x - LONG_MIN) % TWO_TO_64 + LONG_MIN
  }

  /** Java's `a - b` on longs. */
  function Sub(a: Long, b: Long): (r: Long)
    ensures LONG_MIN <= a - b <= LONG_MAX ==> r == a - b
    ensures (a - b - r) % TWO_TO_64 == 0
  {
    Wrap(a - b)
  }

  /** `Long.compare(x, y)`: -1, 0 or 1. */
  function LongCompare(x: Long, y: Long): (r: int)
    ensures r < 0 <==> x < y
    ensures r == 0 <==> x == y
    ensures r > 0 <==> x > y
    ensures -1 <= r <= 1
  {
    if x < y then -1 else if x == y then 0 else 1
  }

  /** A subtraction that stays in range is exact; in particular, on two clock readings. */
  lemma SubOfReadings(a: Long, b: Long)
    requires 0 <= b && 0 <= a
    ensures Sub(a, b) == a - b
  {
  }

  /** A subtraction that leaves the long range wraps to the other end. */
  lemma SubWrapsAround()
    ensures Sub(LONG_MAX, -1) == LONG_MIN
    ensures Sub(LONG_MIN, 1) == LONG_MAX
  {
  }

  /** A long congruent to `x` modulo 2^64 is `Wrap(x)`: the narrowing has exactly one result in range. */
  lemma WrapUnique(x: int, r: Long)
    requires (x - r) % TWO_TO_64 == 0
    ensures Wrap(x) == r
  {
    var w := Wrap(x);
    var q1 := (x - r) / TWO_TO_64;
    var q2 := (x - w) / TWO_TO_64;
    assert x - r == TWO_TO_64 * q1;
    assert x - w == TWO_TO_64 * q2;
    assert w - r == TWO_TO_64 * (q1 - q2);
  }

  /** Subtracting a difference from its minuend gives the subtrahend back, even across a wrap-around. */
  lemma SubSubCancels(a: Long, t: Long)
    ensures Sub(a, Sub(a, t)) == t
  {
    var d := Sub(a, t);
    var q := (a - t - d) / TWO_TO_64;
    assert a - t - d == TWO_TO_64 * q;
    assert (a - d) - t == TWO_TO_64 * q;
    assert ((a - d) - t) % TWO_TO_64 == 0;
    WrapUnique(a - d, t);
  }
}
