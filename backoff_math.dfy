/**
 * Exact-arithmetic stand-ins for the floating-point helpers the back-off
 * strategy uses: `Math.pow` on an integral exponent, the `(int)` truncation of
 * a base-`b` logarithm, and Java's narrowing of a `double` to `long`.
 */
module BackOffMath {

  /** Bounds of Java's signed 64-bit `long`. */
  const LONG_MAX: int := 0x7FFF_FFFF_FFFF_FFFF
  const LONG_MIN: int := -0x8000_0000_0000_0000

  predicate IsLong(x: int) {
    LONG_MIN <= x <= LONG_MAX
  }

  /** `b` raised to the natural exponent `e`, exactly; a positive base gives a positive power. */
  function Pow(b: int, e: nat): (p: int)
    ensures b >= 1 ==> p >= 1
  {
    if e == 0 then
      1
    else
      var q := Pow(b, e - 1);
      assert b >= 1 ==> b * q >= 1 by {
        if b >= 1 {
          MulMonotone(b, 1, q);
        }
      }
      b * q
  }

  /** With a base of at least 2 the powers grow strictly with the exponent. */
  lemma {:induction false} PowStrictlyIncreasing(b: int, e1: nat, e2: nat)
    requires b >= 2
    requires e1 < e2
    ensures Pow(b, e1) < Pow(b, e2)
  {
    if e1 < e2 - 1 {
      PowStrictlyIncreasing(b, e1, e2 - 1);
    }
  }

  lemma PowMonotone(b: int, e1: nat, e2: nat)
    requires b >= 2
    requires e1 <= e2
    ensures Pow(b, e1) <= Pow(b, e2)
  {
    if e1 < e2 {
      PowStrictlyIncreasing(b, e1, e2);
    }
  }

  /**
   * The integer logarithm: the exponent of the largest power of `b` that does
   * not exceed `n`. This is `(int) log(b, n)` computed without rounding error.
   */
  function FloorLog(b: int, n: int): (k: nat)
    requires b >= 2 && n >= 1
    ensures Pow(b, k) <= n < Pow(b, k + 1)
    decreases n
  {
    if n < b then
      0
    else
      var k' := FloorLog(b, n / b);
      FloorLogStep(b, n, Pow(b, k'), Pow(b, k' + 1));
      k' + 1
  }

  /** One step of `FloorLog`: bracketing `n / b` between two powers brackets `n` by the next ones. */
  lemma FloorLogStep(b: int, n: int, lo: int, hi: int)
    requires b >= 2 && n >= b
    requires lo <= n / b < hi
    ensures b * lo <= n < b * hi
  {
    var q := n / b;
    assert b * q <= n < b * q + b by {
      assert n == b * q + n % b;
    }
    MulMonotone(b, lo, q);
    MulMonotone(b, q + 1, hi);
    assert b * (q + 1) == b * q + b;
  }

  lemma MulMonotone(c: int, x: int, y: int)
    requires c >= 0 && x <= y
    ensures c * x <= c * y
  {
  }

  /** The exponent `FloorLog` returns is the only one that brackets `n`. */
  lemma {:induction false} FloorLogUnique(b: int, n: int, k: nat)
    requires b >= 2 && n >= 1
    requires Pow(b, k) <= n < Pow(b, k + 1)
    ensures FloorLog(b, n) == k
  {
    var j := FloorLog(b, n);
    if j < k {
      PowMonotone(b, j + 1, k);
    } else if k < j {
      PowMonotone(b, k + 1, j);
    }
  }

  /** Java's `(long)` narrowing of an integral `double`: out-of-range values saturate. */
  function SaturateToLong(x: int): (r: int)
    ensures IsLong(r)
    ensures IsLong(x) ==> r == x
    ensures x > LONG_MAX ==> r == LONG_MAX
    ensures x < LONG_MIN ==> r == LONG_MIN
  {
    if x > LONG_MAX then LONG_MAX else if x < LONG_MIN then LONG_MIN else x
  }

  /** Rounding toward zero, the rounding of every Java cast from `double` to an integral type. */
  function TruncateTowardZero(x: real): (i: int)
    ensures x >= 0.0 ==> i as real <= x < i as real + 1.0
    ensures x < 0.0 ==> i as real - 1.0 < x <= i as real
  {
    if x >= 0.0 then x.Floor else -((-x).Floor)
  }

  /**
   * Java's `(long)` cast of a `double`: a long, and for a non-negative value
   * within range the largest integer not above it.
   */
  function LongCast(x: real): (r: int)
    ensures IsLong(r)
    ensures 0.0 <= x < LONG_MAX as real ==> r as real <= x < r as real + 1.0
  {
    SaturateToLong(TruncateTowardZero(x))
  }
}
