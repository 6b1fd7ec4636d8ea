/**
 * The back-off calculator consulted by the engine bootstrap between
 * reconfiguration attempts. The growth factor is an integer (at least 2
 * whenever capping is enabled) and the logarithm is the exact integer one.
 */
module BackOff {
  import opened BackOffMath

  /**
   * The configurations for which a maximum level is computed; any other one
   * is degenerate and gets a maximum level of 0.
   */
  predicate CappingEnabled(baseBackOffTime: int, backOffFactor: int, maxBackOffTime: int) {
    baseBackOffTime > 0 && maxBackOffTime > 0 && backOffFactor > 0 && maxBackOffTime >= baseBackOffTime
  }

  /**
   * The configurations the model admits: the two times are Java longs, and a
   * factor that enables capping is at least 2 (a factor of 1 divides by
   * log(1) = 0, and a fractional factor has a negative logarithm).
   */
  predicate WellFormedConfig(baseBackOffTime: int, backOffFactor: int, maxBackOffTime: int) {
    IsLong(baseBackOffTime) && IsLong(maxBackOffTime) &&
    (CappingEnabled(baseBackOffTime, backOffFactor, maxBackOffTime) ==> backOffFactor >= 2)
  }

  /**
   * The maximum back-off level fixed at construction: 0 for a degenerate
   * configuration, otherwise two more than the integer logarithm of
   * `maxBackOffTime / baseBackOffTime` (integer division), which makes
   * `maxBackOffTime / baseBackOffTime` lie in `[factor^(level-2), factor^(level-1))`.
   */
  function MaxBackOffLevel(baseBackOffTime: int, backOffFactor: int, maxBackOffTime: int): (level: nat)
    requires WellFormedConfig(baseBackOffTime, backOffFactor, maxBackOffTime)
    ensures !CappingEnabled(baseBackOffTime, backOffFactor, maxBackOffTime) ==> level == 0
    ensures CappingEnabled(baseBackOffTime, backOffFactor, maxBackOffTime) ==>
      level >= 2 &&
      Pow(backOffFactor, level - 2) <= maxBackOffTime / baseBackOffTime < Pow(backOffFactor, level - 1)
  {
    if CappingEnabled(baseBackOffTime, backOffFactor, maxBackOffTime) then
      assert maxBackOffTime / baseBackOffTime >= 1 by {
        QuotientAtLeastOne(maxBackOffTime, baseBackOffTime);
      }
      FloorLog(backOffFactor, maxBackOffTime / baseBackOffTime) + 1 + 1
    else
      0
  }

  lemma QuotientAtLeastOne(n: int, d: int)
    requires 0 < d <= n
    ensures n / d >= 1
  {
    assert n == d * (n / d) + n % d;
  }

  /**
   * The wait computed for a non-zero level below the plateau, before the
   * factor is incremented: `base * factor^(level-1)` narrowed to a long, and
   * with jitter `waitTime + (random + waitTime)` narrowed again. It is a long,
   * and with a positive base and factor at least one millisecond, so a level
   * below the plateau always makes the loop sleep.
   */
  function ComputedWait(baseBackOffTime: int, backOffFactor: int, backOffLevel: nat, applyJitter: bool, random: real): (w: int)
    requires backOffLevel >= 1
    ensures IsLong(w)
    ensures baseBackOffTime >= 1 && backOffFactor >= 1 && 0.0 <= random ==> w >= 1
  {
    var p := Pow(backOffFactor, backOffLevel - 1);
    var waitTime := SaturateToLong(baseBackOffTime * p);
    assert baseBackOffTime >= 1 && backOffFactor >= 1 ==> waitTime >= 1 by {
      if baseBackOffTime >= 1 && backOffFactor >= 1 {
        MulMonotone(baseBackOffTime, 1, p);
      }
    }
    if applyJitter then LongCast(waitTime as real + (random + waitTime as real)) else waitTime
  }

  class BackOffProcessEngineStrategy {
    var baseBackOffTime: int
    var backOffFactor: int
    /** Never assigned after construction: the strategy stays at level 0. */
    var backOffLevel: nat
    var maxBackOffLevel: int
    var maxBackOffTime: int
    var applyJitter: bool

    /**
     * A positive maximum level only arises from a configuration that enables
     * capping, and the factor only grows from there.
     */
    ghost predicate Valid()
      reads this
    {
      IsLong(baseBackOffTime) && IsLong(maxBackOffTime) &&
      (maxBackOffLevel > 0 ==>
        baseBackOffTime > 0 && maxBackOffTime >= baseBackOffTime && backOffFactor >= 2)
    }

    constructor (baseBackOffTime: int, backOffFactor: int, maxBackOffTime: int, applyJitter: bool)
      requires WellFormedConfig(baseBackOffTime, backOffFactor, maxBackOffTime)
      ensures Valid()
      ensures this.baseBackOffTime == baseBackOffTime && this.backOffFactor == backOffFactor
      ensures this.maxBackOffTime == maxBackOffTime && this.applyJitter == applyJitter
      ensures backOffLevel == 0
      ensures maxBackOffLevel == MaxBackOffLevel(baseBackOffTime, backOffFactor, maxBackOffTime)
    {
      this.baseBackOffTime := baseBackOffTime;
      this.backOffFactor := backOffFactor;
      this.maxBackOffTime := maxBackOffTime;
      this.applyJitter := applyJitter;
      backOffLevel := 0;
      maxBackOffLevel := 0;
      new;
      InitMaxBackOffLevel();
    }

    method InitMaxBackOffLevel()
      requires WellFormedConfig(baseBackOffTime, backOffFactor, maxBackOffTime)
      modifies this`maxBackOffLevel
      ensures maxBackOffLevel == MaxBackOffLevel(baseBackOffTime, backOffFactor, maxBackOffTime)
    {
      if baseBackOffTime > 0 && maxBackOffTime > 0 && backOffFactor > 0 && maxBackOffTime >= baseBackOffTime {
        QuotientAtLeastOne(maxBackOffTime, baseBackOffTime);
        // the highest level whose wait does not exceed maxBackOffTime ...
        maxBackOffLevel := FloorLog(backOffFactor, maxBackOffTime / baseBackOffTime) + 1;
        // ... and one more: the lowest level whose wait would exceed it
        maxBackOffLevel := maxBackOffLevel + 1;
      } else {
        maxBackOffLevel := 0;
      }
    }

    /**
     * Level 0 waits nothing, a level at or past the maximum waits exactly
     * `maxBackOffTime`, and any other level waits the computed time and bumps
     * the factor by one. No other field changes, whatever the branch.
     */
    method GetWaitTime(random: real) returns (waitTime: int)
      requires Valid()
      requires 0.0 <= random < 1.0
      modifies this`backOffFactor
      ensures Valid()
      ensures backOffLevel == 0 ==>
        waitTime == 0 && backOffFactor == old(backOffFactor)
      ensures backOffLevel != 0 && backOffLevel >= maxBackOffLevel ==>
        waitTime == maxBackOffTime && backOffFactor == old(backOffFactor)
      ensures 0 < backOffLevel < maxBackOffLevel ==>
        waitTime == ComputedWait(baseBackOffTime, old(backOffFactor), backOffLevel, applyJitter, random) &&
        backOffFactor == old(backOffFactor) + 1
    {
      if backOffLevel == 0 {
        return 0;
      } else if backOffLevel >= maxBackOffLevel {
        return maxBackOffTime;
      } else {
        waitTime := CalculateWaitTime(random);
      }
    }

    method CalculateWaitTime(random: real) returns (waitTime: int)
      requires backOffLevel >= 1
      requires 0.0 <= random < 1.0
      modifies this`backOffFactor
      ensures waitTime == ComputedWait(baseBackOffTime, old(backOffFactor), backOffLevel, applyJitter, random)
      ensures backOffFactor == old(backOffFactor) + 1
    {
      waitTime := SaturateToLong(baseBackOffTime * Pow(backOffFactor, backOffLevel - 1));
      if applyJitter {
        waitTime := LongCast(waitTime as real + (random + waitTime as real));
      }
      backOffFactor := backOffFactor + 1;
    }
  }

  /**
   * Below the plateau, and with the factor the strategy was built with, the
   * computed wait is the exact geometric term and never exceeds the maximum
   * time, so the narrowing to long loses nothing.
   */
  lemma WaitBelowPlateauWithinMax(baseBackOffTime: int, backOffFactor: int, maxBackOffTime: int, level: nat, random: real)
    requires WellFormedConfig(baseBackOffTime, backOffFactor, maxBackOffTime)
    requires 1 <= level < MaxBackOffLevel(baseBackOffTime, backOffFactor, maxBackOffTime)
    ensures ComputedWait(baseBackOffTime, backOffFactor, level, false, random) ==
      baseBackOffTime * Pow(backOffFactor, level - 1)
    ensures 0 < ComputedWait(baseBackOffTime, backOffFactor, level, false, random) <= maxBackOffTime
  {
    var maxLevel := MaxBackOffLevel(baseBackOffTime, backOffFactor, maxBackOffTime);
    PowMonotone(backOffFactor, level - 1, maxLevel - 2);
    ScaledQuotientWithin(baseBackOffTime, maxBackOffTime, Pow(backOffFactor, level - 1));
  }

  /** A positive multiple of `d` by at most `n / d` lies in `(0, n]`. */
  lemma ScaledQuotientWithin(d: int, n: int, p: int)
    requires d > 0 && 1 <= p <= n / d
    ensures 0 < d * p <= n
  {
    MulMonotone(d, p, n / d);
    MulMonotone(d, 1, p);
    assert n == d * (n / d) + n % d;
  }

  /**
   * At the maximum level the geometric formula would pass the maximum time:
   * the plateau starts exactly where the uncapped wait first exceeds it.
   */
  lemma PlateauLevelWouldExceedMax(baseBackOffTime: int, backOffFactor: int, maxBackOffTime: int)
    requires WellFormedConfig(baseBackOffTime, backOffFactor, maxBackOffTime)
    requires CappingEnabled(baseBackOffTime, backOffFactor, maxBackOffTime)
    ensures baseBackOffTime * Pow(backOffFactor, MaxBackOffLevel(baseBackOffTime, backOffFactor, maxBackOffTime) - 1) > maxBackOffTime
  {
    var maxLevel := MaxBackOffLevel(baseBackOffTime, backOffFactor, maxBackOffTime);
    ScaledQuotientExceeds(baseBackOffTime, maxBackOffTime, Pow(backOffFactor, maxLevel - 1));
  }

  /** A multiple of `d` by more than `n / d` exceeds `n`. */
  lemma ScaledQuotientExceeds(d: int, n: int, p: int)
    requires d > 0 && p > n / d
    ensures d * p > n
  {
    var q := n / d;
    assert n < d * (q + 1) by {
      assert n == d * q + n % d;
    }
    MulMonotone(d, q + 1, p);
  }

  /** With the factor unchanged, the waits of levels 1 .. maxLevel-1 strictly increase. */
  lemma WaitsIncreaseBelowPlateau(baseBackOffTime: int, backOffFactor: int, maxBackOffTime: int, l1: nat, l2: nat, random: real)
    requires WellFormedConfig(baseBackOffTime, backOffFactor, maxBackOffTime)
    requires 1 <= l1 < l2 < MaxBackOffLevel(baseBackOffTime, backOffFactor, maxBackOffTime)
    ensures ComputedWait(baseBackOffTime, backOffFactor, l1, false, random) <
      ComputedWait(baseBackOffTime, backOffFactor, l2, false, random)
  {
    WaitBelowPlateauWithinMax(baseBackOffTime, backOffFactor, maxBackOffTime, l1, random);
    WaitBelowPlateauWithinMax(baseBackOffTime, backOffFactor, maxBackOffTime, l2, random);
    PowStrictlyIncreasing(backOffFactor, l1 - 1, l2 - 1);
    MulStrictlyMonotone(baseBackOffTime, Pow(backOffFactor, l1 - 1), Pow(backOffFactor, l2 - 1));
  }

  lemma MulStrictlyMonotone(c: int, x: int, y: int)
    requires c > 0 && x < y
    ensures c * x < c * y
  {
    MulMonotone(c, x + 1, y);
  }

  /**
   * Jitter turns a non-negative computed wait `w` into `(long)(w + (random + w))`,
   * which for a random value in [0, 1) is `2 * w` narrowed to a long.
   */
  lemma JitterDoublesWait(baseBackOffTime: int, backOffFactor: int, level: nat, random: real)
    requires level >= 1
    requires 0.0 <= random < 1.0
    requires ComputedWait(baseBackOffTime, backOffFactor, level, false, random) >= 0
    ensures ComputedWait(baseBackOffTime, backOffFactor, level, true, random) ==
      SaturateToLong(2 * ComputedWait(baseBackOffTime, backOffFactor, level, false, random))
  {
    var w := ComputedWait(baseBackOffTime, backOffFactor, level, false, random);
    var x := w as real + (random + w as real);
    assert x == (2 * w) as real + random;
    var t := TruncateTowardZero(x);
    assert t == 2 * w;
  }

  /**
   * Base 500 ms, factor 2, maximum 6000 ms: the maximum level is 5, and levels
   * 1 to 4 compute 500, 1000, 2000 and 4000 ms (before the factor grows).
   */
  lemma ExampleSchedule(random: real)
    ensures MaxBackOffLevel(500, 2, 6000) == 5
    ensures ComputedWait(500, 2, 1, false, random) == 500
    ensures ComputedWait(500, 2, 2, false, random) == 1000
    ensures ComputedWait(500, 2, 3, false, random) == 2000
    ensures ComputedWait(500, 2, 4, false, random) == 4000
  {
    assert Pow(2, 3) == 8 && Pow(2, 4) == 16;
    FloorLogUnique(2, 6000 / 500, 3);
  }
}
