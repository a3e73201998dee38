/**
 * Exact integer arithmetic for the percentages the scoring engines compute.
 *
 * The source computes `(a / b) * 100` in floating point, rounds it with
 * `Math.round` (halves go up) for display, and compares the unrounded value
 * against thresholds to pick a band. Both are expressed here on integers:
 * `Math.round(100 * a / b)` is `floor((200 * a + b) / (2 * b))`, and
 * `100 * a / b >= t` is `100 * a >= t * b`, for every `b > 0`.
 */
module Percent {

  /** Floor division by a positive divisor, written out by repeated
      subtraction so that it is unfolded only as far as a proof needs. */
  function FloorDiv(x: int, y: int): int
    requires y > 0
    decreases if x < 0 then y - x else x
  {
    if x < 0 then FloorDiv(x + y, y) - 1
    else if x < y then 0
    else 1 + FloorDiv(x - y, y)
  }

  /** `FloorDiv` is floor division: `y * q <= x < y * q + y`. */
  lemma {:induction false} FloorDivSpec(x: int, y: int)
    requires y > 0
    ensures y * FloorDiv(x, y) <= x < y * FloorDiv(x, y) + y
    decreases if x < 0 then y - x else x
  {
    if x < 0 {
      FloorDivSpec(x + y, y);
      var q := FloorDiv(x + y, y);
      assert y * (q - 1) == y * q - y;
    } else if x >= y {
      FloorDivSpec(x - y, y);
      var q := FloorDiv(x - y, y);
      assert y * (1 + q) == y + y * q;
    }
  }

  /** `Math.round((a / b) * 100)` when `b > 0`: the integer nearest `100a/b`,
      halves rounding up. 0 when the maximum is 0, which is how every caller
      in the source guards the division. */
  function RoundedPercent(a: int, b: int): (r: int)
    ensures b <= 0 ==> r == 0
    ensures b > 0 ==> 2 * b * r <= 200 * a + b < 2 * b * r + 2 * b
  {
    if b > 0 then
      FloorDivSpec(200 * a + b, 2 * b);
      FloorDiv(200 * a + b, 2 * b)
    else 0
  }

  /** Only one integer is that near: any `r` within half a point of
      `100 * a / b` is the rounded percentage. */
  lemma {:induction false} RoundedPercentUnique(a: int, b: int, r: int)
    requires b > 0
    requires 2 * b * r <= 200 * a + b < 2 * b * r + 2 * b
    ensures RoundedPercent(a, b) == r
  {
    var q := RoundedPercent(a, b);
    if q < r {
      MulMonotone(q + 1, r, 2 * b);
      assert false;
    }
    if q > r {
      MulMonotone(r + 1, q, 2 * b);
      assert false;
    }
  }

  /** The unrounded percentage `(a / b) * 100` is at least `t`; the
      percentage of an empty maximum is 0. */
  predicate PercentAtLeast(a: int, b: int, t: int)
  {
    if b > 0 then 100 * a >= t * b else 0 >= t
  }

  /** Multiplying by a positive factor is monotone (a helper for the bounds below). */
  lemma MulMonotone(x: int, y: int, k: int)
    requires x <= y && k >= 0
    ensures x * k <= y * k
  {
  }

  /** A positive factor can be cancelled from a strict inequality. */
  lemma MulCancelLess(x: int, y: int, k: int)
    requires k > 0 && k * x < k * y
    ensures x < y
  {
    if x >= y {
      MulMonotone(y, x, k);
    }
  }

  /** A share of a maximum rounds to a percentage in 0..100. */
  lemma {:induction false} RoundedPercentInRange(a: int, b: int)
    requires 0 <= a <= b
    ensures 0 <= RoundedPercent(a, b) <= 100
  {
    if b > 0 {
      var r := RoundedPercent(a, b);
      if r > 100 {
        MulMonotone(a, b, 200);
        MulMonotone(101, r, 2 * b);
        assert false;
      }
      if r < 0 {
        MulMonotone(r, -1, 2 * b);
        assert false;
      }
    }
  }

  /** The whole maximum rounds to exactly 100, nothing to exactly 0. */
  lemma RoundedPercentEnds(b: int)
    requires b > 0
    ensures RoundedPercent(b, b) == 100
    ensures RoundedPercent(0, b) == 0
  {
    RoundedPercentUnique(b, b, 100);
    RoundedPercentUnique(0, b, 0);
  }

  /** A larger share never rounds to a smaller percentage. */
  lemma {:induction false} RoundedPercentMonotone(a1: int, a2: int, b: int)
    requires a1 <= a2
    ensures RoundedPercent(a1, b) <= RoundedPercent(a2, b)
  {
    if b > 0 {
      var r1, r2 := RoundedPercent(a1, b), RoundedPercent(a2, b);
      assert 2 * b * r1 < 2 * b * (r2 + 1);
      MulCancelLess(r1, r2 + 1, 2 * b);
    }
  }

  /** Scaling both the score and the maximum by the same positive factor
      (the DASS-21 doubling) does not change the percentage. */
  lemma {:induction false} RoundedPercentScale(a: int, b: int, k: int)
    requires k > 0
    ensures RoundedPercent(k * a, k * b) == RoundedPercent(a, b)
  {
    if b > 0 {
      var r := RoundedPercent(a, b);
      var x := 200 * a + b;
      assert k * b > 0 by { MulMonotone(1, k, b); }
      assert k * (2 * b * r) <= k * x < k * (2 * b * r + 2 * b) by {
        MulMonotone(2 * b * r, x, k);
        MulMonotone(x + 1, 2 * b * r + 2 * b, k);
      }
      assert 200 * (k * a) + k * b == k * x;
      RoundedPercentUnique(k * a, k * b, r);
    } else {
      if b < 0 {
        assert k * b < 0 by { MulMonotone(b, -1, k); }
      }
    }
  }

  /** The rounded percentage reaches a threshold whenever the unrounded one does. */
  lemma {:induction false} RoundedReachesThreshold(a: int, b: int, t: int)
    requires b > 0 && PercentAtLeast(a, b, t)
    ensures RoundedPercent(a, b) >= t
  {
    var r := RoundedPercent(a, b);
    if r < t {
      MulMonotone(r + 1, t, 2 * b);
      assert false;
    }
  }
}
