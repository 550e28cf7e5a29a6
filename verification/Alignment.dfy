/** The arithmetic of probe alignment: rounding, coverage of the window, minimality, idempotence. */
module Alignment {
  import opened Basics
  import Float64
  import opened ProbeModel
  import opened PodMutation

  /** However the float64 quotient is rounded to nearest, the other roundings of a tie included, its ceiling is the
      least integer whose multiple of the period reaches the window, and the conversion to int32 keeps it. */
  lemma CeilIsCeil(window: int32, period: int32, y: real)
    requires period > 0 && Float64.Nearest(Float64.Ratio(window, period), y)
    ensures (Float64.Ceil(y) - 1) * period < window <= Float64.Ceil(y) * period
    ensures Wrap32(Float64.Ceil(y)) == Float64.Ceil(y)
  {
    var n := 0 - (0 - window) / period;
    Float64.DivisionBounds(0 - window, period, (0 - window) / period);
    CeilingBounds(window, period, n);
    hide Float64.Nearest, Float64.Ratio;
    Float64.CeilOfNearest(window, period, n, y);
    Float64.QuotientInRange(window, period, n);
  }

  lemma CeilingBounds(v: int, b: int, n: int)
    requires b > 0 && (0 - n) * b <= 0 - v < (0 - n + 1) * b
    ensures (n - 1) * b < v <= n * b
  {
    assert (0 - n) * b == 0 - n * b;
    assert (0 - n + 1) * b == 0 - (n - 1) * b;
  }

  /** The quotient of the model is one of those. */
  lemma NeededIsCeil(window: int32, period: int32)
    requires period > 0
    ensures Float64.Nearest(Float64.Ratio(window, period), Float64.Quotient(window, period))
    ensures (NeededFailures(window, period) - 1) * period < window <= NeededFailures(window, period) * period
  {
    hide Float64.Nearest, Float64.Ratio, Float64.Quotient, Float64.Ceil;
    Float64.QuotientIsNearest(window, period);
    CeilIsCeil(window, period, Float64.Quotient(window, period));
  }

  /** The quotient fits an int32, so the conversion after Ceil is exact. */
  lemma NeededFits(window: int32, period: int32)
    requires period > 0
    ensures Wrap32(NeededFailures(window, period)) == NeededFailures(window, period)
    ensures window > 0 <==> NeededFailures(window, period) > 0
  {
    hide NeededFailures, Float64.Quotient, Float64.Ratio, Float64.Nearest;
    NeededIsCeil(window, period);
    var n := NeededFailures(window, period);
    Float64.QuotientInRange(window, period, n);
    CeilingSign(window, period, n);
  }

  lemma CeilingSign(v: int, b: nat, n: int)
    requires b > 0 && (n - 1) * b < v <= n * b
    ensures v > 0 <==> n > 0
  {
    if n > 0 {
      ProductIsNonNegative(n - 1, b);
    } else {
      ProductIsNonNegative(0 - n, b);
      assert (0 - n) * b == 0 - n * b;
    }
  }

  /** The new threshold covers the window or is the cap, even where the int32 product of the guard wraps. */
  lemma AlignmentCovers(p: Probe, window: int32, cap: int32)
    requires p.periodSeconds > 0 && p.failureThreshold >= 0
    ensures
      var t := AlignedThreshold(p, window, cap);
      p.periodSeconds * t >= window || t == cap
  {
    var d: int, f: int := p.periodSeconds, p.failureThreshold;
    var t := AlignedThreshold(p, window, cap);
    if WindowTooShort(p, window) {
      NeededIsCeil(window, p.periodSeconds);
      NeededFits(window, p.periodSeconds);
      var n := NeededFailures(window, p.periodSeconds);
      if t != cap {
        MultiplesGrow(n, t, d);
      }
    } else {
      ProductIsNonNegative(d, f);
    }
  }

  lemma ProductIsNonNegative(d: int, f: int)
    requires d >= 0 && f >= 0
    ensures d * f >= 0
  {}

  lemma MultiplesGrow(m: int, n: int, d: int)
    requires m <= n && d > 0
    ensures m * d <= n * d
    ensures d * n == n * d
  {
    assert (n - m) * d >= 0;
  }

  /** Alignment never changes a threshold that already covers the window, unless that threshold is above the cap
      and the product of the guard overflows. */
  lemma AlignmentLeavesEnough(p: Probe, window: int32, cap: int32)
    requires p.periodSeconds > 0 && p.failureThreshold >= 0
    requires p.periodSeconds * p.failureThreshold >= window
    requires p.failureThreshold <= cap || p.periodSeconds * p.failureThreshold <= 0x7FFF_FFFF
    ensures AlignedThreshold(p, window, cap) == p.failureThreshold
  {
    var d: int, f: int := p.periodSeconds, p.failureThreshold;
    ProductIsNonNegative(d, f);
    if WindowTooShort(p, window) {
      NeededIsCeil(window, p.periodSeconds);
      NeededFits(window, p.periodSeconds);
      var n := NeededFailures(window, p.periodSeconds);
      if n > f {
        MultiplesGrow(f, n - 1, d);
      }
    }
  }

  /** Within the cap, the new threshold is the least one from the old one upwards that covers the window. */
  lemma AlignmentIsLeast(p: Probe, window: int32, cap: int32, k: int32)
    requires p.periodSeconds > 0 && p.failureThreshold <= cap
    ensures p.failureThreshold <= AlignedThreshold(p, window, cap) <= cap
    ensures p.failureThreshold <= k && p.periodSeconds * k >= window ==> AlignedThreshold(p, window, cap) <= k
  {
    var d: int := p.periodSeconds;
    if WindowTooShort(p, window) {
      NeededIsCeil(window, p.periodSeconds);
      NeededFits(window, p.periodSeconds);
      var n := NeededFailures(window, p.periodSeconds);
      if k < n {
        MultiplesGrow(k, n - 1, d);
      }
    }
  }

  /** Aligning an aligned probe changes nothing: for every probe, window and cap. */
  lemma AlignmentIsIdempotent(p: Probe, window: int32, cap: int32)
    ensures
      var t := AlignedThreshold(p, window, cap);
      AlignedThreshold(p.(failureThreshold := t), window, cap) == t
  {}
}
