/** The helpers behind the channel commands: the default limits, building
    limits from counts or pulse widths, the limits check, and the two unit
    conversions (pulse width to count, percent of range to count). Their
    bodies are not part of this model; each is specified from the channel
    tests and the error messages that report their failures. */
module Limits {
  import opened Pwm

  /** Limits are compared through their count range, which is present once a
      channel's limits are configured. */
  predicate Canonical(l: ChannelLimits) {
    l.countLimits.Some?
  }

  function MinCount(l: ChannelLimits): U16
    requires Canonical(l)
  {
    l.countLimits.value.minOnCount
  }

  function MaxCount(l: ChannelLimits): U16
    requires Canonical(l)
  {
    l.countLimits.value.maxOnCount
  }

  /** The limits of a channel that has none of its own: every count up to and
      including the full-on sentinel. */
  function DefaultLimits(): (l: ChannelLimits)
    ensures Canonical(l) && MinCount(l) == 0 && MaxCount(l) == PwmResolution
  {
    ChannelLimits(Some(ChannelCountLimits(0, PwmResolution)), None)
  }

  /** The limits a channel's counts are checked against: its own if it has
      any, otherwise the default. */
  function EffectiveLimits(custom: Option<ChannelLimits>): (l: ChannelLimits)
    requires custom.Some? ==> Canonical(custom.value)
    ensures Canonical(l)
    ensures custom.None? ==> l == DefaultLimits()
    ensures custom.Some? ==> l == custom.value
  {
    match custom
    case Some(c) => c
    case None => DefaultLimits()
  }

  function FromCountLimits(minOnCount: U16, maxOnCount: U16): (l: ChannelLimits)
    ensures Canonical(l) && MinCount(l) == minOnCount && MaxCount(l) == maxOnCount
    ensures l.pwLimits.None?
  {
    ChannelLimits(Some(ChannelCountLimits(minOnCount, maxOnCount)), None)
  }

  /** A count is accepted when it lies in the closed count range. */
  predicate IsValid(l: ChannelLimits, count: int)
    requires Canonical(l)
    ensures l == DefaultLimits() ==> (IsValid(l, count) <==> 0 <= count <= PwmResolution)
    ensures MaxCount(l) < MinCount(l) ==> !IsValid(l, count)
    ensures IsValid(l, count) ==> 0 <= count
  {
    MinCount(l) <= count <= MaxCount(l)
  }

  /** The clock constants a channel is built with: a positive cycle length
      split into PwmResolution equal counts. */
  predicate ClockValid(clock: PcaClockConfig) {
    clock.maxPwMs > 0.0 && clock.singlePwDurationMs == clock.maxPwMs / PwmResolution as real
  }

  /** A pulse width in range divided by the count duration is at most
      PwmResolution. */
  lemma QuotientBounds(clock: PcaClockConfig, pw: real)
    requires ClockValid(clock) && 0.0 <= pw <= clock.maxPwMs
    ensures 0.0 <= pw / clock.singlePwDurationMs <= PwmResolution as real
    ensures (pw / clock.singlePwDurationMs) * clock.singlePwDurationMs == pw
  {
    var d := clock.singlePwDurationMs;
    assert d > 0.0;
    assert pw / d == pw * PwmResolution as real / clock.maxPwMs;
    assert pw * PwmResolution as real <= clock.maxPwMs * PwmResolution as real;
  }

  /** Converts a pulse width to a count, truncating: `floor(pw / duration)`.
      A negative width or one beyond the cycle length is a range error. */
  function PwToCount(clock: PcaClockConfig, pwMs: real): (r: Result<U16>)
    requires ClockValid(clock)
    ensures r.Ok? <==> 0.0 <= pwMs <= clock.maxPwMs
    ensures r.Err? ==> r.error == PulseWidthRangeError(pwMs, clock.maxPwMs)
    ensures r.Ok? ==> r.value <= PwmResolution
  {
    if pwMs < 0.0 || pwMs > clock.maxPwMs then
      Err(PulseWidthRangeError(pwMs, clock.maxPwMs))
    else
      QuotientBounds(clock, pwMs);
      Ok((pwMs / clock.singlePwDurationMs).Floor)
  }

  /** The conversion truncates: the count's duration never exceeds the
      requested width and one more count would. */
  lemma PwToCountTruncates(clock: PcaClockConfig, pwMs: real)
    requires ClockValid(clock) && 0.0 <= pwMs <= clock.maxPwMs
    ensures PwToCount(clock, pwMs).Ok?
    ensures var n := PwToCount(clock, pwMs).value;
      n as real * clock.singlePwDurationMs <= pwMs < (n as real + 1.0) * clock.singlePwDurationMs
  {
    var d := clock.singlePwDurationMs;
    var x := pwMs / d;
    QuotientBounds(clock, pwMs);
    var n := x.Floor;
    assert PwToCount(clock, pwMs).value == n;
    assert n as real <= x < n as real + 1.0;
    ScaleFloorBounds(x, d, pwMs, n);
    assert n as real * d <= pwMs < (n as real + 1.0) * d;
  }

  /** From `n <= x < n + 1` and `x * d == pw` with `d > 0`: `n * d <= pw < (n + 1) * d`. */
  lemma ScaleFloorBounds(x: real, d: real, pw: real, n: int)
    requires d > 0.0 && x * d == pw && n as real <= x < n as real + 1.0
    ensures n as real * d <= pw < (n as real + 1.0) * d
  {
    var lo, hi := n as real, n as real + 1.0;
    MulMonotone(lo, x, d);
    assert lo * d <= x * d;
    MulStrict(x, hi, d);
    assert x * d < hi * d;
  }

  /** `q * b == c` and `k * b <= c` with `b > 0` give `k <= q`. */
  lemma AtLeastFromProduct(q: real, b: real, c: real, k: real)
    requires b > 0.0 && q * b == c && k * b <= c
    ensures k <= q
  {
    MulMonotone(k * b, c, 1.0 / b);
    assert k * b * (1.0 / b) == k;
    assert c * (1.0 / b) == q;
  }

  /** `q * b == c` and `c < k * b` with `b > 0` give `q < k`. */
  lemma BelowFromProduct(q: real, b: real, c: real, k: real)
    requires b > 0.0 && q * b == c && c < k * b
    ensures q < k
  {
    MulStrict(c, k * b, 1.0 / b);
    assert k * b * (1.0 / b) == k;
    assert c * (1.0 / b) == q;
  }

  lemma MulMonotone(a: real, b: real, d: real)
    requires a <= b && d > 0.0
    ensures a * d <= b * d
  {
  }

  lemma MulStrict(a: real, b: real, d: real)
    requires a < b && d > 0.0
    ensures a * d < b * d
  {
  }

  /** A wider pulse never gives a smaller count. */
  lemma PwToCountMonotonic(clock: PcaClockConfig, pw1: real, pw2: real)
    requires ClockValid(clock) && 0.0 <= pw1 <= pw2 <= clock.maxPwMs
    ensures PwToCount(clock, pw1).Ok? && PwToCount(clock, pw2).Ok?
    ensures PwToCount(clock, pw1).value <= PwToCount(clock, pw2).value
  {
    var d := clock.singlePwDurationMs;
    QuotientBounds(clock, pw1);
    QuotientBounds(clock, pw2);
    AtLeastFromProduct(pw2 / d, d, pw2, pw1 / d);
    FloorMonotone(pw1 / d, pw2 / d);
  }

  /** The two ends of the pulse-width range: zero width is count 0 and the
      whole cycle is the full-on count. */
  lemma PwToCountEnds(clock: PcaClockConfig)
    requires ClockValid(clock)
    ensures PwToCount(clock, 0.0) == Ok(0)
    ensures PwToCount(clock, clock.maxPwMs) == Ok(PwmResolution)
  {
    var d := clock.singlePwDurationMs;
    assert clock.maxPwMs / d == PwmResolution as real;
  }

  /** A widened difference times a fraction stays between zero and the
      difference. */
  lemma ScaledBetween(diff: int, pct: real)
    requires 0.0 <= pct <= 1.0
    ensures diff >= 0 ==> 0 <= (diff as real * pct).Floor <= diff
    ensures diff < 0 ==> diff <= (diff as real * pct).Floor <= 0
  {
    var d := diff as real;
    if diff >= 0 {
      assert 0.0 <= d * pct by { MulMonotone(0.0, d, pct + 1.0); assert d * (pct + 1.0) - d == d * pct; }
      assert d * pct <= d by { assert d - d * pct == d * (1.0 - pct); }
    } else {
      assert d * pct <= 0.0 by { assert -(d * pct) == (-d) * pct; }
      assert d <= d * pct by { assert d * pct - d == (-d) * (1.0 - pct); }
    }
  }

  /** Converts a fraction of the limits' range to a count:
      `min + floor((max - min) * pct)`. A fraction outside [0, 1] is an error. */
  function PctToCount(l: ChannelLimits, pct: real): (r: Result<U16>)
    requires Canonical(l)
    ensures r.Ok? <==> 0.0 <= pct <= 1.0
    ensures r.Err? ==> r.error == PercentOfRangeError(pct)
  {
    if pct < 0.0 || pct > 1.0 then
      Err(PercentOfRangeError(pct))
    else
      var lo, hi := MinCount(l), MaxCount(l);
      var k := ((hi - lo) as real * pct).Floor;
      ScaledBetween(hi - lo, pct);
      assert lo <= hi ==> 0 <= k <= hi - lo;
      assert hi < lo ==> hi - lo <= k <= 0;
      var count: U16 := lo + k;
      Ok(count)
  }

  /** In an ordered range every fraction lands inside the range; 0 gives the
      minimum and 1 the maximum. */
  lemma PctToCountInRange(l: ChannelLimits, pct: real)
    requires Canonical(l) && MinCount(l) <= MaxCount(l) && 0.0 <= pct <= 1.0
    ensures PctToCount(l, pct).Ok? && IsValid(l, PctToCount(l, pct).value)
    ensures pct == 0.0 ==> PctToCount(l, pct).value == MinCount(l)
    ensures pct == 1.0 ==> PctToCount(l, pct).value == MaxCount(l)
  {
    ScaledBetween(MaxCount(l) - MinCount(l), pct);
  }

  /** The count is the range's minimum plus the truncated share of its
      width: k = count - min is the one whole number with
      k <= (max - min) * pct < k + 1. */
  lemma PctToCountTruncates(l: ChannelLimits, pct: real)
    requires Canonical(l) && 0.0 <= pct <= 1.0
    ensures PctToCount(l, pct).Ok?
    ensures var k := PctToCount(l, pct).value - MinCount(l);
      k as real <= (MaxCount(l) - MinCount(l)) as real * pct < k as real + 1.0
  {
  }

  /** A larger fraction never gives a smaller count in an ordered range. */
  lemma PctToCountMonotonic(l: ChannelLimits, p1: real, p2: real)
    requires Canonical(l) && MinCount(l) <= MaxCount(l) && 0.0 <= p1 <= p2 <= 1.0
    ensures PctToCount(l, p1).Ok? && PctToCount(l, p2).Ok?
    ensures PctToCount(l, p1).value <= PctToCount(l, p2).value
  {
    var d := (MaxCount(l) - MinCount(l)) as real;
    MulNonNeg(d, p2 - p1);
    assert d * (p2 - p1) == d * p2 - d * p1;
    FloorMonotone(d * p1, d * p2);
  }

  lemma FloorMonotone(a: real, b: real)
    requires a <= b
    ensures a.Floor <= b.Floor
  {
    assert a.Floor as real <= a <= b < b.Floor as real + 1.0;
  }

  lemma MulNonNeg(a: real, b: real)
    requires a >= 0.0 && b >= 0.0
    ensures a * b >= 0.0
  {
  }

  /** Limits from a pulse-width range: both ends go through PwToCount and the
      resulting count range becomes the canonical one; the millisecond range
      is kept for reporting. */
  function FromPwLimits(minOnMs: real, maxOnMs: real, clock: PcaClockConfig): (r: Result<ChannelLimits>)
    requires ClockValid(clock)
    ensures r.Ok? <==> PwToCount(clock, minOnMs).Ok? && PwToCount(clock, maxOnMs).Ok?
    ensures r.Ok? ==> Canonical(r.value) && r.value.pwLimits == Some(ChannelMsLimits(minOnMs, maxOnMs))
    ensures r.Ok? ==> MinCount(r.value) == PwToCount(clock, minOnMs).value && MaxCount(r.value) == PwToCount(clock, maxOnMs).value
    ensures r.Err? ==> r.error.PulseWidthRangeError?
  {
    match PwToCount(clock, minOnMs)
    case Err(e) => Err(e)
    case Ok(lo) =>
      match PwToCount(clock, maxOnMs)
      case Err(e) => Err(e)
      case Ok(hi) => Ok(ChannelLimits(Some(ChannelCountLimits(lo, hi)), Some(ChannelMsLimits(minOnMs, maxOnMs))))
  }
}
