/** One channel's record and its command handlers. Each handler is specified
    by a step function over the channel's configuration and the fault the
    device will report, giving the new configuration, the register write
    sent (if any) and the result returned. */
module Channels {
  import opened Pwm
  import opened Limits
  import opened Proxy

  const NeitherRangeMessage: string := "ChannelConfig.custom_limits must contain either count_limits or pw_limits"
  const BothRangesMessage: string := "ChannelConfig.custom_limits must contain only one of count_limits or pw_limits"

  /** A channel configuration whose custom limits, if any, carry their
      canonical count range. */
  predicate WellFormed(s: ChannelConfig) {
    s.customLimits.Some? ==> Canonical(s.customLimits.value)
  }

  /** What one handler call does: the channel's new configuration, the
      register write it sent, and what it returned. */
  datatype Outcome = Outcome(state: ChannelConfig, sent: Option<Write>, result: Result<ChannelConfig>)

  /** A channel as the controller creates it: off, without custom limits. */
  function FreshChannel(channel: U8): (c: ChannelConfig)
    ensures c.channel == channel && c.currentCount.None? && c.customLimits.None?
    ensures WellFormed(c)
  {
    ChannelConfig(channel, None, None)
  }

  /** Setting (or, with `None`, clearing) a channel's custom limits. */
  function ConfigureLimitsStep(s: ChannelConfig, clock: PcaClockConfig, limits: Option<ChannelLimits>): (o: Outcome)
    requires WellFormed(s) && ClockValid(clock)
    ensures WellFormed(o.state) && o.sent.None?
    ensures o.state.channel == s.channel && o.state.currentCount == s.currentCount
    ensures o.result.Ok? ==> o.result.value == o.state
    ensures o.result.Err? ==> o.state == s
  {
    match limits
    case None =>
      var t := s.(customLimits := None);
      Outcome(t, None, Ok(t))
    case Some(l) =>
      if l.countLimits.None? && l.pwLimits.None? then
        Outcome(s, None, Err(InvalidConfiguration(NeitherRangeMessage)))
      else if l.countLimits.Some? && l.pwLimits.Some? then
        Outcome(s, None, Err(InvalidConfiguration(BothRangesMessage)))
      else if l.countLimits.Some? then
        var t := s.(customLimits := Some(FromCountLimits(l.countLimits.value.minOnCount, l.countLimits.value.maxOnCount)));
        Outcome(t, None, Ok(t))
      else
        match FromPwLimits(l.pwLimits.value.minOnMs, l.pwLimits.value.maxOnMs, clock)
        case Err(e) => Outcome(s, None, Err(e))
        case Ok(c) =>
          var t := s.(customLimits := Some(c));
          Outcome(t, None, Ok(t))
  }

  /** The result of a command whose write met `fault`. */
  function AfterWrite(t: ChannelConfig, fault: Option<DriverFault>): Result<ChannelConfig> {
    match fault
    case None => Ok(t)
    case Some(e) => Err(Pca9685DriverError(e))
  }

  /** Full on: the count is recorded before the write, so it stays recorded
      when the write fails. */
  function FullOnStep(s: ChannelConfig, fault: Option<DriverFault>): (o: Outcome)
    ensures o.state.channel == s.channel && o.state.customLimits == s.customLimits
    ensures o.result.Ok? ==> o.result.value == o.state
    ensures fault.Some? ==> o.result == Err(Pca9685DriverError(fault.value))
  {
    var t := s.(currentCount := Some(PwmResolution));
    Outcome(t, Some(SetFullOn(s.channel, 0)), AfterWrite(t, fault))
  }

  /** Full off: like full on, recorded before the write. */
  function FullOffStep(s: ChannelConfig, fault: Option<DriverFault>): (o: Outcome)
    ensures o.state.channel == s.channel && o.state.customLimits == s.customLimits
    ensures o.result.Ok? ==> o.result.value == o.state
    ensures fault.Some? ==> o.result == Err(Pca9685DriverError(fault.value))
  {
    var t := s.(currentCount := None);
    Outcome(t, Some(SetFullOff(s.channel)), AfterWrite(t, fault))
  }

  /** A raw count: checked against the effective limits first; the full-on
      sentinel goes through full on; any other count is written and recorded
      only once the write succeeded. */
  function SetCountStep(s: ChannelConfig, count: U16, fault: Option<DriverFault>): (o: Outcome)
    requires WellFormed(s)
    ensures o.state.channel == s.channel && o.state.customLimits == s.customLimits
    ensures o.result.Ok? ==> o.result.value == o.state
  {
    var l := EffectiveLimits(s.customLimits);
    if !IsValid(l, count) then
      Outcome(s, None, Err(CustomLimitsError(count, l)))
    else if count == PwmResolution then
      FullOnStep(s, fault)
    else
      var w := SetOnOff(s.channel, 0, count);
      match fault
      case Some(e) => Outcome(s, Some(w), Err(Pca9685DriverError(e)))
      case None =>
        var t := s.(currentCount := Some(count));
        Outcome(t, Some(w), Ok(t))
  }

  /** A pulse width: converted with the channel's clock, then a raw count. */
  function SetPwStep(s: ChannelConfig, clock: PcaClockConfig, pwMs: real, fault: Option<DriverFault>): (o: Outcome)
    requires WellFormed(s) && ClockValid(clock)
    ensures o.state.channel == s.channel && o.state.customLimits == s.customLimits
    ensures o.result.Ok? ==> o.result.value == o.state
  {
    match PwToCount(clock, pwMs)
    case Err(e) => Outcome(s, None, Err(e))
    case Ok(count) => SetCountStep(s, count, fault)
  }

  /** A percent: converted through the effective limits, then a raw count. */
  function SetPctStep(s: ChannelConfig, pct: real, fault: Option<DriverFault>): (o: Outcome)
    requires WellFormed(s)
    ensures o.state.channel == s.channel && o.state.customLimits == s.customLimits
    ensures o.result.Ok? ==> o.result.value == o.state
  {
    match PctToCount(EffectiveLimits(s.customLimits), pct)
    case Err(e) => Outcome(s, None, Err(e))
    case Ok(count) => SetCountStep(s, count, fault)
  }

  // Properties of the handlers

  /** Limits are refused exactly when they give neither or both ranges, and a
      refusal leaves the channel as it was. */
  lemma ConfigureRejectsIff(s: ChannelConfig, clock: PcaClockConfig, l: ChannelLimits)
    requires WellFormed(s) && ClockValid(clock)
    ensures var o := ConfigureLimitsStep(s, clock, Some(l));
      (o.result.Err? && o.result.error.InvalidConfiguration?) <==> (l.countLimits.Some? == l.pwLimits.Some?)
    ensures var o := ConfigureLimitsStep(s, clock, Some(l));
      l.countLimits.Some? == l.pwLimits.Some? ==> o.state == s
  {
    var o := ConfigureLimitsStep(s, clock, Some(l));
    if l.countLimits.None? && l.pwLimits.Some? {
      var pw := l.pwLimits.value;
      assert FromPwLimits(pw.minOnMs, pw.maxOnMs, clock).Err? ==> FromPwLimits(pw.minOnMs, pw.maxOnMs, clock).error.PulseWidthRangeError?;
    }
  }

  /** Count limits are stored exactly as given, so configuring a channel with
      them echoes them back. */
  lemma ConfigureEchoesCountLimits(s: ChannelConfig, clock: PcaClockConfig, c: ChannelCountLimits)
    requires WellFormed(s) && ClockValid(clock)
    ensures ConfigureLimitsStep(s, clock, Some(ChannelLimits(Some(c), None))).result
         == Ok(s.(customLimits := Some(ChannelLimits(Some(c), None))))
  {
  }

  /** Pulse-width limits are stored as their converted count range together
      with the millisecond range; an end outside the cycle is refused with
      PulseWidthRangeError and changes nothing. */
  lemma ConfigureStoresPwLimits(s: ChannelConfig, clock: PcaClockConfig, ms: ChannelMsLimits)
    requires WellFormed(s) && ClockValid(clock)
    ensures var c := FromPwLimits(ms.minOnMs, ms.maxOnMs, clock);
      var o := ConfigureLimitsStep(s, clock, Some(ChannelLimits(None, Some(ms))));
      (c.Ok? ==> o.state == s.(customLimits := Some(c.value)) && o.result == Ok(o.state) &&
                 MinCount(c.value) == PwToCount(clock, ms.minOnMs).value && MaxCount(c.value) == PwToCount(clock, ms.maxOnMs).value) &&
      (c.Err? ==> o.state == s && o.result.Err? && o.result.error.PulseWidthRangeError?)
  {
  }

  /** Clearing always succeeds, and configuring never touches the count. */
  lemma ConfigureClears(s: ChannelConfig, clock: PcaClockConfig)
    requires WellFormed(s) && ClockValid(clock)
    ensures ConfigureLimitsStep(s, clock, None) == Outcome(s.(customLimits := None), None, Ok(s.(customLimits := None)))
  {
  }

  /** A count is refused with CustomLimitsError exactly when it lies outside
      the effective limits; the refusal sends nothing and changes nothing. */
  lemma SetCountRejectsExactly(s: ChannelConfig, count: U16, fault: Option<DriverFault>)
    requires WellFormed(s)
    ensures var l := EffectiveLimits(s.customLimits); var o := SetCountStep(s, count, fault);
      (o.result.Err? && o.result.error.CustomLimitsError?) <==> !(MinCount(l) <= count <= MaxCount(l))
    ensures var l := EffectiveLimits(s.customLimits); var o := SetCountStep(s, count, fault);
      !(MinCount(l) <= count <= MaxCount(l)) ==> o == Outcome(s, None, Err(CustomLimitsError(count, l)))
  {
  }

  /** The full-on sentinel, once it passes the limits, is full on. */
  lemma SetCountSentinelIsFullOn(s: ChannelConfig, fault: Option<DriverFault>)
    requires WellFormed(s) && IsValid(EffectiveLimits(s.customLimits), PwmResolution)
    ensures SetCountStep(s, PwmResolution, fault) == FullOnStep(s, fault)
  {
  }

  /** Any other accepted count is sent as an off count switched on at 0; it is
      recorded when the write succeeds, and a failed write leaves the channel
      as it was and reports the driver's fault. */
  lemma SetCountWrites(s: ChannelConfig, count: U16, fault: Option<DriverFault>)
    requires WellFormed(s) && IsValid(EffectiveLimits(s.customLimits), count) && count != PwmResolution
    ensures var o := SetCountStep(s, count, fault);
      o.sent == Some(SetOnOff(s.channel, 0, count)) &&
      (fault.None? ==> o.state == s.(currentCount := Some(count)) && o.result == Ok(o.state)) &&
      (fault.Some? ==> o.state == s && o.result == Err(Pca9685DriverError(fault.value)))
  {
  }

  /** Full on and full off do not look at the limits and record their state
      whatever the device answers. */
  lemma FullOnOffIgnoreLimitsAndFaults(s: ChannelConfig, fault: Option<DriverFault>)
    ensures FullOnStep(s, fault).state.currentCount == Some(PwmResolution)
    ensures FullOffStep(s, fault).state.currentCount == None
    ensures FullOnStep(s, fault).sent == Some(SetFullOn(s.channel, 0))
    ensures FullOnStep(s, fault).result.Ok? <==> fault.None?
    ensures FullOffStep(s, fault).result.Ok? <==> fault.None?
    ensures fault.Some? ==> FullOnStep(s, fault).result == Err(Pca9685DriverError(fault.value))
    ensures fault.Some? ==> FullOffStep(s, fault).result == Err(Pca9685DriverError(fault.value))
  {
  }

  /** With ordered limits a percent in [0, 1] always passes the limits check:
      only a driver fault can make it fail. */
  lemma SetPctStaysInLimits(s: ChannelConfig, pct: real, fault: Option<DriverFault>)
    requires WellFormed(s) && 0.0 <= pct <= 1.0
    requires var l := EffectiveLimits(s.customLimits); MinCount(l) <= MaxCount(l)
    ensures var o := SetPctStep(s, pct, fault); o.result.Err? ==> o.result.error.Pca9685DriverError?
  {
    var l := EffectiveLimits(s.customLimits);
    PctToCountInRange(l, pct);
  }

  /** A percent outside [0, 1] and a pulse width outside the cycle are refused
      before anything is sent. */
  lemma ConversionsRejectOutOfRange(s: ChannelConfig, clock: PcaClockConfig, x: real, fault: Option<DriverFault>)
    requires WellFormed(s) && ClockValid(clock)
    ensures (x < 0.0 || x > 1.0) ==> SetPctStep(s, x, fault) == Outcome(s, None, Err(PercentOfRangeError(x)))
    ensures (x < 0.0 || x > clock.maxPwMs) ==> SetPwStep(s, clock, x, fault) == Outcome(s, None, Err(PulseWidthRangeError(x, clock.maxPwMs)))
  {
  }

  /** With default limits a percent is that fraction of 4096, and 100% is the
      full-on count. */
  lemma DefaultPercentPoints()
    ensures SetPctStep(FreshChannel(0), 0.0, None).result == Ok(FreshChannel(0).(currentCount := Some(0)))
    ensures SetPctStep(FreshChannel(0), 0.25, None).result == Ok(FreshChannel(0).(currentCount := Some(1024)))
    ensures SetPctStep(FreshChannel(0), 0.5, None).result == Ok(FreshChannel(0).(currentCount := Some(2048)))
    ensures SetPctStep(FreshChannel(0), 0.75, None).result == Ok(FreshChannel(0).(currentCount := Some(3072)))
    ensures SetPctStep(FreshChannel(0), 1.0, None).result == Ok(FreshChannel(0).(currentCount := Some(4096)))
  {
    assert PctToCount(DefaultLimits(), 0.25) == Ok(1024);
    assert PctToCount(DefaultLimits(), 0.5) == Ok(2048);
    assert PctToCount(DefaultLimits(), 0.75) == Ok(3072);
    assert PctToCount(DefaultLimits(), 1.0) == Ok(4096);
  }

  /** With limits [1000, 2000] a percent is 1000 plus that fraction of 1000. */
  lemma CustomPercentPoints()
    ensures var s := FreshChannel(0).(customLimits := Some(FromCountLimits(1000, 2000)));
      SetPctStep(s, 0.0, None).result == Ok(s.(currentCount := Some(1000))) &&
      SetPctStep(s, 0.25, None).result == Ok(s.(currentCount := Some(1250))) &&
      SetPctStep(s, 0.5, None).result == Ok(s.(currentCount := Some(1500))) &&
      SetPctStep(s, 0.75, None).result == Ok(s.(currentCount := Some(1750))) &&
      SetPctStep(s, 1.0, None).result == Ok(s.(currentCount := Some(2000)))
  {
    var l := FromCountLimits(1000, 2000);
    assert PctToCount(l, 0.25) == Ok(1250);
    assert PctToCount(l, 0.5) == Ok(1500);
    assert PctToCount(l, 0.75) == Ok(1750);
  }

  /** The channel tests' counts with default limits: 50 is set, 4097 refused;
      with limits [1000, 2000], 999 and 2001 are refused. */
  lemma CountTestPoints()
    ensures SetCountStep(FreshChannel(0), 50, None).result == Ok(FreshChannel(0).(currentCount := Some(50)))
    ensures SetCountStep(FreshChannel(0), 4097, None).result == Err(CustomLimitsError(4097, DefaultLimits()))
    ensures var s := FreshChannel(0).(customLimits := Some(FromCountLimits(1000, 2000)));
      SetCountStep(s, 999, None).result.Err? && SetCountStep(s, 999, None).result.error.CustomLimitsError? &&
      SetCountStep(s, 2001, None).result.Err? && SetCountStep(s, 2001, None).result.error.CustomLimitsError?
  {
  }

  /** The channel tests' pulse widths at 200 Hz: zero width is count 0, the
      whole 5 ms cycle is full on, a quarter, half and three quarters of it
      are 1024, 2048 and 3072, 1, 1.5 and 2 ms are 819, 1228 and 1638 (the
      quotient truncated), and -1 ms or 6 ms are range errors. */
  lemma PulseWidthTestPoints()
    ensures var clock := ClockFor(200);
      SetPwStep(FreshChannel(0), clock, 0.0, None).result == Ok(FreshChannel(0).(currentCount := Some(0))) &&
      SetPwStep(FreshChannel(0), clock, 5.0, None).result == Ok(FreshChannel(0).(currentCount := Some(4096))) &&
      SetPwStep(FreshChannel(0), clock, 1.25, None).result == Ok(FreshChannel(0).(currentCount := Some(1024))) &&
      SetPwStep(FreshChannel(0), clock, 2.5, None).result == Ok(FreshChannel(0).(currentCount := Some(2048))) &&
      SetPwStep(FreshChannel(0), clock, 3.75, None).result == Ok(FreshChannel(0).(currentCount := Some(3072))) &&
      SetPwStep(FreshChannel(0), clock, 1.0, None).result == Ok(FreshChannel(0).(currentCount := Some(819))) &&
      SetPwStep(FreshChannel(0), clock, 1.5, None).result == Ok(FreshChannel(0).(currentCount := Some(1228))) &&
      SetPwStep(FreshChannel(0), clock, 2.0, None).result == Ok(FreshChannel(0).(currentCount := Some(1638))) &&
      SetPwStep(FreshChannel(0), clock, -1.0, None).result == Err(PulseWidthRangeError(-1.0, 5.0)) &&
      SetPwStep(FreshChannel(0), clock, 6.0, None).result == Err(PulseWidthRangeError(6.0, 5.0))
  {
    var clock := ClockFor(200);
    assert clock.maxPwMs == 5.0;
    PwToCountEnds(clock);
    assert PwToCount(clock, 1.25) == Ok(1024);
    assert PwToCount(clock, 2.5) == Ok(2048);
    assert PwToCount(clock, 3.75) == Ok(3072);
    assert 1.0 / clock.singlePwDurationMs == 819.2;
    assert PwToCount(clock, 1.0) == Ok(819);
    assert 1.5 / clock.singlePwDurationMs == 1228.8;
    assert PwToCount(clock, 1.5) == Ok(1228);
    assert 2.0 / clock.singlePwDurationMs == 1638.4;
    assert PwToCount(clock, 2.0) == Ok(1638);
  }

  /** One channel: its number and clock are fixed at creation; its count and
      limits change through the handlers. */
  class ChannelProxy {
    const channel: U8
    const clockConfig: PcaClockConfig
    var currentCount: Option<U16>
    var customLimits: Option<ChannelLimits>

    ghost predicate Valid()
      reads this
    {
      ClockValid(clockConfig) && WellFormed(CurrentConfig())
    }

    /** The channel's configuration, as a snapshot. */
    function CurrentConfig(): (c: ChannelConfig)
      reads this
      ensures c.channel == channel && c.currentCount == currentCount && c.customLimits == customLimits
    {
      ChannelConfig(channel, currentCount, customLimits)
    }

    constructor (channel: U8, clockConfig: PcaClockConfig)
      requires ClockValid(clockConfig)
      ensures Valid()
      ensures this.channel == channel && this.clockConfig == clockConfig
      ensures CurrentConfig() == FreshChannel(channel)
    {
      this.channel := channel;
      this.clockConfig := clockConfig;
      currentCount := None;
      customLimits := None;
    }

    /** Configures from a whole channel configuration: only its limits are
        used, its count is ignored. */
    method Configure(config: ChannelConfig) returns (r: Result<ChannelConfig>)
      requires Valid()
      modifies this
      ensures Valid()
      ensures var o := ConfigureLimitsStep(old(CurrentConfig()), clockConfig, config.customLimits);
        CurrentConfig() == o.state && r == o.result
    {
      r := ConfigureLimits(config.customLimits);
    }

    method ConfigureLimits(limits: Option<ChannelLimits>) returns (r: Result<ChannelConfig>)
      requires Valid()
      modifies this
      ensures Valid()
      ensures var o := ConfigureLimitsStep(old(CurrentConfig()), clockConfig, limits);
        CurrentConfig() == o.state && r == o.result
    {
      match limits
      case Some(l) =>
        if l.countLimits.None? && l.pwLimits.None? {
          return Err(InvalidConfiguration(NeitherRangeMessage));
        }
        if l.countLimits.Some? && l.pwLimits.Some? {
          return Err(InvalidConfiguration(BothRangesMessage));
        }
        if l.countLimits.Some? {
          customLimits := Some(FromCountLimits(l.countLimits.value.minOnCount, l.countLimits.value.maxOnCount));
        } else {
          var converted := FromPwLimits(l.pwLimits.value.minOnMs, l.pwLimits.value.maxOnMs, clockConfig);
          if converted.Err? {
            return Err(converted.error);
          }
          customLimits := Some(converted.value);
        }
        r := Ok(CurrentConfig());
      case None =>
        customLimits := None;
        r := Ok(CurrentConfig());
    }

    method FullOn(pca: Pca9685ProxyImpl) returns (r: Result<ChannelConfig>)
      requires Valid()
      modifies this, pca
      ensures Valid()
      ensures var o := FullOnStep(old(CurrentConfig()), old(PendingFault(pca.inner)));
        CurrentConfig() == o.state && r == o.result && pca.inner == DeliverAll(old(pca.inner), o.sent)
    {
      currentCount := Some(PwmResolution);
      var w := pca.SetChannelFullOn(channel);
      match w
      case Written => r := Ok(CurrentConfig());
      case Failed(e) => r := Err(Pca9685DriverError(e));
    }

    method FullOff(pca: Pca9685ProxyImpl) returns (r: Result<ChannelConfig>)
      requires Valid()
      modifies this, pca
      ensures Valid()
      ensures var o := FullOffStep(old(CurrentConfig()), old(PendingFault(pca.inner)));
        CurrentConfig() == o.state && r == o.result && pca.inner == DeliverAll(old(pca.inner), o.sent)
    {
      currentCount := None;
      var w := pca.SetChannelFullOff(channel);
      match w
      case Written => r := Ok(CurrentConfig());
      case Failed(e) => r := Err(Pca9685DriverError(e));
    }

    method SetPwMs(pwMs: real, pca: Pca9685ProxyImpl) returns (r: Result<ChannelConfig>)
      requires Valid()
      modifies this, pca
      ensures Valid()
      ensures var o := SetPwStep(old(CurrentConfig()), clockConfig, pwMs, old(PendingFault(pca.inner)));
        CurrentConfig() == o.state && r == o.result && pca.inner == DeliverAll(old(pca.inner), o.sent)
    {
      var count := PwToCount(clockConfig, pwMs);
      if count.Err? {
        return Err(count.error);
      }
      r := SetPwmCount(count.value, pca);
    }

    method SetPct(pct: real, pca: Pca9685ProxyImpl) returns (r: Result<ChannelConfig>)
      requires Valid()
      modifies this, pca
      ensures Valid()
      ensures var o := SetPctStep(old(CurrentConfig()), pct, old(PendingFault(pca.inner)));
        CurrentConfig() == o.state && r == o.result && pca.inner == DeliverAll(old(pca.inner), o.sent)
    {
      var limits := EffectiveLimits(customLimits);
      var count := PctToCount(limits, pct);
      if count.Err? {
        return Err(count.error);
      }
      r := SetPwmCount(count.value, pca);
    }

    method SetPwmCount(count: U16, pca: Pca9685ProxyImpl) returns (r: Result<ChannelConfig>)
      requires Valid()
      modifies this, pca
      ensures Valid()
      ensures var o := SetCountStep(old(CurrentConfig()), count, old(PendingFault(pca.inner)));
        CurrentConfig() == o.state && r == o.result && pca.inner == DeliverAll(old(pca.inner), o.sent)
    {
      var limits := EffectiveLimits(customLimits);
      if !IsValid(limits, count) {
        return Err(CustomLimitsError(count, limits));
      }
      if count == PwmResolution {
        r := FullOn(pca);
      } else {
        var w := pca.SetChannelOffCount(channel, count);
        match w
        case Written =>
          currentCount := Some(count);
          r := Ok(CurrentConfig());
        case Failed(e) =>
          r := Err(Pca9685DriverError(e));
      }
    }
  }
}
