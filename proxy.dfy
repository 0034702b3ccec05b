/** The hardware proxy: the timing constants and register settings derived
    from the configuration, and the three channel writes, sent to the live
    PCA9685 driver or, in the mock, accepted and dropped. */
module Proxy {
  import opened Pwm
  import opened Limits

  /** The PCA9685's internal oscillator, 25 MHz. */
  const InternalOscHz: real := 25_000_000.0

  /** The highest output frequency whose prescale is defined (see
      PrescaleDefinedIff). */
  const MaxOutputFrequencyHz: int := 12207

  predicate ValidFrequency(f: U16) {
    1 <= f <= MaxOutputFrequencyHz
  }

  /** One PWM cycle, in milliseconds. */
  function MaxPwMsFor(f: U16): real
    requires f > 0
  {
    1000.0 / f as real
  }

  /** The duration of one of the PwmResolution counts of a cycle. */
  function SingleCountDurationMsFor(f: U16): real
    requires f > 0
  {
    MaxPwMsFor(f) / PwmResolution as real
  }

  /** The clock a channel converts with at output frequency `f`. */
  function ClockFor(f: U16): (c: PcaClockConfig)
    requires f > 0
    ensures ClockValid(c)
    ensures c.maxPwMs * f as real == 1000.0
    ensures c.singlePwDurationMs * PwmResolution as real == c.maxPwMs
  {
    PcaClockConfig(MaxPwMsFor(f), SingleCountDurationMsFor(f))
  }

  /** Rounding half away from zero, for a non-negative value. */
  function Round(x: real): (n: int)
    requires x >= 0.0
    ensures n >= 0
    ensures n as real - 0.5 <= x < n as real + 0.5
  {
    (x + 0.5).Floor
  }

  function Min(a: int, b: int): int {
    if a < b then a else b
  }

  /** The oscillator divided by the counts per second, before rounding. */
  function PrescaleQuotient(f: U16): real
    requires f > 0
  {
    InternalOscHz / (PwmResolution as real * f as real)
  }

  /** `round(osc / (4096 * f)) - 1` as section 7.3.5 of the NXP PCA9685
      datasheet defines the PRE_SCALE value, with the source's u8 arithmetic:
      the float-to-u8 cast saturates at 255 (frequency 0 gives an infinite
      quotient, hence 254), and a rounded value of 0 makes the `- 1` underflow,
      which is `None` here. */
  function CalculatePrescale(f: U16): (r: Option<U8>)
    ensures f == 0 ==> r == Some(254)
    ensures f > 0 ==> (r.None? <==> Round(PrescaleQuotient(f)) == 0)
    ensures f > 0 && r.Some? ==> r.value as int + 1 == Min(Round(PrescaleQuotient(f)), 255)
  {
    if f == 0 then Some(254)
    else
      var n := Round(PrescaleQuotient(f));
      var saturated := if n > 255 then 255 else n;
      if saturated == 0 then None else Some(saturated - 1)
  }

  /** The prescale exists exactly for the frequencies up to 12207 Hz. */
  lemma PrescaleDefinedIff(f: U16)
    ensures CalculatePrescale(f).Some? <==> f <= MaxOutputFrequencyHz
  {
    if f > 0 {
      var q := PrescaleQuotient(f);
      assert q * (2048.0 * f as real) == 12_500_000.0;
      if f <= MaxOutputFrequencyHz {
        assert 2048.0 * f as real <= 25_000_000.0;
        QuotientAtLeastHalf(q, f as real);
      } else {
        assert 2048.0 * f as real > 25_000_000.0;
        QuotientBelowHalf(q, f as real);
      }
    }
  }

  lemma QuotientAtLeastHalf(q: real, f: real)
    requires f > 0.0 && q * (2048.0 * f) == 12_500_000.0 && 2048.0 * f <= 25_000_000.0
    ensures q >= 0.5
  {
    AtLeastFromProduct(q, 2048.0 * f, 12_500_000.0, 0.5);
  }

  lemma QuotientBelowHalf(q: real, f: real)
    requires f > 0.0 && q * (2048.0 * f) == 12_500_000.0 && 2048.0 * f > 25_000_000.0
    ensures 0.0 <= q < 0.5
  {
    BelowFromProduct(q, 2048.0 * f, 12_500_000.0, 0.5);
    AtLeastFromProduct(q, 2048.0 * f, 12_500_000.0, 0.0);
  }

  /** Between 24 Hz and 12207 Hz nothing saturates: the prescale is the
      rounded quotient minus one, in 0..254. */
  lemma PrescaleUnsaturated(f: U16)
    requires 24 <= f <= MaxOutputFrequencyHz
    ensures CalculatePrescale(f).Some?
    ensures 1 <= Round(PrescaleQuotient(f)) <= 255
    ensures CalculatePrescale(f).value == Round(PrescaleQuotient(f)) - 1
  {
    PrescaleDefinedIff(f);
    var q := PrescaleQuotient(f);
    assert q * (4096.0 * f as real) == 25_000_000.0;
    assert 4096.0 * f as real >= 98304.0;
    BelowFromProduct(q, 4096.0 * f as real, 25_000_000.0, 254.5);
  }

  /** The datasheet's worked example: 200 Hz gives prescale 30. */
  lemma PrescaleAt200Hz()
    ensures CalculatePrescale(200) == Some(30)
  {
    var q := PrescaleQuotient(200);
    assert q == 30.517578125;
  }

  /** Open drain exactly when the configuration asks for it. */
  function OutputTypeFor(openDrain: bool): (d: OutputDriver)
    ensures d == OpenDrain <==> openDrain
  {
    if openDrain then OpenDrain else TotemPole
  }

  /** The three register writes a channel command can send. An off-count
      write switches on at count 0 and off at `off`. */
  datatype Write = SetOnOff(channel: U8, on: U16, off: U16) | SetFullOn(channel: U8, delay: U16) | SetFullOff(channel: U8)

  /** The live driver, seen from the proxy: what the bus will answer to the
      coming writes, in order (`Some` is a fault, `None` an accepted write;
      once the answers run out every write is accepted), and the writes the
      device has accepted. */
  datatype Device = Device(answers: seq<Option<DriverFault>>, accepted: seq<Write>)

  datatype WriteResult = Written | Failed(fault: DriverFault)

  /** The fault the next write will meet: none for the mock (no device). */
  function PendingFault(inner: Option<Device>): (f: Option<DriverFault>)
    ensures inner.None? ==> f.None?
    ensures inner.Some? && |inner.value.answers| == 0 ==> f.None?
    ensures inner.Some? && |inner.value.answers| > 0 ==> f == inner.value.answers[0]
  {
    match inner
    case None => None
    case Some(d) => if |d.answers| == 0 then None else d.answers[0]
  }

  /** The answers left once the next write has been answered. */
  function Remaining(answers: seq<Option<DriverFault>>): seq<Option<DriverFault>> {
    if |answers| == 0 then [] else answers[1..]
  }

  /** The device after a write: the write uses up the next answer; a failed
      write is not recorded, an accepted one is appended; and the mock has no
      device to change. */
  function Deliver(inner: Option<Device>, w: Write): (r: Option<Device>)
    ensures r.None? <==> inner.None?
    ensures inner.Some? && |inner.value.answers| > 0 ==> r.value.answers == inner.value.answers[1..]
    ensures inner.Some? && |inner.value.answers| == 0 ==> r.value.answers == []
    ensures PendingFault(inner).Some? ==> r.value.accepted == inner.value.accepted
    ensures inner.Some? && PendingFault(inner).None? ==> r.value.accepted == inner.value.accepted + [w]
  {
    match inner
    case None => None
    case Some(d) =>
      var accepted := if PendingFault(inner).Some? then d.accepted else d.accepted + [w];
      Some(Device(Remaining(d.answers), accepted))
  }

  /** A fault is met by one write only: a device whose next answer is a fault
      and whose later answers are all acceptances fails that write and accepts
      the one after. */
  lemma FaultIsTransient(e: DriverFault, rest: seq<Option<DriverFault>>, accepted: seq<Write>, w1: Write, w2: Write)
    requires forall i :: 0 <= i < |rest| ==> rest[i].None?
    ensures var d := Some(Device([Some(e)] + rest, accepted));
      ResultOf(d) == Failed(e) && ResultOf(Deliver(d, w1)) == Written &&
      Deliver(Deliver(d, w1), w2).value.accepted == accepted + [w2]
  {
    var d := Some(Device([Some(e)] + rest, accepted));
    assert ([Some(e)] + rest)[1..] == rest;
  }

  /** The device after a command that sent at most one write. */
  function DeliverAll(inner: Option<Device>, sent: Option<Write>): Option<Device> {
    match sent
    case None => inner
    case Some(w) => Deliver(inner, w)
  }

  /** What a write returns: success exactly when no fault is pending, so
      always for the mock. */
  function ResultOf(inner: Option<Device>): (r: WriteResult)
    ensures r.Written? <==> PendingFault(inner).None?
    ensures r.Failed? ==> r.fault == PendingFault(inner).value
    ensures inner.None? ==> r == Written
  {
    match PendingFault(inner)
    case None => Written
    case Some(e) => Failed(e)
  }

  /** The proxy's static facts are fixed when it is built; only the device
      it drives changes. */
  class Pca9685ProxyImpl {
    const maxPwMs: real
    const singleCountDurationMs: real
    const device: string
    const address: U8
    const outputFrequencyHz: U16
    const prescale: U8
    const outputType: OutputDriver
    var inner: Option<Device>

    ghost predicate Valid() {
      ValidFrequency(outputFrequencyHz) &&
      maxPwMs == MaxPwMsFor(outputFrequencyHz) &&
      singleCountDurationMs == SingleCountDurationMsFor(outputFrequencyHz) &&
      CalculatePrescale(outputFrequencyHz) == Some(prescale)
    }

    /** The clock handed to every channel. */
    function Clock(): (c: PcaClockConfig)
      requires Valid()
      ensures ClockValid(c) && c == ClockFor(outputFrequencyHz)
    {
      PcaClockConfig(maxPwMs, singleCountDurationMs)
    }

    /** The proxy for `config`, driving `inner` (`None` builds the mock). */
    constructor Init(config: Config, inner: Option<Device>)
      requires ValidFrequency(config.outputFrequencyHz)
      ensures Valid()
      ensures maxPwMs == MaxPwMsFor(config.outputFrequencyHz)
      ensures singleCountDurationMs == SingleCountDurationMsFor(config.outputFrequencyHz)
      ensures device == config.device && address == config.address
      ensures outputFrequencyHz == config.outputFrequencyHz
      ensures Some(prescale) == CalculatePrescale(config.outputFrequencyHz)
      ensures outputType == OutputTypeFor(config.openDrain)
      ensures this.inner == inner
    {
      var f := config.outputFrequencyHz;
      PrescaleDefinedIff(f);
      maxPwMs := MaxPwMsFor(f);
      singleCountDurationMs := SingleCountDurationMsFor(f);
      device := config.device;
      address := config.address;
      outputFrequencyHz := f;
      prescale := CalculatePrescale(f).value;
      outputType := OutputTypeFor(config.openDrain);
      this.inner := inner;
    }

    /** The mock: every fact as configured, no device behind it. */
    static method Mock(config: Config) returns (p: Pca9685ProxyImpl)
      requires ValidFrequency(config.outputFrequencyHz)
      ensures fresh(p) && p.Valid() && p.inner.None?
      ensures p.device == config.device && p.address == config.address
      ensures p.outputFrequencyHz == config.outputFrequencyHz
      ensures p.outputType == OutputTypeFor(config.openDrain)
    {
      p := new Pca9685ProxyImpl.Init(config, None);
    }

    /** Switches `channel` on at count 0 and off at `off`. */
    method SetChannelOffCount(channel: U8, off: U16) returns (r: WriteResult)
      modifies this
      ensures r == ResultOf(old(inner))
      ensures inner == Deliver(old(inner), SetOnOff(channel, 0, off))
    {
      match inner
      case Some(d) =>
        var answer := if |d.answers| == 0 then None else d.answers[0];
        if answer.Some? {
          inner := Some(Device(Remaining(d.answers), d.accepted));
          r := Failed(answer.value);
        } else {
          inner := Some(Device(Remaining(d.answers), d.accepted + [SetOnOff(channel, 0, off)]));
          r := Written;
        }
      case None =>
        r := Written;
    }

    /** Switches `channel` fully on, with no delay. */
    method SetChannelFullOn(channel: U8) returns (r: WriteResult)
      modifies this
      ensures r == ResultOf(old(inner))
      ensures inner == Deliver(old(inner), SetFullOn(channel, 0))
    {
      match inner
      case Some(d) =>
        var answer := if |d.answers| == 0 then None else d.answers[0];
        if answer.Some? {
          inner := Some(Device(Remaining(d.answers), d.accepted));
          r := Failed(answer.value);
        } else {
          inner := Some(Device(Remaining(d.answers), d.accepted + [SetFullOn(channel, 0)]));
          r := Written;
        }
      case None =>
        r := Written;
    }

    /** Switches `channel` fully off. */
    method SetChannelFullOff(channel: U8) returns (r: WriteResult)
      modifies this
      ensures r == ResultOf(old(inner))
      ensures inner == Deliver(old(inner), SetFullOff(channel))
    {
      match inner
      case Some(d) =>
        var answer := if |d.answers| == 0 then None else d.answers[0];
        if answer.Some? {
          inner := Some(Device(Remaining(d.answers), d.accepted));
          r := Failed(answer.value);
        } else {
          inner := Some(Device(Remaining(d.answers), d.accepted + [SetFullOff(channel)]));
          r := Written;
        }
      case None =>
        r := Written;
    }
  }
}
