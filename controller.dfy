/** The controller: sixteen channel records keyed by raw channel number, and
    the proxy every channel write goes through. Each operation looks the
    channel up; a number with no record is reported as NoSuchChannelError and
    changes nothing. */
module Controller {
  import opened Pwm
  import opened Limits
  import opened Proxy
  import opened Channels

  /** The PCA9685 drives channels 0 to 15. */
  const ChannelCount: int := 16

  /** The channel records of a controller that was just built. */
  function FreshTable(): (t: map<U8, ChannelConfig>)
    ensures forall k: U8 :: k in t <==> k < ChannelCount
    ensures forall k :: k in t ==> t[k] == FreshChannel(k)
  {
    map k: U8 | k < ChannelCount :: FreshChannel(k)
  }

  /** The shape of every controller's table: exactly channels 0 to 15, each
      record numbered by its key and carrying canonical limits. */
  predicate WellFormedTable(t: map<U8, ChannelConfig>) {
    (forall k: U8 :: k in t <==> k < ChannelCount) &&
    (forall k :: k in t ==> t[k].channel == k && WellFormed(t[k]))
  }

  lemma FreshTableWellFormed()
    ensures WellFormedTable(FreshTable())
  {
  }

  /** The channel-number lookup every controller operation starts with. */
  function Lookup(t: map<U8, ChannelConfig>, id: U8): (r: Result<ChannelConfig>)
    ensures r.Ok? <==> id in t
    ensures r.Ok? ==> r.value == t[id]
    ensures r.Err? ==> r.error == NoSuchChannelError(id)
  {
    if id in t then Ok(t[id]) else Err(NoSuchChannelError(id))
  }

  /** Runs one channel's handler on a table of channel records: a channel
      outside the table is NoSuchChannelError with nothing sent or changed;
      otherwise only that channel's record changes. */
  function Dispatch(t: map<U8, ChannelConfig>, id: U8, o: Outcome): (r: (map<U8, ChannelConfig>, Option<Write>, Result<ChannelConfig>))
    ensures r.0.Keys == t.Keys
    ensures forall k :: k in t && k != id ==> r.0[k] == t[k]
    ensures id !in t ==> r.0 == t && r.1.None? && r.2 == Err(NoSuchChannelError(id))
    ensures id in t ==> r.0[id] == o.state && r.1 == o.sent && r.2 == o.result
  {
    if id in t then (t[id := o.state], o.sent, o.result)
    else (t, None, Err(NoSuchChannelError(id)))
  }

  /** A handler that keeps the channel's number and the form of its limits
      keeps the table well formed. */
  lemma DispatchPreservesWellFormed(t: map<U8, ChannelConfig>, id: U8, o: Outcome)
    requires WellFormedTable(t)
    requires id in t ==> o.state.channel == id && WellFormed(o.state)
    ensures WellFormedTable(Dispatch(t, id, o).0)
  {
  }

  class Pca9685 {
    const proxy: Pca9685ProxyImpl
    const channels: map<U8, ChannelProxy>

    /** Exactly channels 0 to 15 have a record, each its own object, numbered
        by its key and converting with the proxy's clock. */
    ghost predicate Valid()
      reads this, channels.Values
    {
      proxy.Valid() &&
      (forall k: U8 :: k in channels <==> k < ChannelCount) &&
      (forall i, j :: i in channels && j in channels && i != j ==> channels[i] != channels[j]) &&
      (forall k :: k in channels ==>
        channels[k].Valid() && channels[k].channel == k && channels[k].clockConfig == proxy.Clock())
    }

    /** Every channel's configuration, by channel number. */
    ghost function Table(): (t: map<U8, ChannelConfig>)
      reads this, channels.Values
      ensures Valid() ==> WellFormedTable(t)
    {
      map k | k in channels :: channels[k].CurrentConfig()
    }

    /** The controller over `proxy`, with every channel off and unlimited. */
    constructor Init(proxy: Pca9685ProxyImpl)
      requires proxy.Valid()
      ensures Valid() && this.proxy == proxy
      ensures Table() == FreshTable()
      ensures fresh(channels.Values)
    {
      var clock := proxy.Clock();
      var m: map<U8, ChannelProxy> := map[];
      var ch := 0;
      while ch < ChannelCount
        invariant 0 <= ch <= ChannelCount
        invariant forall k: U8 :: k in m <==> k < ch
        invariant forall i, j :: i in m && j in m && i != j ==> m[i] != m[j]
        invariant forall k :: k in m ==> fresh(m[k])
        invariant forall k :: k in m ==>
          m[k].Valid() && m[k].channel == k && m[k].clockConfig == clock && m[k].CurrentConfig() == FreshChannel(k)
      {
        var c := new ChannelProxy(ch, clock);
        m := m[ch := c];
        ch := ch + 1;
      }
      this.proxy := proxy;
      channels := m;
    }

    /** A controller driving the PCA9685 at `device`. */
    static method New(config: Config, device: Device) returns (pca: Pca9685)
      requires ValidFrequency(config.outputFrequencyHz)
      ensures fresh(pca) && fresh(pca.proxy) && fresh(pca.channels.Values) && pca.Valid()
      ensures pca.proxy.inner == Some(device)
      ensures pca.proxy.device == config.device && pca.proxy.address == config.address
      ensures pca.proxy.outputFrequencyHz == config.outputFrequencyHz
      ensures pca.proxy.outputType == OutputTypeFor(config.openDrain)
      ensures pca.Table() == FreshTable()
    {
      var p := new Pca9685ProxyImpl.Init(config, Some(device));
      pca := new Pca9685.Init(p);
    }

    /** A controller whose writes go nowhere. */
    static method Mock(config: Config) returns (pca: Pca9685)
      requires ValidFrequency(config.outputFrequencyHz)
      ensures fresh(pca) && fresh(pca.proxy) && fresh(pca.channels.Values) && pca.Valid()
      ensures pca.proxy.inner.None?
      ensures pca.proxy.device == config.device && pca.proxy.address == config.address
      ensures pca.proxy.outputFrequencyHz == config.outputFrequencyHz
      ensures pca.proxy.outputType == OutputTypeFor(config.openDrain)
      ensures pca.Table() == FreshTable()
    {
      var p := Pca9685ProxyImpl.Mock(config);
      pca := new Pca9685.Init(p);
    }

    /** One cycle, in milliseconds. */
    function MaxPwMs(): (r: real)
      requires proxy.Valid()
      ensures r * proxy.outputFrequencyHz as real == 1000.0
    {
      proxy.maxPwMs
    }

    /** One count, in milliseconds: the cycle divided into PwmResolution. */
    function SingleCountDurationMs(): (r: real)
      requires proxy.Valid()
      ensures r * PwmResolution as real == MaxPwMs()
    {
      proxy.singleCountDurationMs
    }

    function OutputFrequencyHz(): (r: U16)
      requires proxy.Valid()
      ensures ValidFrequency(r)
    {
      proxy.outputFrequencyHz
    }

    function DevicePath(): (r: string)
      ensures r == proxy.device
    {
      proxy.device
    }

    function Address(): (r: U8)
      ensures r == proxy.address
    {
      proxy.address
    }

    /** The prescale register value for the configured frequency. */
    function Prescale(): (r: U8)
      requires proxy.Valid()
      ensures CalculatePrescale(OutputFrequencyHz()) == Some(r)
    {
      proxy.prescale
    }

    function OutputType(): (r: OutputDriver)
      ensures r == proxy.outputType
    {
      proxy.outputType
    }

    /** A channel's configuration: present exactly for 0 to 15, and always
        carrying the number it was asked for. */
    function ConfigOf(id: U8): (r: Result<ChannelConfig>)
      requires Valid()
      reads this, channels.Values
      ensures r.Ok? <==> id < ChannelCount
      ensures r.Err? ==> r.error == NoSuchChannelError(id)
      ensures r.Ok? ==> r.value.channel == id && WellFormed(r.value)
      ensures r == Lookup(Table(), id)
    {
      if id in channels then Ok(channels[id].CurrentConfig()) else Err(NoSuchChannelError(id))
    }

    /** Configures the channel `config` names from its limits. */
    method ConfigureChannel(config: ChannelConfig) returns (r: Result<ChannelConfig>)
      requires Valid()
      modifies channels.Values
      ensures Valid()
      ensures var id := config.channel;
        var o := if id in old(Table()) then ConfigureLimitsStep(old(Table())[id], proxy.Clock(), config.customLimits) else Outcome(config, None, Err(NoSuchChannelError(id)));
        (Table(), None, r) == Dispatch(old(Table()), id, o)
    {
      var id := config.channel;
      if id !in channels {
        return Err(NoSuchChannelError(id));
      }
      var ch := channels[id];
      r := ch.Configure(config);
      assert Table() == old(Table())[id := ch.CurrentConfig()];
    }

    method FullOn(id: U8) returns (r: Result<ChannelConfig>)
      requires Valid()
      modifies channels.Values, proxy
      ensures Valid()
      ensures var f := old(PendingFault(proxy.inner));
        var o := if id in old(Table()) then FullOnStep(old(Table())[id], f) else Outcome(FreshChannel(id), None, Err(NoSuchChannelError(id)));
        var (t, sent, res) := Dispatch(old(Table()), id, o);
        Table() == t && r == res && proxy.inner == DeliverAll(old(proxy.inner), sent)
    {
      if id !in channels {
        return Err(NoSuchChannelError(id));
      }
      var ch := channels[id];
      r := ch.FullOn(proxy);
      assert Table() == old(Table())[id := ch.CurrentConfig()];
    }

    method FullOff(id: U8) returns (r: Result<ChannelConfig>)
      requires Valid()
      modifies channels.Values, proxy
      ensures Valid()
      ensures var f := old(PendingFault(proxy.inner));
        var o := if id in old(Table()) then FullOffStep(old(Table())[id], f) else Outcome(FreshChannel(id), None, Err(NoSuchChannelError(id)));
        var (t, sent, res) := Dispatch(old(Table()), id, o);
        Table() == t && r == res && proxy.inner == DeliverAll(old(proxy.inner), sent)
    {
      if id !in channels {
        return Err(NoSuchChannelError(id));
      }
      var ch := channels[id];
      r := ch.FullOff(proxy);
      assert Table() == old(Table())[id := ch.CurrentConfig()];
    }

    method SetPwmCount(id: U8, count: U16) returns (r: Result<ChannelConfig>)
      requires Valid()
      modifies channels.Values, proxy
      ensures Valid()
      ensures var f := old(PendingFault(proxy.inner));
        var o := if id in old(Table()) then SetCountStep(old(Table())[id], count, f) else Outcome(FreshChannel(id), None, Err(NoSuchChannelError(id)));
        var (t, sent, res) := Dispatch(old(Table()), id, o);
        Table() == t && r == res && proxy.inner == DeliverAll(old(proxy.inner), sent)
    {
      if id !in channels {
        return Err(NoSuchChannelError(id));
      }
      var ch := channels[id];
      r := ch.SetPwmCount(count, proxy);
      assert Table() == old(Table())[id := ch.CurrentConfig()];
    }

    method SetPwMs(id: U8, pwMs: real) returns (r: Result<ChannelConfig>)
      requires Valid()
      modifies channels.Values, proxy
      ensures Valid()
      ensures var f := old(PendingFault(proxy.inner));
        var o := if id in old(Table()) then SetPwStep(old(Table())[id], proxy.Clock(), pwMs, f) else Outcome(FreshChannel(id), None, Err(NoSuchChannelError(id)));
        var (t, sent, res) := Dispatch(old(Table()), id, o);
        Table() == t && r == res && proxy.inner == DeliverAll(old(proxy.inner), sent)
    {
      if id !in channels {
        return Err(NoSuchChannelError(id));
      }
      var ch := channels[id];
      r := ch.SetPwMs(pwMs, proxy);
      assert Table() == old(Table())[id := ch.CurrentConfig()];
    }

    method SetPct(id: U8, pct: real) returns (r: Result<ChannelConfig>)
      requires Valid()
      modifies channels.Values, proxy
      ensures Valid()
      ensures var f := old(PendingFault(proxy.inner));
        var o := if id in old(Table()) then SetPctStep(old(Table())[id], pct, f) else Outcome(FreshChannel(id), None, Err(NoSuchChannelError(id)));
        var (t, sent, res) := Dispatch(old(Table()), id, o);
        Table() == t && r == res && proxy.inner == DeliverAll(old(proxy.inner), sent)
    {
      if id !in channels {
        return Err(NoSuchChannelError(id));
      }
      var ch := channels[id];
      r := ch.SetPct(pct, proxy);
      assert Table() == old(Table())[id := ch.CurrentConfig()];
    }
  }
}
