/** The REST service over one controller: GET, POST, PUT and DELETE on
    `/channel`. Each handler is specified by a step function over the
    controller's table of channel records; the reply is a channel
    configuration, an HTTP error status, or a panic of the handler. */
module Service {
  import opened Pwm
  import opened Limits
  import opened Proxy
  import opened Channels
  import opened Controller

  datatype Status = Success | BadRequest | NotFound | Conflict | InternalServerError

  /** What a handler answers. `Panic` is a handler that panicked: turning a
      channel number of 16 or more into a PCA9685 channel is an unwrap that
      fails. */
  datatype Reply = Response(config: ChannelConfig) | Failure(status: Status) | Panic

  /** A check a handler makes before acting: either it passes with a value or
      the handler answers at once. */
  datatype Checked<T> = Pass(value: T) | Stop(reply: Reply)

  datatype CommandType = FullOn | PulseCount | PulseWidth | Percent | FullOff

  /** The body of a PUT: the channel, the command, and its value if any. */
  datatype ChannelCommand = ChannelCommand(channel: U8, commandType: CommandType, value: Option<real>)

  /** The three commands that need a value. */
  predicate TakesValue(t: CommandType) {
    t.PulseCount? || t.PulseWidth? || t.Percent?
  }

  /** A raw channel number as a PCA9685 channel. */
  function TryChannel(raw: U8): (r: Checked<U8>)
    ensures r.Pass? <==> raw < ChannelCount
    ensures r.Pass? ==> r.value == raw
    ensures r.Stop? ==> r.reply == Panic
  {
    if raw < ChannelCount then Pass(raw) else Stop(Panic)
  }

  /** The path's channel must be the body's. */
  function ExtractChannel(path: U8, body: U8): (r: Checked<U8>)
    ensures path != body ==> r == Stop(Failure(BadRequest))
    ensures path == body ==> r == TryChannel(path)
  {
    if path != body then Stop(Failure(BadRequest)) else TryChannel(path)
  }

  /** A driver fault is the server's failure; every other error is the
      client's. */
  function ExtractError(e: Pca9685Error): (s: Status)
    ensures s == InternalServerError <==> e.Pca9685DriverError?
    ensures s == BadRequest <==> !e.Pca9685DriverError?
  {
    match e
    case Pca9685DriverError(_) => InternalServerError
    case _ => BadRequest
  }

  /** A controller result as a reply. */
  function ToReply(r: Result<ChannelConfig>): (reply: Reply)
    ensures reply.Response? <==> r.Ok?
    ensures r.Ok? ==> reply.config == r.value
    ensures r.Err? ==> reply == Failure(ExtractError(r.error))
  {
    match r
    case Ok(c) => Response(c)
    case Err(e) => Failure(ExtractError(e))
  }

  /** A channel's configuration as GET reports it: a channel without custom
      limits counts as not configured. */
  function ConfigReply(r: Result<ChannelConfig>): (reply: Reply)
    ensures reply.Response? <==> r.Ok? && r.value.customLimits.Some?
    ensures reply.Response? ==> reply.config == r.value
    ensures r.Ok? && r.value.customLimits.None? ==> reply == Failure(NotFound)
    ensures r.Err? ==> reply == Failure(ExtractError(r.error))
  {
    match r
    case Ok(c) => if c.customLimits.Some? then Response(c) else Failure(NotFound)
    case Err(e) => Failure(ExtractError(e))
  }

  /** The value a command carries: required for the three valued commands,
      forbidden for full on and full off, which use 0. */
  function CommandValue(cmd: ChannelCommand): (r: Checked<real>)
    ensures r.Pass? <==> (TakesValue(cmd.commandType) <==> cmd.value.Some?)
    ensures r.Stop? ==> r.reply == Failure(BadRequest)
    ensures r.Pass? && TakesValue(cmd.commandType) ==> r.value == cmd.value.value
    ensures r.Pass? && !TakesValue(cmd.commandType) ==> r.value == 0.0
  {
    if TakesValue(cmd.commandType) then
      match cmd.value
      case Some(v) => Pass(v)
      case None => Stop(Failure(BadRequest))
    else
      match cmd.value
      case Some(_) => Stop(Failure(BadRequest))
      case None => Pass(0.0)
  }

  /** The float-to-u16 cast of a pulse count: truncation toward zero,
      saturating at both ends. */
  function SaturatingU16(v: real): (n: U16)
    ensures v <= 0.0 ==> n == 0
    ensures v >= 65535.0 ==> n == 65535
    ensures 0.0 <= v < 65535.0 ==> n as real <= v < n as real + 1.0
  {
    if v <= 0.0 then 0 else if v >= 65535.0 then 65535 else v.Floor
  }

  /** The cast keeps every whole count. */
  lemma SaturatingU16Exact(n: U16)
    ensures SaturatingU16(n as real) == n
  {
    if 0 < n < 65535 {
      assert (n as real).Floor == n;
    }
  }

  /** The channel handler a command runs. A pulse count is cast first. */
  function CommandStep(s: ChannelConfig, clock: PcaClockConfig, t: CommandType, value: real, fault: Option<DriverFault>): (o: Outcome)
    requires WellFormed(s) && ClockValid(clock)
    ensures o.state.channel == s.channel && o.state.customLimits == s.customLimits
  {
    match t
    case FullOn => FullOnStep(s, fault)
    case FullOff => FullOffStep(s, fault)
    case PulseCount => SetCountStep(s, SaturatingU16(value), fault)
    case PulseWidth => SetPwStep(s, clock, value, fault)
    case Percent => SetPctStep(s, value, fault)
  }

  // The handlers, on a table of channel records

  /** GET: the channel's configuration once it has custom limits. */
  function GetStep(t: map<U8, ChannelConfig>, raw: U8): (r: Reply)
    ensures raw >= ChannelCount ==> r == Panic
    ensures r.Response? <==> raw < ChannelCount && raw in t && t[raw].customLimits.Some?
    ensures r.Response? ==> r.config == t[raw]
    ensures raw < ChannelCount && raw !in t ==> r == Failure(BadRequest)
  {
    match TryChannel(raw)
    case Stop(r) => r
    case Pass(ch) => ConfigReply(Lookup(t, ch))
  }

  /** POST: a channel that already has limits is a conflict; otherwise the
      body's limits are configured. A body naming a channel of 16 or more
      panics while it is read. */
  function PostStep(t: map<U8, ChannelConfig>, clock: PcaClockConfig, body: ChannelConfig): (r: (map<U8, ChannelConfig>, Reply))
    requires WellFormedTable(t) && ClockValid(clock)
    ensures WellFormedTable(r.0)
    ensures !r.1.Response? ==> r.0 == t
  {
    if body.channel >= ChannelCount then (t, Panic)
    else
      match Lookup(t, body.channel)
      case Err(_) => (t, Failure(NotFound))
      case Ok(existing) =>
        if existing.customLimits.Some? then (t, Failure(Conflict))
        else
          var o := ConfigureLimitsStep(existing, clock, body.customLimits);
          DispatchPreservesWellFormed(t, body.channel, o);
          var d := Dispatch(t, body.channel, o);
          (d.0, ToReply(d.2))
  }

  /** The checks PUT makes, in order: the body can be read, its channel is the
      path's, the channel is configured, and the value suits the command. */
  function PutPrecheck(t: map<U8, ChannelConfig>, path: U8, cmd: ChannelCommand): (r: Checked<real>)
    ensures r.Pass? <==>
      (cmd.channel < ChannelCount && path == cmd.channel && path in t &&
       t[path].customLimits.Some? && CommandValue(cmd).Pass?)
    ensures r.Pass? ==> r == CommandValue(cmd)
    ensures r.Stop? ==> !r.reply.Response?
    ensures cmd.channel >= ChannelCount ==> r == Stop(Panic)
  {
    if cmd.channel >= ChannelCount then Stop(Panic)
    else
      match ExtractChannel(path, cmd.channel)
      case Stop(r) => Stop(r)
      case Pass(ch) =>
        match ConfigReply(Lookup(t, ch))
        case Response(_) => CommandValue(cmd)
        case other => Stop(other)
  }

  /** PUT: after the checks, the command runs on the channel. */
  function PutStep(t: map<U8, ChannelConfig>, clock: PcaClockConfig, path: U8, cmd: ChannelCommand, fault: Option<DriverFault>): (r: (map<U8, ChannelConfig>, Option<Write>, Reply))
    requires WellFormedTable(t) && ClockValid(clock)
    ensures WellFormedTable(r.0)
    ensures PutPrecheck(t, path, cmd).Stop? ==> r == (t, None, PutPrecheck(t, path, cmd).reply)
  {
    match PutPrecheck(t, path, cmd)
    case Stop(reply) => (t, None, reply)
    case Pass(value) =>
      var o := CommandStep(t[path], clock, cmd.commandType, value, fault);
      DispatchPreservesWellFormed(t, path, o);
      var d := Dispatch(t, path, o);
      (d.0, d.1, ToReply(d.2))
  }

  /** DELETE: a configured channel has its limits cleared. */
  function DeleteStep(t: map<U8, ChannelConfig>, clock: PcaClockConfig, raw: U8): (r: (map<U8, ChannelConfig>, Reply))
    requires WellFormedTable(t) && ClockValid(clock)
    ensures WellFormedTable(r.0)
    ensures !r.1.Response? ==> r.0 == t
  {
    match TryChannel(raw)
    case Stop(reply) => (t, reply)
    case Pass(ch) =>
      match ConfigReply(Lookup(t, ch))
      case Response(_) =>
        var o := ConfigureLimitsStep(t[ch], clock, None);
        DispatchPreservesWellFormed(t, ch, o);
        var d := Dispatch(t, ch, o);
        (d.0, ToReply(d.2))
      case other => (t, other)
  }

  // Properties of the handlers

  /** DELETE on a channel without custom limits is NotFound and changes
      nothing; beyond channel 15 it panics. */
  lemma DeleteNotFound(t: map<U8, ChannelConfig>, clock: PcaClockConfig, raw: U8)
    requires WellFormedTable(t) && ClockValid(clock)
    ensures raw >= ChannelCount ==> DeleteStep(t, clock, raw) == (t, Panic)
    ensures raw < ChannelCount && t[raw].customLimits.None? ==> DeleteStep(t, clock, raw) == (t, Failure(NotFound))
    ensures raw < ChannelCount && t[raw].customLimits.Some? ==>
      DeleteStep(t, clock, raw) == (t[raw := t[raw].(customLimits := None)], Response(t[raw].(customLimits := None)))
  {
  }

  /** GET answers with the record exactly when the channel has limits, NotFound
      otherwise, and panics beyond channel 15. */
  lemma GetReportsConfigured(t: map<U8, ChannelConfig>, raw: U8)
    requires WellFormedTable(t)
    ensures raw >= ChannelCount ==> GetStep(t, raw) == Panic
    ensures raw < ChannelCount ==>
      (GetStep(t, raw).Response? <==> t[raw].customLimits.Some?) &&
      (GetStep(t, raw).Response? ==> GetStep(t, raw).config == t[raw]) &&
      (t[raw].customLimits.None? ==> GetStep(t, raw) == Failure(NotFound))
  {
  }

  /** POST conflicts exactly when the channel already has limits, and then
      changes nothing. */
  lemma PostConflictIff(t: map<U8, ChannelConfig>, clock: PcaClockConfig, body: ChannelConfig)
    requires WellFormedTable(t) && ClockValid(clock) && body.channel < ChannelCount
    ensures PostStep(t, clock, body).1 == Failure(Conflict) <==> t[body.channel].customLimits.Some?
    ensures t[body.channel].customLimits.Some? ==> PostStep(t, clock, body).0 == t
  {
    var s := t[body.channel];
    if s.customLimits.None? {
      var o := ConfigureLimitsStep(s, clock, body.customLimits);
      assert o.result.Err? ==> ExtractError(o.result.error) != Conflict;
    }
  }

  /** Posting count limits to an unconfigured channel stores them: the reply
      and a following GET both show them, the count is kept, and a second
      POST conflicts. */
  lemma PostThenGet(t: map<U8, ChannelConfig>, clock: PcaClockConfig, ch: U8, c: ChannelCountLimits, count: Option<U16>)
    requires WellFormedTable(t) && ClockValid(clock) && ch < ChannelCount && t[ch].customLimits.None?
    ensures var body := ChannelConfig(ch, count, Some(ChannelLimits(Some(c), None)));
      var (t2, reply) := PostStep(t, clock, body);
      var expected := t[ch].(customLimits := Some(ChannelLimits(Some(c), None)));
      reply == Response(expected) && GetStep(t2, ch) == Response(expected) &&
      PostStep(t2, clock, body).1 == Failure(Conflict)
  {
    var body := ChannelConfig(ch, count, Some(ChannelLimits(Some(c), None)));
    ConfigureEchoesCountLimits(t[ch], clock, c);
    var t2 := PostStep(t, clock, body).0;
    PostConflictIff(t2, clock, body);
  }

  /** DELETE on a configured channel clears its limits and keeps its count;
      afterwards GET and DELETE report NotFound and POST is accepted again. */
  lemma DeleteThenGet(t: map<U8, ChannelConfig>, clock: PcaClockConfig, ch: U8)
    requires WellFormedTable(t) && ClockValid(clock) && ch < ChannelCount && t[ch].customLimits.Some?
    ensures var (t2, reply) := DeleteStep(t, clock, ch);
      reply == Response(t[ch].(customLimits := None)) &&
      GetStep(t2, ch) == Failure(NotFound) &&
      DeleteStep(t2, clock, ch) == (t2, Failure(NotFound)) &&
      forall body: ChannelConfig {:trigger PostStep(t2, clock, body)} :: body.channel == ch ==> PostStep(t2, clock, body).1 != Failure(Conflict)
  {
    var t2 := DeleteStep(t, clock, ch).0;
    assert t2[ch] == t[ch].(customLimits := None);
    forall body: ChannelConfig | body.channel == ch
      ensures PostStep(t2, clock, body).1 != Failure(Conflict)
    {
      PostConflictIff(t2, clock, body);
    }
  }

  /** PUT checks the channel before it looks at the record, and the record
      before the value: a mismatched body is BadRequest whatever the channel's
      state, an unconfigured channel is NotFound whatever the value, and only
      then a missing or unwanted value is BadRequest. Every refused PUT sends
      nothing and changes nothing. */
  lemma PutCheckOrder(t: map<U8, ChannelConfig>, clock: PcaClockConfig, path: U8, cmd: ChannelCommand, fault: Option<DriverFault>)
    requires WellFormedTable(t) && ClockValid(clock) && cmd.channel < ChannelCount
    ensures path != cmd.channel ==> PutStep(t, clock, path, cmd, fault) == (t, None, Failure(BadRequest))
    ensures path == cmd.channel && t[path].customLimits.None? ==> PutStep(t, clock, path, cmd, fault) == (t, None, Failure(NotFound))
    ensures path == cmd.channel && t[path].customLimits.Some? && (TakesValue(cmd.commandType) != cmd.value.Some?) ==>
      PutStep(t, clock, path, cmd, fault) == (t, None, Failure(BadRequest))
  {
  }

  /** Once the checks pass, PUT is the channel's handler and its result as a
      reply; only a driver fault makes it a server error. */
  lemma PutRunsCommand(t: map<U8, ChannelConfig>, clock: PcaClockConfig, path: U8, cmd: ChannelCommand, fault: Option<DriverFault>)
    requires WellFormedTable(t) && ClockValid(clock)
    requires PutPrecheck(t, path, cmd).Pass?
    ensures path < ChannelCount && path == cmd.channel && t[path].customLimits.Some?
    ensures var o := CommandStep(t[path], clock, cmd.commandType, PutPrecheck(t, path, cmd).value, fault);
      PutStep(t, clock, path, cmd, fault) == (t[path := o.state], o.sent, ToReply(o.result))
    ensures PutStep(t, clock, path, cmd, fault).2 == Failure(InternalServerError) ==> fault.Some?
    ensures (cmd.commandType.FullOn? || cmd.commandType.FullOff?) && fault.Some? ==>
      PutStep(t, clock, path, cmd, fault).2 == Failure(InternalServerError)
  {
    var o := CommandStep(t[path], clock, cmd.commandType, PutPrecheck(t, path, cmd).value, fault);
    if o.result.Err? && o.result.error.Pca9685DriverError? {
      match cmd.commandType
      case FullOn =>
      case FullOff =>
      case PulseCount =>
      case PulseWidth =>
        var v := PutPrecheck(t, path, cmd).value;
        assert PwToCount(clock, v).Ok?;
      case Percent =>
        var v := PutPrecheck(t, path, cmd).value;
        assert PctToCount(EffectiveLimits(t[path].customLimits), v).Ok?;
    }
  }

  // The handlers, on a controller

  function GetChannel(pca: Pca9685, raw: U8): (r: Reply)
    requires pca.Valid()
    reads pca, pca.channels.Values
    ensures r == GetStep(pca.Table(), raw)
  {
    if raw >= ChannelCount then Panic else ConfigReply(pca.ConfigOf(raw))
  }

  method PostChannel(pca: Pca9685, body: ChannelConfig) returns (r: Reply)
    requires pca.Valid()
    modifies pca.channels.Values
    ensures pca.Valid()
    ensures (pca.Table(), r) == PostStep(old(pca.Table()), pca.proxy.Clock(), body)
  {
    if body.channel >= ChannelCount {
      return Panic;
    }
    var existing := pca.ConfigOf(body.channel);
    if existing.Err? {
      return Failure(NotFound);
    }
    if existing.value.customLimits.Some? {
      return Failure(Conflict);
    }
    var result := pca.ConfigureChannel(body);
    r := ToReply(result);
  }

  method PutChannel(pca: Pca9685, path: U8, cmd: ChannelCommand) returns (r: Reply)
    requires pca.Valid()
    modifies pca.channels.Values, pca.proxy
    ensures pca.Valid()
    ensures var (t, sent, reply) := PutStep(old(pca.Table()), pca.proxy.Clock(), path, cmd, old(PendingFault(pca.proxy.inner)));
      pca.Table() == t && r == reply && pca.proxy.inner == DeliverAll(old(pca.proxy.inner), sent)
  {
    if cmd.channel >= ChannelCount {
      return Panic;
    }
    var channel := ExtractChannel(path, cmd.channel);
    if channel.Stop? {
      return channel.reply;
    }
    var ch := channel.value;
    var existing := ConfigReply(pca.ConfigOf(ch));
    if !existing.Response? {
      return existing;
    }
    var value := CommandValue(cmd);
    if value.Stop? {
      return value.reply;
    }
    var v := value.value;
    var result: Result<ChannelConfig>;
    match cmd.commandType {
      case FullOn => result := pca.FullOn(ch);
      case FullOff => result := pca.FullOff(ch);
      case PulseCount => result := pca.SetPwmCount(ch, SaturatingU16(v));
      case PulseWidth => result := pca.SetPwMs(ch, v);
      case Percent => result := pca.SetPct(ch, v);
    }
    r := ToReply(result);
  }

  method DeleteChannel(pca: Pca9685, raw: U8) returns (r: Reply)
    requires pca.Valid()
    modifies pca.channels.Values
    ensures pca.Valid()
    ensures (pca.Table(), r) == DeleteStep(old(pca.Table()), pca.proxy.Clock(), raw)
  {
    if raw >= ChannelCount {
      return Panic;
    }
    var existing := ConfigReply(pca.ConfigOf(raw));
    if !existing.Response? {
      return existing;
    }
    var result := pca.ConfigureChannel(ChannelConfig(raw, None, None));
    r := ToReply(result);
  }
}
