# PCA9685 channel controller — a Dafny model

This project models the core of a Rust library and REST service for the NXP
PCA9685, a 16-channel, 12-bit PWM controller on an I2C bus. The core is:

- each channel's mutable record (its last recorded count and its optional
  custom limits) and the handlers that change it: configure or clear limits,
  full on, full off, a raw count, a pulse width in milliseconds, and a percent
  of the channel's range;
- the controller, which owns the table of the 16 channel records plus one
  hardware proxy, and routes every operation to one channel;
- the hardware proxy's arithmetic: the cycle length and count duration
  derived from the output frequency, the PRE_SCALE value (section 7.3.5 of
  the NXP PCA9685 datasheet), and the output driver. It also covers the
  three register writes, to a live device or to the mock, which accepts
  every write and does nothing;
- the decision logic of the service's GET, POST, PUT and DELETE handlers on
  `/channel`.

The resolution is 4096 counts. The value 4096 is also the top of the default
count range and the "full on" sentinel a channel records.

Layout, one module per file:

- `pwm.dfy` (`Pwm`) holds the data model: the resolution, the limits and
  configuration records, the device configuration, and the six-variant error
  type.
- `limits.dfy` (`Limits`) holds the limits helpers and the two unit
  conversions.
- `proxy.dfy` (`Proxy`) holds the clock and prescale arithmetic, the device
  model and the class `Pca9685ProxyImpl`.
- `channels.dfy` (`Channels`) holds the class `ChannelProxy`. Each of its
  methods is specified by a pure step function. A step function gives the
  channel's new configuration, the register write sent (if any), and the
  result. It takes as input the fault the device will report.
- `controller.dfy` (`Controller`) holds the class `Pca9685`. Its abstract
  state is a map from channel number to channel configuration. Each command
  is specified through `Dispatch`, which changes only the addressed channel.
- `service.dfy` (`Service`) holds the handlers, as step functions over that
  map and as methods over a controller object.
- `scenarios.dfy` (`Scenarios`) states the repository's own test cases over
  the model.

The live device appears as a value with two parts. The first is the answers
the bus will give to the coming writes, in order: a fault, or an acceptance.
Once these run out, every write is accepted. The second is the list of
writes the device has accepted. Each write uses up one answer, so a fault
affects only the write that meets it. The mock has no device.

`ChannelProxy.CurrentConfig` is the snapshot `config()` returns. The
methods' contracts are stated through it.

## Model

| member | source | states |
|---|---|---|
| Pwm.ConfigWithDefaults | src/lib.rs:30-35 | a configuration that omits `open_drain` and `channels` has a totem-pole output and no preconfigured channels |
| Limits.DefaultLimits | src/channelproxy.rs:136-139 | a channel without custom limits accepts every count from 0 up to and including 4096 |
| Limits.EffectiveLimits | src/channelproxy.rs:136-139 | a channel's own limits when it has some, otherwise the default; always carries a count range |
| Limits.FromCountLimits | src/channelproxy.rs:59-64 | limits built from a count range keep exactly that range and no pulse-width range |
| Limits.PwToCount | src/channelproxy.rs:116 | a pulse width converts exactly when it lies in [0, cycle length]; otherwise it is PulseWidthRangeError(width, cycle length); a converted count is at most 4096 |
| Limits.PwToCountTruncates | src/channelproxy.rs:312-330 | the count truncates: its duration never exceeds the width, and one more count would |
| Limits.IsValid | src/channelproxy.rs:140 | a count passes exactly when it lies in the closed count range: under the default limits that is 0 to 4096; a reversed range admits no count |
| Limits.PwToCountMonotonic | src/channelproxy.rs:111-117 | a wider pulse never gives a smaller count (the source has no test of this; it follows from the truncating division) |
| Limits.PwToCountEnds | src/channelproxy.rs:283-297 | zero width gives count 0; the whole cycle gives the full-on count 4096 |
| Limits.PctToCount | src/channelproxy.rs:124-128 | a percent converts exactly when it is in [0, 1]; otherwise it is PercentOfRangeError(pct) |
| Limits.PctToCountInRange | src/channelproxy.rs:357-381 | in an ordered range every percent lands inside the range; 0 gives the minimum and 1 the maximum |
| Limits.PctToCountTruncates | src/channelproxy.rs:357-381 | the count is the minimum plus the truncated share of the range: with k = count - min, k ≤ (max - min)·pct < k + 1, as the tests' `1000 + (1000.0 * pct) as u16` computes |
| Limits.PctToCountMonotonic | src/channelproxy.rs:119-129 | a larger percent never gives a smaller count (the source has no test of this; it follows from the truncating conversion) |
| Limits.FromPwLimits | src/channelproxy.rs:65-71 | pulse-width limits become the count range of their two converted ends and keep the millisecond range; they fail exactly when an end is out of range |
| Proxy.ClockFor | src/pca9685_proxy.rs:104-105 | the cycle is 1000/f ms and is split into 4096 equal counts |
| Proxy.Round | src/pca9685_proxy.rs:127 | rounding to nearest: the result is within one half of its argument |
| Proxy.CalculatePrescale | src/pca9685_proxy.rs:123-130 | the source's u8 arithmetic: 0 Hz gives 254 (an infinite quotient saturates at 255), the rounded quotient is capped at 255 before the `- 1`, and the value is undefined exactly when the rounded quotient is 0 |
| Proxy.PrescaleDefinedIff | src/pca9685_proxy.rs:123-130 | the prescale exists exactly for frequencies up to 12207 Hz; above that the rounded quotient is 0 and the `- 1` underflows |
| Proxy.PrescaleUnsaturated | src/pca9685_proxy.rs:126-127 | from 24 Hz to 12207 Hz the prescale is round(25 MHz / (4096 f)) - 1, with the rounded quotient in 1..255 |
| Proxy.PrescaleAt200Hz | src/pca9685.rs:234 | at 200 Hz the prescale is 30 |
| Proxy.OutputTypeFor | src/pca9685_proxy.rs:114-118 | the output is open drain if and only if `open_drain` is set |
| Proxy.PendingFault | src/pca9685_proxy.rs:53-58 | the fault the next write meets is the device's next answer; the mock, and a device whose answers have run out, never report one |
| Proxy.Deliver | src/pca9685_proxy.rs:53-74 | the mock stays without a device; every write uses up the device's next answer; a failed write is not recorded, and an accepted write is appended to the device's writes |
| Proxy.FaultIsTransient | src/pca9685_proxy.rs:53-74 | a fault fails only the write that meets it: the following write is accepted and recorded |
| Proxy.ResultOf | src/pca9685_proxy.rs:53-74 | a write succeeds exactly when no fault is pending, so the mock's always do |
| Proxy.Pca9685ProxyImpl.Clock | src/pca9685_proxy.rs:20-26 | the two timing getters form the clock for the configured frequency |
| Proxy.Pca9685ProxyImpl.Init | src/pca9685_proxy.rs:103-121 | every static fact is derived from the configuration as the source computes it, and the device is stored |
| Proxy.Pca9685ProxyImpl.Mock | src/pca9685_proxy.rs:99-101 | the mock has the configured facts and no device |
| Proxy.Pca9685ProxyImpl.SetChannelOffCount | src/pca9685_proxy.rs:48-60 | sends (channel, on 0, off count) to the device; without a device it succeeds and does nothing |
| Proxy.Pca9685ProxyImpl.SetChannelFullOn | src/pca9685_proxy.rs:62-67 | sends full on with delay 0; without a device it succeeds and does nothing |
| Proxy.Pca9685ProxyImpl.SetChannelFullOff | src/pca9685_proxy.rs:69-74 | sends full off; without a device it succeeds and does nothing |
| Channels.ConfigureLimitsStep | src/channelproxy.rs:40-87 | configuring never sends a write or touches the count; it keeps limits canonical, returns the new snapshot, and changes nothing when it fails |
| Channels.FullOnStep | src/channelproxy.rs:89-98 | full on keeps the channel's number and limits, returns the new snapshot on success, and returns Pca9685DriverError with the device's fault when the write fails |
| Channels.FullOffStep | src/channelproxy.rs:100-109 | full off keeps the channel's number and limits, returns the new snapshot on success, and returns Pca9685DriverError with the device's fault when the write fails |
| Channels.SetCountStep | src/channelproxy.rs:131-165 | a raw count keeps the channel's number and limits and returns the new snapshot on success |
| Channels.SetPwStep | src/channelproxy.rs:111-117 | a pulse width keeps the channel's number and limits and returns the new snapshot on success |
| Channels.SetPctStep | src/channelproxy.rs:119-129 | a percent keeps the channel's number and limits and returns the new snapshot on success |
| Channels.ConfigureRejectsIff | src/channelproxy.rs:44-57 | limits are refused with InvalidConfiguration exactly when they give neither or both ranges, and the refusal changes nothing |
| Channels.ConfigureEchoesCountLimits | src/channelproxy.rs:59-64 | count limits are stored and returned exactly as given |
| Channels.ConfigureStoresPwLimits | src/channelproxy.rs:65-71 | pulse-width limits are stored as the count range of their two converted ends with the millisecond range kept; an end out of range is PulseWidthRangeError and changes nothing |
| Channels.ConfigureClears | src/channelproxy.rs:80-85 | clearing always succeeds, removes the limits and keeps the count |
| Channels.SetCountRejectsExactly | src/channelproxy.rs:136-145 | a count is refused with CustomLimitsError(count, limits) exactly when it lies outside the effective limits; the refusal sends nothing and changes nothing |
| Channels.SetCountSentinelIsFullOn | src/channelproxy.rs:147-148 | the count 4096, once it passes the limits, behaves exactly as full on |
| Channels.SetCountWrites | src/channelproxy.rs:150-163 | any other accepted count is sent with on 0; it is recorded on success, and a driver failure reports the fault and leaves the channel unchanged |
| Channels.FullOnOffIgnoreLimitsAndFaults | src/channelproxy.rs:89-109 | full on records 4096 and full off records none, whatever the limits and even when the write fails; the result is Ok exactly when the write succeeded, and otherwise Pca9685DriverError with the fault |
| Channels.SetPctStaysInLimits | src/channelproxy.rs:119-129 | with ordered limits a percent in [0, 1] never fails the limits check; only a driver fault can make it fail |
| Channels.ConversionsRejectOutOfRange | src/channelproxy.rs:415-437 | an out-of-range percent or pulse width is refused before anything is sent |
| Channels.DefaultPercentPoints | src/channelproxy.rs:335-355 | with default limits, 0, 0.25, 0.5, 0.75 and 1 give 0, 1024, 2048, 3072 and 4096 |
| Channels.CustomPercentPoints | src/channelproxy.rs:357-381 | with limits [1000, 2000] the same percents give 1000, 1250, 1500, 1750 and 2000 |
| Channels.CountTestPoints | src/channelproxy.rs:239-413 | 50 is set and 4097 refused under the default limits; 999 and 2001 are refused under [1000, 2000] |
| Channels.PulseWidthTestPoints | src/channelproxy.rs:271-333 | at 200 Hz: 0 ms gives 0, 5 ms gives 4096, quarter steps give 1024/2048/3072, 1, 1.5 and 2 ms give 819, 1228 and 1638; -1 ms and 6 ms are range errors |
| Channels.FreshChannel | src/channelproxy.rs:13-17 | a new channel record carries its number, no count and no custom limits |
| Channels.ChannelProxy.CurrentConfig | src/channelproxy.rs:26-38 | the snapshot carries the channel's number, its recorded count and its custom limits |
| Channels.ChannelProxy.constructor | src/channelproxy.rs:10-20 | a new channel has no count and no custom limits |
| Channels.ChannelProxy.Configure | src/channelproxy.rs:22-24 | configuring from a whole configuration uses only its limits |
| Channels.ChannelProxy.ConfigureLimits | src/channelproxy.rs:40-87 | the new state and result are those of ConfigureLimitsStep |
| Channels.ChannelProxy.FullOn | src/channelproxy.rs:89-98 | the new state, result and device are those of FullOnStep, with the count recorded before the write |
| Channels.ChannelProxy.FullOff | src/channelproxy.rs:100-109 | the new state, result and device are those of FullOffStep |
| Channels.ChannelProxy.SetPwMs | src/channelproxy.rs:111-117 | the new state, result and device are those of SetPwStep |
| Channels.ChannelProxy.SetPct | src/channelproxy.rs:119-129 | the new state, result and device are those of SetPctStep |
| Channels.ChannelProxy.SetPwmCount | src/channelproxy.rs:131-165 | the new state, result and device are those of SetCountStep |
| Controller.FreshTable | src/pca9685.rs:36-43 | a new controller has a record for exactly channels 0 to 15, each fresh |
| Controller.FreshTableWellFormed | src/pca9685.rs:36-43 | the fresh table is well formed |
| Controller.Lookup | src/pca9685.rs:91-98 | a channel number finds its record exactly when the table has one; any other number is NoSuchChannelError |
| Controller.Dispatch | src/pca9685.rs:101-205 | routing to a channel outside the table is NoSuchChannelError with nothing sent or changed; otherwise only the addressed record changes, and the handler's result is returned as it is |
| Controller.DispatchPreservesWellFormed | src/pca9685.rs:101-205 | routing a handler that keeps its channel's number and limit form keeps the table well formed |
| Controller.Pca9685.Table | src/pca9685.rs:36-48 | a valid controller's table holds exactly channels 0 to 15, each numbered by its key |
| Controller.Pca9685.Init | src/pca9685.rs:26-49 | the loop builds 16 distinct fresh channel records over the proxy's clock |
| Controller.Pca9685.New | src/pca9685.rs:15-17 | a controller over the given live device, with a fresh table, the configured device path, address, frequency and output type |
| Controller.Pca9685.Mock | src/pca9685.rs:22-24 | a controller over the mock, with a fresh table and the configured facts |
| Controller.Pca9685.MaxPwMs | src/pca9685.rs:53-55 | the maximum pulse width times the frequency is 1000 ms |
| Controller.Pca9685.SingleCountDurationMs | src/pca9685.rs:59-61 | 4096 counts make up the maximum pulse width |
| Controller.Pca9685.OutputFrequencyHz | src/pca9685.rs:64-66 | the configured frequency, within the supported range |
| Controller.Pca9685.DevicePath | src/pca9685.rs:68-70 | returns the proxy's device path |
| Controller.Pca9685.Address | src/pca9685.rs:73-75 | returns the proxy's address |
| Controller.Pca9685.OutputType | src/pca9685.rs:85-87 | returns the proxy's output driver |
| Controller.Pca9685.Prescale | src/pca9685.rs:80-82 | the prescale computed for the configured frequency |
| Controller.Pca9685.ConfigOf | src/pca9685.rs:91-98 | a snapshot exists exactly for channels 0 to 15 and carries the requested number; any other number is NoSuchChannelError |
| Controller.Pca9685.ConfigureChannel | src/pca9685.rs:101-108 | only the named channel's limits change, as ConfigureLimitsStep says, and its result is returned |
| Controller.Pca9685.FullOn | src/pca9685.rs:114-123 | only the addressed channel changes, as FullOnStep says, and the device receives that write |
| Controller.Pca9685.FullOff | src/pca9685.rs:133-142 | only the addressed channel changes, as FullOffStep says |
| Controller.Pca9685.SetPwmCount | src/pca9685.rs:154-163 | only the addressed channel changes, as SetCountStep says |
| Controller.Pca9685.SetPwMs | src/pca9685.rs:176-185 | only the addressed channel changes, as SetPwStep says |
| Controller.Pca9685.SetPct | src/pca9685.rs:196-205 | only the addressed channel changes, as SetPctStep says |
| Service.TryChannel | src/bin/pca9685-service.rs:137 | channel numbers 0 to 15 pass; any other number makes the handler panic |
| Service.ExtractChannel | src/bin/pca9685-service.rs:90-104 | a body channel different from the path's is BadRequest; otherwise the path's channel |
| Service.ExtractError | src/bin/pca9685-service.rs:106-118 | a driver error is 500 and every other error is 400 |
| Service.ToReply | src/bin/pca9685-service.rs:219-222 | a controller result becomes the configuration or its error's status |
| Service.ConfigReply | src/bin/pca9685-service.rs:120-133 | a channel answers with its configuration exactly when it has custom limits; without them it is NotFound; an error maps through ExtractError |
| Service.CommandValue | src/bin/pca9685-service.rs:182-209 | a value is accepted exactly when it is present for the valued commands and absent for full on/off (which then use 0); otherwise BadRequest |
| Service.SaturatingU16 | src/bin/pca9685-service.rs:214 | the cast truncates toward zero and saturates at 0 and 65535 |
| Service.SaturatingU16Exact | src/bin/pca9685-service.rs:214 | the cast keeps every whole count |
| Service.CommandStep | src/bin/pca9685-service.rs:211-217 | every command keeps the channel's number and limits |
| Service.GetStep | src/bin/pca9685-service.rs:120-138 | GET panics beyond channel 15, answers with the record exactly when the channel has custom limits, and is otherwise an error reply |
| Service.PutPrecheck | src/bin/pca9685-service.rs:177-209 | the checks pass exactly when the body's channel is valid and the path's, the channel has custom limits, and the value suits the command; the value passed on is the command's |
| Service.PostStep | src/bin/pca9685-service.rs:141-169 | POST keeps the table well formed and changes nothing unless it succeeds |
| Service.PutStep | src/bin/pca9685-service.rs:172-223 | PUT keeps the table well formed; a PUT stopped by a check sends nothing and changes nothing |
| Service.DeleteStep | src/bin/pca9685-service.rs:226-240 | DELETE keeps the table well formed and changes nothing unless it succeeds |
| Service.GetReportsConfigured | src/bin/pca9685-service.rs:120-138 | GET answers with the record exactly when the channel has limits; otherwise NotFound |
| Service.PostConflictIff | src/bin/pca9685-service.rs:142-159 | POST is Conflict exactly when the channel already has limits, and then changes nothing |
| Service.PostThenGet | src/bin/pca9685-service.rs:324-389 | posting count limits to an unconfigured channel echoes them; GET then shows them; a second POST conflicts |
| Service.DeleteNotFound | src/bin/pca9685-service.rs:226-240 | DELETE panics beyond channel 15; on a channel without custom limits it is NotFound and changes nothing; otherwise it clears the limits, keeps the count and returns the cleared record |
| Service.DeleteThenGet | src/bin/pca9685-service.rs:225-240 | DELETE clears the limits and keeps the count; afterwards GET and DELETE are NotFound and POST no longer conflicts |
| Service.PutCheckOrder | src/bin/pca9685-service.rs:177-209 | PUT checks the channel, then the record, then the value: a mismatch is BadRequest, an unconfigured channel is NotFound whatever the value, and then a wrong value is BadRequest; none of these changes anything |
| Service.PutRunsCommand | src/bin/pca9685-service.rs:211-222 | a PUT that passes the checks runs the command's handler on that channel; a 500 only comes from a driver fault, and a faulted full on or full off is always a 500 |
| Service.GetChannel | src/bin/pca9685-service.rs:135-138 | on the controller, GET is GetStep of its table |
| Service.PostChannel | src/bin/pca9685-service.rs:141-169 | on the controller, the new table and the reply are those of PostStep |
| Service.PutChannel | src/bin/pca9685-service.rs:172-223 | on the controller, the new table, the write and the reply are those of PutStep |
| Service.DeleteChannel | src/bin/pca9685-service.rs:226-240 | on the controller, the new table and the reply are those of DeleteStep |
| Scenarios.PostTests | src/bin/pca9685-service.rs:324-389 | the tests' POST echoes the limits [1000, 2000]; posting twice conflicts; GET reads it back |
| Scenarios.NotFoundTests | src/bin/pca9685-service.rs:391-399 | (with the PUT test at lines 701-716 and the DELETE test at lines 745-755) on a fresh controller GET, PUT (even without a value) and DELETE of channel 0 are NotFound |
| Scenarios.ConfiguredTable | src/bin/pca9685-service.rs:294-315 | after the tests' POST only channel 0 differs from a fresh table, holding the limits [1000, 2000] |
| Scenarios.PutFullOnOffTests | src/bin/pca9685-service.rs:401-509 | with the test limits, FullOn gives 4096 and FullOff no count; either one with a value is BadRequest |
| Scenarios.PutCountTests | src/bin/pca9685-service.rs:511-564 | a pulse count of 1500 is set; 3000 lies beyond the limits and is BadRequest |
| Scenarios.PutPwTest | src/bin/pca9685-service.rs:591-619 | a pulse width of 1.831055 ms at 200 Hz gives 1500 counts |
| Scenarios.PutPctTest | src/bin/pca9685-service.rs:646-674 | 50% of [1000, 2000] gives 1500 counts |
| Scenarios.PutMissingValueTests | src/bin/pca9685-service.rs:566-699 | a pulse count, pulse width or percent without a value is BadRequest |
| Scenarios.DeleteTests | src/bin/pca9685-service.rs:718-743 | DELETE of the configured channel succeeds and the same POST is then accepted |
| Scenarios.InitTest | src/pca9685.rs:226-243 | a 200 Hz mock reports 5 ms, 5/4096 ms per count, prescale 30, totem pole and the configured device and address |
| Scenarios.ConflictTest | src/bin/pca9685-service.rs:345-363 | on a controller object the first POST is accepted, the second conflicts, and GET reads the channel as posted |

## Left out

- Concurrency: the two mutexes, their lock order and the `Send`/`Sync` declarations. The controller is modelled single-threaded.
- Real device I/O. Opening the I2C device and setting up the foreign driver (prescale register, output driver, enable, and the panics when any of these fails) are not modelled. `New` takes the device as a value.
- Floating point. Pulse widths, percents, `1000/f` and `round()` are exact `real` arithmetic with `.Floor`; NaN, infinities and f64 rounding are not modelled.
- Proxy.Pca9685ProxyImpl.Init: requires a frequency from 1 to 12207 Hz. At 0 Hz the source divides by zero in floating point, and above 12207 Hz its prescale `- 1` underflows. `CalculatePrescale` models both cases (`Some(254)` and `None`), but a proxy is only built inside the range.
- Proxy.Pca9685ProxyImpl.Mock: the same frequency requirement, inherited from Init.
- Controller.Pca9685.New: the same frequency requirement, inherited from the proxy.
- Controller.Pca9685.Mock: the same frequency requirement, inherited from the proxy.
- The helpers `from_count_limits`, `from_pw_limits`, `is_valid`, `pct_to_count`, `Default` and `pw_to_count` are not part of this model's source files. They are specified from the channel tests and the error messages.
  - The limits check is a closed interval on the count range.
  - Nothing orders a given range. With a reversed range, every count is refused and percents are computed from the negative difference.
  - `from_pw_limits` is modelled as returning a Result, so an out-of-range end is reported as PulseWidthRangeError. Its body is not visible.
- Logging, the error-message formatting and the serde (de)serialisation helpers are left out. These are output and glue only.
- The channel `name` field is left out, because only log output uses it.
- Rocket routing, JSON bodies and status wrappers are left out, and so are the CLI binaries, `GET /status`, `rocket()` and `main`.
- A handler panic is reported as `Panic`. What the web framework answers then is not part of this model. Such a panic comes from a channel number of 16 or more in a path or a body.
- The `pwm_pca9685` `Channel` type is modelled as the raw channel byte. The controller's NoSuchChannelError branch is therefore reachable in the model, for numbers 16 to 255.

## Where the files disagree

- A comment at `src/lib.rs:45` gives the default range as [0, 4095]. The code accepts 4096 under the default limits, as a 4096-step resolution and the full-on sentinel imply. The model follows the code: [0, 4096].
- `src/pca9685.rs:41` passes the clock's two numbers to the channel constructor, but `src/channelproxy.rs:10` takes one clock record. The model builds each channel with the proxy's clock record.
- `src/pca9685.rs:105` wraps the channel's result in a further `Ok`. The model returns the channel's result directly.
- `src/utils.rs:24` reads the minimum and maximum counts as if they were fields of the limits record. The model compares limits through their count range.
- The controller test at `src/pca9685.rs:214-219` builds a `Config` without its `channels` field. The model builds the test configuration with `ConfigWithDefaults`. This sets `open_drain` to false, as the test does, and gives no preconfigured channels.
- The service tests post count limits where a full limits record is expected. The service builds its mock with a constructor that the controller does not define. The model posts the limits record with a count range [1000, 2000], and builds the mock with `Mock`.
