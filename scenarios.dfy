/** The repository's own test cases, stated over the model: the service tests
    run against a mock controller at 200 Hz whose channel 0 was posted the
    count limits [1000, 2000]; the controller test reads back the figures a
    200 Hz mock derives. */
module Scenarios {
  import opened Pwm
  import opened Limits
  import opened Proxy
  import opened Channels
  import opened Controller
  import opened Service

  /** The device configuration of the tests. */
  function TestDeviceConfig(): Config {
    ConfigWithDefaults("/dev/foo", 0x40, 200)
  }

  function TestClock(): PcaClockConfig {
    ClockFor(200)
  }

  function TestLimits(): ChannelLimits {
    ChannelLimits(Some(ChannelCountLimits(1000, 2000)), None)
  }

  /** The body the service tests post. */
  function TestConfig(): ChannelConfig {
    ChannelConfig(0, None, Some(TestLimits()))
  }

  /** Channel 0 as the service reports it once the test limits are posted. */
  function PostedChannel(): ChannelConfig {
    ChannelConfig(0, None, Some(TestLimits()))
  }

  /** The table after the tests' POST. */
  function Configured(): map<U8, ChannelConfig> {
    FreshTableWellFormed();
    PostStep(FreshTable(), TestClock(), TestConfig()).0
  }

  /** Posting the test limits to a fresh controller echoes them; posting them
      twice conflicts; the channel is then readable. */
  lemma PostTests()
    ensures WellFormedTable(Configured()) && Configured()[0] == PostedChannel()
    ensures PostStep(FreshTable(), TestClock(), TestConfig()).1 == Response(PostedChannel())
    ensures PostStep(Configured(), TestClock(), TestConfig()).1 == Failure(Conflict)
    ensures GetStep(Configured(), 0) == Response(PostedChannel())
  {
    FreshTableWellFormed();
    PostThenGet(FreshTable(), TestClock(), 0, ChannelCountLimits(1000, 2000), None);
  }

  /** A fresh controller knows nothing of channel 0: GET, PUT and DELETE are
      NotFound, even PUT with a value it would refuse. */
  lemma NotFoundTests()
    ensures GetStep(FreshTable(), 0) == Failure(NotFound)
    ensures PutStep(FreshTable(), TestClock(), 0, ChannelCommand(0, Percent, None), None).2 == Failure(NotFound)
    ensures DeleteStep(FreshTable(), TestClock(), 0).1 == Failure(NotFound)
  {
    FreshTableWellFormed();
  }

  /** The tests' table, written out: channel 0 posted, the others fresh. */
  lemma ConfiguredTable()
    ensures Configured() == FreshTable()[0 := PostedChannel()]
    ensures WellFormedTable(FreshTable()[0 := PostedChannel()])
  {
    PostTests();
  }

  /** PUT of `cmd` to channel 0 of the tests' table, with the mock. */
  function Put(cmd: ChannelCommand): Reply {
    ConfiguredTable();
    PutStep(FreshTable()[0 := PostedChannel()], TestClock(), 0, cmd, None).2
  }

  /** PUT of full on or full off: accepted without a value, refused with one. */
  lemma PutFullOnOffTests()
    ensures Put(ChannelCommand(0, FullOn, None)) == Response(PostedChannel().(currentCount := Some(PwmResolution)))
    ensures Put(ChannelCommand(0, FullOn, Some(3.2))) == Failure(BadRequest)
    ensures Put(ChannelCommand(0, FullOff, None)) == Response(PostedChannel())
    ensures Put(ChannelCommand(0, FullOff, Some(3.2))) == Failure(BadRequest)
  {
    ConfiguredTable();
  }

  /** PUT of a pulse count: 1500 is set, 3000 is beyond the limits. */
  lemma PutCountTests()
    ensures Put(ChannelCommand(0, PulseCount, Some(1500.0))) == Response(PostedChannel().(currentCount := Some(1500)))
    ensures Put(ChannelCommand(0, PulseCount, Some(3000.0))) == Failure(BadRequest)
  {
    ConfiguredTable();
    SaturatingU16Exact(1500);
    SaturatingU16Exact(3000);
  }

  /** PUT of a pulse width: 1.831055 ms at 200 Hz is 1500 counts. */
  lemma PutPwTest()
    ensures Put(ChannelCommand(0, PulseWidth, Some(1.831055))) == Response(PostedChannel().(currentCount := Some(1500)))
  {
    ConfiguredTable();
    var clock := TestClock();
    assert clock.singlePwDurationMs == 5.0 / 4096.0;
    assert 1.831055 / clock.singlePwDurationMs == 1500.000256;
    assert PwToCount(clock, 1.831055) == Ok(1500);
  }

  /** PUT of a percent: 50% of [1000, 2000] is 1500. */
  lemma PutPctTest()
    ensures Put(ChannelCommand(0, Percent, Some(0.5))) == Response(PostedChannel().(currentCount := Some(1500)))
  {
    ConfiguredTable();
    assert PctToCount(TestLimits(), 0.5) == Ok(1500);
  }

  /** PUT of a valued command without its value is BadRequest. */
  lemma PutMissingValueTests()
    ensures Put(ChannelCommand(0, PulseCount, None)) == Failure(BadRequest)
    ensures Put(ChannelCommand(0, PulseWidth, None)) == Failure(BadRequest)
    ensures Put(ChannelCommand(0, Percent, None)) == Failure(BadRequest)
  {
    ConfiguredTable();
  }

  /** DELETE on the configured channel succeeds, after which the same POST is
      accepted again. */
  lemma DeleteTests()
    ensures DeleteStep(Configured(), TestClock(), 0).1 == Response(ChannelConfig(0, None, None))
    ensures PostStep(DeleteStep(Configured(), TestClock(), 0).0, TestClock(), TestConfig()).1 == Response(PostedChannel())
  {
    PostTests();
    var t2 := DeleteStep(Configured(), TestClock(), 0).0;
    DeleteThenGet(Configured(), TestClock(), 0);
    PostThenGet(t2, TestClock(), 0, ChannelCountLimits(1000, 2000), None);
  }

  /** The controller test: a 200 Hz mock reports a 5 ms cycle, 5/4096 ms per
      count, prescale 30, a totem-pole output and the configured device and
      address. */
  method InitTest() returns (maxPwMs: real, singleCountDurationMs: real, prescale: U8, outputType: OutputDriver, device: string, address: U8, frequency: U16)
    ensures maxPwMs == 5.0 && singleCountDurationMs == 5.0 / 4096.0
    ensures prescale == 30 && outputType == TotemPole
    ensures device == "/dev/foo" && address == 0x40 && frequency == 200
  {
    var pca := Pca9685.Mock(TestDeviceConfig());
    PrescaleAt200Hz();
    maxPwMs := pca.MaxPwMs();
    singleCountDurationMs := pca.SingleCountDurationMs();
    prescale := pca.Prescale();
    outputType := pca.OutputType();
    device := pca.DevicePath();
    address := pca.Address();
    frequency := pca.OutputFrequencyHz();
  }

  /** The conflict test, on a controller object: the first POST is accepted,
      the second conflicts, and the channel reads back as posted. */
  method ConflictTest() returns (first: Reply, second: Reply, read: Reply)
    ensures first == Response(PostedChannel())
    ensures second == Failure(Conflict)
    ensures read == Response(PostedChannel())
  {
    var pca := Pca9685.Mock(TestDeviceConfig());
    PostTests();
    first := PostChannel(pca, TestConfig());
    second := PostChannel(pca, TestConfig());
    read := GetChannel(pca, 0);
  }
}
