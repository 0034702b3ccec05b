/** The data model of the PCA9685 controller: the fixed PWM resolution, the
    per-channel limits and configuration records, the device configuration and
    the error taxonomy every controller operation reports through. */
module Pwm {

  /** The PCA9685 is a 12-bit PWM: 4096 steps. The same value is the top of the
      default count range and the "full on" sentinel stored as a channel's count. */
  const PwmResolution: int := 4096

  type U8 = x: int | 0 <= x < 0x100
  type U16 = x: int | 0 <= x < 0x1_0000

  datatype Option<T> = None | Some(value: T)

  /** A count range; nothing in the type orders or bounds its ends. */
  datatype ChannelCountLimits = ChannelCountLimits(minOnCount: U16, maxOnCount: U16)

  /** A pulse-width range in milliseconds. */
  datatype ChannelMsLimits = ChannelMsLimits(minOnMs: real, maxOnMs: real)

  /** A channel's custom limits. At the type level it may hold a count range, a
      pulse-width range, both or neither; which combinations are accepted is
      decided when the limits are configured. */
  datatype ChannelLimits = ChannelLimits(countLimits: Option<ChannelCountLimits>, pwLimits: Option<ChannelMsLimits>)

  /** The desired or actual configuration of one channel. `currentCount` is
      `None` when the channel is off or was never driven, `Some(n)` the last
      recorded count (`Some(PwmResolution)` for full on). `channel` is the raw
      channel number. */
  datatype ChannelConfig = ChannelConfig(channel: U8, currentCount: Option<U16>, customLimits: Option<ChannelLimits>)

  /** The device configuration as loaded from a file. */
  datatype Config = Config(device: string, address: U8, outputFrequencyHz: U16, openDrain: bool, channels: seq<ChannelConfig>)

  /** A configuration in which the two defaulted fields were left out of the
      file: the output is a totem pole and no channel is preconfigured. */
  function ConfigWithDefaults(device: string, address: U8, outputFrequencyHz: U16): (c: Config)
    ensures !c.openDrain && c.channels == []
    ensures c.device == device && c.address == address && c.outputFrequencyHz == outputFrequencyHz
  {
    Config(device, address, outputFrequencyHz, false, [])
  }

  /** The two timing constants a channel converts pulse widths with. */
  datatype PcaClockConfig = PcaClockConfig(maxPwMs: real, singlePwDurationMs: real)

  datatype OutputDriver = OpenDrain | TotemPole

  /** What the foreign PCA9685 driver can report: a failed bus transaction or
      input data it refuses. */
  datatype DriverFault = I2cFault(code: int) | InvalidInputData

  /** The six ways a controller operation can fail. */
  datatype Pca9685Error =
    | NoSuchChannelError(channel: U8)
    | PulseWidthRangeError(value: real, maxPwMs: real)
    | CustomLimitsError(count: U16, limits: ChannelLimits)
    | InvalidConfiguration(reason: string)
    | PercentOfRangeError(pct: real)
    | Pca9685DriverError(fault: DriverFault)

  /** Every controller result is a value or exactly one Pca9685Error. */
  datatype Result<T> = Ok(value: T) | Err(error: Pca9685Error)
}
