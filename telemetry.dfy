/**
 * The power data source: the raw platform integers a tick reads and their
 * conversion to the three values written to the log.
 */
module Telemetry {
  import opened Wrappers

  /** Kotlin `Int`: what BatteryManager and the battery intent deliver. */
  newtype int32 = x: int | -0x8000_0000 <= x < 0x8000_0000

  /** `Int.MIN_VALUE`, which BatteryManager returns when the current is unavailable. */
  const IntMinValue: int32 := -0x8000_0000

  /**
   * The sticky ACTION_BATTERY_CHANGED intent: each extra may be missing,
   * in which case `getIntExtra` yields the default it is given.
   */
  datatype BatteryIntent = BatteryIntent(voltageExtra: Option<int32>, temperatureExtra: Option<int32>)

  /** One reading, in volts, milli-amps and degrees Celsius. */
  datatype Sample = Sample(voltage: real, current: real, temperature: real)

  /** `getIntExtra(name, default)`. */
  function IntExtra(extra: Option<int32>, default: int32): (r: int32)
    ensures extra.Some? ==> r == extra.value
    ensures extra.None? ==> r == default
  {
    extra.GetOr(default)
  }

  /**
   * Current: micro-amps to milli-amps, with the "unavailable" sentinel
   * mapped to 0.0. Only a zero reading or the sentinel give 0.0, and a
   * real reading lies strictly inside the int32 range divided by 1000.
   */
  function CurrentMilliAmps(raw: int32): (r: real)
    ensures raw == IntMinValue ==> r == 0.0
    ensures raw != IntMinValue ==> r * 1000.0 == raw as int as real
    ensures r == 0.0 <==> raw == 0 || raw == IntMinValue
    ensures -2147483.647 <= r <= 2147483.647
  {
    if raw != IntMinValue then raw as int as real / 1000.0 else 0.0
  }

  /**
   * Voltage: milli-volts to volts; 0.0 without a battery intent, and a
   * missing extra reads as 0 mV.
   */
  function VoltageVolts(intent: Option<BatteryIntent>): (r: real)
    ensures intent.None? ==> r == 0.0
    ensures intent.Some? ==> r * 1000.0 == IntExtra(intent.value.voltageExtra, 0) as int as real
    ensures -2147483.648 <= r < 2147483.648
  {
    match intent
    case None => 0.0
    case Some(i) => IntExtra(i.voltageExtra, 0) as int as real / 1000.0
  }

  /**
   * Temperature: tenths of a degree Celsius to degrees; 0.0 without a
   * battery intent, and a missing extra reads as 0.
   */
  function TemperatureCelsius(intent: Option<BatteryIntent>): (r: real)
    ensures intent.None? ==> r == 0.0
    ensures intent.Some? ==> r * 10.0 == IntExtra(intent.value.temperatureExtra, 0) as int as real
    ensures -214748364.8 <= r < 214748364.8
  {
    match intent
    case None => 0.0
    case Some(i) => IntExtra(i.temperatureExtra, 0) as int as real / 10.0
  }

  /** What one tick reads: the current counter and the battery intent, converted. */
  function ReadSample(currentRaw: int32, intent: Option<BatteryIntent>): (s: Sample)
    ensures currentRaw == IntMinValue ==> s.current == 0.0
    ensures intent.None? ==> s.voltage == 0.0 && s.temperature == 0.0
  {
    Sample(VoltageVolts(intent), CurrentMilliAmps(currentRaw), TemperatureCelsius(intent))
  }

  /**
   * A missing battery intent and an intent without the two extras are
   * indistinguishable in the log: both read as 0 V and 0 degrees.
   */
  lemma MissingExtrasReadAsAbsentIntent(currentRaw: int32)
    ensures ReadSample(currentRaw, Some(BatteryIntent(None, None))) == ReadSample(currentRaw, None)
  {
  }
}
