/**
 The per-quantity update rules of one simulation tick (backend/app.js,
 simulateCarMetrics): the rpm ramp, the power reading, battery drain and
 charge, and the motor temperature. Battery and temperature are exact reals.
 */
module Physics {
  import opened Gears

  const MaxRpm: int := 800
  const RpmStep: int := 10
  const WarningRpm: int := 600

  const BaseDrain: real := 0.02
  const LowBatteryDrainFactor: real := 1.5
  const LowBattery: real := 25.0
  const FullBattery: real := 100.0
  const ChargeRate: real := 0.5
  const TaperFactor: real := 0.7
  const TaperThreshold: real := 75.0

  const Ambient: real := 25.0
  const MaxTemperature: real := 80.0
  const TemperatureSpan: real := 55.0
  const EaseFactor: real := 0.1
  const CoolingStep: real := 0.5

  /** JavaScript's Math.round: p is the integer nearest x, halves going up. */
  predicate IsRoundOf(p: int, x: real) {
    p as real - 0.5 <= x < p as real + 0.5
  }

  /** At most one integer is the rounding of a given real. */
  lemma RoundIsUnique(p: int, q: int, x: real)
    requires IsRoundOf(p, x) && IsRoundOf(q, x)
    ensures p == q
  {
  }

  /** The rpm a speed setting asks for: the speed's share of MaxRpm. */
  function TargetRpm(speed: Speed): (t: int)
    ensures t as real == speed as real / 4.0 * MaxRpm as real
    ensures 0 <= t <= MaxRpm
    ensures t == 0 <==> speed == 0
  {
    speed * (MaxRpm / 4)
  }

  /** One step of the linear rpm ramp toward target. */
  function Ramp(rpm: int, target: int): (r: int)
    ensures rpm <= target ==> rpm <= r <= target
    ensures target <= rpm ==> target <= r <= rpm
    ensures -RpmStep <= r - rpm <= RpmStep
    ensures r == target || r == rpm + RpmStep || r == rpm - RpmStep
  {
    if rpm < target then
      (if rpm + RpmStep < target then rpm + RpmStep else target)
    else
      (if target < rpm - RpmStep then rpm - RpmStep else target)
  }

  /** n ramp steps from rpm toward target. */
  function RampSteps(rpm: int, target: int, n: nat): int
    decreases n
  {
    if n == 0 then rpm else RampSteps(Ramp(rpm, target), target, n - 1)
  }

  /** The ramp reaches its target after ceil(|rpm - target| / RpmStep) ticks and stays there. */
  lemma {:induction false} RampReachesTarget(rpm: int, target: int, n: nat)
    requires rpm - target <= n * RpmStep && target - rpm <= n * RpmStep
    ensures RampSteps(rpm, target, n) == target
    decreases n
  {
    if n > 0 {
      var next := Ramp(rpm, target);
      assert next - target <= (n - 1) * RpmStep && target - next <= (n - 1) * RpmStep;
      RampReachesTarget(next, target, n - 1);
    }
  }

  /** The power reading: rpm as a percentage of MaxRpm, rounded as Math.round does. */
  function Power(rpm: int): (p: int)
    ensures IsRoundOf(p, rpm as real / MaxRpm as real * 100.0)
    ensures 0 <= rpm <= MaxRpm ==> 0 <= p <= 100
  {
    var q := (rpm + 4) / 8;
    assert 8 * q <= rpm + 4 < 8 * q + 8;
    assert rpm as real / MaxRpm as real * 100.0 == rpm as real / 8.0;
    q
  }

  /** Battery drained in one driving tick at a given power; 50% more below LowBattery. */
  function DrainRate(battery: real, power: int): (d: real)
    ensures d == (if battery < LowBattery then 0.0003 else 0.0002) * power as real
    ensures 0 <= power ==> 0.0 <= d
  {
    var base := if battery < LowBattery then BaseDrain * LowBatteryDrainFactor else BaseDrain;
    base * (power as real / 100.0)
  }

  /** The battery level after one driving tick at a given power, floored at empty. */
  function Drain(battery: real, power: int): (b: real)
    ensures 0.0 <= b
    ensures 0 <= power && 0.0 <= battery ==> b <= battery
    ensures b == 0.0 || battery - b == DrainRate(battery, power)
    ensures 0.0 < battery - DrainRate(battery, power) ==> b == battery - DrainRate(battery, power)
    ensures battery - DrainRate(battery, power) <= 0.0 ==> b == 0.0
    ensures 1 <= power && 0.0 < b ==> b <= battery - 0.0002
  {
    var drained := battery - DrainRate(battery, power);
    if 0.0 < drained then drained else 0.0
  }

  /** Battery gained in one charging tick; tapered above TaperThreshold. */
  function ChargeStep(battery: real): (c: real)
    ensures c == (if battery > TaperThreshold then 0.35 else 0.5)
    ensures 0.0 < c <= ChargeRate
  {
    if battery > TaperThreshold then ChargeRate * TaperFactor else ChargeRate
  }

  /** The temperature the motor settles at when turning at rpm. */
  function TargetTemperature(rpm: int): (t: real)
    ensures (t - Ambient) * MaxRpm as real == rpm as real * TemperatureSpan
    ensures 0 <= rpm <= MaxRpm ==> Ambient <= t <= MaxTemperature
    ensures 0 < rpm ==> Ambient < t
  {
    Ambient + rpm as real / MaxRpm as real * TemperatureSpan
  }

  /** Ambient <= x <= MaxTemperature. */
  predicate InTemperatureRange(x: real) {
    Ambient <= x <= MaxTemperature
  }

  /** One step of the first-order lag toward TargetTemperature(rpm), capped at MaxTemperature. */
  function Warm(temperature: real, rpm: int): (t: real)
    ensures t <= MaxTemperature
    ensures 0 < rpm <= MaxRpm && temperature <= MaxTemperature ==>
      t - TargetTemperature(rpm) == (1.0 - EaseFactor) * (temperature - TargetTemperature(rpm))
    ensures 0 < rpm <= MaxRpm && InTemperatureRange(temperature) ==> InTemperatureRange(t)
  {
    var eased := temperature + (TargetTemperature(rpm) - temperature) * EaseFactor;
    if MaxTemperature < eased then MaxTemperature else eased
  }

  /** One fixed cooling step toward Ambient, never below it. */
  function Cool(temperature: real): (t: real)
    ensures Ambient <= t
    ensures Ambient <= temperature ==> t <= temperature && temperature - t <= CoolingStep
    ensures t == Ambient || temperature - t == CoolingStep
  {
    var cooled := temperature - CoolingStep;
    if Ambient < cooled then cooled else Ambient
  }

  /** The motor temperature after a driving tick that ends at rpm: warming while turning, cooling when still. */
  function DriveTemperature(temperature: real, rpm: int): (t: real)
    ensures 0 < rpm <= MaxRpm && temperature <= MaxTemperature ==>
      t - TargetTemperature(rpm) == (1.0 - EaseFactor) * (temperature - TargetTemperature(rpm))
    ensures rpm == 0 && Ambient <= temperature ==>
      Ambient <= t <= temperature && temperature - t <= CoolingStep
    ensures 0 <= rpm <= MaxRpm && InTemperatureRange(temperature) ==> InTemperatureRange(t)
    ensures 0 < rpm ==> t == Warm(temperature, rpm)
    ensures rpm <= 0 ==> t == Cool(temperature)
  {
    if rpm > 0 then Warm(temperature, rpm) else Cool(temperature)
  }
}
