/**
 One iteration of the backend's simulation loop (backend/app.js,
 simulateCarMetrics): four branches tried in priority order — force stop on a
 flat battery, driving, charging, idle.
 */
module Simulation {
  import opened Gears
  import opened Physics
  import opened CarStates

  /** The driving branch applies: running, unplugged, brake released. */
  predicate IsDriving(s: CarState) {
    s.is_running && !s.charging && !s.parking_brake
  }

  /** Fields a force stop leaves alone. */
  predicate KeepsAllButPowertrain(s: CarState, r: CarState) {
    && r.gear == s.gear
    && r.battery == s.battery
    && r.battery_low == s.battery_low
    && r.temperature == s.temperature
    && r.charging == s.charging
    && r.parking_brake == s.parking_brake
  }

  /** Stops the motor and clears its warnings; the gear display is not reset. */
  function ForceStop(s: CarState): (r: CarState)
    ensures !r.is_running && r.motor_speed == 0 && r.rpm == 0 && r.power == 0
    ensures !r.check_engine && !r.motor_warning
    ensures KeepsAllButPowertrain(s, r)
  {
    s.(is_running := false, motor_speed := 0, power := 0, rpm := 0,
       check_engine := false, motor_warning := false)
  }

  /** The main update of a driving tick, before the depletion check. */
  function DriveUpdate(s: CarState): (r: CarState)
    ensures r.rpm == Ramp(s.rpm, TargetRpm(s.motor_speed))
    ensures r.power == Power(r.rpm)
    ensures r.battery == Drain(s.battery, r.power)
    ensures r.temperature == DriveTemperature(s.temperature, r.rpm)
    ensures r.motor_warning == (r.rpm > WarningRpm)
    ensures r.battery_low == (r.battery < LowBattery)
    ensures r.gear == Gear(s.motor_speed)
    ensures r.is_running == s.is_running && r.motor_speed == s.motor_speed
    ensures r.charging == s.charging && r.parking_brake == s.parking_brake
    ensures r.check_engine == s.check_engine
  {
    var newRpm := Ramp(s.rpm, TargetRpm(s.motor_speed));
    var newPower := Power(newRpm);
    var newBattery := Drain(s.battery, newPower);
    var newTemp := DriveTemperature(s.temperature, newRpm);
    s.(rpm := newRpm, power := newPower, battery := newBattery, temperature := newTemp,
       motor_warning := newRpm > WarningRpm, battery_low := newBattery < LowBattery,
       gear := Gear(s.motor_speed))
  }

  /** The driving branch: the main update, then a force stop in the same tick if the battery ran flat. */
  function Drive(s: CarState): (r: CarState)
    ensures s.battery <= 0.0 ==> r == s
    ensures 0.0 < s.battery && s.is_running && 0 <= s.rpm ==> (r.is_running <==> 0.0 < r.battery)
    ensures 0.0 < s.battery && r.battery <= 0.0 ==>
      && r.battery == 0.0 && r.battery_low
      && !r.is_running && r.motor_speed == 0 && r.rpm == 0 && r.power == 0 && !r.motor_warning
      && r.gear == Gear(s.motor_speed)
    ensures 0.0 < s.battery && 0.0 < DriveUpdate(s).battery ==> r == DriveUpdate(s)
    ensures 0.0 < s.battery && DriveUpdate(s).battery <= 0.0 ==> r == ForceStop(DriveUpdate(s))
  {
    if 0.0 < s.battery then
      var u := DriveUpdate(s);
      if u.battery <= 0.0 then ForceStop(u) else u
    else
      s
  }

  /** The charging branch: charge with taper up to full, then unplug. */
  function Charge(s: CarState): (r: CarState)
    ensures s.battery < FullBattery ==>
      && s.battery < r.battery <= FullBattery
      && r.battery - s.battery <= ChargeStep(s.battery)
      && (r.battery == FullBattery || r.battery - s.battery == ChargeStep(s.battery))
      && r.gear == Neutral
      && r.(battery := s.battery, gear := s.gear) == s
    ensures FullBattery <= s.battery ==> !r.charging && r.(charging := s.charging) == s
  {
    if s.battery < FullBattery then
      var charged := s.battery + ChargeStep(s.battery);
      s.(battery := if FullBattery < charged then FullBattery else charged, gear := Gear(0))
    else
      s.(charging := false)
  }

  /** The idle branch: motor still, cooling toward ambient. */
  function Idle(s: CarState): (r: CarState)
    ensures r.rpm <= 0 && r.power <= 0
    ensures 0 <= s.rpm && 0 <= s.power ==> r.rpm == 0 && r.power == 0
    ensures s.rpm > 0 || s.power > 0 ==> r.gear == Neutral
    ensures s.rpm <= 0 && s.power <= 0 ==> r.gear == s.gear && r.rpm == s.rpm && r.power == s.power
    ensures Ambient < s.temperature ==>
      Ambient <= r.temperature < s.temperature && s.temperature - r.temperature <= CoolingStep
    ensures Ambient < s.temperature ==> r.temperature == Cool(s.temperature)
    ensures s.temperature <= Ambient ==> r.temperature == s.temperature
    ensures r.(rpm := s.rpm, power := s.power, gear := s.gear, temperature := s.temperature) == s
  {
    var stilled := if s.rpm > 0 || s.power > 0 then s.(rpm := 0, power := 0, gear := Gear(0)) else s;
    if Ambient < s.temperature then stilled.(temperature := Cool(s.temperature)) else stilled
  }

  /** One simulation tick. */
  function Tick(s: CarState): (r: CarState)
    ensures SafeRanges(s) ==> SafeRanges(r)
    ensures SafeRanges(s) && Consistent(s) ==> Consistent(r)
    ensures s.is_running && s.battery <= 0.0 ==> r == ForceStop(s)
    ensures !(s.is_running && s.battery <= 0.0) && IsDriving(s) ==> r == Drive(s)
    ensures !(s.is_running && s.battery <= 0.0) && s.charging ==> r == Charge(s)
    ensures !(s.is_running && s.battery <= 0.0) && !IsDriving(s) && !s.charging ==> r == Idle(s)
    ensures !s.is_running ==> r.motor_speed == s.motor_speed && !r.is_running
    ensures s.is_running && s.parking_brake && !s.charging && 0.0 < s.battery && 0 <= s.rpm && 0 <= s.power ==>
      r.rpm == 0 && r.power == 0 && r.is_running
  {
    if s.battery <= 0.0 && s.is_running then ForceStop(s)
    else if IsDriving(s) then Drive(s)
    else if s.charging then Charge(s)
    else Idle(s)
  }
}
