/**
 The single car-state record the backend keeps in its store, its initial value,
 and the two invariants every transition preserves. Each `updateCarState`
 call of backend/app.js merges named fields over the stored record; here that
 merge is a datatype update `s.(f := v)`, which keeps every field it does not name.
 The wall-clock `updated_at` stamp is not part of the model.
 */
module CarStates {
  import opened Gears
  import opened Physics

  datatype CarState = CarState(
    power: int,
    rpm: int,
    battery: real,
    temperature: real,
    charging: bool,
    motor_speed: Speed,
    is_running: bool,
    gear: string,
    parking_brake: bool,
    check_engine: bool,
    motor_warning: bool,
    battery_low: bool)

  /** The record the server creates when the store holds none. */
  function Initial(): (s: CarState)
    ensures SafeRanges(s) && Consistent(s)
    ensures s.battery == FullBattery && s.temperature == Ambient
    ensures !s.is_running && !s.charging && s.gear == Gear(s.motor_speed)
    ensures s.motor_speed == 0 && s.gear == Neutral && !s.battery_low
  {
    CarState(
      power := 0, rpm := 0, battery := 100.0, temperature := 25.0,
      charging := false, motor_speed := 0, is_running := false, gear := Neutral,
      parking_brake := false, check_engine := false, motor_warning := false,
      battery_low := false)
  }

  /** The ranges the dashboard relies on, and the charge/drive exclusion. */
  predicate SafeRanges(s: CarState) {
    && 0 <= s.rpm <= MaxRpm
    && 0.0 <= s.battery <= FullBattery
    && InTemperatureRange(s.temperature)
    && (s.is_running ==> !s.charging)
  }

  /**
   Agreement of the derived fields with the measured ones: power is the rounded
   rpm percentage, the motor warning follows rpm, a stopped or flat car has a
   still motor, and no event ever engages the parking brake or the check-engine light.
   */
  predicate Consistent(s: CarState) {
    && s.power == Power(s.rpm)
    && s.motor_warning == (s.rpm > WarningRpm)
    && (!s.is_running ==> s.rpm == 0)
    && (s.battery <= 0.0 ==> !s.is_running)
    && !s.parking_brake
    && !s.check_engine
  }

  /** The gear display agrees with the stored motor speed. */
  predicate GearMatchesSpeed(s: CarState) {
    s.gear == Gear(s.motor_speed)
  }

  /** The low-battery light agrees with the battery level. */
  predicate BatteryLightMatches(s: CarState) {
    s.battery_low == (s.battery < LowBattery)
  }
}
