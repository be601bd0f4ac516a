/**
 The two commands a dashboard client can send (backend/app.js, the
 `set_motor_speed` and `plug_connection` socket handlers). A refused command
 leaves the record as it was; no error is reported to the client.
 */
module Handlers {
  import opened Gears
  import opened Physics
  import opened CarStates

  /** set_motor_speed is ignored with the parking brake on, or when asked to move on a flat battery. */
  predicate SpeedRefused(s: CarState, speed: Speed) {
    (s.battery <= 0.0 && speed > 0) || s.parking_brake
  }

  function SetMotorSpeed(s: CarState, speed: Speed): (r: CarState)
    ensures SpeedRefused(s, speed) ==> r == s
    ensures !s.parking_brake && speed == 0 ==>
      && !r.is_running && r.motor_speed == 0 && r.rpm == 0 && r.power == 0
      && r.temperature == Ambient && r.gear == Neutral
      && !r.check_engine && !r.motor_warning
      && r.battery == s.battery && r.charging == s.charging && r.battery_low == s.battery_low
      && r.(motor_speed := s.motor_speed, is_running := s.is_running, check_engine := s.check_engine,
            motor_warning := s.motor_warning, power := s.power, rpm := s.rpm,
            temperature := s.temperature, gear := s.gear) == s
    ensures !SpeedRefused(s, speed) && speed > 0 ==>
      && r.is_running && !r.charging && r.motor_speed == speed && GearMatchesSpeed(r)
      && !r.check_engine
      && r.rpm == s.rpm && r.power == s.power && r.battery == s.battery
      && r.temperature == s.temperature && r.motor_warning == s.motor_warning
      && r.(motor_speed := s.motor_speed, is_running := s.is_running, check_engine := s.check_engine,
            charging := s.charging, gear := s.gear) == s
    ensures SafeRanges(s) ==> SafeRanges(r)
    ensures SafeRanges(s) && Consistent(s) ==> Consistent(r)
  {
    if SpeedRefused(s, speed) then s
    else if speed == 0 then
      s.(motor_speed := 0, is_running := false, check_engine := false, motor_warning := false,
         power := 0, rpm := 0, temperature := 25.0, gear := Gear(0))
    else if 0.0 < s.battery then
      s.(motor_speed := speed, is_running := true, check_engine := false, charging := false,
         gear := Gear(speed))
    else
      s
  }

  /** Sending the same speed twice has the effect of sending it once. */
  lemma SetMotorSpeedIdempotent(s: CarState, speed: Speed)
    ensures SetMotorSpeed(SetMotorSpeed(s, speed), speed) == SetMotorSpeed(s, speed)
  {
  }

  /** plug_connection toggles charging, and is refused while the motor runs. */
  function PlugConnection(s: CarState): (r: CarState)
    ensures s.is_running ==> r == s
    ensures !s.is_running ==> r.charging != s.charging && r.(charging := s.charging) == s
    ensures SafeRanges(s) ==> SafeRanges(r)
    ensures SafeRanges(s) && Consistent(s) ==> Consistent(r)
  {
    if !s.is_running then s.(charging := !s.charging) else s
  }

  /** Two toggles with nothing in between restore the record. */
  lemma PlugConnectionInvolution(s: CarState)
    ensures PlugConnection(PlugConnection(s)) == s
  {
  }
}
