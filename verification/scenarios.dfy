/**
 Worked examples of single transitions, proved on concrete records.
 */
module Scenarios {
  import opened Gears
  import opened CarStates
  import opened Simulation
  import opened Handlers

  /** Starting the car at speed 2 from the initial record. */
  lemma StartFromInitial()
    ensures var r := SetMotorSpeed(Initial(), 2);
      r.is_running && r.motor_speed == 2 && r.gear == "1:3" && !r.charging
  {
  }

  /** Full speed from a standing start: the first tick ramps rpm by one step only. */
  lemma FirstTickAtFullSpeed()
    ensures var r := Tick(Initial().(is_running := true, motor_speed := 4));
      r.rpm == 10 && r.power == 1 && r.is_running
  {
  }

  /**
   A nearly flat battery at speed 1 from a standing start does not run flat in one
   tick: the ramp gives power 1, so the low-battery drain is only 0.0003.
   */
  lemma NearlyFlatFromStandstill()
    ensures var r := Tick(Initial().(battery := 0.01, is_running := true, motor_speed := 1));
      r.is_running && r.rpm == 10 && r.power == 1 && r.battery == 0.0097
  {
  }

  /** At cruising rpm the drain exceeds what is left: the same tick stops the motor, keeping gear "1:4". */
  lemma RunsFlatWhileCruising()
    ensures var r := Tick(Initial().(battery := 0.005, is_running := true, motor_speed := 1,
                                     rpm := 200, power := 25));
      !r.is_running && r.rpm == 0 && r.power == 0 && r.motor_speed == 0
      && r.battery == 0.0 && r.battery_low && r.gear == "1:4"
  {
  }

  /** At cruising rpm for speed 1, battery 0.01 outlasts one tick: the drain is 0.0075. */
  lemma NearlyFlatWhileCruising()
    ensures var r := Tick(Initial().(battery := 0.01, is_running := true, motor_speed := 1,
                                     rpm := 200, power := 25));
      r.is_running && r.rpm == 200 && r.power == 25 && r.battery == 0.0025
  {
  }

  /** Slowing to speed 1 from full rpm, battery 0.01 runs flat and the same tick stops the motor. */
  lemma NearlyFlatWhileSlowing()
    ensures var r := Tick(Initial().(battery := 0.01, is_running := true, motor_speed := 1,
                                     rpm := 800, power := 100));
      !r.is_running && r.rpm == 0 && r.power == 0 && r.motor_speed == 0
      && r.battery == 0.0 && r.gear == "1:4"
  {
  }

  /** Charging above 75% adds the tapered 0.35. */
  lemma TaperedCharge()
    ensures Tick(Initial().(charging := true, battery := 80.0)).battery == 80.35
  {
  }

  /** With the parking brake on, a speed command changes nothing. */
  lemma ParkingBrakeRefusesSpeed()
    ensures var s := Initial().(parking_brake := true); SetMotorSpeed(s, 1) == s
  {
  }

  /** Plugging in while driving changes nothing. */
  lemma PlugRefusedWhileRunning()
    ensures var s := SetMotorSpeed(Initial(), 3); PlugConnection(s) == s
  {
  }
}
