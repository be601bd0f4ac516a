/**
 The gear display of the car: a fixed table from motor speed (0..4) to the
 ratio string shown on the dashboard (backend/app.js, GEAR_RATIOS).
 */
module Gears {

  /** A motor speed setting, as carried by the `set_motor_speed` event. */
  type Speed = k: int | 0 <= k <= 4

  /** The gear shown when the motor is not driving the wheels. */
  const Neutral: string := "N/N"

  const GearRatios: map<int, string> :=
    map[0 := Neutral, 1 := "1:4", 2 := "1:3", 3 := "1:2", 4 := "1:1"]

  /** The table is defined exactly on the speed settings 0..4. */
  lemma GearRatiosDomain()
    ensures forall k: int :: k in GearRatios <==> 0 <= k <= 4
  {
  }

  /** Looks a speed up in the table; every speed has an entry. */
  function Gear(k: Speed): (g: string)
    ensures g == Neutral <==> k == 0
    ensures |g| == 3
  {
    GearRatios[k]
  }

  /** Different speeds show different gears, so the display determines the speed. */
  lemma GearInjective(a: Speed, b: Speed)
    ensures Gear(a) == Gear(b) ==> a == b
  {
  }
}
