# Car dashboard backend: the car-state machine

This project models the backend of a toy car-telemetry simulator (`backend/app.js`).
The backend keeps one car-state record. Three things change it:

- a simulation tick that runs every 100 ms;
- the `set_motor_speed` client command;
- the `plug_connection` client command.

The model treats the record as an immutable `CarState` datatype. Each transition is a
pure function:

- `Simulation.Tick` is one iteration of `simulateCarMetrics`. Its four branches are tried in
  priority order: force stop on a flat battery, driving, charging, idle.
- `Handlers.SetMotorSpeed` and `Handlers.PlugConnection` are the two socket handlers.
- `Machine.Step` and `Machine.Run` apply a sequence of events to the record, starting from
  `CarStates.Initial`, the record `createInitialState` writes.

Each `updateCarState(updates)` call merges the named fields over the stored record and
keeps every other field. In Dafny that is a datatype update, `s.(f := v)`. Two updates in
the same tick compose in the same way. For example, the depletion stop is applied on top of
the driving update.

Number types:

- `rpm`, `power` and `motor_speed` are integers.
- `battery` and `temperature` are exact reals.
- `Math.round(rpm / 800 * 100)` is `(rpm + 4) / 8` with floor division. Over exact reals this
  holds for every integer rpm. `Physics.Power` proves it against a real-valued statement of
  Math.round.

Invariants, in two parts:

- `CarStates.SafeRanges`: rpm in [0, 800], battery in [0, 100], temperature in [25, 80], and
  no charging while running.
- `CarStates.Consistent`: power is the rounded rpm percentage, and the motor warning follows
  rpm. A stopped car has rpm 0. A flat car is not running. The parking brake and the
  check-engine light are never on.

Every transition preserves both parts. So every record reachable from the initial one
satisfies them (`Machine.ReachableStatesAreSafe`). Motor speed is always in 0..4, because
the `Gears.Speed` type carries that range.

## Properties the code does not keep

Three properties one might expect of the record do not hold. Each lemma below proves the
failure.

- **Gear display.** One might expect the gear to always show `GEAR_RATIOS[motor_speed]`.
  Neither force stop resets `gear`. The idle branch resets it only when rpm or power is
  positive. After the battery runs flat while driving at speed 1, the record shows gear
  `"1:4"` at motor speed 0. Further idle ticks keep it (`Machine.GearCanDisagreeWithSpeed`).
- **Low-battery light.** One might expect `battery_low` to equal `battery < 25` after every
  tick. The charging branch raises the battery but does not recompute `battery_low`. After a
  flat battery is charged to 25.5, the light is still on (`Machine.BatteryLightCanBeStale`).
- **Flat battery in one tick.** One might expect a car with battery 0.01 at speed 1 to run
  flat within one tick. Whether it does depends on rpm:
  - From a standing start, the ramp gives rpm 10 and power 1. The low-battery drain is 0.0003,
    so the battery ends at 0.0097 and the car keeps running (`Scenarios.NearlyFlatFromStandstill`).
  - At cruising rpm 200, the drain is 0.0075, so 0.0025 is left and the car keeps running
    (`Scenarios.NearlyFlatWhileCruising`).
  - Slowing down from rpm 800, power is 99 and the drain is 0.0297. The same tick runs the
    battery flat and stops the motor (`Scenarios.NearlyFlatWhileSlowing`).

## Model

| member | source | states |
|---|---|---|
| `Gears.Gear` | backend/app.js:37-43 | every speed 0..4 has a gear; the gear is "N/N" exactly for speed 0 |
| `Gears.GearRatiosDomain` | backend/app.js:37-43 | the gear table is defined on exactly the speeds 0..4 |
| `Gears.GearInjective` | backend/app.js:37-43 | different speeds show different gears |
| `Physics.TargetRpm` | backend/app.js:124 | the target rpm equals speed/4 * 800 over the reals, lies in [0, 800], and is 0 only at speed 0 |
| `Physics.Ramp` | backend/app.js:125-132 | one ramp step moves rpm toward the target by at most 10, never overshoots, and moves a full step unless it lands on the target |
| `Physics.RampReachesTarget` | backend/app.js:125-132 | after ceil(distance/10) steps the ramp is at its target |
| `Physics.Power` | backend/app.js:134 | power is Math.round of rpm/800*100 (nearest integer, halves up) and lies in [0, 100] for rpm in [0, 800] |
| `Physics.RoundIsUnique` | backend/app.js:134 | the rounding relation determines the power reading uniquely |
| `Physics.DrainRate` | backend/app.js:137-140 | drain per tick is 0.0002 per unit of power, or 0.0003 below 25% battery, and is non-negative for non-negative power |
| `Physics.Drain` | backend/app.js:136-141 | the drained battery is max(0, battery - drain rate): the level minus the drain rate while that stays positive, otherwise 0; it never rises for non-negative power, and falls by at least 0.0002 at power 1 or more |
| `Physics.ChargeStep` | backend/app.js:174-175 | a charging tick adds 0.5, or 0.35 above 75% |
| `Physics.TargetTemperature` | backend/app.js:145 | the settling temperature is 25 + rpm/800 * 55; it lies in [25, 80] for rpm in [0, 800] and is above 25 whenever the motor turns |
| `Physics.Warm` | backend/app.js:144-146 | warming never exceeds 80, shrinks the gap to the settling temperature to 90%, and keeps the temperature in [25, 80] |
| `Physics.Cool` | backend/app.js:148 | cooling never goes below 25 and lowers the temperature by 0.5 unless it stops at 25 |
| `Physics.DriveTemperature` | backend/app.js:143-149 | a driving tick takes one warming step toward the settling temperature when rpm > 0, otherwise one cooling step (max(25, T - 0.5)), and keeps [25, 80] |
| `CarStates.Initial` | backend/app.js:65-82 | the initial record is full, at 25 degrees, stopped, unplugged, at speed 0 in neutral, with the low-battery light off, and satisfies both invariants |
| `Simulation.ForceStop` | backend/app.js:110-118 | a force stop zeroes speed, rpm and power, clears running and the motor warnings, and leaves gear, battery, battery_low, temperature, charging and brake untouched |
| `Simulation.DriveUpdate` | backend/app.js:123-159 | the driving update takes one ramp step of rpm, sets power to the rounded rpm percentage, sets the battery to max(0, battery - drain), takes one temperature step within [25, 80], sets motor_warning, battery_low and gear from the new rpm, the new battery and the old speed, and keeps every other field |
| `Simulation.Drive` | backend/app.js:136-170 | a driving tick keeps running exactly while charge remains; when the driving update leaves charge the result is that update; on depletion it is that update followed by a force stop, leaving battery 0 and the low-battery light on and keeping the gear of the old speed |
| `Simulation.Charge` | backend/app.js:172-183 | below full, charging raises the battery by the tapered rate, capped at 100, and shows neutral; at full it only unplugs |
| `Simulation.Idle` | backend/app.js:184-198 | idle zeroes non-negative rpm and power, resets the gear only if either was positive, cools a motor above 25 by one step (max(25, T - 0.5)), and changes nothing else |
| `Simulation.Tick` | backend/app.js:108-198 | branches in priority order: a running car with a flat battery gets the force stop, otherwise a driving record gets the driving branch, a charging record the charging branch, and any other record the idle branch; a tick preserves both invariants, never starts a stopped car, and stills a running car held by the parking brake |
| `Handlers.SetMotorSpeed` | backend/app.js:213-239 | refused (no change) with the brake on or a flat battery and speed > 0; speed 0 stops the car, resets temperature to 25 and gear to neutral, and clears the warnings; speed > 0 runs the car unplugged at that speed and gear; in both cases every other field is kept; both invariants are preserved |
| `Handlers.SetMotorSpeedIdempotent` | backend/app.js:213-239 | repeating a speed command changes nothing further |
| `Handlers.PlugConnection` | backend/app.js:244-250 | refused while running; otherwise only the charging flag changes, and it flips; both invariants are preserved |
| `Handlers.PlugConnectionInvolution` | backend/app.js:244-250 | two toggles with nothing between restore the record |
| `Machine.Step` | backend/app.js:104-250 | every event preserves both invariants |
| `Machine.Run` | backend/app.js:104-206 | any sequence of events preserves both invariants |
| `Machine.RunAppend` | backend/app.js:104-206 | running two event sequences one after the other is running their concatenation |
| `Machine.ReachableStatesAreSafe` | backend/app.js:65-250 | every reachable record has rpm in [0, 800], battery in [0, 100], temperature in [25, 80], speed in 0..4, no charging while running, a still motor when flat, a warning that follows rpm, and power matching rpm |
| `Machine.RunFlat` | backend/app.js:136-170 | ticking while cruising at speed 1 ends in a depletion stop with battery 0 and gear "1:4" |
| `Machine.ChargeFor` | backend/app.js:172-180 | n charging ticks below 75% add exactly 0.5 each and leave the low-battery light as it was |
| `Machine.DriveUntilFlat` | backend/app.js:136-170 | starting at speed 1 from the initial record, some sequence of ticks reaches a flat, stopped car showing gear "1:4" |
| `Machine.GearCanDisagreeWithSpeed` | backend/app.js:151-191 | a reachable record shows a gear that does not match its motor speed, and a further tick keeps the mismatch |
| `Machine.BatteryLightCanBeStale` | backend/app.js:151-183 | a reachable record has the low-battery light on with the battery at or above 25 |
| `Scenarios.StartFromInitial` | backend/app.js:231-238 | speed 2 from the initial record runs the car, unplugged, in gear "1:3" |
| `Scenarios.FirstTickAtFullSpeed` | backend/app.js:124-134 | at speed 4 from rpm 0 one tick gives rpm 10 and power 1 |
| `Scenarios.NearlyFlatFromStandstill` | backend/app.js:136-170 | battery 0.01 at speed 1 from rpm 0 ends the tick at 0.0097, still running |
| `Scenarios.NearlyFlatWhileCruising` | backend/app.js:136-170 | battery 0.01 at speed 1 and rpm 200 ends the tick at 0.0025, still running |
| `Scenarios.NearlyFlatWhileSlowing` | backend/app.js:136-170 | battery 0.01 at speed 1 coming down from rpm 800 runs flat and stops in the same tick, keeping gear "1:4" |
| `Scenarios.RunsFlatWhileCruising` | backend/app.js:136-170 | battery 0.005 at rpm 200 runs flat and stops in the same tick, keeping gear "1:4" |
| `Scenarios.TaperedCharge` | backend/app.js:172-180 | charging from 80 adds 0.35 |
| `Scenarios.ParkingBrakeRefusesSpeed` | backend/app.js:216-218 | with the parking brake on a speed command leaves the record unchanged |
| `Scenarios.PlugRefusedWhileRunning` | backend/app.js:244-250 | plugging in while running leaves the record unchanged |

## Left out

- Transport: Express, CORS and Socket.IO setup and connection wiring (`backend/app.js:1-34`, `209-211`, `254-268`). This is framework glue.
- The Firebase store: reading and writing the record (`getCarState`, `carStateRef.set`). The record is a pure value. The `updated_at` wall-clock stamp is not modelled.
- Loop plumbing: the endless loop, the 100 ms delay, the async sequencing, and the catch that logs and continues.
- Interleaving: `Machine.Run` treats each tick and each command as atomic. Its read, its computation and its merge-writes run with no other event in between. The backend does not enforce this. A `set_motor_speed(0)` that lands between a tick's read (`backend/app.js:108`) and its write (`backend/app.js:151`) would leave a stopped car with rpm above 0. The invariants and `Machine.ReachableStatesAreSafe` hold only for atomic events.
- Broadcast: `emitState` rounds power, battery and temperature with `toFixed(1)` and regroups the indicators. That is output formatting with decimal floats, and it never changes the record.
- Handlers.SetMotorSpeed: takes only the payloads 0..4 that the protocol defines. For any other value the lookup in GEAR_RATIOS is undefined, and what the store then does is outside this model.
- Floating point: battery, temperature and the power reading are exact reals. The model does not claim bit-for-bit agreement with JavaScript doubles. For power this matters at four rpm values: as doubles, 460/800*100 is 57.49999999999999, so `Math.round` gives 57 where `Physics.Power` gives 58. The same happens at rpm 116, 228 and 452. Rpm 460 is reachable on a ramp toward 600 or 800.
- Physics.Power: states Math.round over exact reals. With JavaScript doubles, rpm 116, 228, 452 and 460 give a power one lower than the model's.
- backend/models/carState.js and backend/config/database.js: this code never imports them.
- frontend/src/App.jsx: the React dashboard. Its client-side guards only repeat the server rules.
