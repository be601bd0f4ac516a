/**
 The whole backend as a state machine: the stored record changes only through
 simulation ticks and the two client commands, starting from the initial record.
 */
module Machine {
  import opened Gears
  import opened Physics
  import opened CarStates
  import Simulation
  import Handlers

  datatype Event = Tick | SetMotorSpeed(speed: Speed) | PlugConnection

  function Step(s: CarState, e: Event): (r: CarState)
    ensures SafeRanges(s) ==> SafeRanges(r)
    ensures SafeRanges(s) && Consistent(s) ==> Consistent(r)
    ensures e.PlugConnection? && !s.is_running ==> r.charging != s.charging
  {
    match e
    case Tick => Simulation.Tick(s)
    case SetMotorSpeed(speed) => Handlers.SetMotorSpeed(s, speed)
    case PlugConnection => Handlers.PlugConnection(s)
  }

  /** The record after applying events in order. */
  function Run(s: CarState, events: seq<Event>): (r: CarState)
    ensures SafeRanges(s) ==> SafeRanges(r)
    ensures SafeRanges(s) && Consistent(s) ==> Consistent(r)
    decreases |events|
  {
    if |events| == 0 then s else Run(Step(s, events[0]), events[1..])
  }

  lemma {:induction false} RunAppend(s: CarState, a: seq<Event>, b: seq<Event>)
    ensures Run(s, a + b) == Run(Run(s, a), b)
    decreases |a|
  {
    if |a| > 0 {
      assert (a + b)[0] == a[0];
      assert (a + b)[1..] == a[1..] + b;
      RunAppend(Step(s, a[0]), a[1..], b);
    } else {
      assert a + b == b;
    }
  }

  ghost predicate Reachable(s: CarState) {
    exists events: seq<Event> :: Run(Initial(), events) == s
  }

  /** Every record the backend can hold stays within range and keeps its derived fields in step. */
  lemma ReachableStatesAreSafe(s: CarState)
    requires Reachable(s)
    ensures 0 <= s.rpm <= MaxRpm
    ensures 0.0 <= s.battery <= FullBattery
    ensures Ambient <= s.temperature <= MaxTemperature
    ensures 0 <= s.motor_speed <= 4
    ensures s.is_running ==> !s.charging
    ensures s.battery <= 0.0 ==> !s.is_running && s.rpm == 0 && s.power == 0
    ensures s.motor_warning == (s.rpm > WarningRpm)
    ensures s.power == Power(s.rpm) && 0 <= s.power <= 100
    ensures !s.parking_brake && !s.check_engine
  {
    var events: seq<Event> :| Run(Initial(), events) == s;
  }

  function Ticks(n: nat): (events: seq<Event>)
    ensures |events| == n
    ensures forall i :: 0 <= i < n ==> events[i] == Tick
  {
    if n == 0 then [] else [Tick] + Ticks(n - 1)
  }

  /** Driving at speed 1 with charge left: each tick spends at least 0.0002 of battery. */
  ghost predicate CruisingAtOne(s: CarState) {
    && s.is_running && s.motor_speed == 1 && !s.charging && !s.parking_brake
    && 0.0 < s.battery && 0 <= s.rpm <= 200
  }

  /** Keep ticking while cruising at speed 1 and the battery runs flat; the stop keeps gear "1:4". */
  lemma {:induction false} RunFlat(s: CarState, n: nat) returns (events: seq<Event>)
    requires CruisingAtOne(s) && s.battery <= n as real * 0.0002
    ensures forall i :: 0 <= i < |events| ==> events[i] == Tick
    ensures var r := Run(s, events);
      && !r.is_running && !r.charging && !r.parking_brake
      && r.motor_speed == 0 && r.rpm == 0 && r.power == 0
      && r.battery == 0.0 && r.battery_low && r.gear == Gear(1)
    decreases n
  {
    var next := Step(s, Tick);
    var u := Simulation.DriveUpdate(s);
    assert 10 <= u.rpm <= 200;
    assert 1 <= u.power;
    if next.battery <= 0.0 {
      events := [Tick];
    } else {
      assert next == u;
      var rest := RunFlat(next, n - 1);
      events := [Tick] + rest;
      assert events[1..] == rest;
    }
  }

  /** Ticking while plugged in below the taper adds exactly 0.5 per tick and leaves the low-battery light alone. */
  lemma {:induction false} ChargeFor(s: CarState, n: nat)
    requires s.charging && !s.is_running && 0.0 <= s.battery
    requires s.battery + n as real * ChargeRate <= TaperThreshold
    ensures var r := Run(s, Ticks(n));
      && r.battery == s.battery + n as real * ChargeRate
      && r.battery_low == s.battery_low && r.charging && !r.is_running
    decreases n
  {
    if n > 0 {
      var next := Step(s, Tick);
      assert next.battery == s.battery + ChargeRate;
      ChargeFor(next, n - 1);
      assert Ticks(n)[1..] == Ticks(n - 1);
    }
  }

  /** From the initial record, drive at speed 1 until the battery is flat. */
  lemma DriveUntilFlat() returns (events: seq<Event>)
    ensures var r := Run(Initial(), events);
      && !r.is_running && !r.charging && !r.parking_brake
      && r.motor_speed == 0 && r.rpm == 0 && r.power == 0
      && r.battery == 0.0 && r.battery_low && r.gear == Gear(1)
  {
    var started := Step(Initial(), SetMotorSpeed(1));
    var flat := RunFlat(started, 500000);
    events := [SetMotorSpeed(1)] + flat;
    assert events[1..] == flat;
  }

  /**
   The gear display can disagree with the motor speed in a reachable record: the
   depletion stop zeroes motor_speed but keeps the gear of the tick, and a
   following idle tick does not reset it because rpm and power are already zero.
   */
  lemma GearCanDisagreeWithSpeed() returns (events: seq<Event>)
    ensures !GearMatchesSpeed(Run(Initial(), events))
    ensures !GearMatchesSpeed(Run(Initial(), events + [Tick]))
  {
    events := DriveUntilFlat();
    var flat := Run(Initial(), events);
    RunAppend(Initial(), events, [Tick]);
    assert Run(flat, [Tick]) == Step(flat, Tick);
  }

  /**
   The low-battery light can stay on above LowBattery in a reachable record: a
   charging tick raises the battery without recomputing battery_low.
   */
  lemma BatteryLightCanBeStale() returns (events: seq<Event>)
    ensures var r := Run(Initial(), events); r.battery_low && LowBattery <= r.battery
    ensures !BatteryLightMatches(Run(Initial(), events))
  {
    var flat := DriveUntilFlat();
    var d := Run(Initial(), flat);
    var plugged := Step(d, PlugConnection);
    ChargeFor(plugged, 51);
    events := flat + [PlugConnection] + Ticks(51);
    RunAppend(Initial(), flat + [PlugConnection], Ticks(51));
    RunAppend(Initial(), flat, [PlugConnection]);
    assert Run(d, [PlugConnection]) == plugged;
  }
}
