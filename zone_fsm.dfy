/**
 * The ultrasonic zone controller of ultrasonic/collision_avoidance_fsm.py:
 * every tick reads the sanitised distance, classifies it into a zone and
 * issues that zone's fixed command sequence; on exit it stops and centres.
 */
module ZoneFsm {
  import opened Wrappers
  import opened Actuator
  import opened Ranging

  datatype Zone = Safe | Caution | Danger

  const SAFE_DIST: real := 50.0
  const CAUTION_DIST: real := 30.0

  const FAST_SPEED: int := 15
  const SLOW_SPEED: int := 8
  const TURN_SPEED: int := 10

  /** The enum's value: SAFE = 0 < CAUTION = 1 < DANGER = 2. */
  function Severity(z: Zone): nat {
    match z
    case Safe => 0
    case Caution => 1
    case Danger => 2
  }

  /** `classify_zone`: the three distance bands, closed below and open above. */
  function ClassifyZone(dist: real): (z: Zone)
    ensures z == Danger <==> dist < CAUTION_DIST
    ensures z == Caution <==> CAUTION_DIST <= dist < SAFE_DIST
    ensures z == Safe <==> SAFE_DIST <= dist
  {
    if dist < CAUTION_DIST then Danger
    else if dist < SAFE_DIST then Caution
    else Safe
  }

  /** The commands one tick issues for a zone, the closing 0.05 s pause included. */
  function ZoneCommands(z: Zone): seq<Command> {
    match z
    case Safe => [Forward(FAST_SPEED), Pause]
    case Caution => [Forward(SLOW_SPEED), Steer(-10), Pause]
    // halt, back up, turn right, re-centre
    case Danger =>
      [Stop, Pause] + [Backward(SLOW_SPEED), Pause, Stop]
      + [Steer(30), Forward(TURN_SPEED), Pause, Stop] + [Steer(0), Pause]
  }

  /** The commands of the `finally` block. */
  const EXIT_COMMANDS: seq<Command> := [Stop, Steer(0)]

  /** The log of a run of ticks, one per reading, in order. */
  function TickLog(readings: seq<Option<real>>): seq<Command>
    decreases |readings|
  {
    if readings == [] then []
    else TickLog(readings[..|readings| - 1])
         + ZoneCommands(ClassifyZone(SanitizeDistance(readings[|readings| - 1])))
  }

  /** A closer reading is never classified as less severe. */
  lemma ClassifyMonotone(d1: real, d2: real)
    requires d1 <= d2
    ensures Severity(ClassifyZone(d1)) >= Severity(ClassifyZone(d2))
  {
  }

  /** A missing, zero or negative reading drives on as SAFE. */
  lemma InvalidReadingIsSafe(raw: Option<real>)
    requires raw.None? || raw.value <= 0.0
    ensures ClassifyZone(SanitizeDistance(raw)) == Safe
    ensures ZoneCommands(ClassifyZone(SanitizeDistance(raw))) == [Forward(FAST_SPEED), Pause]
  {
  }

  /** A DANGER tick backs up, turns right, and leaves the car stopped and
      centred, whatever it was doing before. */
  lemma DangerEndsStoppedCentred(p: Pose)
    ensures Run(p, ZoneCommands(Danger)) == p.(drive := Idle, steer := 0)
  {
    var halt, back := [Stop, Pause], [Backward(SLOW_SPEED), Pause, Stop];
    var turn, centre := [Steer(30), Forward(TURN_SPEED), Pause, Stop], [Steer(0), Pause];
    RunAppend(p, halt + back + turn, centre);
    RunAppend(p, halt + back, turn);
    RunAppend(p, halt, back);
    var q1 := Run(p, halt);
    RunShort(Apply(q1, back[0]), back[1..]);
    var q2 := Run(q1, back);
    RunShort(Apply(Apply(q2, turn[0]), turn[1]), turn[2..]);
  }

  /** A SAFE tick does not re-centre the steering; a CAUTION tick leaves it at -10. */
  lemma SafeKeepsSteering(p: Pose)
    ensures Run(p, ZoneCommands(Safe)) == p.(drive := Ahead(FAST_SPEED))
    ensures Run(p, ZoneCommands(Caution)) == p.(drive := Ahead(SLOW_SPEED), steer := -10)
  {
  }

  /** The controller has no turn memory: every steering command of every
      run is one of the three fixed angles, so a DANGER turn is always +30. */
  lemma {:induction false} SteersOnlyFixedAngles(readings: seq<Option<real>>)
    ensures forall i :: 0 <= i < |TickLog(readings)| && TickLog(readings)[i].Steer? ==>
              TickLog(readings)[i].angle in {-10, 30, 0}
    decreases |readings|
  {
    if readings != [] {
      SteersOnlyFixedAngles(readings[..|readings| - 1]);
      var z := ClassifyZone(SanitizeDistance(readings[|readings| - 1]));
      var last := ZoneCommands(z);
      assert forall i :: 0 <= i < |last| && last[i].Steer? ==> last[i].angle in {-10, 30, 0};
    }
  }

  /**
   * The main loop over a finite run of raw readings (the run ends where
   * Ctrl+C arrives). The zone after the run comes from the last reading
   * alone; the log is every tick's commands followed by the exit commands,
   * which leave the car stopped and centred.
   */
  method RunFsm(readings: seq<Option<real>>) returns (state: Zone, log: seq<Command>)
    ensures state == if readings == [] then Safe
                     else ClassifyZone(SanitizeDistance(readings[|readings| - 1]))
    ensures log == TickLog(readings) + EXIT_COMMANDS
    ensures forall p :: Run(p, log).drive == Idle && Run(p, log).steer == 0
  {
    state := Safe;
    log := [];
    var i := 0;
    while i < |readings|
      invariant 0 <= i <= |readings|
      invariant log == TickLog(readings[..i])
      invariant state == if i == 0 then Safe else ClassifyZone(SanitizeDistance(readings[i - 1]))
    {
      var dist := SanitizeDistance(readings[i]);
      state := ClassifyZone(dist);
      log := log + ZoneCommands(state);
      assert readings[..i + 1][..i] == readings[..i];
      i := i + 1;
    }
    assert readings[..i] == readings;
    ghost var ticks := log;
    log := log + EXIT_COMMANDS;
    forall p ensures Run(p, log).drive == Idle && Run(p, log).steer == 0 {
      RunAppend(p, ticks, EXIT_COMMANDS);
    }
  }
}
