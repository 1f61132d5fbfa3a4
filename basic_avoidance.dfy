/**
 * The three-band controller of ultrasonic/collision_avoidance_basic.py:
 * close readings stop and reverse briefly, middle readings creep, far
 * readings cruise. It never steers.
 */
module BasicAvoidance {
  import opened Wrappers
  import opened Actuator
  import opened Ranging

  const SAFE_DIST: real := 40.0
  const DANGER_DIST: real := 20.0

  const FORWARD_SPEED: int := 10
  const SLOW_SPEED: int := 5

  /** The commands one tick issues for a sanitised distance, the closing pause included. */
  function BandCommands(dist: real): seq<Command> {
    if dist < DANGER_DIST then [Stop, Pause, Backward(SLOW_SPEED), Pause, Stop, Pause]
    else if dist < SAFE_DIST then [Forward(SLOW_SPEED), Pause]
    else [Forward(FORWARD_SPEED), Pause]
  }

  /** The log of a run of ticks, one per raw reading, in order. */
  function TickLog(readings: seq<Option<real>>): seq<Command>
    decreases |readings|
  {
    if readings == [] then []
    else TickLog(readings[..|readings| - 1]) + BandCommands(SanitizeDistance(readings[|readings| - 1]))
  }

  /** The drive state a tick leaves behind, for each band: stopped when close,
      slow below 40 cm, normal cruising otherwise (the far sentinel included);
      the steering angle is never changed. */
  lemma BandOutcome(p: Pose, dist: real)
    ensures dist < DANGER_DIST ==> Run(p, BandCommands(dist)).drive == Idle
    ensures DANGER_DIST <= dist < SAFE_DIST ==> Run(p, BandCommands(dist)).drive == Ahead(SLOW_SPEED)
    ensures SAFE_DIST <= dist ==> Run(p, BandCommands(dist)).drive == Ahead(FORWARD_SPEED)
    ensures Run(p, BandCommands(dist)).steer == p.steer
  {
    var log := BandCommands(dist);
    if dist < DANGER_DIST {
      LastDriveCommandDecides(p, log, 4);
    } else {
      LastDriveCommandDecides(p, log, 0);
    }
    RunKeepsSteering(p, log);
  }

  /** A missing or non-positive reading cruises at normal speed. */
  lemma InvalidReadingCruises(raw: Option<real>)
    requires raw.None? || raw.value <= 0.0
    ensures BandCommands(SanitizeDistance(raw)) == [Forward(FORWARD_SPEED), Pause]
  {
  }

  /** No tick of any run ever touches the steering servo. */
  lemma {:induction false} NeverSteers(readings: seq<Option<real>>)
    ensures forall i :: 0 <= i < |TickLog(readings)| ==> !TouchesSteering(TickLog(readings)[i])
    decreases |readings|
  {
    if readings != [] {
      var front := readings[..|readings| - 1];
      NeverSteers(front);
      var last := BandCommands(SanitizeDistance(readings[|readings| - 1]));
      assert forall i :: 0 <= i < |last| ==> !TouchesSteering(last[i]);
    }
  }

  /**
   * The main loop over a finite run of raw readings (the run ends where
   * Ctrl+C arrives), then the `finally` stop. The steering angle is never
   * changed and the car ends stopped.
   */
  method RunBasic(readings: seq<Option<real>>) returns (log: seq<Command>)
    ensures log == TickLog(readings) + [Stop]
    ensures forall p :: Run(p, log).drive == Idle && Run(p, log).steer == p.steer
  {
    log := [];
    var i := 0;
    while i < |readings|
      invariant 0 <= i <= |readings|
      invariant log == TickLog(readings[..i])
    {
      var dist := SanitizeDistance(readings[i]);
      log := log + BandCommands(dist);
      assert readings[..i + 1][..i] == readings[..i];
      i := i + 1;
    }
    assert readings[..i] == readings;
    log := log + [Stop];
    NeverSteers(readings);
    forall p ensures Run(p, log).drive == Idle && Run(p, log).steer == p.steer {
      LastDriveCommandDecides(p, log, |log| - 1);
      RunKeepsSteering(p, log);
    }
  }
}
