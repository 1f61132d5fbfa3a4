/**
 * What the three keyboard teleop scripts under controls/ share: `clamp`, the
 * steering keys' step, the `motion` variable, the forward-only ultrasonic
 * safety stop and the `finally` block's reset.
 */
module Teleop {
  import opened Actuator

  const ULTRASONIC_STOP_CM: real := 20.0
  const STEER_STEP: int := 8
  const MAX_STEER: int := 35

  /** The `motion` variable: "stop", "forward" or "backward". */
  datatype Motion = Stopped | Forwards | Backwards

  /** `clamp(x, lo, hi) = max(lo, min(hi, x))`. */
  function Clamp(x: int, lo: int, hi: int): (r: int)
    ensures lo <= hi ==> lo <= r <= hi
    ensures lo <= x <= hi ==> r == x
    ensures x < lo ==> r == lo
    ensures lo <= hi && hi < x ==> r == hi
  {
    var m := if x < hi then x else hi;
    if lo < m then m else lo
  }

  /** The angle after one press of 'a': eight degrees further left, at most 35. */
  function SteerLeft(angle: int): int {
    Clamp(angle - STEER_STEP, -MAX_STEER, MAX_STEER)
  }

  /** The angle after one press of 'd': eight degrees further right, at most 35. */
  function SteerRight(angle: int): int {
    Clamp(angle + STEER_STEP, -MAX_STEER, MAX_STEER)
  }

  /** The safety stop fires only while driving forward with a positive
      reading under 20 cm; the -1 that a failed read gives never fires it. */
  predicate SafetyStopFires(motion: Motion, dist: real) {
    motion == Forwards && dist > 0.0 && dist < ULTRASONIC_STOP_CM
  }

  /** The script's `motion` tells the truth about the drive motors. */
  predicate MotionAgrees(motion: Motion, drive: Drive) {
    (motion == Stopped <==> drive.Idle?) &&
    (motion == Forwards <==> drive.Ahead?) &&
    (motion == Backwards <==> drive.Astern?)
  }

  /** The `finally` block: stop, centre steering and camera, close. */
  const TEARDOWN: seq<Command> := [Stop, Steer(0), PanCam(0), TiltCam(0), Close]

  /** Whatever the car was doing, the teardown leaves it stopped with every servo at 0. */
  lemma TeardownRestsCar(p: Pose)
    ensures Run(p, TEARDOWN) == Pose(Idle, 0, 0, 0)
  {
    var p1 := Apply(p, Stop);
    var p2 := Apply(p1, Steer(0));
    var p3 := Apply(p2, PanCam(0));
    var p4 := Apply(p3, TiltCam(0));
    assert TEARDOWN[1..][1..][1..][1..] == [Close];
    assert Run(p4, [Close]) == p4;
  }

  /** Whatever came before it, a log that ends with the teardown leaves the car at rest. */
  lemma EndsAtRest(body: seq<Command>)
    ensures forall p :: Run(p, body + TEARDOWN) == Pose(Idle, 0, 0, 0)
  {
    forall p ensures Run(p, body + TEARDOWN) == Pose(Idle, 0, 0, 0) {
      RunAppend(p, body, TEARDOWN);
      TeardownRestsCar(Run(p, body));
    }
  }

  /** Holding 'a' (or 'd') walks the wheels to the limit and keeps them there:
      the angle never leaves [-35, 35] and each press moves it by at most 8. */
  lemma SteeringKeys(angle: int)
    requires -MAX_STEER <= angle <= MAX_STEER
    ensures -MAX_STEER <= SteerLeft(angle) <= angle && angle - SteerLeft(angle) <= STEER_STEP
    ensures angle <= SteerRight(angle) <= MAX_STEER && SteerRight(angle) - angle <= STEER_STEP
    ensures SteerLeft(angle) == angle <==> angle == -MAX_STEER
    ensures SteerRight(angle) == angle <==> angle == MAX_STEER
  {
  }
}
