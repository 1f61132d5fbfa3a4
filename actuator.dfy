/**
 * The actuator port of the PiCar-X: the calls the scripts make on the car
 * (`forward`, `backward`, `stop`, `set_dir_servo_angle`, the camera servos,
 * the calibration setters, `reset`, `close`). A script's effect is the
 * ordered log of these calls; each `time.sleep` is a `Pause` at its position
 * in the log, with no duration.
 *
 * `Pose` is what the log leaves the car doing: `Run` folds a log over a pose.
 */
module Actuator {

  datatype Command =
    | Stop
    | Forward(speed: int)
    | Backward(speed: int)
    | Steer(angle: int)            // set_dir_servo_angle: negative is left
    | PanCam(angle: int)           // set_cam_pan_angle
    | TiltCam(angle: int)          // set_cam_tilt_angle
    | DirCalibrate(offset: real)   // dir_servo_calibrate
    | PanCalibrate(offset: real)   // cam_pan_servo_calibrate
    | TiltCalibrate(offset: real)  // cam_tilt_servo_calibrate
    | Reset                        // stop the motors, every servo to logical 0
    | Close
    | Pause                        // a time.sleep

  /** What the drive motors are doing. */
  datatype Drive = Idle | Ahead(speed: int) | Astern(speed: int)

  /** The commanded pose: drive motors and the three servo angles as last sent. */
  datatype Pose = Pose(drive: Drive, steer: int, pan: int, tilt: int)

  /** The pose after one command. Calibration setters move the servo's zero,
      not its logical angle, so they leave the pose as it is. */
  function Apply(p: Pose, c: Command): Pose {
    match c
    case Stop => p.(drive := Idle)
    case Forward(s) => p.(drive := Ahead(s))
    case Backward(s) => p.(drive := Astern(s))
    case Steer(a) => p.(steer := a)
    case PanCam(a) => p.(pan := a)
    case TiltCam(a) => p.(tilt := a)
    case Reset => Pose(Idle, 0, 0, 0)
    case _ => p
  }

  /** The pose after a whole log, in order. */
  function Run(p: Pose, log: seq<Command>): Pose
    decreases |log|
  {
    if log == [] then p else Run(Apply(p, log[0]), log[1..])
  }

  /** A log touches the steering servo when it sets it or resets the car. */
  predicate TouchesSteering(c: Command) {
    c.Steer? || c.Reset?
  }

  /** A log touches the drive motors when it starts, reverses or stops them. */
  predicate TouchesDrive(c: Command) {
    c.Stop? || c.Forward? || c.Backward? || c.Reset?
  }

  /** A log touches the camera when it sets pan or tilt or resets the car. */
  predicate TouchesCamera(c: Command) {
    c.PanCam? || c.TiltCam? || c.Reset?
  }

  /** Running two logs one after the other is running their concatenation. */
  lemma {:induction false} RunAppend(p: Pose, a: seq<Command>, b: seq<Command>)
    ensures Run(p, a + b) == Run(Run(p, a), b)
    decreases |a|
  {
    if a == [] {
      assert a + b == b;
    } else {
      assert (a + b)[0] == a[0];
      assert (a + b)[1..] == a[1..] + b;
      RunAppend(Apply(p, a[0]), a[1..], b);
    }
  }

  /** Logs of one and two commands. */
  lemma RunShort(p: Pose, log: seq<Command>)
    requires |log| <= 2
    ensures |log| == 0 ==> Run(p, log) == p
    ensures |log| == 1 ==> Run(p, log) == Apply(p, log[0])
    ensures |log| == 2 ==> Run(p, log) == Apply(Apply(p, log[0]), log[1])
  {
    if |log| == 2 {
      var q := Apply(p, log[0]);
      assert Run(p, log) == Run(q, log[1..]);
      assert log[1..] == [log[1]];
      assert Run(q, [log[1]]) == Run(Apply(q, log[1]), []);
    }
  }

  /** A log with no steering or reset command leaves the steering angle where it was. */
  lemma {:induction false} RunKeepsSteering(p: Pose, log: seq<Command>)
    requires forall i :: 0 <= i < |log| ==> !TouchesSteering(log[i])
    ensures Run(p, log).steer == p.steer
    decreases |log|
  {
    if log != [] {
      RunKeepsSteering(Apply(p, log[0]), log[1..]);
    }
  }

  /** A log with no motor command leaves the drive motors as they were. */
  lemma {:induction false} RunKeepsDrive(p: Pose, log: seq<Command>)
    requires forall i :: 0 <= i < |log| ==> !TouchesDrive(log[i])
    ensures Run(p, log).drive == p.drive
    decreases |log|
  {
    if log != [] {
      RunKeepsDrive(Apply(p, log[0]), log[1..]);
    }
  }

  /** A log with no camera or reset command leaves both camera servos where they were. */
  lemma {:induction false} RunKeepsCamera(p: Pose, log: seq<Command>)
    requires forall i :: 0 <= i < |log| ==> !TouchesCamera(log[i])
    ensures Run(p, log).pan == p.pan && Run(p, log).tilt == p.tilt
    decreases |log|
  {
    if log != [] {
      RunKeepsCamera(Apply(p, log[0]), log[1..]);
    }
  }

  /** The drive state after a log is the one its last motor command set. */
  lemma LastDriveCommandDecides(p: Pose, log: seq<Command>, k: nat)
    requires k < |log| && TouchesDrive(log[k])
    requires forall i :: k < i < |log| ==> !TouchesDrive(log[i])
    ensures Run(p, log).drive == Apply(p, log[k]).drive
  {
    RunAppend(p, log[..k], log[k..]);
    assert log[..k] + log[k..] == log;
    var q := Run(p, log[..k]);
    assert log[k..][1..] == log[k + 1..];
    RunKeepsDrive(Apply(q, log[k]), log[k + 1..]);
  }

  /** The steering angle after a log is the one its last steering command set. */
  lemma LastSteeringCommandDecides(p: Pose, log: seq<Command>, k: nat)
    requires k < |log| && TouchesSteering(log[k])
    requires forall i :: k < i < |log| ==> !TouchesSteering(log[i])
    ensures Run(p, log).steer == Apply(p, log[k]).steer
  {
    RunAppend(p, log[..k], log[k..]);
    assert log[..k] + log[k..] == log;
    var q := Run(p, log[..k]);
    assert log[k..][1..] == log[k + 1..];
    RunKeepsSteering(Apply(q, log[k]), log[k + 1..]);
  }
}
