/**
 * controls/keyboard_control_cam_us_sensor.py: keyboard driving with a held
 * steering angle, an adjustable speed and a forward-only ultrasonic safety
 * stop (the camera only streams; its servos are touched by the teardown
 * alone). `main`'s loop reads at most one key per tick, handles it, checks
 * the distance and sleeps.
 */
module SpeedTeleop {
  import opened Wrappers
  import opened Actuator
  import opened Teleop

  const DEFAULT_SPEED: int := 30
  const SPEED_STEP: int := 5
  const MIN_SPEED: int := 10
  const MAX_SPEED: int := 100

  /** The loop's variables. */
  datatype State = State(speed: int, steeringAngle: int, motion: Motion)

  const INITIAL: State := State(DEFAULT_SPEED, 0, Stopped)

  /** The pose sent before the loop: wheels straight, motors stopped. */
  const STARTUP: seq<Command> := [Steer(0), Stop]

  /** Speed and steering within their limits. */
  predicate Valid(s: State) {
    MIN_SPEED <= s.speed <= MAX_SPEED && -MAX_STEER <= s.steeringAngle <= MAX_STEER
  }

  /** The variables describe the car: its motors and its steering servo. */
  predicate Agrees(s: State, p: Pose) {
    MotionAgrees(s.motion, p.drive) && p.steer == s.steeringAngle
  }

  /** The variables after part of a tick, and the commands that part issued. */
  datatype Step = Step(state: State, cmds: seq<Command>)

  /** The keys that do something (besides 'q', which leaves the loop). */
  const HANDLED_KEYS: set<char> := {' ', 'w', 's', 'a', 'd', '+', '=', '-', '_'}

  /** The key-handling branch for a key other than 'q'. */
  function OnKey(s: State, ch: char): Step
    requires ch != 'q'
  {
    if ch == ' ' then Step(s.(motion := Stopped), [Stop])
    else if ch == 'w' then Step(s.(motion := Forwards), [Steer(s.steeringAngle), Forward(s.speed)])
    else if ch == 's' then Step(s.(motion := Backwards), [Steer(s.steeringAngle), Backward(s.speed)])
    else if ch == 'a' then
      var a := SteerLeft(s.steeringAngle);
      Step(s.(steeringAngle := a), [Steer(a)])
    else if ch == 'd' then
      var a := SteerRight(s.steeringAngle);
      Step(s.(steeringAngle := a), [Steer(a)])
    else if ch == '+' || ch == '=' then
      Step(s.(speed := Clamp(s.speed + SPEED_STEP, MIN_SPEED, MAX_SPEED)), [])
    else if ch == '-' || ch == '_' then
      Step(s.(speed := Clamp(s.speed - SPEED_STEP, MIN_SPEED, MAX_SPEED)), [])
    else Step(s, [])
  }

  /** The ultrasonic safety branch (`dist` is -1 when the read raised). */
  function OnDistance(s: State, dist: real): Step {
    if SafetyStopFires(s.motion, dist) then Step(s.(motion := Stopped), [Stop]) else Step(s, [])
  }

  /** One tick's inputs: the key read, if any, and the distance read. */
  datatype Tick = Tick(key: Option<char>, distance: real)

  predicate Quits(t: Tick) {
    t.key == Some('q')
  }

  /** One pass of the loop body that does not quit: key, safety check, sleep. */
  function OnTick(s: State, t: Tick): Step
    requires !Quits(t)
  {
    var k := if t.key.Some? then OnKey(s, t.key.value) else Step(s, []);
    var d := OnDistance(k.state, t.distance);
    Step(d.state, k.cmds + d.cmds + [Pause])
  }

  /** The loop over a run of ticks, up to the first 'q' or the end of the run. */
  function Loop(s: State, ticks: seq<Tick>): Step
    decreases |ticks|
  {
    if ticks == [] || Quits(ticks[0]) then Step(s, [])
    else
      var e := OnTick(s, ticks[0]);
      var r := Loop(e.state, ticks[1..]);
      Step(r.state, e.cmds + r.cmds)
  }

  /** A drive command within the speed limits (every other command qualifies). */
  predicate SpeedInRange(c: Command) {
    (c.Forward? ==> MIN_SPEED <= c.speed <= MAX_SPEED) &&
    (c.Backward? ==> MIN_SPEED <= c.speed <= MAX_SPEED)
  }

  /** One tick keeps speed and steering within their limits and drives the
      motors only at a speed within them. */
  lemma OnTickValid(s: State, t: Tick)
    requires Valid(s) && !Quits(t)
    ensures Valid(OnTick(s, t).state)
    ensures forall i :: 0 <= i < |OnTick(s, t).cmds| ==> SpeedInRange(OnTick(s, t).cmds[i])
  {
  }

  /** No run of keys takes speed or steering outside its limits, and every
      forward or backward command of the run carries a speed in [10, 100]. */
  lemma {:induction false} LoopValid(s: State, ticks: seq<Tick>)
    requires Valid(s)
    ensures Valid(Loop(s, ticks).state)
    ensures forall i :: 0 <= i < |Loop(s, ticks).cmds| ==> SpeedInRange(Loop(s, ticks).cmds[i])
    decreases |ticks|
  {
    if ticks != [] && !Quits(ticks[0]) {
      var e := OnTick(s, ticks[0]);
      OnTickValid(s, ticks[0]);
      LoopValid(e.state, ticks[1..]);
      var r := Loop(e.state, ticks[1..]);
      assert Loop(s, ticks).cmds == e.cmds + r.cmds;
      forall i | 0 <= i < |e.cmds + r.cmds| ensures SpeedInRange((e.cmds + r.cmds)[i]) {
        if i >= |e.cmds| {
          assert (e.cmds + r.cmds)[i] == r.cmds[i - |e.cmds|];
        }
      }
    }
  }

  /** Only space, 'w' and 's' change `motion`, to stop, forward and backward;
      the steering and speed keys leave it as it was. */
  lemma MotionKeys(s: State, ch: char)
    requires ch != 'q'
    ensures ch !in {' ', 'w', 's'} ==> OnKey(s, ch).state.motion == s.motion
    ensures ch == ' ' ==> OnKey(s, ch) == Step(s.(motion := Stopped), [Stop])
    ensures ch == 'w' ==> OnKey(s, ch) == Step(s.(motion := Forwards), [Steer(s.steeringAngle), Forward(s.speed)])
    ensures ch == 's' ==> OnKey(s, ch) == Step(s.(motion := Backwards), [Steer(s.steeringAngle), Backward(s.speed)])
  {
  }

  /** A key outside the handled set changes nothing and sends nothing. */
  lemma UnhandledKey(s: State, ch: char)
    requires ch != 'q' && ch !in HANDLED_KEYS
    ensures OnKey(s, ch) == Step(s, [])
  {
  }

  /** The safety stop changes the variables exactly when it fires, and then
      only `motion`, to stop; backward or stopped motion and readings of 0
      or -1 never fire it. */
  lemma SafetyStop(s: State, dist: real)
    ensures OnDistance(s, dist).state != s <==> SafetyStopFires(s.motion, dist)
    ensures SafetyStopFires(s.motion, dist) ==> OnDistance(s, dist) == Step(s.(motion := Stopped), [Stop])
    ensures s.motion != Forwards || dist <= 0.0 ==> OnDistance(s, dist) == Step(s, [])
  {
  }

  /** Each key's commands move the car exactly as the key moves the variables. */
  lemma OnKeyAgrees(s: State, p: Pose, ch: char)
    requires Agrees(s, p) && ch != 'q'
    ensures Agrees(OnKey(s, ch).state, Run(p, OnKey(s, ch).cmds))
  {
    RunShort(p, OnKey(s, ch).cmds);
  }

  /** One tick keeps the variables in step with the car. */
  lemma OnTickAgrees(s: State, p: Pose, t: Tick)
    requires Agrees(s, p) && !Quits(t)
    ensures Agrees(OnTick(s, t).state, Run(p, OnTick(s, t).cmds))
  {
    var k := if t.key.Some? then OnKey(s, t.key.value) else Step(s, []);
    if t.key.Some? {
      OnKeyAgrees(s, p, t.key.value);
    }
    var d := OnDistance(k.state, t.distance);
    RunAppend(p, k.cmds + d.cmds, [Pause]);
    RunAppend(p, k.cmds, d.cmds);
  }

  /** After the start-up pose, `motion` says whether the motors run and
      which way, and `steering_angle` is the steering servo's angle. */
  lemma {:induction false} LoopAgrees(s: State, p: Pose, ticks: seq<Tick>)
    requires Agrees(s, p)
    ensures Agrees(Loop(s, ticks).state, Run(p, Loop(s, ticks).cmds))
    decreases |ticks|
  {
    if ticks != [] && !Quits(ticks[0]) {
      var e := OnTick(s, ticks[0]);
      OnTickAgrees(s, p, ticks[0]);
      LoopAgrees(e.state, Run(p, e.cmds), ticks[1..]);
      RunAppend(p, e.cmds, Loop(e.state, ticks[1..]).cmds);
    }
  }

  /** The start-up commands put the car in the initial state's pose. */
  lemma StartupAgrees(p: Pose)
    ensures Agrees(INITIAL, Run(p, STARTUP))
  {
    RunShort(p, STARTUP);
  }

  /** One turn of the loop, seen from the middle of a run of ticks. */
  lemma LoopUnfold(s: State, ticks: seq<Tick>, i: nat)
    requires i < |ticks| && !Quits(ticks[i])
    ensures Loop(s, ticks[i..]) == Step(Loop(OnTick(s, ticks[i]).state, ticks[i + 1..]).state,
                                        OnTick(s, ticks[i]).cmds + Loop(OnTick(s, ticks[i]).state, ticks[i + 1..]).cmds)
  {
    assert ticks[i..][1..] == ticks[i + 1..];
  }

  /**
   * One pass of the loop body for a tick that does not quit, on the loop's
   * own variables: the key's branch, the safety check, the sleep.
   */
  method TickBody(speed0: int, steeringAngle0: int, motion0: Motion, t: Tick)
    returns (speed: int, steeringAngle: int, motion: Motion, cmds: seq<Command>)
    requires !Quits(t)
    ensures Step(State(speed, steeringAngle, motion), cmds) == OnTick(State(speed0, steeringAngle0, motion0), t)
  {
    speed, steeringAngle, motion := speed0, steeringAngle0, motion0;
    cmds := [];
    var ch := t.key;
    if ch.Some? {
      if ch.value == ' ' {
        cmds := cmds + [Stop];
        motion := Stopped;
      } else if ch.value == 'w' {
        cmds := cmds + [Steer(steeringAngle), Forward(speed)];
        motion := Forwards;
      } else if ch.value == 's' {
        cmds := cmds + [Steer(steeringAngle), Backward(speed)];
        motion := Backwards;
      } else if ch.value == 'a' {
        steeringAngle := steeringAngle - STEER_STEP;
        steeringAngle := Clamp(steeringAngle, -MAX_STEER, MAX_STEER);
        cmds := cmds + [Steer(steeringAngle)];
      } else if ch.value == 'd' {
        steeringAngle := steeringAngle + STEER_STEP;
        steeringAngle := Clamp(steeringAngle, -MAX_STEER, MAX_STEER);
        cmds := cmds + [Steer(steeringAngle)];
      } else if ch.value == '+' || ch.value == '=' {
        speed := Clamp(speed + SPEED_STEP, MIN_SPEED, MAX_SPEED);
      } else if ch.value == '-' || ch.value == '_' {
        speed := Clamp(speed - SPEED_STEP, MIN_SPEED, MAX_SPEED);
      }
    }
    var dist := t.distance;
    if motion == Forwards && dist > 0.0 && dist < ULTRASONIC_STOP_CM {
      cmds := cmds + [Stop];
      motion := Stopped;
    }
    cmds := cmds + [Pause];
  }

  /** The loop carried across one tick that does not quit: what is left of
      the run from the next variables, after the tick's commands. */
  lemma LoopStep(total: Step, s: State, done: seq<Command>, ticks: seq<Tick>, i: nat, next: Step)
    requires i < |ticks| && !Quits(ticks[i]) && next == OnTick(s, ticks[i])
    requires total == Step(Loop(s, ticks[i..]).state, done + Loop(s, ticks[i..]).cmds)
    ensures total == Step(Loop(next.state, ticks[i + 1..]).state, (done + next.cmds) + Loop(next.state, ticks[i + 1..]).cmds)
  {
    LoopUnfold(s, ticks, i);
    var rest := Loop(next.state, ticks[i + 1..]).cmds;
    assert done + (next.cmds + rest) == (done + next.cmds) + rest;
  }

  /** The loop stops at the end of the run and at 'q'. */
  lemma LoopStops(s: State, ticks: seq<Tick>, i: nat)
    requires i == |ticks| || (i < |ticks| && Quits(ticks[i]))
    ensures Loop(s, ticks[i..]) == Step(s, [])
  {
  }

  /**
   * The `while` loop of `main` over a finite run of ticks, from the given
   * variables. It stops at 'q'; the end of the run stands for an interrupt
   * sent from outside the terminal, since raw mode reads a typed Ctrl+C as
   * the unhandled key '\x03'.
   */
  method DriveLoop(speed0: int, steeringAngle0: int, motion0: Motion, ticks: seq<Tick>)
    returns (speed: int, steeringAngle: int, motion: Motion, cmds: seq<Command>)
    ensures Step(State(speed, steeringAngle, motion), cmds) == Loop(State(speed0, steeringAngle0, motion0), ticks)
  {
    speed, steeringAngle, motion, cmds := speed0, steeringAngle0, motion0, [];
    ghost var total := Loop(State(speed0, steeringAngle0, motion0), ticks);
    var i := 0;
    assert ticks[i..] == ticks;
    while i < |ticks|
      invariant 0 <= i <= |ticks|
      invariant total == Step(Loop(State(speed, steeringAngle, motion), ticks[i..]).state,
                              cmds + Loop(State(speed, steeringAngle, motion), ticks[i..]).cmds)
    {
      if ticks[i].key == Some('q') {
        break;
      }
      ghost var before := State(speed, steeringAngle, motion);
      var tickCmds;
      speed, steeringAngle, motion, tickCmds := TickBody(speed, steeringAngle, motion, ticks[i]);
      LoopStep(total, before, cmds, ticks, i, Step(State(speed, steeringAngle, motion), tickCmds));
      cmds := cmds + tickCmds;
      i := i + 1;
    }
    LoopStops(State(speed, steeringAngle, motion), ticks, i);
  }

  /**
   * `main`: the start-up pose, the loop, then the `finally` teardown, which
   * leaves the car stopped with every servo at 0.
   */
  method TeleopLoop(ticks: seq<Tick>) returns (final: State, log: seq<Command>)
    ensures final == Loop(INITIAL, ticks).state
    ensures log == STARTUP + Loop(INITIAL, ticks).cmds + TEARDOWN
    ensures Valid(final)
    ensures forall p :: Run(p, log) == Pose(Idle, 0, 0, 0)
  {
    var speed := DEFAULT_SPEED;
    var steeringAngle := 0;
    var motion := Stopped;
    log := [Steer(steeringAngle), Stop];
    var cmds;
    speed, steeringAngle, motion, cmds := DriveLoop(speed, steeringAngle, motion, ticks);
    final := State(speed, steeringAngle, motion);
    LoopValid(INITIAL, ticks);
    log := log + cmds;
    EndsAtRest(log);
    log := log + TEARDOWN;
  }
}
