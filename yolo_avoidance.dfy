/**
 * aio/yolo_ultrasonic_avoidance.py: a detector's boxes and the ultrasonic
 * distance decide, every tick, between a fixed back-and-turn manoeuvre and
 * driving straight on. The direction of the turn alternates from one
 * obstacle tick to the next; that direction is the only memory of the loop.
 */
module YoloAvoidance {
  import opened Wrappers
  import opened Actuator

  const CONF_THRESHOLD: real := 0.35
  const CENTER_REGION: real := 0.30
  const ULTRASONIC_STOP_CM: real := 25.0
  const FORWARD_SPEED: int := 25
  const TURN_ANGLE: int := 25

  /** Which classes count as obstacles: `None` means every class. */
  const OBSTACLE_CLASSES: Option<seq<int>> := None

  /** One detected box: class index, confidence, corners (x1, y1) and (x2, y2) in pixels. */
  datatype Box = Box(cls: int, conf: real, x1: real, y1: real, x2: real, y2: real)

  /** A box survives the filters when it is confident enough and of an obstacle class. */
  predicate Considered(b: Box, classes: Option<seq<int>>) {
    b.conf >= CONF_THRESHOLD && (classes.None? || b.cls in classes.value)
  }

  /** The front corridor's edges for a frame `width` pixels wide. */
  function CorridorMin(width: int): real { width as real * (0.5 - CENTER_REGION / 2.0) }
  function CorridorMax(width: int): real { width as real * (0.5 + CENTER_REGION / 2.0) }

  /** A box is in front when its horizontal centre lies in the corridor, edges included. */
  predicate InCorridor(b: Box, width: int) {
    CorridorMin(width) <= (b.x1 + b.x2) / 2.0 <= CorridorMax(width)
  }

  /** The specification of the corridor test: some surviving box is in front. */
  predicate ObstacleAhead(detections: Option<seq<Box>>, width: int, classes: Option<seq<int>>) {
    detections.Some? &&
    exists i :: 0 <= i < |detections.value| &&
      Considered(detections.value[i], classes) && InCorridor(detections.value[i], width)
  }

  /** `is_obstacle_in_front`: scan the boxes in order and stop at the first one in front. */
  method IsObstacleInFront(detections: Option<seq<Box>>, frameWidth: int, classes: Option<seq<int>>)
    returns (r: bool)
    ensures r == ObstacleAhead(detections, frameWidth, classes)
    ensures detections.None? || detections == Some([]) ==> !r
  {
    if detections.None? || |detections.value| == 0 {
      return false;
    }
    var boxes := detections.value;
    var centerMin := CorridorMin(frameWidth);
    var centerMax := CorridorMax(frameWidth);
    var i := 0;
    while i < |boxes|
      invariant 0 <= i <= |boxes|
      invariant forall j :: 0 <= j < i ==> !(Considered(boxes[j], classes) && InCorridor(boxes[j], frameWidth))
    {
      var box := boxes[i];
      if box.conf < CONF_THRESHOLD {
        i := i + 1;
        continue;
      }
      if classes.Some? && box.cls !in classes.value {
        i := i + 1;
        continue;
      }
      var boxCenterX := (box.x1 + box.x2) / 2.0;
      if centerMin <= boxCenterX <= centerMax {
        return true;
      }
      i := i + 1;
    }
    return false;
  }

  /** A box that does not survive the filters cannot change the verdict,
      wherever it stands in the list. */
  lemma FilteredBoxIrrelevant(before: seq<Box>, b: Box, after: seq<Box>, width: int, classes: Option<seq<int>>)
    requires !Considered(b, classes)
    ensures ObstacleAhead(Some(before + [b] + after), width, classes)
        == ObstacleAhead(Some(before + after), width, classes)
  {
    var withB := before + [b] + after;
    var without := before + after;
    if ObstacleAhead(Some(withB), width, classes) {
      var i :| 0 <= i < |withB| && Considered(withB[i], classes) && InCorridor(withB[i], width);
      var j := if i < |before| then i else i - 1;
      assert without[j] == withB[i];
    }
    if ObstacleAhead(Some(without), width, classes) {
      var j :| 0 <= j < |without| && Considered(without[j], classes) && InCorridor(without[j], width);
      var i := if j < |before| then j else j + 1;
      assert withB[i] == without[j];
    }
  }

  /** The verdict does not depend on the order of the boxes. */
  lemma OrderIrrelevant(d1: seq<Box>, d2: seq<Box>, width: int, classes: Option<seq<int>>)
    requires multiset(d1) == multiset(d2)
    ensures ObstacleAhead(Some(d1), width, classes) == ObstacleAhead(Some(d2), width, classes)
  {
    forall a: seq<Box>, c: seq<Box> | multiset(a) == multiset(c) && ObstacleAhead(Some(a), width, classes)
      ensures ObstacleAhead(Some(c), width, classes)
    {
      var i :| 0 <= i < |a| && Considered(a[i], classes) && InCorridor(a[i], width);
      assert a[i] in multiset(c);
      var j :| 0 <= j < |c| && c[j] == a[i];
    }
  }

  /** With no class list every class counts; with one, only the listed classes do. */
  lemma ClassFilter(b: Box, classes: seq<int>)
    ensures Considered(b, None) <==> b.conf >= CONF_THRESHOLD
    ensures Considered(b, Some(classes)) <==> b.conf >= CONF_THRESHOLD && b.cls in classes
  {
  }

  /** A box centred on the middle of the frame is always in front, whatever
      its size; for a frame of positive width a centre on either edge is not. */
  lemma CorridorEdges(b: Box, width: int)
    requires width >= 0
    ensures (b.x1 + b.x2) / 2.0 == width as real / 2.0 ==> InCorridor(b, width)
    ensures width > 0 && (b.x1 + b.x2) / 2.0 == 0.0 ==> !InCorridor(b, width)
    ensures width > 0 && (b.x1 + b.x2) / 2.0 == width as real ==> !InCorridor(b, width)
  {
  }

  /** The ultrasonic verdict: only a positive reading under 25 cm counts, so
      the -1 error value and 0 never do. */
  predicate UltrasonicClose(distance: real) {
    distance > 0.0 && distance < ULTRASONIC_STOP_CM
  }

  /** One camera frame: its width and the detector's boxes (`None` when it returned no result). */
  datatype Frame = Frame(width: int, boxes: Option<seq<Box>>)

  /** One tick's inputs: the frame (`None` when it could not be grabbed) and the distance reading. */
  datatype Tick = Tick(frame: Option<Frame>, distance: real)

  /** A tick is blocked when a frame came in and either sensor sees something. */
  predicate Blocked(t: Tick) {
    t.frame.Some? &&
    (ObstacleAhead(t.frame.value.boxes, t.frame.value.width, OBSTACLE_CLASSES) || UltrasonicClose(t.distance))
  }

  /** The avoidance manoeuvre, turning towards `turnDir` (1 right, -1 left). */
  function ManoeuvreCommands(turnDir: int): seq<Command> {
    [Stop, Steer(TURN_ANGLE * turnDir), Pause, Backward(FORWARD_SPEED), Pause, Stop, Steer(0)]
  }

  /** The commands of one tick, given the turn direction it starts with. */
  function TickCommands(t: Tick, turnDir: int): seq<Command> {
    if t.frame.None? then [Pause]
    else if Blocked(t) then ManoeuvreCommands(turnDir) + [Pause]
    else [Steer(0), Forward(FORWARD_SPEED), Pause]
  }

  /** The turn direction after a run of ticks: it starts at 1 and flips on every blocked tick. */
  function TurnDirAfter(ticks: seq<Tick>): int
    decreases |ticks|
  {
    if ticks == [] then 1
    else if Blocked(ticks[|ticks| - 1]) then -TurnDirAfter(ticks[..|ticks| - 1])
    else TurnDirAfter(ticks[..|ticks| - 1])
  }

  /** The log of a run of ticks. */
  function TickLog(ticks: seq<Tick>): seq<Command>
    decreases |ticks|
  {
    if ticks == [] then []
    else
      var front := ticks[..|ticks| - 1];
      TickLog(front) + TickCommands(ticks[|ticks| - 1], TurnDirAfter(front))
  }

  /** The number of blocked ticks in a run. */
  function BlockedCount(ticks: seq<Tick>): nat
    decreases |ticks|
  {
    if ticks == [] then 0
    else BlockedCount(ticks[..|ticks| - 1]) + (if Blocked(ticks[|ticks| - 1]) then 1 else 0)
  }

  /** The turns alternate: after an even number of obstacle ticks the next
      turn is to the right, after an odd number to the left. */
  lemma {:induction false} TurnDirAlternates(ticks: seq<Tick>)
    ensures TurnDirAfter(ticks) == if BlockedCount(ticks) % 2 == 0 then 1 else -1
    decreases |ticks|
  {
    if ticks != [] {
      TurnDirAlternates(ticks[..|ticks| - 1]);
    }
  }

  /** An obstacle tick leaves the car stopped with its wheels straight,
      whatever it was doing and whichever way it turned. */
  lemma ManoeuvreEndsStoppedCentred(p: Pose, turnDir: int)
    ensures Run(p, ManoeuvreCommands(turnDir) + [Pause]).drive == Idle
    ensures Run(p, ManoeuvreCommands(turnDir) + [Pause]).steer == 0
  {
    var log := ManoeuvreCommands(turnDir) + [Pause];
    LastDriveCommandDecides(p, log, 5);
    LastSteeringCommandDecides(p, log, 6);
  }

  /** A clear tick straightens the wheels and drives forward. */
  lemma ClearTickDrivesStraight(p: Pose, t: Tick, turnDir: int)
    requires t.frame.Some? && !Blocked(t)
    ensures TickCommands(t, turnDir) == [Steer(0), Forward(FORWARD_SPEED), Pause]
    ensures Run(p, TickCommands(t, turnDir)).drive == Ahead(FORWARD_SPEED)
    ensures Run(p, TickCommands(t, turnDir)).steer == 0
  {
    var log := TickCommands(t, turnDir);
    LastDriveCommandDecides(p, log, 1);
    LastSteeringCommandDecides(p, log, 0);
  }

  /**
   * One pass of the loop body: grab a frame (a missing one only sleeps),
   * run the corridor test and the ultrasonic check, and either avoid,
   * flipping the turn direction, or drive on.
   */
  method AvoidTick(t: Tick, lastTurnDir0: int) returns (lastTurnDir: int, cmds: seq<Command>)
    ensures cmds == TickCommands(t, lastTurnDir0)
    ensures lastTurnDir == if t.frame.Some? && Blocked(t) then -lastTurnDir0 else lastTurnDir0
  {
    lastTurnDir := lastTurnDir0;
    if t.frame.None? {
      cmds := [Pause];
      return;
    }
    var w := t.frame.value.width;
    var yoloFront := IsObstacleInFront(t.frame.value.boxes, w, OBSTACLE_CLASSES);
    var ultrasonicClose := t.distance > 0.0 && t.distance < ULTRASONIC_STOP_CM;
    if yoloFront || ultrasonicClose {
      cmds := [Stop];
      var turnDir := lastTurnDir;
      var steerAngle := TURN_ANGLE * turnDir;
      cmds := cmds + [Steer(steerAngle), Pause, Backward(FORWARD_SPEED), Pause, Stop];
      lastTurnDir := -lastTurnDir;
      cmds := cmds + [Steer(0)];
    } else {
      cmds := [Steer(0), Forward(FORWARD_SPEED)];
    }
    cmds := cmds + [Pause];
  }

  /**
   * The main loop over a finite run of ticks (the run ends where Ctrl+C
   * arrives). It returns the turn direction left for the next obstacle and
   * the log of actuator calls; the `finally` block issues none.
   */
  method RunAvoidance(ticks: seq<Tick>) returns (lastTurnDir: int, log: seq<Command>)
    ensures lastTurnDir == TurnDirAfter(ticks)
    ensures lastTurnDir == if BlockedCount(ticks) % 2 == 0 then 1 else -1
    ensures log == TickLog(ticks)
  {
    lastTurnDir := 1;
    log := [];
    var i := 0;
    while i < |ticks|
      invariant 0 <= i <= |ticks|
      invariant lastTurnDir == TurnDirAfter(ticks[..i])
      invariant log == TickLog(ticks[..i])
    {
      assert ticks[..i + 1][..i] == ticks[..i] && ticks[..i + 1][i] == ticks[i];
      var cmds;
      lastTurnDir, cmds := AvoidTick(ticks[i], lastTurnDir);
      log := log + cmds;
      i := i + 1;
    }
    assert ticks[..i] == ticks;
    TurnDirAlternates(ticks);
  }
}
