# PiCar-X control scripts, modelled in Dafny

This project models the decision logic of the PiCar-X robot-car scripts:
- the camera-plus-ultrasonic obstacle avoider;
- the two ultrasonic zone controllers;
- the opponent tracker, which picks a target from the detector's list and turns its box into a bearing;
- the three keyboard tele-operation loops;
- the servo calibration console.

Hardware calls are modelled as an appended log of actuator `Command`s. A sleep is a `Pause` at its place in the log. The pure fold `Actuator.Run` gives the commanded pose after a log: drive motors, steering, camera pan and tilt.

Inputs become parameters:
- the sensor readings, one per tick;
- the key read on each tick;
- the lines typed at the console;
- the detector's output.

Each script's main loop is a method with a `while` loop over a finite run of those inputs; the end of the input stands for Ctrl+C, or, in the three raw-mode keyboard scripts, for an interrupt sent from outside the terminal (see below). Each loop method is proved equal to a pure specification: a per-tick function folded over the run. The properties the scripts promise are proved about that specification:
- limits that are kept;
- which keys change what;
- when the safety stop fires;
- the pose every teardown leaves.

The opponent tracker keeps the source's objects. `CombatState` is a class whose fields `_update_from_bbox` overwrites one by one. `OpponentTracker` replaces its `state` object when it clears.

Modules:
- `Wrappers`: the `Option` type.
- `Actuator`: commands, the pose, and the `Run` fold with its lemmas.
- `Ranging`: `get_distance_cm`, which is identical in both ultrasonic scripts.
- `ZoneFsm`, `BasicAvoidance` and `YoloAvoidance`: the avoidance scripts.
- `Teleop`: `clamp`, the steering step, the safety-stop condition and the teardown, which the keyboard scripts share.
- `CamStreamTeleop`, `SpeedTeleop` and `WasdTeleop`: the three keyboard loops.
- `ServoCalibration`: the calibration console.
- `OpponentTracking`: the opponent tracker.

## Model

| member | source | states |
|---|---|---|
| YoloAvoidance.IsObstacleInFront | aio/yolo_ultrasonic_avoidance.py:41-66 | the scan with early return answers exactly "some box with confidence at least 0.35, of an obstacle class (every class when the list is None), has its centre (x1+x2)/2 in [0.35·w, 0.65·w], edges included"; no detections or an empty list gives false |
| YoloAvoidance.FilteredBoxIrrelevant | aio/yolo_ultrasonic_avoidance.py:55-58 | adding a box below the confidence threshold or outside the class list to any list never changes the verdict |
| YoloAvoidance.OrderIrrelevant | aio/yolo_ultrasonic_avoidance.py:52-66 | two lists with the same boxes, in any order, get the same verdict |
| YoloAvoidance.ClassFilter | aio/yolo_ultrasonic_avoidance.py:55-58 | with no class list a box survives iff it is confident enough; with a list, iff it is also of a listed class |
| YoloAvoidance.CorridorEdges | aio/yolo_ultrasonic_avoidance.py:49-63 | a box centred at w/2 is always in front for w ≥ 0; centres at 0 and at w are outside for w > 0 |
| YoloAvoidance.TurnDirAlternates | aio/yolo_ultrasonic_avoidance.py:91-138 | the turn direction starts at 1 and is 1 after an even number of blocked ticks, -1 after an odd number: it flips on each obstacle tick and only then |
| YoloAvoidance.ManoeuvreEndsStoppedCentred | aio/yolo_ultrasonic_avoidance.py:119-140 | the obstacle manoeuvre (stop, steer 25·dir, back at 25, stop, steer 0) leaves the car stopped with straight wheels |
| YoloAvoidance.ClearTickDrivesStraight | aio/yolo_ultrasonic_avoidance.py:142-145 | a clear tick issues exactly steer 0 then forward 25, leaving the car going ahead at 25 with straight wheels |
| YoloAvoidance.AvoidTick | aio/yolo_ultrasonic_avoidance.py:94-153 | one pass of the loop issues exactly the per-tick specification's commands and flips `last_turn_dir` iff a frame arrived and the path was blocked |
| YoloAvoidance.RunAvoidance | aio/yolo_ultrasonic_avoidance.py:90-154 | the main loop's log is the per-tick specification folded over the ticks; `last_turn_dir` ends as that fold's turn direction, that is 1 or -1 by the parity of the blocked ticks |
| Ranging.SanitizeDistance | ultrasonic/collision_avoidance_fsm.py:21-25 | a missing or non-positive reading becomes 999.0; a positive one is returned unchanged; the result is always positive |
| ZoneFsm.ClassifyZone | ultrasonic/collision_avoidance_fsm.py:27-33 | DANGER iff dist < 30, CAUTION iff 30 ≤ dist < 50, SAFE iff dist ≥ 50 |
| ZoneFsm.ClassifyMonotone | ultrasonic/collision_avoidance_fsm.py:27-33 | a closer reading is never classified as less severe (SAFE < CAUTION < DANGER) |
| ZoneFsm.InvalidReadingIsSafe | ultrasonic/collision_avoidance_fsm.py:22-47 | a missing or non-positive reading classifies as SAFE and drives forward at 15: the controller fails open |
| ZoneFsm.DangerEndsStoppedCentred | ultrasonic/collision_avoidance_fsm.py:55-71 | a DANGER tick leaves the car stopped with straight wheels, whatever the pose before |
| ZoneFsm.SafeKeepsSteering | ultrasonic/collision_avoidance_fsm.py:45-53 | a SAFE tick only drives forward at 15 and keeps the steering; a CAUTION tick drives forward at 8 with the steering at -10 |
| ZoneFsm.SteersOnlyFixedAngles | ultrasonic/collision_avoidance_fsm.py:41-71 | in any run, every steering command is -10, 30 or 0: the zone comes from the current reading alone and the turn is always to the right |
| ZoneFsm.RunFsm | ultrasonic/collision_avoidance_fsm.py:35-79 | the loop's `state` is the zone of the last reading (SAFE when there is none), its log is the per-tick specification followed by stop and steer 0, and it leaves the car stopped and centred |
| BasicAvoidance.BandOutcome | ultrasonic/collision_avoidance_basic.py:26-38 | below 20 a tick leaves the car stopped; in [20, 40) it drives ahead at 5; at 40 and above at 10; the steering is never changed |
| BasicAvoidance.InvalidReadingCruises | ultrasonic/collision_avoidance_basic.py:13-38 | a missing or non-positive reading cruises at 10 |
| BasicAvoidance.NeverSteers | ultrasonic/collision_avoidance_basic.py:26-38 | no command of any run touches the steering servo |
| BasicAvoidance.RunBasic | ultrasonic/collision_avoidance_basic.py:19-45 | the log is the per-tick specification followed by stop; it leaves the car stopped with the steering where it was |
| Teleop.Clamp | controls/kb_ctrl_cam_move_stream_cd.py:36-37 | the result lies in [lo, hi] when lo ≤ hi, is x when x already lies there, lo when x < lo and hi when x > hi |
| Teleop.SteeringKeys | controls/kb_ctrl_cam_move_stream_cd.py:142-152 | from an angle in [-35, 35], 'a' moves at most 8 left and 'd' at most 8 right, staying in range, and each changes nothing exactly at its limit |
| Teleop.TeardownRestsCar | controls/kb_ctrl_cam_move_stream_cd.py:207-213 | the teardown leaves the car stopped with steering, pan and tilt at 0 from any pose |
| Teleop.EndsAtRest | controls/kb_ctrl_cam_move_stream_cd.py:203-213 | any log ending in the teardown leaves the car at rest |
| CamStreamTeleop.OnTickValid | controls/kb_ctrl_cam_move_stream_cd.py:116-199 | one tick keeps speed in [10, 100], steering in [-35, 35] and pan and tilt in [-45, 45] |
| CamStreamTeleop.LoopValid | controls/kb_ctrl_cam_move_stream_cd.py:112-199 | no run of keys takes any variable outside those limits |
| CamStreamTeleop.MotionKeys | controls/kb_ctrl_cam_move_stream_cd.py:123-186 | space stops, 'w' steers then drives forward at the current speed, 's' the same backward; no other key changes `motion` |
| CamStreamTeleop.UnhandledKey | controls/kb_ctrl_cam_move_stream_cd.py:116-186 | a key outside the handled set changes no variable and sends nothing |
| CamStreamTeleop.SafetyStop | controls/kb_ctrl_cam_move_stream_cd.py:189-197 | the safety branch changes the variables iff motion is forward and 0 < dist < 20, and then stops and sets motion to stop; backward, stopped and the -1 sentinel never trigger it |
| CamStreamTeleop.NoKeyTick | controls/kb_ctrl_cam_move_stream_cd.py:113-199 | a tick with no key changes nothing except, possibly, through the safety stop |
| CamStreamTeleop.OnKeyAgrees | controls/kb_ctrl_cam_move_stream_cd.py:123-186 | each key's commands move the car's motors, steering and camera exactly as the key moves the variables |
| CamStreamTeleop.OnTickAgrees | controls/kb_ctrl_cam_move_stream_cd.py:113-199 | a whole tick keeps the variables in step with the car's pose |
| CamStreamTeleop.LoopAgrees | controls/kb_ctrl_cam_move_stream_cd.py:112-199 | any run of ticks keeps the variables in step with the pose |
| CamStreamTeleop.StartupAgrees | controls/kb_ctrl_cam_move_stream_cd.py:55-110 | the initial-pose commands put the car in the pose the initial variables describe |
| CamStreamTeleop.LoopUnfold | controls/kb_ctrl_cam_move_stream_cd.py:112-199 | a run of ticks is one tick followed by the rest of the run |
| CamStreamTeleop.HandleKey | controls/kb_ctrl_cam_move_stream_cd.py:116-186 | the elif chain on a key other than 'q' sets the variables and sends the commands the key specification gives |
| CamStreamTeleop.TickBody | controls/kb_ctrl_cam_move_stream_cd.py:113-199 | the elif chain, safety check and sleep produce exactly the per-tick specification's variables and commands |
| CamStreamTeleop.DriveLoop | controls/kb_ctrl_cam_move_stream_cd.py:112-199 | the `while` loop, broken by 'q', ends with the variables and commands of the loop specification |
| CamStreamTeleop.TeleopLoop | controls/kb_ctrl_cam_move_stream_cd.py:52-213 | the loop ends at the specification's state, still within limits; its log is start-up, the specified ticks up to 'q', then the teardown, and it leaves the car at rest |
| SpeedTeleop.OnTickValid | controls/keyboard_control_cam_us_sensor.py:96-151 | one tick keeps speed in [10, 100] and steering in [-35, 35], and every drive command it sends has a speed in [10, 100] |
| SpeedTeleop.LoopValid | controls/keyboard_control_cam_us_sensor.py:92-151 | the same for any run of ticks |
| SpeedTeleop.MotionKeys | controls/keyboard_control_cam_us_sensor.py:102-138 | space, 'w' and 's' set motion to stop, forward and backward with the matching commands; steering and speed keys leave motion unchanged |
| SpeedTeleop.UnhandledKey | controls/keyboard_control_cam_us_sensor.py:96-138 | a key outside the handled set changes nothing and sends nothing |
| SpeedTeleop.SafetyStop | controls/keyboard_control_cam_us_sensor.py:141-149 | the safety branch changes the variables iff motion is forward and 0 < dist < 20, and then only stops |
| SpeedTeleop.OnKeyAgrees | controls/keyboard_control_cam_us_sensor.py:102-138 | each key's commands move motors and steering exactly as the key moves the variables |
| SpeedTeleop.OnTickAgrees | controls/keyboard_control_cam_us_sensor.py:96-151 | a whole tick keeps the variables in step with the pose |
| SpeedTeleop.LoopAgrees | controls/keyboard_control_cam_us_sensor.py:92-151 | any run of ticks keeps the variables in step with the pose |
| SpeedTeleop.StartupAgrees | controls/keyboard_control_cam_us_sensor.py:50-90 | the initial-pose commands match the initial variables |
| SpeedTeleop.LoopUnfold | controls/keyboard_control_cam_us_sensor.py:92-151 | a run of ticks is one tick followed by the rest |
| SpeedTeleop.TickBody | controls/keyboard_control_cam_us_sensor.py:96-151 | the loop body produces exactly the per-tick specification |
| SpeedTeleop.DriveLoop | controls/keyboard_control_cam_us_sensor.py:92-151 | the `while` loop, broken by 'q', ends with the variables and commands of the loop specification |
| SpeedTeleop.TeleopLoop | controls/keyboard_control_cam_us_sensor.py:47-165 | the loop ends at the specification's state within limits; its log is start-up, the specified ticks up to 'q', then the teardown, and it leaves the car at rest |
| WasdTeleop.OnTickValid | controls/keyboard_wasd_control_cd.py:67-115 | one tick keeps steering in [-35, 35], and every drive command it sends is at the fixed speed 30 |
| WasdTeleop.LoopValid | controls/keyboard_wasd_control_cd.py:65-115 | the same for any run of ticks |
| WasdTeleop.MotionKeys | controls/keyboard_wasd_control_cd.py:75-102 | space, 'w' and 's' set motion, driving at 30; 'a' and 'd' change only the steering, by a clamped step of 8 |
| WasdTeleop.UnhandledKey | controls/keyboard_wasd_control_cd.py:71-102 | a key outside the handled set changes nothing and sends nothing |
| WasdTeleop.SafetyStop | controls/keyboard_wasd_control_cd.py:105-113 | the safety branch changes the variables iff motion is forward and 0 < dist < 20, and then only stops |
| WasdTeleop.OnKeyAgrees | controls/keyboard_wasd_control_cd.py:75-102 | each key's commands move motors and steering exactly as the key moves the variables |
| WasdTeleop.OnTickAgrees | controls/keyboard_wasd_control_cd.py:67-115 | a whole tick keeps the variables in step with the pose |
| WasdTeleop.LoopAgrees | controls/keyboard_wasd_control_cd.py:65-115 | any run of ticks keeps the variables in step with the pose |
| WasdTeleop.StartupAgrees | controls/keyboard_wasd_control_cd.py:33-63 | the initial-pose commands match the initial variables |
| WasdTeleop.LoopUnfold | controls/keyboard_wasd_control_cd.py:65-115 | a run of ticks is one tick followed by the rest |
| WasdTeleop.TickBody | controls/keyboard_wasd_control_cd.py:67-115 | the loop body produces exactly the per-tick specification |
| WasdTeleop.DriveLoop | controls/keyboard_wasd_control_cd.py:65-115 | the `while` loop, broken by 'q', ends with the variables and commands of the loop specification |
| WasdTeleop.TeleopLoop | controls/keyboard_wasd_control_cd.py:30-127 | the loop ends at the specification's state within limits; its log is start-up, the specified ticks up to 'q', then the teardown, and it leaves the car at rest |
| ServoCalibration.LeadingSpaces | controls/servo_calibration_cli.py:64 | counts exactly the whitespace run at the start of the line, as `strip()` removes it |
| ServoCalibration.TrailingSpaces | controls/servo_calibration_cli.py:64 | counts exactly the whitespace run at the end of the line |
| ServoCalibration.StripNoop | controls/servo_calibration_cli.py:64 | stripping a string with no whitespace at either end changes nothing |
| ServoCalibration.NormalizeIdempotent | controls/servo_calibration_cli.py:64 | normalising an already normalised command leaves it unchanged |
| ServoCalibration.PaddingIgnored | controls/servo_calibration_cli.py:64 | whitespace around a command does not change which command it is |
| ServoCalibration.DigitsRoundTrip | controls/servo_calibration_cli.py:114 | the decimal digits of n are well formed and read back as n |
| ServoCalibration.ParseRender | controls/servo_calibration_cli.py:114 | `int()` of an integer as Python prints it gives back that integer |
| ServoCalibration.NewStep | controls/servo_calibration_cli.py:112-122 | the step becomes the typed integer exactly when `int()` of the stripped line is 1, 2, 5 or 10, in any spelling `int()` accepts ("05", "+2", "1_0"); every other input, rejected or out of the set, leaves it unchanged |
| ServoCalibration.TypedStep | controls/servo_calibration_cli.py:112-122 | typing the integer n sets the step to n exactly when n is one of 1, 2, 5, 10 |
| ServoCalibration.DisplayComplete | controls/servo_calibration_cli.py:9-13 | the dict built with the three keys has an offset for every servo |
| ServoCalibration.Start | controls/servo_calibration_cli.py:9-17 | the session starts from the car's three offsets, with the steering servo selected and step 1 |
| ServoCalibration.ApplyCalibration | controls/servo_calibration_cli.py:51-58 | exactly the selected servo's calibrate call is made, with that servo's current offset |
| ServoCalibration.CalibrationGoesToSelected | controls/servo_calibration_cli.py:79-110 | after '1', '2', '3', 'a' or 'd' exactly one command is sent, the calibration of the now-selected servo with its offset; '1', '2', '3' select dir, pan, tilt |
| ServoCalibration.NudgeOnlySelected | controls/servo_calibration_cli.py:100-110 | 'a' subtracts the step from the selected offset and 'd' adds it; the other offsets, the selection and the step are unchanged |
| ServoCalibration.NudgeRoundTrip | controls/servo_calibration_cli.py:100-110 | 'a' then 'd', or 'd' then 'a', restores the state |
| ServoCalibration.InertCommands | controls/servo_calibration_cli.py:74-135 | 'h' and unknown commands change nothing and send nothing |
| ServoCalibration.NextTurn | controls/servo_calibration_cli.py:63-135 | one pass of the loop consumes one line, or two for 's', and keeps an offset for every servo |
| ServoCalibration.NextTurnValid | controls/servo_calibration_cli.py:63-135 | one pass keeps the three offsets and a step in {1, 2, 5, 10} |
| ServoCalibration.SessionValid | controls/servo_calibration_cli.py:63-135 | no session takes the step outside {1, 2, 5, 10} or loses an offset |
| ServoCalibration.SessionAdvance | controls/servo_calibration_cli.py:63-135 | a session is one pass followed by the session over the lines left |
| ServoCalibration.Dispatch | controls/servo_calibration_cli.py:74-135 | the command branch updates the dict and selection in place and sends exactly what the specification says |
| ServoCalibration.Turn | controls/servo_calibration_cli.py:64-135 | one pass of the loop, with its blank-line skip, 'q' and the two-line 's', matches the specification |
| ServoCalibration.CalibrationSession | controls/servo_calibration_cli.py:5-141 | the session ends at the specification's state with a valid step and all offsets; its log is the specified commands, then reset and close, leaving the car at rest |
| ServoCalibration.EndsAtRest | controls/servo_calibration_cli.py:137-141 | any log ending in reset and close leaves the car at rest |
| OpponentTracking.EnemyDetsSpec | vision/opponent_tracking.py:102-103 | the result holds only enemy-class detections from the list, holds every one of them, and is empty iff the list has none |
| OpponentTracking.EnemyDetsKeepsOrder | vision/opponent_tracking.py:102-103 | filtering distributes over concatenation, so list order is kept |
| OpponentTracking.Candidates | vision/opponent_tracking.py:102-104 | the candidates are exactly the enemies when there are any (each candidate an enemy from the list, each enemy a candidate), otherwise the whole list; non-empty iff the list is |
| OpponentTracking.BestIndex | vision/opponent_tracking.py:107 | the index of a maximal score (a missing score counting as 0.0), with every earlier candidate scoring strictly less |
| OpponentTracking.ClampReal | vision/opponent_tracking.py:50-53 | the result lies in [lo, hi] and equals x when x already lies there |
| OpponentTracking.Extent | vision/opponent_tracking.py:55-56 | the extent is at least 1 and at least hi − lo, and equals hi − lo when that is at least 1 |
| OpponentTracking.NormRange | vision/opponent_tracking.py:58-62 | for clamped corners the normalised centre lies in (-1, 1 + 1/size], and passes 1 exactly when the box starts less than half a pixel from the far edge |
| OpponentTracking.TrackBounds | vision/opponent_tracking.py:48-77 | after an update there is a target, the stored box lies in [0,w]×[0,h], distance hint in (0, 1], cx_norm and cy_norm in (-1, 1 + 1/size], angle in (-45, 45·(1 + 1/w)], class and score as given |
| OpponentTracking.RightEdgeOvershoot | vision/opponent_tracking.py:23-65 | a box at the right edge of a 640-pixel frame gets cx_norm = 1 + 1/640 and an angle past 45°, outside the range the comment promises |
| OpponentTracking.NoDetectionsClear | vision/opponent_tracking.py:93-97 | no list or an empty list leaves the cleared state |
| OpponentTracking.ChoiceRule | vision/opponent_tracking.py:102-107 | the chosen detection is on the list, is an enemy whenever the list has one, scores at least as high as every candidate and every enemy on the list, and every candidate before it scores less |
| OpponentTracking.UpdateOutcome | vision/opponent_tracking.py:109-121 | a chosen box that is missing or not four long clears the state; otherwise the state has a target with the chosen class and its score (0.0 when missing) |
| OpponentTracking.UpdateEitherClearedOrTracked | vision/opponent_tracking.py:88-121 | after any update the state is either the cleared one or a target with a box in the frame and a score |
| OpponentTracking.CombatState.constructor | vision/opponent_tracking.py:19-28 | a new state has no target, no box, class or score, and zero norms and angle |
| OpponentTracking.OpponentTracker.constructor | vision/opponent_tracking.py:41-44 | the tracker keeps the frame size and starts from a fresh cleared state |
| OpponentTracking.OpponentTracker.UpdateFromBbox | vision/opponent_tracking.py:48-77 | every field of the current state object is overwritten with the values for the given box, so nothing carries over |
| OpponentTracking.OpponentTracker.Clear | vision/opponent_tracking.py:79-80 | the tracker's state becomes a fresh cleared object |
| OpponentTracking.OpponentTracker.UpdateFromDetections | vision/opponent_tracking.py:88-121 | the state after the update is the one the selection and geometry specification gives for the list; with a target the same state object is overwritten in place, without one a fresh cleared object replaces it and the previous object, which `get_state` callers may hold, is left as it was |

## Left out

- Actuator.Apply: a steering, pan or tilt command sets the commanded angle as sent. Any clamping done inside the Picarx hardware library is not part of this model.
- Hardware, camera, detector and terminal: the Picarx, Vilib, cv2, ultralytics and termios calls are left out. Their effects are `Command`s, their results are inputs. The Vilib detection-list global becomes a parameter of `UpdateFromDetections`.
- Timing: each `time.sleep` is a `Pause` at its position, with no duration. The `select` timeout of `read_key_nonblocking` is a tick with no key.
- Status printing is left out, along with `run_debug_loop`, `__repr__` and `show_status`.
  - The f-strings at aio/yolo_ultrasonic_avoidance.py:123 and :147 put an expression inside the format specifier. They would raise when formatted, ending the loop. The model follows the actuator decisions as if the prints succeeded.
- Floating point: distances, coordinates and scores are `real`, so rounding, NaN and infinities are not modelled. The stored box's `int()` is a floor, which agrees with truncation because the clamped values are never negative.
- Exceptions:
  - KeyboardInterrupt and EOFError are the end of the input run. The `finally` blocks' commands are appended after the loop.
  - The three keyboard teleop scripts put the terminal in raw mode (controls/kb_ctrl_cam_move_stream_cd.py:103, controls/keyboard_control_cam_us_sensor.py:86, controls/keyboard_wasd_control_cd.py:58). Raw mode turns off signal generation, so a Ctrl+C typed at the keyboard arrives as the character '\x03'. That character is an unhandled key (the `UnhandledKey` lemmas), and the car keeps doing what it was doing. In those scripts only 'q' ends the loop from the keyboard. Their `except KeyboardInterrupt` is reached only by a signal sent from outside the terminal, and that is what the end of a run stands for there.
  - The `try/except` around the teleop teardowns and the distance read is not modelled. A failing read is its -1 sentinel value.
  - The avoider's `car.cleanup()` is not part of this model: its wrapper body (utils/picarx_wrapper.py:44) is a bare name and cannot run.
- Reset's effect on the pose is taken to be all servos at 0 and the motors stopped. The hardware's own reset routine is not part of this model.
- The calibration offsets the car starts with are parameters of `Start`. The writing of the configuration file is not modelled.
- ServoCalibration.ParseInt: accepts only ASCII decimal digits, with an optional sign and single underscores between digits. Python's `int()` also accepts other Unicode decimal digits, which this model treats as invalid and which leave the step unchanged.
- ServoCalibration.Lower: lower-cases ASCII letters only, where Python's `lower()` covers all of Unicode. Among the characters that lower to ASCII, only the Kelvin sign (to 'k') and the dotted capital I (to 'i' plus a combining dot) are non-ASCII, and neither yields a command. So the recognised commands are the same.
- OpponentTracking.OpponentTracker.constructor: requires a positive frame width and height. The source divides by half of each, so a zero size would raise there.
- `get_state` only returns the `state` field; the model reads the field directly.
- The detection fields are typed:
  - class id is `Option<int>`, score is `Option<real>`, box is `Option<seq<real>>`;
  - a present but `None` score, or a box holding non-numbers, would raise in Python and is not modelled.
- Scripts outside the modelled core, left out because they hold no decision logic of their own (drawing, printing or fixed key tables):
  - controls/keyboard_wasd_control.py;
  - the demo, camera-preview, servo-centring and test scripts;
  - the duplicated distance sanitisers of the other avoidance scripts.
- BasicAvoidance uses `Ranging.SanitizeDistance`, because collision_avoidance_basic.py's `get_distance_cm` (lines 13-17) is identical to the FSM script's.
