/**
 * controls/servo_calibration_cli.py: an interactive session that adjusts the
 * calibration offsets of the steering, camera-pan and camera-tilt servos.
 * Each input line is a command; the offsets live in the dict `current`,
 * mutated in place, and `selected` and `step` are reassigned by the loop.
 */
module ServoCalibration {
  import opened Wrappers
  import opened Actuator

  /** The keys of `current`: "dir", "pan" and "tilt". */
  datatype Servo = Dir | Pan | Tilt

  /** The step sizes the 's' command accepts. */
  const STEPS: set<int> := {1, 2, 5, 10}

  // ---------------------------------------------------------------------
  // Reading a command: `input().strip().lower()`
  // ---------------------------------------------------------------------

  /** The characters Python's `str.strip()` removes: those for which `str.isspace()` holds. */
  predicate IsSpace(c: char) {
    c == ' ' || '\t' <= c <= '\r' || '\U{1c}' <= c <= '\U{1f}' ||
    c == '\U{85}' || c == '\U{a0}' || c == '\U{1680}' || '\U{2000}' <= c <= '\U{200a}' ||
    c == '\U{2028}' || c == '\U{2029}' || c == '\U{202f}' || c == '\U{205f}' || c == '\U{3000}'
  }

  /** How many whitespace characters `s` starts with. */
  function LeadingSpaces(s: string): (n: nat)
    ensures n <= |s|
    ensures forall i :: 0 <= i < n ==> IsSpace(s[i])
    ensures n == |s| || !IsSpace(s[n])
    decreases |s|
  {
    if s != [] && IsSpace(s[0]) then 1 + LeadingSpaces(s[1..]) else 0
  }

  /** How many whitespace characters `s` ends with. */
  function TrailingSpaces(s: string): (n: nat)
    ensures n <= |s|
    ensures forall i :: |s| - n <= i < |s| ==> IsSpace(s[i])
    ensures n == |s| || !IsSpace(s[|s| - n - 1])
    decreases |s|
  {
    if s != [] && IsSpace(s[|s| - 1]) then 1 + TrailingSpaces(s[..|s| - 1]) else 0
  }

  /** `str.strip()` with no argument: the leading and then the trailing whitespace removed. */
  function Strip(s: string): string {
    var t := s[LeadingSpaces(s)..];
    t[..|t| - TrailingSpaces(t)]
  }

  /** Lower-casing of one character: ASCII capitals become small letters. */
  function LowerChar(c: char): char {
    if 'A' <= c <= 'Z' then (c as int + 32) as char else c
  }

  /** `str.lower()` on ASCII letters; every other character is kept. */
  function Lower(s: string): string {
    seq(|s|, i requires 0 <= i < |s| => LowerChar(s[i]))
  }

  /** The command a line stands for: `line.strip().lower()`. */
  function Normalize(line: string): string {
    Lower(Strip(line))
  }

  /** Stripping a string with no whitespace at either end changes nothing. */
  lemma StripNoop(s: string)
    requires s == [] || (!IsSpace(s[0]) && !IsSpace(s[|s| - 1]))
    ensures Strip(s) == s
  {
  }

  /** Normalising a command again leaves it as it is, so the whitespace and
      letter case of what was typed decide nothing beyond the first pass. */
  lemma NormalizeIdempotent(line: string)
    ensures Normalize(Normalize(line)) == Normalize(line)
  {
    var n := Normalize(line);
    var t := Strip(line);
    assert t == [] || (!IsSpace(t[0]) && !IsSpace(t[|t| - 1]));
    StripNoop(n);
    assert Lower(n) == n;
  }

  /** Whitespace around a command is ignored. */
  lemma PaddingIgnored(pre: string, cmd: string, post: string)
    requires forall i :: 0 <= i < |pre| ==> IsSpace(pre[i])
    requires forall i :: 0 <= i < |post| ==> IsSpace(post[i])
    requires cmd == [] || (!IsSpace(cmd[0]) && !IsSpace(cmd[|cmd| - 1]))
    ensures Normalize(pre + cmd + post) == Lower(cmd)
  {
    var s := pre + cmd + post;
    var lead := LeadingSpaces(s);
    if cmd != [] {
      assert s[|pre|] == cmd[0];
      assert forall i :: 0 <= i < |pre| ==> s[i] == pre[i];
      assert lead == |pre|;
      var t := s[lead..];
      assert t == cmd + post;
      assert t[|cmd| - 1] == cmd[|cmd| - 1];
      assert forall i :: |cmd| <= i < |t| ==> t[i] == post[i - |cmd|];
      assert TrailingSpaces(t) == |post|;
      assert t[..|cmd|] == cmd;
    } else {
      assert forall i :: 0 <= i < |s| ==> IsSpace(s[i]) by {
        assert s == pre + post;
        forall i | 0 <= i < |s| ensures IsSpace(s[i]) {
          if i >= |pre| { assert s[i] == post[i - |pre|]; }
        }
      }
      assert lead == |s|;
    }
  }

  // ---------------------------------------------------------------------
  // Reading a step size: `int(input().strip())`
  // ---------------------------------------------------------------------

  predicate IsDigit(c: char) {
    '0' <= c <= '9'
  }

  /** What `int()` accepts after the sign: ASCII digits, with single
      underscores allowed between two digits. */
  predicate WellFormedDigits(s: string) {
    |s| > 0 && IsDigit(s[0]) && IsDigit(s[|s| - 1]) &&
    (forall i :: 0 <= i < |s| ==> IsDigit(s[i]) || s[i] == '_') &&
    (forall i :: 0 <= i < |s| - 1 ==> s[i] == '_' ==> s[i + 1] != '_')
  }

  /** The value of a digit string, underscores skipped. */
  function DigitsValue(s: string): nat
    decreases |s|
  {
    if s == [] then 0
    else
      var last := s[|s| - 1];
      if IsDigit(last) then DigitsValue(s[..|s| - 1]) * 10 + (last as int - '0' as int)
      else DigitsValue(s[..|s| - 1])
  }

  /** Python's `int(s)` in base 10 on a stripped string: an optional sign and
      well-formed digits give a number, anything else raises `ValueError`
      (here `None`). */
  function ParseInt(s: string): Option<int> {
    if |s| > 0 && (s[0] == '+' || s[0] == '-') then
      if WellFormedDigits(s[1..]) then
        var magnitude: int := DigitsValue(s[1..]);
        Some(if s[0] == '-' then -magnitude else magnitude)
      else None
    else if WellFormedDigits(s) then Some(DigitsValue(s))
    else None
  }

  function DigitChar(d: nat): char
    requires d < 10
  {
    ('0' as int + d) as char
  }

  /** The decimal digits of `n`, most significant first, no leading zero. */
  function Digits(n: nat): string
    decreases n
  {
    if n < 10 then [DigitChar(n)] else Digits(n / 10) + [DigitChar(n % 10)]
  }

  /** `str(n)`: the decimal rendering of an integer. */
  function Render(n: int): string {
    if n < 0 then "-" + Digits(-n) else Digits(n)
  }

  /** The digits of `n` are well formed and read back as `n`. */
  lemma {:induction false} DigitsRoundTrip(n: nat)
    ensures |Digits(n)| > 0 && forall i :: 0 <= i < |Digits(n)| ==> IsDigit(Digits(n)[i])
    ensures DigitsValue(Digits(n)) == n
    decreases n
  {
    if n >= 10 {
      DigitsRoundTrip(n / 10);
      var s := Digits(n);
      assert s[..|s| - 1] == Digits(n / 10);
      forall i | 0 <= i < |s| ensures IsDigit(s[i]) {
        if i < |s| - 1 {
          assert s[i] == Digits(n / 10)[i];
        }
      }
    }
  }

  /** Typing an integer as Python prints it gives back that integer. */
  lemma ParseRender(n: int)
    ensures ParseInt(Render(n)) == Some(n)
  {
    var m := if n < 0 then -n else n;
    DigitsRoundTrip(m);
    var d := Digits(m);
    assert WellFormedDigits(d);
    if n < 0 {
      assert Render(n)[1..] == d;
    }
  }

  /** The step after an 's' command whose second line is `line`: a typed 1,
      2, 5 or 10 replaces it; anything else keeps it. */
  function NewStep(step: int, line: string): (r: int)
    ensures r == step || (r in STEPS && ParseInt(Strip(line)) == Some(r))
    ensures ParseInt(Strip(line)).None? ==> r == step
    ensures ParseInt(Strip(line)).Some? && ParseInt(Strip(line)).value in STEPS ==> r == ParseInt(Strip(line)).value
  {
    var v := ParseInt(Strip(line));
    if v.Some? && v.value in STEPS then v.value else step
  }

  /** What Python prints for an integer has no whitespace at either end. */
  lemma RenderUnpadded(n: int)
    ensures |Render(n)| > 0 && !IsSpace(Render(n)[0]) && !IsSpace(Render(n)[|Render(n)| - 1])
  {
    var m := if n < 0 then -n else n;
    DigitsRoundTrip(m);
    var d := Digits(m);
    assert IsDigit(d[0]) && IsDigit(d[|d| - 1]);
    if n < 0 {
      assert Render(n)[|Render(n)| - 1] == d[|d| - 1];
    }
  }

  /** Typing a number sets the step exactly when it is one of the four sizes. */
  lemma TypedStep(step: int, n: int)
    ensures NewStep(step, Render(n)) == if n in STEPS then n else step
  {
    RenderUnpadded(n);
    StripNoop(Render(n));
    ParseRender(n);
  }

  // ---------------------------------------------------------------------
  // The session
  // ---------------------------------------------------------------------

  /** The loop's variables: the offsets, the selected servo and the step. */
  datatype State = State(current: map<Servo, real>, selected: Servo, step: int)

  /** The state after part of the session, and the commands sent so far. */
  datatype Outcome = Outcome(state: State, cmds: seq<Command>)

  /** The dict holds an offset for every servo. */
  predicate Complete(current: map<Servo, real>) {
    forall sv: Servo :: sv in current
  }

  /** A dict written out with the three keys is complete. */
  lemma DisplayComplete(dirOffset: real, panOffset: real, tiltOffset: real)
    ensures Complete(map[Dir := dirOffset, Pan := panOffset, Tilt := tiltOffset])
  {
    forall sv: Servo ensures sv in map[Dir := dirOffset, Pan := panOffset, Tilt := tiltOffset] {
      match sv
      case Dir =>
      case Pan =>
      case Tilt =>
    }
  }

  predicate Valid(s: State) {
    Complete(s.current) && s.step in STEPS
  }

  /** The start: the car's own calibration values, the steering servo selected, step 1. */
  function Start(dirOffset: real, panOffset: real, tiltOffset: real): (s: State)
    ensures Valid(s) && s.selected == Dir && s.step == 1
    ensures s.current[Dir] == dirOffset && s.current[Pan] == panOffset && s.current[Tilt] == tiltOffset
  {
    DisplayComplete(dirOffset, panOffset, tiltOffset);
    State(map[Dir := dirOffset, Pan := panOffset, Tilt := tiltOffset], Dir, 1)
  }

  /** `apply_calibration`: the calibrate call of the selected servo, with its offset. */
  function ApplyCalibration(current: map<Servo, real>, selected: Servo): (c: Command)
    requires Complete(current)
    ensures c.DirCalibrate? <==> selected == Dir
    ensures c.PanCalibrate? <==> selected == Pan
    ensures c.TiltCalibrate? <==> selected == Tilt
    ensures (c.DirCalibrate? || c.PanCalibrate? || c.TiltCalibrate?) && c.offset == current[selected]
  {
    match selected
    case Dir => DirCalibrate(current[Dir])
    case Pan => PanCalibrate(current[Pan])
    case Tilt => TiltCalibrate(current[Tilt])
  }

  /** Select a servo and apply its calibration ('1', '2', '3'). */
  function Select(s: State, sv: Servo): Outcome
    requires Complete(s.current)
  {
    Outcome(s.(selected := sv), [ApplyCalibration(s.current, sv)])
  }

  /** Move the selected servo's offset by `delta` and apply it ('a', 'd'). */
  function Nudge(s: State, delta: int): Outcome
    requires Complete(s.current)
  {
    var c := s.current[s.selected := s.current[s.selected] + delta as real];
    Outcome(s.(current := c), [ApplyCalibration(c, s.selected)])
  }

  /** One command other than the empty one, 'q' and 's'. */
  function OnCommand(s: State, cmd: string): Outcome
    requires Complete(s.current) && cmd != "q" && cmd != "s"
  {
    if cmd == "h" then Outcome(s, [])
    else if cmd == "1" then Select(s, Dir)
    else if cmd == "2" then Select(s, Pan)
    else if cmd == "3" then Select(s, Tilt)
    else if cmd == "a" then Nudge(s, -s.step)
    else if cmd == "d" then Nudge(s, s.step)
    else if cmd == "c" then Outcome(s, [Steer(0), PanCam(0), TiltCam(0)])
    else Outcome(s, [])
  }

  /** One pass of the loop: the state and commands it leaves, how many
      input lines it read, and whether the session ends with it. */
  datatype Turned = Turned(state: State, cmds: seq<Command>, consumed: nat, ended: bool)

  /** One pass of the loop over the remaining input: a blank line is skipped,
      'q' resets and ends, 's' reads one more line for the step size (the end
      of input there raises `EOFError` and ends the session), and every other
      command is handled by `OnCommand`. */
  function NextTurn(s: State, rest: seq<string>): (t: Turned)
    requires Complete(s.current) && rest != []
    ensures 1 <= t.consumed <= |rest| && Complete(t.state.current)
  {
    var cmd := Normalize(rest[0]);
    if cmd == [] then Turned(s, [], 1, false)
    else if cmd == "q" then Turned(s, [Reset], 1, true)
    else if cmd == "s" then
      if |rest| == 1 then Turned(s, [], 1, true)
      else Turned(s.(step := NewStep(s.step, rest[1])), [], 2, false)
    else
      var e := OnCommand(s, cmd);
      Turned(e.state, e.cmds, 1, false)
  }

  /** The session over the lines typed, up to 'q' or the end of input. */
  function Session(s: State, lines: seq<string>): Outcome
    requires Complete(s.current)
    decreases |lines|
  {
    if lines == [] then Outcome(s, [])
    else
      var t := NextTurn(s, lines);
      if t.ended then Outcome(t.state, t.cmds)
      else
        var r := Session(t.state, lines[t.consumed..]);
        Outcome(r.state, t.cmds + r.cmds)
  }

  /** After '1', '2', '3', 'a' or 'd' exactly one command is sent: the
      calibrate call of the servo now selected, with that servo's offset. */
  lemma CalibrationGoesToSelected(s: State, cmd: string)
    requires Complete(s.current) && cmd in {"1", "2", "3", "a", "d"}
    ensures Complete(OnCommand(s, cmd).state.current)
    ensures |OnCommand(s, cmd).cmds| == 1
    ensures OnCommand(s, cmd).cmds[0] == ApplyCalibration(OnCommand(s, cmd).state.current, OnCommand(s, cmd).state.selected)
    ensures cmd == "1" ==> OnCommand(s, cmd).state.selected == Dir
    ensures cmd == "2" ==> OnCommand(s, cmd).state.selected == Pan
    ensures cmd == "3" ==> OnCommand(s, cmd).state.selected == Tilt
  {
  }

  /** 'a' lowers and 'd' raises the selected servo's offset by the step; the
      other offsets, the selection and the step stay as they were. */
  lemma NudgeOnlySelected(s: State, cmd: string, other: Servo)
    requires Complete(s.current) && (cmd == "a" || cmd == "d") && other != s.selected
    ensures OnCommand(s, cmd).state.current.Keys == s.current.Keys
    ensures OnCommand(s, cmd).state.selected == s.selected && OnCommand(s, cmd).state.step == s.step
    ensures cmd == "a" ==> OnCommand(s, cmd).state.current[s.selected] == s.current[s.selected] - s.step as real
    ensures cmd == "d" ==> OnCommand(s, cmd).state.current[s.selected] == s.current[s.selected] + s.step as real
    ensures OnCommand(s, cmd).state.current[other] == s.current[other]
  {
  }

  /** 'a' then 'd' (or 'd' then 'a') with the same step restores every offset. */
  lemma NudgeRoundTrip(s: State)
    requires Complete(s.current)
    ensures OnCommand(OnCommand(s, "a").state, "d").state == s
    ensures OnCommand(OnCommand(s, "d").state, "a").state == s
  {
    var a := OnCommand(s, "a").state;
    assert OnCommand(a, "d").state.current == s.current;
    var d := OnCommand(s, "d").state;
    assert OnCommand(d, "a").state.current == s.current;
  }

  /** 'h' and unknown commands change nothing and send nothing. */
  lemma InertCommands(s: State, cmd: string)
    requires Complete(s.current) && cmd !in {"q", "s", "1", "2", "3", "a", "d", "c"}
    ensures OnCommand(s, cmd) == Outcome(s, [])
  {
  }

  /** One pass keeps the three offsets and a step of 1, 2, 5 or 10. */
  lemma NextTurnValid(s: State, rest: seq<string>)
    requires Valid(s) && rest != []
    ensures Valid(NextTurn(s, rest).state)
  {
  }

  /** The offsets keep their three keys and the step stays one of the four
      sizes, whatever is typed. */
  lemma {:induction false} SessionValid(s: State, lines: seq<string>)
    requires Valid(s)
    ensures Valid(Session(s, lines).state)
    decreases |lines|
  {
    if lines != [] {
      var t := NextTurn(s, lines);
      NextTurnValid(s, lines);
      if !t.ended {
        SessionValid(t.state, lines[t.consumed..]);
      }
    }
  }

  /** One turn of the session loop, seen from line `i`: if the session
      from `before` at line `i` completes the session from the start after
      the commands in `log`, then so does the session after the turn. */
  lemma SessionAdvance(start: State, lines: seq<string>, i: nat, log: seq<Command>,
                       before: State, after: State, cmds: seq<Command>, consumed: nat, ended: bool)
    requires Valid(start) && Valid(before) && i < |lines|
    requires NextTurn(before, lines[i..]) == Turned(after, cmds, consumed, ended)
    requires Session(start, lines).state == Session(before, lines[i..]).state
    requires Session(start, lines).cmds == log + Session(before, lines[i..]).cmds
    ensures Valid(after) && i + consumed <= |lines|
    ensures ended ==> Session(start, lines) == Outcome(after, log + cmds)
    ensures !ended ==> Session(start, lines).state == Session(after, lines[i + consumed..]).state
    ensures !ended ==> Session(start, lines).cmds == (log + cmds) + Session(after, lines[i + consumed..]).cmds
  {
    NextTurnValid(before, lines[i..]);
    assert lines[i..][consumed..] == lines[i + consumed..];
    if !ended {
      var r := Session(after, lines[i + consumed..]);
      assert Session(before, lines[i..]) == Outcome(r.state, cmds + r.cmds);
      assert log + (cmds + r.cmds) == (log + cmds) + r.cmds;
    }
  }

  /**
   * The branch of the loop body for a command other than the empty one, 'q'
   * and 's', on the loop's own variables.
   */
  method Dispatch(current0: map<Servo, real>, selected0: Servo, step: int, cmd: string)
    returns (current: map<Servo, real>, selected: Servo, cmds: seq<Command>)
    requires Complete(current0) && cmd != "q" && cmd != "s"
    ensures OnCommand(State(current0, selected0, step), cmd) == Outcome(State(current, selected, step), cmds)
  {
    current, selected := current0, selected0;
    cmds := [];
    if cmd == "h" {
    } else if cmd == "1" {
      selected := Dir;
      cmds := cmds + [ApplyCalibration(current, selected)];
    } else if cmd == "2" {
      selected := Pan;
      cmds := cmds + [ApplyCalibration(current, selected)];
    } else if cmd == "3" {
      selected := Tilt;
      cmds := cmds + [ApplyCalibration(current, selected)];
    } else if cmd == "a" {
      current := current[selected := current[selected] - step as real];
      cmds := cmds + [ApplyCalibration(current, selected)];
    } else if cmd == "d" {
      current := current[selected := current[selected] + step as real];
      cmds := cmds + [ApplyCalibration(current, selected)];
    } else if cmd == "c" {
      cmds := cmds + [Steer(0), PanCam(0), TiltCam(0)];
    }
  }

  /**
   * One pass of the loop body over the remaining input, on the loop's own
   * variables: it reports the commands sent, how many lines it read, and
   * whether the session ends here.
   */
  method Turn(current0: map<Servo, real>, selected0: Servo, step0: int, rest: seq<string>)
    returns (current: map<Servo, real>, selected: Servo, step: int, cmds: seq<Command>, consumed: nat, ended: bool)
    requires Complete(current0) && rest != []
    ensures NextTurn(State(current0, selected0, step0), rest) == Turned(State(current, selected, step), cmds, consumed, ended)
  {
    current, selected, step := current0, selected0, step0;
    cmds := [];
    consumed := 1;
    ended := false;
    var cmd := Normalize(rest[0]);
    if cmd == [] {
      return;
    }
    if cmd == "q" {
      cmds := cmds + [Reset];
      ended := true;
    } else if cmd == "s" {
      if |rest| == 1 {
        ended := true;
        return;
      }
      var v := ParseInt(Strip(rest[1]));
      if v.Some? && v.value in STEPS {
        step := v.value;
      }
      consumed := 2;
    } else {
      current, selected, cmds := Dispatch(current, selected, step, cmd);
    }
  }

  /**
   * `main`: the session over the lines typed, then the `finally` block's
   * reset and close, which run however the session ends.
   */
  method CalibrationSession(dirOffset: real, panOffset: real, tiltOffset: real, lines: seq<string>)
    returns (final: State, log: seq<Command>)
    ensures final == Session(Start(dirOffset, panOffset, tiltOffset), lines).state
    ensures log == Session(Start(dirOffset, panOffset, tiltOffset), lines).cmds + [Reset, Close]
    ensures Valid(final)
    ensures forall p :: Run(p, log) == Pose(Idle, 0, 0, 0)
  {
    var current := map[Dir := dirOffset, Pan := panOffset, Tilt := tiltOffset];
    var selected := Dir;
    var step := 1;
    ghost var start := Start(dirOffset, panOffset, tiltOffset);
    DisplayComplete(dirOffset, panOffset, tiltOffset);

    log := [];
    var i := 0;
    assert lines[i..] == lines;
    assert State(current, selected, step) == start;
    while i < |lines|
      invariant 0 <= i <= |lines|
      invariant Valid(State(current, selected, step))
      invariant Session(start, lines).state == Session(State(current, selected, step), lines[i..]).state
      invariant Session(start, lines).cmds == log + Session(State(current, selected, step), lines[i..]).cmds
    {
      ghost var before := State(current, selected, step);
      var cmds, consumed, ended;
      current, selected, step, cmds, consumed, ended := Turn(current, selected, step, lines[i..]);
      SessionAdvance(start, lines, i, log, before, State(current, selected, step), cmds, consumed, ended);
      log := log + cmds;
      if ended {
        break;
      }
      i := i + consumed;
    }
    final := State(current, selected, step);
    SessionValid(start, lines);
    EndsAtRest(log);
    log := log + [Reset, Close];
  }

  /** Whatever came before them, the closing reset and close leave the car at rest. */
  lemma EndsAtRest(body: seq<Command>)
    ensures forall p :: Run(p, body + [Reset, Close]) == Pose(Idle, 0, 0, 0)
  {
    forall p ensures Run(p, body + [Reset, Close]) == Pose(Idle, 0, 0, 0) {
      RunAppend(p, body, [Reset, Close]);
      RunShort(Run(p, body), [Reset, Close]);
    }
  }
}
