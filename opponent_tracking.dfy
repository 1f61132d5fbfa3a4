/**
 * vision/opponent_tracking.py: from the detector's list, pick the best
 * opponent (enemy classes first, falling back to any detection; highest
 * score, first on ties) and turn its box into a bearing and a distance
 * proxy, kept in a `CombatState` object that the tracker updates in place.
 */
module OpponentTracking {
  import opened Wrappers

  /** Classes treated as opponents: person, bicycle, car, motorcycle, truck. */
  const ENEMY_CLASS_IDS: set<int> := {0, 1, 2, 3, 7}

  const DEFAULT_WIDTH: int := 640
  const DEFAULT_HEIGHT: int := 480

  /** Half the assumed horizontal field of view, in degrees. */
  const HALF_FOV_DEG: real := 45.0

  /** One entry of the detection list; a key missing from the dict is `None`. */
  datatype Det = Det(classId: Option<int>, score: Option<real>, bbox: Option<seq<real>>)

  /** The box as stored: clamped corners truncated to whole pixels. */
  datatype PixelBox = PixelBox(xmin: int, ymin: int, xmax: int, ymax: int)

  /** The fields of a `CombatState`, as a value. */
  datatype Snapshot = Snapshot(
    hasTarget: bool,
    bbox: Option<PixelBox>,
    cxNorm: real,
    cyNorm: real,
    angleDeg: real,
    distanceHint: Option<real>,
    classId: Option<int>,
    score: Option<real>)

  /** A freshly constructed `CombatState`: no target, centred, nothing known. */
  const CLEARED: Snapshot := Snapshot(false, None, 0.0, 0.0, 0.0, None, None, None)

  // ---------------------------------------------------------------------
  // Choosing the detection
  // ---------------------------------------------------------------------

  predicate IsEnemy(d: Det) {
    d.classId.Some? && d.classId.value in ENEMY_CLASS_IDS
  }

  /** `d.get("score", 0.0)`: the ranking key of a detection. */
  function ScoreOf(d: Det): real {
    d.score.GetOr(0.0)
  }

  /** The enemy detections, in list order. */
  function EnemyDets(dets: seq<Det>): seq<Det>
    decreases |dets|
  {
    if dets == [] then []
    else (if IsEnemy(dets[0]) then [dets[0]] else []) + EnemyDets(dets[1..])
  }

  /** The filter keeps exactly the enemy detections of the list, and is
      empty exactly when the list holds none. */
  lemma {:induction false} EnemyDetsSpec(dets: seq<Det>)
    ensures forall i :: 0 <= i < |EnemyDets(dets)| ==> IsEnemy(EnemyDets(dets)[i]) && EnemyDets(dets)[i] in dets
    ensures forall i :: 0 <= i < |dets| && IsEnemy(dets[i]) ==> dets[i] in EnemyDets(dets)
    ensures EnemyDets(dets) == [] <==> forall i :: 0 <= i < |dets| ==> !IsEnemy(dets[i])
    decreases |dets|
  {
    if dets != [] {
      EnemyDetsSpec(dets[1..]);
      var head := if IsEnemy(dets[0]) then [dets[0]] else [];
      var r := EnemyDets(dets);
      assert r == head + EnemyDets(dets[1..]);
      forall i | 0 <= i < |dets| && IsEnemy(dets[i])
        ensures dets[i] in r
      {
        if i > 0 {
          assert dets[i] == dets[1..][i - 1];
        }
      }
      forall i | 0 <= i < |r|
        ensures IsEnemy(r[i]) && r[i] in dets
      {
        if i >= |head| {
          assert r[i] == EnemyDets(dets[1..])[i - |head|];
        }
      }
    }
  }

  /** Filtering keeps the list order: it distributes over concatenation. */
  lemma {:induction false} EnemyDetsKeepsOrder(a: seq<Det>, b: seq<Det>)
    ensures EnemyDets(a + b) == EnemyDets(a) + EnemyDets(b)
    decreases |a|
  {
    if a == [] {
      assert a + b == b;
    } else {
      var head := if IsEnemy(a[0]) then [a[0]] else [];
      assert (a + b)[0] == a[0] && (a + b)[1..] == a[1..] + b;
      EnemyDetsKeepsOrder(a[1..], b);
      assert head + (EnemyDets(a[1..]) + EnemyDets(b)) == (head + EnemyDets(a[1..])) + EnemyDets(b);
    }
  }

  /** The candidates: the enemy detections, or the whole list when there are none. */
  function Candidates(dets: seq<Det>): (r: seq<Det>)
    ensures |r| > 0 <==> |dets| > 0
    ensures forall i :: 0 <= i < |r| ==> r[i] in dets
    ensures forall i :: 0 <= i < |dets| && IsEnemy(dets[i]) ==> dets[i] in r
    ensures (exists i :: 0 <= i < |dets| && IsEnemy(dets[i])) ==> forall i :: 0 <= i < |r| ==> IsEnemy(r[i])
    ensures (forall i :: 0 <= i < |dets| ==> !IsEnemy(dets[i])) ==> r == dets
  {
    EnemyDetsSpec(dets);
    var enemies := EnemyDets(dets);
    if enemies != [] then enemies else dets
  }

  /** Python's `max` by score: the index of the highest score, the first one on ties. */
  function BestIndex(c: seq<Det>): (k: nat)
    requires |c| > 0
    ensures k < |c|
    ensures forall j :: 0 <= j < |c| ==> ScoreOf(c[j]) <= ScoreOf(c[k])
    ensures forall j :: 0 <= j < k ==> ScoreOf(c[j]) < ScoreOf(c[k])
    decreases |c|
  {
    if |c| == 1 then 0
    else
      var k := BestIndex(c[..|c| - 1]);
      if ScoreOf(c[|c| - 1]) > ScoreOf(c[k]) then |c| - 1 else k
  }

  // ---------------------------------------------------------------------
  // Geometry
  // ---------------------------------------------------------------------

  /** `max(lo, min(hi, x))`. */
  function ClampReal(x: real, lo: real, hi: real): (r: real)
    ensures lo <= hi ==> lo <= r <= hi
    ensures lo <= x <= hi ==> r == x
  {
    var m := if x < hi then x else hi;
    if lo < m then m else lo
  }

  /** `max(1, hi - lo)`: the box's extent along one axis, at least one pixel. */
  function Extent(lo: real, hi: real): (e: real)
    ensures e >= 1.0 && e >= hi - lo
    ensures hi - lo >= 1.0 ==> e == hi - lo
  {
    if 1.0 < hi - lo then hi - lo else 1.0
  }

  /** The box centre along one axis, mapped so the frame's edges are -1 and 1. */
  function Norm(lo: real, hi: real, size: int): real
    requires size > 0
  {
    var centre := lo + Extent(lo, hi) / 2.0;
    (centre - size as real / 2.0) / (size as real / 2.0)
  }

  /** The state `_update_from_bbox` writes for a box and a frame of `w` by `h` pixels. */
  function Track(w: int, h: int, xmin: real, ymin: real, xmax: real, ymax: real,
                 classId: Option<int>, score: Option<real>): Snapshot
    requires w > 0 && h > 0
  {
    var x0 := ClampReal(xmin, 0.0, w as real);
    var x1 := ClampReal(xmax, 0.0, w as real);
    var y0 := ClampReal(ymin, 0.0, h as real);
    var y1 := ClampReal(ymax, 0.0, h as real);
    var cxNorm := Norm(x0, x1, w);
    Snapshot(true, Some(PixelBox(x0.Floor, y0.Floor, x1.Floor, y1.Floor)),
             cxNorm, Norm(y0, y1, h), cxNorm * HALF_FOV_DEG,
             Some(1.0 / Extent(y0, y1)), classId, score)
  }

  /** A box inside the frame, edges included. */
  predicate InFrame(b: PixelBox, w: int, h: int) {
    0 <= b.xmin <= w && 0 <= b.xmax <= w && 0 <= b.ymin <= h && 0 <= b.ymax <= h
  }

  /**
   * For clamped corners the normalised centre lies in (-1, 1 + 1/size]: it
   * passes 1 exactly when the box starts less than half a pixel from the far
   * edge, where the one-pixel floor on the extent pushes the centre outside
   * the frame.
   */
  lemma NormRange(lo: real, hi: real, size: int)
    requires size > 0 && 0.0 <= lo <= size as real && 0.0 <= hi <= size as real
    ensures -1.0 < Norm(lo, hi, size) <= 1.0 + 1.0 / size as real
    ensures Norm(lo, hi, size) > 1.0 <==> lo > size as real - 0.5
  {
    var s := size as real;
    var c := lo + Extent(lo, hi) / 2.0;
    assert Norm(lo, hi, size) == 2.0 * c / s - 1.0;
    if hi - lo >= 1.0 {
      assert c == (lo + hi) / 2.0;
      assert 0.5 <= c <= s - 0.5;
    } else {
      assert c == lo + 0.5;
    }
    assert 0.5 <= c <= s + 0.5;
    assert c > s <==> lo > s - 0.5;
    DivideMonotone(2.0 * c, 2.0 * s + 1.0, s);
    QuotientAboveTwo(2.0 * c, s);
    assert (2.0 * s + 1.0) / s == 2.0 + 1.0 / s;
    assert 2.0 * c / s > 0.0;
  }

  /** Dividing by a positive number keeps order. */
  lemma DivideMonotone(x: real, y: real, s: real)
    requires s > 0.0 && x <= y
    ensures x / s <= y / s
  {
    assert (y - x) / s >= 0.0;
    assert y / s - x / s == (y - x) / s;
  }

  /** A quotient passes 2 exactly when the dividend passes twice the divisor. */
  lemma QuotientAboveTwo(x: real, s: real)
    requires s > 0.0
    ensures x / s > 2.0 <==> x > 2.0 * s
  {
    var q := x / s;
    assert q * s == x;
    if q > 2.0 {
      assert (q - 2.0) * s > 0.0;
    }
    if x > 2.0 * s {
      assert (q - 2.0) * s == x - 2.0 * s;
    }
  }

  /** A clamped corner truncates to a whole pixel inside the frame. */
  lemma FloorInRange(x: real, size: int)
    requires 0.0 <= x <= size as real
    ensures 0 <= x.Floor <= size
  {
  }

  /** The distance proxy of an extent of at least one pixel. */
  lemma ReciprocalBounds(e: real)
    requires e >= 1.0
    ensures 0.0 < 1.0 / e <= 1.0
  {
  }

  /**
   * What `_update_from_bbox` leaves, whatever box it is given: a target, a
   * stored box inside the frame, a distance hint in (0, 1], normalised
   * centres in (-1, 1 + 1/size] and an angle of 45 degrees per unit of the
   * horizontal one; the class and score are those passed in.
   */
  lemma TrackBounds(w: int, h: int, xmin: real, ymin: real, xmax: real, ymax: real,
                    classId: Option<int>, score: Option<real>)
    requires w > 0 && h > 0
    ensures var s := Track(w, h, xmin, ymin, xmax, ymax, classId, score);
      s.hasTarget && s.bbox.Some? && InFrame(s.bbox.value, w, h) &&
      s.distanceHint.Some? && 0.0 < s.distanceHint.value <= 1.0 &&
      -1.0 < s.cxNorm <= 1.0 + 1.0 / w as real &&
      -1.0 < s.cyNorm <= 1.0 + 1.0 / h as real &&
      -HALF_FOV_DEG < s.angleDeg <= HALF_FOV_DEG * (1.0 + 1.0 / w as real) &&
      s.classId == classId && s.score == score
  {
    var x0 := ClampReal(xmin, 0.0, w as real);
    var x1 := ClampReal(xmax, 0.0, w as real);
    var y0 := ClampReal(ymin, 0.0, h as real);
    var y1 := ClampReal(ymax, 0.0, h as real);
    var s := Track(w, h, xmin, ymin, xmax, ymax, classId, score);
    assert s.bbox == Some(PixelBox(x0.Floor, y0.Floor, x1.Floor, y1.Floor));
    FloorInRange(x0, w);
    FloorInRange(x1, w);
    FloorInRange(y0, h);
    FloorInRange(y1, h);
    assert s.cxNorm == Norm(x0, x1, w) && s.cyNorm == Norm(y0, y1, h);
    NormRange(x0, x1, w);
    NormRange(y0, y1, h);
    assert s.distanceHint == Some(1.0 / Extent(y0, y1));
    ReciprocalBounds(Extent(y0, y1));
  }

  /** The comment on `cx_norm` promises [-1, 1], but a box at the right edge
      of a 640-pixel frame gets 1 + 1/640, an angle just past 45 degrees. */
  lemma RightEdgeOvershoot()
    ensures Track(DEFAULT_WIDTH, DEFAULT_HEIGHT, 640.0, 0.0, 640.0, 10.0, Some(0), Some(0.9)).cxNorm == 1.0 + 1.0 / 640.0
    ensures Track(DEFAULT_WIDTH, DEFAULT_HEIGHT, 640.0, 0.0, 640.0, 10.0, Some(0), Some(0.9)).angleDeg > HALF_FOV_DEG
  {
  }

  // ---------------------------------------------------------------------
  // The update as a whole
  // ---------------------------------------------------------------------

  /** The state `update_from_vilib_detections` leaves for a detection list
      (`None` when the detector has published none). */
  function Update(w: int, h: int, detList: Option<seq<Det>>): Snapshot
    requires w > 0 && h > 0
  {
    if detList.None? || detList.value == [] then CLEARED
    else
      var candidates := Candidates(detList.value);
      var best := candidates[BestIndex(candidates)];
      if best.bbox.Some? && |best.bbox.value| == 4 then
        var b := best.bbox.value;
        Track(w, h, b[0], b[1], b[2], b[3], best.classId, Some(ScoreOf(best)))
      else CLEARED
  }

  /** The detection chosen from a non-empty list. */
  function Chosen(dets: seq<Det>): Det
    requires |dets| > 0
  {
    Candidates(dets)[BestIndex(Candidates(dets))]
  }

  /** No list, or an empty one, clears the state. */
  lemma NoDetectionsClear(w: int, h: int)
    requires w > 0 && h > 0
    ensures Update(w, h, None) == CLEARED
    ensures Update(w, h, Some([])) == CLEARED
  {
  }

  /**
   * The chosen detection is on the list; it is an enemy whenever the list
   * holds one; no candidate scores higher (a missing score counting as 0),
   * and every candidate before it scores strictly lower.
   */
  lemma ChoiceRule(dets: seq<Det>)
    requires |dets| > 0
    ensures Chosen(dets) in dets
    ensures (exists i :: 0 <= i < |dets| && IsEnemy(dets[i])) ==> IsEnemy(Chosen(dets))
    ensures forall d :: d in Candidates(dets) ==> ScoreOf(d) <= ScoreOf(Chosen(dets))
    ensures forall i :: 0 <= i < |dets| && IsEnemy(dets[i]) ==> ScoreOf(dets[i]) <= ScoreOf(Chosen(dets))
    ensures var c := Candidates(dets);
            forall j :: 0 <= j < BestIndex(c) ==> ScoreOf(c[j]) < ScoreOf(Chosen(dets))
  {
  }

  /** The outcome of an update: cleared when the chosen box is missing or not
      four numbers long, otherwise tracked from that box, with the chosen
      class and its score (0.0 when it had none). */
  lemma UpdateOutcome(w: int, h: int, dets: seq<Det>)
    requires w > 0 && h > 0 && |dets| > 0
    ensures var best := Chosen(dets);
      (best.bbox.None? || |best.bbox.value| != 4) ==> Update(w, h, Some(dets)) == CLEARED
    ensures var best := Chosen(dets);
      best.bbox.Some? && |best.bbox.value| == 4 ==>
        Update(w, h, Some(dets)).hasTarget &&
        Update(w, h, Some(dets)).classId == best.classId &&
        Update(w, h, Some(dets)).score == Some(ScoreOf(best))
  {
    var best := Chosen(dets);
    if best.bbox.Some? && |best.bbox.value| == 4 {
      var b := best.bbox.value;
      TrackBounds(w, h, b[0], b[1], b[2], b[3], best.classId, Some(ScoreOf(best)));
    }
  }

  /** After any update the state either has no target and is the cleared
      one, or has a target with a box inside the frame and a score. */
  lemma UpdateEitherClearedOrTracked(w: int, h: int, detList: Option<seq<Det>>)
    requires w > 0 && h > 0
    ensures var s := Update(w, h, detList);
      (!s.hasTarget && s == CLEARED) ||
      (s.hasTarget && s.bbox.Some? && InFrame(s.bbox.value, w, h) && s.score.Some?)
  {
    if detList.Some? && detList.value != [] {
      var best := Chosen(detList.value);
      if best.bbox.Some? && |best.bbox.value| == 4 {
        var b := best.bbox.value;
        TrackBounds(w, h, b[0], b[1], b[2], b[3], best.classId, Some(ScoreOf(best)));
      }
    }
  }

  // ---------------------------------------------------------------------
  // The objects
  // ---------------------------------------------------------------------

  /** The tracker's view of the target, updated field by field. */
  class CombatState {
    var hasTarget: bool
    var bbox: Option<PixelBox>
    var cxNorm: real
    var cyNorm: real
    var angleDeg: real
    var distanceHint: Option<real>
    var classId: Option<int>
    var score: Option<real>

    function View(): Snapshot
      reads this
    {
      Snapshot(hasTarget, bbox, cxNorm, cyNorm, angleDeg, distanceHint, classId, score)
    }

    constructor()
      ensures View() == CLEARED
    {
      hasTarget := false;
      bbox := None;
      cxNorm := 0.0;
      cyNorm := 0.0;
      angleDeg := 0.0;
      distanceHint := None;
      classId := None;
      score := None;
    }
  }

  class OpponentTracker {
    const w: int
    const h: int
    var state: CombatState

    constructor(cameraWidth: int, cameraHeight: int)
      requires cameraWidth > 0 && cameraHeight > 0
      ensures w == cameraWidth && h == cameraHeight
      ensures fresh(state) && state.View() == CLEARED
    {
      w := cameraWidth;
      h := cameraHeight;
      state := new CombatState();
    }

    /** `_update_from_bbox`: overwrite every field of the current state object. */
    method UpdateFromBbox(xmin: real, ymin: real, xmax: real, ymax: real, classId: Option<int>, score: Option<real>)
      requires w > 0 && h > 0
      modifies state
      ensures state.View() == Track(w, h, xmin, ymin, xmax, ymax, classId, score)
    {
      var x0 := ClampReal(xmin, 0.0, w as real);
      var x1 := ClampReal(xmax, 0.0, w as real);
      var y0 := ClampReal(ymin, 0.0, h as real);
      var y1 := ClampReal(ymax, 0.0, h as real);

      var bboxW := Extent(x0, x1);
      var bboxH := Extent(y0, y1);

      var cx := x0 + bboxW / 2.0;
      var cy := y0 + bboxH / 2.0;

      var cxNorm := (cx - w as real / 2.0) / (w as real / 2.0);
      var cyNorm := (cy - h as real / 2.0) / (h as real / 2.0);

      var angleDeg := cxNorm * HALF_FOV_DEG;
      var distanceHint := 1.0 / bboxH;

      state.hasTarget := true;
      state.bbox := Some(PixelBox(x0.Floor, y0.Floor, x1.Floor, y1.Floor));
      state.cxNorm := cxNorm;
      state.cyNorm := cyNorm;
      state.angleDeg := angleDeg;
      state.distanceHint := Some(distanceHint);
      state.classId := classId;
      state.score := score;
    }

    /** `_clear`: replace the state with a fresh one. */
    method Clear()
      modifies this
      ensures fresh(state) && state.View() == CLEARED
    {
      state := new CombatState();
    }

    /** `update_from_vilib_detections`, with the detector's list passed in. */
    method UpdateFromDetections(detList: Option<seq<Det>>)
      requires w > 0 && h > 0
      modifies this, state
      ensures state.View() == Update(w, h, detList)
      ensures Update(w, h, detList).hasTarget ==> state == old(state)
      ensures !Update(w, h, detList).hasTarget ==> fresh(state) && unchanged(old(state))
    {
      if detList.None? || |detList.value| == 0 {
        Clear();
        return;
      }
      var enemyDets := Candidates(detList.value);
      var best := enemyDets[BestIndex(enemyDets)];
      var bbox := best.bbox;
      if bbox.Some? && |bbox.value| > 0 && |bbox.value| == 4 {
        var b := bbox.value;
        UpdateFromBbox(b[0], b[1], b[2], b[3], best.classId, Some(ScoreOf(best)));
      } else {
        Clear();
      }
    }
  }
}
