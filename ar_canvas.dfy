/** The AR canvas (spatiallink-ar/components/ARCanvas.tsx): anchors live at a
    world yaw/pitch, are projected onto the screen through a simulated camera
    pose with field-of-view culling, and the cursor snaps to the nearest
    projected anchor within 80 px. Activation is a click (pointer and switch
    modes), a 1.5 s dwell (gaze mode) or a 2 s two-eye blink (face mode),
    where the face-mode cursor comes from iris landmarks. Triggers are
    appended to a log; timestamps are explicit millisecond arguments. */
module ArCanvas {
  import opened Records

  /** `caption` is the anchor's `label`. */
  datatype Anchor = Anchor(id: string, caption: string, yaw: real, pitch: real, color: string)

  datatype ViewState = ViewState(yaw: real, pitch: real)

  /** The container's bounding box. */
  datatype Size = Size(width: real, height: real)

  datatype InputMode = PointerMode | GazeMode | SwitchMode | FaceMode

  const Fov: real := 60.0
  /** `FOV / 1.5`: anchors further than this off the view axis are culled. */
  const CullAngle: real := 40.0
  const SnapThreshold: real := 80.0
  /** `bestDist` starts at 1000 px. */
  const InitialBestDist: real := 1000.0
  const GazeDwellMs: int := 1500
  const BlinkThreshold: real := 0.4
  const BlinkRequiredMs: int := 2000
  const Smoothing: real := 0.15

  // ---------------------------------------------------------------------
  // Iris ratio inside the eye box
  // ---------------------------------------------------------------------

  /** The smallest value, folded from the left as the corner loop does. */
  function MinOf(xs: seq<real>): real
    requires |xs| > 0
  {
    if |xs| == 1 then xs[0] else Min(MinOf(xs[..|xs| - 1]), xs[|xs| - 1])
  }

  function MaxOf(xs: seq<real>): real
    requires |xs| > 0
  {
    if |xs| == 1 then xs[0] else Max(MaxOf(xs[..|xs| - 1]), xs[|xs| - 1])
  }

  /** `MinOf` and `MaxOf` bound every element and are attained. */
  lemma {:induction false} MinMaxOfSpec(xs: seq<real>)
    requires |xs| > 0
    ensures forall i :: 0 <= i < |xs| ==> MinOf(xs) <= xs[i] <= MaxOf(xs)
    ensures exists i :: 0 <= i < |xs| && xs[i] == MinOf(xs)
    ensures exists i :: 0 <= i < |xs| && xs[i] == MaxOf(xs)
  {
    if |xs| == 1 {
      assert xs[0] == MinOf(xs);
    } else {
      var init := xs[..|xs| - 1];
      MinMaxOfSpec(init);
      forall i | 0 <= i < |xs| - 1
        ensures MinOf(xs) <= xs[i] <= MaxOf(xs)
      {
        assert xs[i] == init[i];
      }
      var a :| 0 <= a < |init| && init[a] == MinOf(init);
      var b :| 0 <= b < |init| && init[b] == MaxOf(init);
      if xs[|xs| - 1] < MinOf(init) {
        assert xs[|xs| - 1] == MinOf(xs);
      } else {
        assert xs[a] == MinOf(xs);
      }
      if xs[|xs| - 1] > MaxOf(init) {
        assert xs[|xs| - 1] == MaxOf(xs);
      } else {
        assert xs[b] == MaxOf(xs);
      }
    }
  }

  predicate ValidIds(landmarks: seq<Point>, ids: seq<nat>) {
    forall k :: 0 <= k < |ids| ==> ids[k] < |landmarks|
  }

  function CornerXs(landmarks: seq<Point>, ids: seq<nat>): seq<real>
    requires ValidIds(landmarks, ids)
  {
    seq(|ids|, k requires 0 <= k < |ids| => landmarks[ids[k]].x)
  }

  function CornerYs(landmarks: seq<Point>, ids: seq<nat>): seq<real>
    requires ValidIds(landmarks, ids)
  {
    seq(|ids|, k requires 0 <= k < |ids| => landmarks[ids[k]].y)
  }

  /** The iris position relative to the box of the eye corners; a flat box gives the centre. */
  function EyeGazeRatio(landmarks: seq<Point>, irisId: nat, cornerIds: seq<nat>): Point
    requires irisId < |landmarks| && |cornerIds| > 0 && ValidIds(landmarks, cornerIds)
  {
    var xs, ys := CornerXs(landmarks, cornerIds), CornerYs(landmarks, cornerIds);
    var width, height := MaxOf(xs) - MinOf(xs), MaxOf(ys) - MinOf(ys);
    if width == 0.0 || height == 0.0 then Point(0.5, 0.5)
    else Point((landmarks[irisId].x - MinOf(xs)) / width, (landmarks[irisId].y - MinOf(ys)) / height)
  }

  /** An iris inside the corner box gives a ratio in the unit square. */
  lemma {:induction false} RatioInUnitSquare(landmarks: seq<Point>, irisId: nat, cornerIds: seq<nat>)
    requires irisId < |landmarks| && |cornerIds| > 0 && ValidIds(landmarks, cornerIds)
    requires var xs := CornerXs(landmarks, cornerIds); MinOf(xs) <= landmarks[irisId].x <= MaxOf(xs)
    requires var ys := CornerYs(landmarks, cornerIds); MinOf(ys) <= landmarks[irisId].y <= MaxOf(ys)
    ensures var r := EyeGazeRatio(landmarks, irisId, cornerIds);
      0.0 <= r.x <= 1.0 && 0.0 <= r.y <= 1.0
  {
    var xs, ys := CornerXs(landmarks, cornerIds), CornerYs(landmarks, cornerIds);
    var w, h := MaxOf(xs) - MinOf(xs), MaxOf(ys) - MinOf(ys);
    if w != 0.0 && h != 0.0 {
      UnitRatio(landmarks[irisId].x - MinOf(xs), w);
      UnitRatio(landmarks[irisId].y - MinOf(ys), h);
    }
  }

  lemma UnitRatio(a: real, w: real)
    requires 0.0 <= a <= w && w != 0.0
    ensures 0.0 <= a / w <= 1.0
  {
  }

  /** `getEyeGazeRatio`: one pass over the corners updating the four extremes. */
  method GetEyeGazeRatio(landmarks: seq<Point>, irisId: nat, cornerIds: seq<nat>) returns (r: Point)
    requires irisId < |landmarks| && |cornerIds| > 0 && ValidIds(landmarks, cornerIds)
    ensures r == EyeGazeRatio(landmarks, irisId, cornerIds)
  {
    var iris := landmarks[irisId];
    ghost var xs, ys := CornerXs(landmarks, cornerIds), CornerYs(landmarks, cornerIds);
    // `i == 0` stands for the comparisons against the initial infinities, which always succeed.
    var minX, maxX, minY, maxY := 0.0, 0.0, 0.0, 0.0;
    var i := 0;
    while i < |cornerIds|
      invariant 0 <= i <= |cornerIds|
      invariant i > 0 ==> minX == MinOf(xs[..i]) && maxX == MaxOf(xs[..i])
      invariant i > 0 ==> minY == MinOf(ys[..i]) && maxY == MaxOf(ys[..i])
    {
      var p := landmarks[cornerIds[i]];
      assert xs[..i + 1][..i] == xs[..i] && ys[..i + 1][..i] == ys[..i];
      if i == 0 || p.x < minX { minX := p.x; }
      if i == 0 || p.x > maxX { maxX := p.x; }
      if i == 0 || p.y < minY { minY := p.y; }
      if i == 0 || p.y > maxY { maxY := p.y; }
      i := i + 1;
    }
    assert xs[..i] == xs && ys[..i] == ys;
    var width := maxX - minX;
    var height := maxY - minY;
    if width == 0.0 || height == 0.0 {
      return Point(0.5, 0.5);
    }
    r := Point((iris.x - minX) / width, (iris.y - minY) / height);
  }

  // ---------------------------------------------------------------------
  // Face-mode cursor
  // ---------------------------------------------------------------------

  const RightIrisId: nat := 473
  const RightEyeCorners: seq<nat> := [33, 133, 160, 159, 158, 144, 145, 153]
  const LeftIrisId: nat := 468
  const LeftEyeCorners: seq<nat> := [362, 263, 387, 386, 385, 373, 374, 380]
  const NoseId: nat := 1

  /** The face mesh has at least every index the cursor mapping reads. */
  predicate FullMesh(landmarks: seq<Point>) {
    |landmarks| > 473
  }

  /** Average the two eye ratios, apply the gains about the assumed centre, blend 70/30
      with the mirrored nose position, scale to the window and clamp to it. */
  function FaceTarget(landmarks: seq<Point>, ratioRight: Point, ratioLeft: Point,
                      windowW: real, windowH: real): Point
    requires FullMesh(landmarks)
  {
    var avgX := (ratioRight.x + ratioLeft.x) / 2.0;
    var avgY := (ratioRight.y + ratioLeft.y) / 2.0;
    var normalizedX := 0.5 + (avgX - 0.5) * 5.0;
    var normalizedY := 0.5 + (avgY - 0.45) * 6.0;
    var headX := 1.0 - landmarks[NoseId].x;
    var headY := landmarks[NoseId].y;
    var finalX := (normalizedX * 0.7 + headX * 0.3) * windowW;
    var finalY := (normalizedY * 0.7 + headY * 0.3) * windowH;
    Point(ClampTo(finalX, windowW), ClampTo(finalY, windowH))
  }

  /** `Math.max(0, Math.min(hi, v))` */
  function ClampTo(v: real, hi: real): (r: real)
    ensures hi >= 0.0 ==> 0.0 <= r <= hi
    ensures 0.0 <= v <= hi ==> r == v
  {
    Max(0.0, Min(hi, v))
  }

  /** The low-pass step towards the clamped target. */
  function SmoothCursor(last: Point, target: Point): Point {
    Point(last.x + (target.x - last.x) * Smoothing, last.y + (target.y - last.y) * Smoothing)
  }

  predicate InWindow(p: Point, windowW: real, windowH: real) {
    0.0 <= p.x <= windowW && 0.0 <= p.y <= windowH
  }

  /** Whatever the landmarks, the clamped target lies in the window. */
  lemma FaceTargetInWindow(landmarks: seq<Point>, ratioRight: Point, ratioLeft: Point,
                           windowW: real, windowH: real)
    requires FullMesh(landmarks) && windowW >= 0.0 && windowH >= 0.0
    ensures InWindow(FaceTarget(landmarks, ratioRight, ratioLeft, windowW, windowH), windowW, windowH)
  {
    var t := FaceTarget(landmarks, ratioRight, ratioLeft, windowW, windowH);
    assert 0.0 <= t.x <= windowW;
    assert 0.0 <= t.y <= windowH;
  }

  /** The smoothed cursor moves part of the way, strictly between the last cursor and the target. */
  lemma {:induction false} SmoothCursorBetween(last: Point, target: Point)
    ensures Min(last.x, target.x) <= SmoothCursor(last, target).x <= Max(last.x, target.x)
    ensures Min(last.y, target.y) <= SmoothCursor(last, target).y <= Max(last.y, target.y)
  {
    var dx, dy := target.x - last.x, target.y - last.y;
    if dx >= 0.0 { assert dx * Smoothing <= dx; } else { assert dx * Smoothing >= dx; }
    if dy >= 0.0 { assert dy * Smoothing <= dy; } else { assert dy * Smoothing >= dy; }
  }

  /** Clamp-then-low-pass: a cursor that starts in the window stays in it. */
  lemma FaceCursorStaysInWindow(last: Point, landmarks: seq<Point>, ratioRight: Point,
                                ratioLeft: Point, windowW: real, windowH: real)
    requires FullMesh(landmarks) && InWindow(last, windowW, windowH)
    ensures InWindow(SmoothCursor(last, FaceTarget(landmarks, ratioRight, ratioLeft, windowW, windowH)),
                     windowW, windowH)
  {
    var t := FaceTarget(landmarks, ratioRight, ratioLeft, windowW, windowH);
    FaceTargetInWindow(landmarks, ratioRight, ratioLeft, windowW, windowH);
    SmoothCursorBetween(last, t);
  }

  // ---------------------------------------------------------------------
  // Projection
  // ---------------------------------------------------------------------

  /** The whole turns the two `while` loops of `projectAnchor` add (negative: subtract). */
  function YawTurns(d: real): int {
    if d > 180.0 then ((180.0 - d) / 360.0).Floor
    else if d < -180.0 then -((d + 180.0) / 360.0).Floor
    else 0
  }

  /** The yaw wrap in closed form. */
  function WrappedYaw(d: real): real {
    d + 360.0 * YawTurns(d) as real
  }

  /** The wrap lands in [-180, 180]: on (-180, 180] from above, on [-180, 180) from below,
      and leaves a value already in range alone. */
  lemma WrappedYawRange(d: real)
    ensures -180.0 <= WrappedYaw(d) <= 180.0
    ensures d > 180.0 ==> -180.0 < WrappedYaw(d) <= 180.0
    ensures d < -180.0 ==> -180.0 <= WrappedYaw(d) < 180.0
    ensures -180.0 <= d <= 180.0 ==> WrappedYaw(d) == d
  {
    if d > 180.0 {
      var x := (180.0 - d) / 360.0;
      assert x.Floor as real <= x < x.Floor as real + 1.0;
    } else if d < -180.0 {
      var x := (d + 180.0) / 360.0;
      assert x.Floor as real <= x < x.Floor as real + 1.0;
    }
  }

  /** Turning by whole revolutions keeps the size of the wrapped yaw, and the wrapped yaw
      itself except at the seam, where -180 and 180 are both reachable. */
  lemma {:induction false} WrappedYawPeriodic(d: real, k: int)
    ensures Abs(WrappedYaw(d + 360.0 * k as real)) == Abs(WrappedYaw(d))
    ensures Abs(WrappedYaw(d)) < 180.0 ==> WrappedYaw(d + 360.0 * k as real) == WrappedYaw(d)
  {
    var e := d + 360.0 * k as real;
    WrappedYawRange(d);
    WrappedYawRange(e);
    var j := k + YawTurns(e) - YawTurns(d);
    assert WrappedYaw(e) - WrappedYaw(d) == 360.0 * j as real;
  }

  /** The seam: the loops send -540 to -180 but leave 180 alone. */
  lemma WrappedYawSeam()
    ensures WrappedYaw(-540.0) == -180.0 && WrappedYaw(180.0) == 180.0
  {
    assert ((-540.0 + 180.0) / 360.0).Floor == -1;
  }

  /** `projectAnchor`: no container, or more than 40 degrees off axis in either direction,
      gives null; otherwise the centre offset by the angles at `width / 60` px per degree. */
  function Projected(anchor: Anchor, view: ViewState, container: Option<Size>): (r: Option<Point>)
    ensures r.None? <==>
      || container.None?
      || Abs(WrappedYaw(anchor.yaw - view.yaw)) > CullAngle
      || Abs(anchor.pitch - view.pitch) > CullAngle
  {
    match container
    case None => None
    case Some(box) =>
      var deltaYaw := WrappedYaw(anchor.yaw - view.yaw);
      var deltaPitch := anchor.pitch - view.pitch;
      if Abs(deltaYaw) > Fov / 1.5 || Abs(deltaPitch) > Fov / 1.5 then None
      else
        var ppd := box.width / Fov;
        Some(Point(box.width / 2.0 + deltaYaw * ppd, box.height / 2.0 + deltaPitch * ppd))
  }

  /** A projected anchor lands within 40 degrees' worth of pixels of the centre. */
  lemma ProjectedNearCentre(anchor: Anchor, view: ViewState, box: Size)
    requires box.width >= 0.0
    requires Projected(anchor, view, Some(box)).Some?
    ensures var p := Projected(anchor, view, Some(box)).value;
      && Abs(p.x - box.width / 2.0) <= CullAngle * box.width / Fov
      && Abs(p.y - box.height / 2.0) <= CullAngle * box.width / Fov
  {
    var dy := WrappedYaw(anchor.yaw - view.yaw);
    var dp := anchor.pitch - view.pitch;
    var ppd := box.width / Fov;
    assert ppd >= 0.0;
    MulAbsBound(dy, ppd);
    MulAbsBound(dp, ppd);
  }

  lemma MulAbsBound(a: real, c: real)
    requires Abs(a) <= CullAngle && c >= 0.0
    ensures Abs(a * c) <= CullAngle * c
  {
    MulNonNeg(CullAngle - a, c);
    MulNonNeg(CullAngle + a, c);
  }

  /** Culling and position depend on the yaw only modulo whole revolutions. */
  lemma ProjectedPeriodic(anchor: Anchor, view: ViewState, container: Option<Size>, k: int)
    ensures Projected(anchor.(yaw := anchor.yaw + 360.0 * k as real), view, container)
      == Projected(anchor, view, container)
  {
    var d := anchor.yaw - view.yaw;
    var turned := anchor.(yaw := anchor.yaw + 360.0 * k as real);
    assert turned.yaw - view.yaw == d + 360.0 * k as real;
    WrappedYawPeriodic(d, k);
    if Abs(WrappedYaw(d)) <= CullAngle {
      SameAnglesSameProjection(turned, anchor, view, container);
    }
  }

  /** The projection sees an anchor only through its wrapped yaw offset and its pitch. */
  lemma SameAnglesSameProjection(a: Anchor, b: Anchor, view: ViewState, container: Option<Size>)
    requires WrappedYaw(a.yaw - view.yaw) == WrappedYaw(b.yaw - view.yaw) && a.pitch == b.pitch
    ensures Projected(a, view, container) == Projected(b, view, container)
  {
    var dy := WrappedYaw(a.yaw - view.yaw);
    var dp := a.pitch - view.pitch;
    assert b.pitch - view.pitch == dp;
    if container.Some? && Abs(dy) <= CullAngle && Abs(dp) <= CullAngle {
      var box := container.value;
      var p := Point(box.width / 2.0 + dy * (box.width / Fov), box.height / 2.0 + dp * (box.width / Fov));
      assert Projected(a, view, container).Some?;
      assert Projected(a, view, container).value.y == p.y;
      assert Projected(a, view, container).value.x == p.x;
      assert Projected(b, view, container).Some?;
      assert Projected(b, view, container).value.y == p.y;
      assert Projected(b, view, container).value.x == p.x;
    }
  }

  /** Both ends of the seam are culled, so the seam never shows on screen. */
  lemma SeamCulled(anchor: Anchor, view: ViewState, container: Option<Size>)
    requires Abs(WrappedYaw(anchor.yaw - view.yaw)) == 180.0
    ensures Projected(anchor, view, container) == None
  {
  }

  /** An anchor added by `handleAddAnchor` sits at the current view and projects to the centre. */
  lemma NewAnchorAtCentre(id: string, caption: string, color: string, view: ViewState, box: Size)
    ensures Projected(Anchor(id, caption, view.yaw, view.pitch, color), view, Some(box))
      == Some(Point(box.width / 2.0, box.height / 2.0))
  {
    var a := Anchor(id, caption, view.yaw, view.pitch, color);
    assert WrappedYaw(view.yaw - view.yaw) == 0.0;
    assert Projected(a, view, Some(box)).value.x == box.width / 2.0;
    assert Projected(a, view, Some(box)).value.y == box.height / 2.0;
  }

  /** The yaw wrap with its two loops. */
  method WrapYaw(delta: real) returns (d: real)
    ensures d == WrappedYaw(delta)
  {
    d := delta;
    ghost var turns: int := 0;
    while d > 180.0
      invariant d == delta - 360.0 * turns as real
      invariant turns >= 0 && (turns > 0 ==> d > -180.0)
      decreases (d - 180.0).Floor
    {
      d := d - 360.0;
      turns := turns + 1;
    }
    while d < -180.0
      invariant d == delta - 360.0 * turns as real
      invariant turns <= 0 || d > -180.0
      invariant turns < 0 ==> d < 180.0
      decreases (-180.0 - d).Floor
    {
      d := d + 360.0;
      turns := turns - 1;
    }
    WrapYawAgrees(delta, d, turns);
  }

  /** Any value in the wrap's range that differs from `delta` by whole turns is the wrap. */
  lemma {:induction false} WrapYawAgrees(delta: real, d: real, turns: int)
    requires d == delta - 360.0 * turns as real
    requires turns > 0 ==> -180.0 < d <= 180.0
    requires turns < 0 ==> -180.0 <= d < 180.0
    requires turns == 0 ==> -180.0 <= d <= 180.0
    requires turns > 0 <==> delta > 180.0
    requires turns < 0 <==> delta < -180.0
    ensures d == WrappedYaw(delta)
  {
    if turns > 0 {
      var x := (180.0 - delta) / 360.0;
      assert x == (180.0 - d) / 360.0 - turns as real;
      assert 0.0 <= (180.0 - d) / 360.0 < 1.0;
      assert x.Floor == -turns;
    } else if turns < 0 {
      var x := (delta + 180.0) / 360.0;
      assert x == (d + 180.0) / 360.0 + turns as real;
      assert 0.0 <= (d + 180.0) / 360.0 < 1.0;
      assert x.Floor == turns;
    }
  }

  /** `projectAnchor` with its loops. */
  method ProjectAnchor(anchor: Anchor, view: ViewState, container: Option<Size>) returns (r: Option<Point>)
    ensures r == Projected(anchor, view, container)
  {
    if container.None? {
      return None;
    }
    var width, height := container.value.width, container.value.height;
    var pixelsPerDegree := width / Fov;
    var deltaYaw := WrapYaw(anchor.yaw - view.yaw);
    var deltaPitch := anchor.pitch - view.pitch;
    if Abs(deltaYaw) > Fov / 1.5 || Abs(deltaPitch) > Fov / 1.5 {
      return None;
    }
    r := Some(Point(width / 2.0 + deltaYaw * pixelsPerDegree, height / 2.0 + deltaPitch * pixelsPerDegree));
    assert r.value.x == Projected(anchor, view, container).value.x;
    assert r.value.y == Projected(anchor, view, container).value.y;
  }

  // ---------------------------------------------------------------------
  // Snap targeting
  // ---------------------------------------------------------------------

  function DistSq(a: Point, b: Point): real {
    (a.x - b.x) * (a.x - b.x) + (a.y - b.y) * (a.y - b.y)
  }

  /** Anchor `k` is visible and within 80 px of the cursor (squared distances avoid the root). */
  predicate InReach(anchors: seq<Anchor>, view: ViewState, container: Option<Size>, cursor: Point, k: int)
    requires 0 <= k < |anchors|
  {
    var p := Projected(anchors[k], view, container);
    p.Some? && DistSq(p.value, cursor) < SnapThreshold * SnapThreshold
  }

  function ReachDist(anchors: seq<Anchor>, view: ViewState, container: Option<Size>, cursor: Point, k: int): real
    requires 0 <= k < |anchors| && InReach(anchors, view, container, cursor, k)
  {
    DistSq(Projected(anchors[k], view, container).value, cursor)
  }

  /** `k` is the snap: in reach, strictly closer than every earlier anchor in reach and no
      further than every later one, so that the first of equally close anchors wins. */
  predicate IsSnap(anchors: seq<Anchor>, view: ViewState, container: Option<Size>, cursor: Point, k: int) {
    && 0 <= k < |anchors| && InReach(anchors, view, container, cursor, k)
    && (forall j :: 0 <= j < k && InReach(anchors, view, container, cursor, j) ==>
          ReachDist(anchors, view, container, cursor, j) > ReachDist(anchors, view, container, cursor, k))
    && (forall j :: k < j < |anchors| && InReach(anchors, view, container, cursor, j) ==>
          ReachDist(anchors, view, container, cursor, j) >= ReachDist(anchors, view, container, cursor, k))
  }

  /** At most one anchor is the snap. */
  lemma SnapUnique(anchors: seq<Anchor>, view: ViewState, container: Option<Size>, cursor: Point, k: int, l: int)
    requires IsSnap(anchors, view, container, cursor, k) && IsSnap(anchors, view, container, cursor, l)
    ensures k == l
  {
  }

  /** The snap effect's `forEach`: keep the anchor that beats the best distance so far. */
  method SnapTarget(anchors: seq<Anchor>, view: ViewState, container: Option<Size>, cursor: Point)
    returns (snapped: Option<string>)
    ensures snapped.None? <==> forall j :: 0 <= j < |anchors| ==> !InReach(anchors, view, container, cursor, j)
    ensures snapped.Some? ==> exists k :: IsSnap(anchors, view, container, cursor, k) && anchors[k].id == snapped.value
  {
    var bestDist := InitialBestDist * InitialBestDist;
    snapped := None;
    ghost var best: int := -1;
    var i := 0;
    while i < |anchors|
      invariant 0 <= i <= |anchors|
      invariant -1 <= best < i
      invariant best == -1 <==> forall j :: 0 <= j < i ==> !InReach(anchors, view, container, cursor, j)
      invariant best == -1 ==> snapped.None? && bestDist == InitialBestDist * InitialBestDist
      invariant best >= 0 ==>
        && InReach(anchors, view, container, cursor, best)
        && snapped == Some(anchors[best].id)
        && bestDist == ReachDist(anchors, view, container, cursor, best)
        && (forall j :: 0 <= j < best && InReach(anchors, view, container, cursor, j) ==>
              ReachDist(anchors, view, container, cursor, j) > bestDist)
        && (forall j :: best < j < i && InReach(anchors, view, container, cursor, j) ==>
              ReachDist(anchors, view, container, cursor, j) >= bestDist)
    {
      var pos := ProjectAnchor(anchors[i], view, container);
      assert InReach(anchors, view, container, cursor, i)
        <==> pos.Some? && DistSq(pos.value, cursor) < SnapThreshold * SnapThreshold;
      if pos.Some? {
        var dist := DistSq(pos.value, cursor);
        if dist < SnapThreshold * SnapThreshold && dist < bestDist {
          bestDist := dist;
          snapped := Some(anchors[i].id);
          best := i;
        }
      }
      i := i + 1;
    }
    if best >= 0 {
      assert IsSnap(anchors, view, container, cursor, best);
    }
  }

  // ---------------------------------------------------------------------
  // Activation state machines
  // ---------------------------------------------------------------------

  /** The pending gaze dwell: its start time and the id captured when it started. */
  datatype DwellTimer = DwellTimer(startMs: int, anchorId: string)

  datatype DwellState = DwellState(timer: Option<DwellTimer>, progress: real)

  /** The gaze branch of the snap effect: start a dwell only if none is pending, and cancel
      (resetting progress) only when the snap is empty. */
  function GazeDwellOnSnap(s: DwellState, snapped: Option<string>, now: int): (r: DwellState)
    ensures Truthy(snapped) && s.timer.Some? ==> r == s
    ensures Truthy(snapped) && s.timer.None? ==> r == DwellState(Some(DwellTimer(now, snapped.value)), 0.0)
    ensures !Truthy(snapped) ==>
      && r.timer.None?
      && (s.timer.Some? ==> r.progress == 0.0)
      && (s.timer.None? ==> r == s)
  {
    if Truthy(snapped) then
      if s.timer.None? then DwellState(Some(DwellTimer(now, snapped.value)), 0.0) else s
    else if s.timer.Some? then DwellState(None, 0.0)
    else s
  }

  datatype DwellTick = DwellTick(state: DwellState, fired: Option<string>)

  /** The 50 ms progress interval and the 1500 ms timeout of a pending dwell. */
  function GazeDwellTick(s: DwellState, now: int): DwellTick {
    match s.timer
    case None => DwellTick(s, None)
    case Some(t) =>
      var elapsed := now - t.startMs;
      if elapsed >= GazeDwellMs then DwellTick(DwellState(None, 0.0), Some(t.anchorId))
      else DwellTick(DwellState(s.timer, Min(100.0, elapsed as real / GazeDwellMs as real * 100.0)), None)
  }

  /** A dwell fires the id captured at its start, exactly when 1500 ms have passed, and clears. */
  lemma GazeDwellFiresCaptured(s: DwellState, now: int)
    ensures var r := GazeDwellTick(s, now);
      && (r.fired.Some? <==> s.timer.Some? && now - s.timer.value.startMs >= GazeDwellMs)
      && (r.fired.Some? ==> r.fired.value == s.timer.value.anchorId && r.state == DwellState(None, 0.0))
      && (r.fired.None? ==> r.state.timer == s.timer)
      && (s.progress <= 100.0 ==> r.state.progress <= 100.0)
  {
  }

  /** Moving the snap between two non-empty ids does not restart or retarget a pending dwell:
      the id that fires is the one snapped when the dwell began. */
  lemma {:induction false} SwitchingSnapKeepsDwell(s: DwellState, a: string, b: string, t0: int, t1: int, t2: int)
    requires s.timer.None? && a != [] && b != []
    ensures var s1 := GazeDwellOnSnap(s, Some(a), t0);
      var s2 := GazeDwellOnSnap(s1, Some(b), t1);
      && s2.timer == Some(DwellTimer(t0, a))
      && (t2 - t0 >= GazeDwellMs ==> GazeDwellTick(s2, t2).fired == Some(a))
  {
    var s1 := GazeDwellOnSnap(s, Some(a), t0);
    assert s1.timer == Some(DwellTimer(t0, a));
    assert GazeDwellOnSnap(s1, Some(b), t1) == s1;
  }

  /** A frame's blink decision. */
  datatype BlinkState = BlinkState(start: Option<int>, progress: real)

  datatype BlinkFrameResult = BlinkFrameResult(state: BlinkState, fired: Option<string>)

  /** `!blinkStartTimeRef.current`: a timestamp of 0 reads as no start. */
  predicate Started(start: Option<int>) {
    start.Some? && start.value != 0
  }

  /** Blink handling for one frame with blend-shape scores: both eyes above 0.4 count as a
      blink; the first blinking frame records the start, later ones update progress and fire
      the hovered anchor after more than 2000 ms; open eyes reset. */
  function BlinkFrame(s: BlinkState, blinking: bool, now: int, hovered: Option<string>): BlinkFrameResult {
    if !blinking then BlinkFrameResult(BlinkState(None, 0.0), None)
    else if !Started(s.start) then BlinkFrameResult(BlinkState(Some(now), s.progress), None)
    else
      var elapsed := now - s.start.value;
      var progress := Min(100.0, elapsed as real / BlinkRequiredMs as real * 100.0);
      if elapsed > BlinkRequiredMs then
        BlinkFrameResult(BlinkState(None, 0.0), if Truthy(hovered) then hovered else None)
      else BlinkFrameResult(BlinkState(s.start, progress), None)
  }

  predicate IsBlinking(left: real, right: real) {
    left > BlinkThreshold && right > BlinkThreshold
  }

  /** A blink fires only the hovered anchor, only after more than 2000 ms of closed eyes
      since the recorded start, and every firing frame resets the gesture. */
  lemma BlinkFiresOnlyAfterHold(s: BlinkState, blinking: bool, now: int, hovered: Option<string>)
    ensures var r := BlinkFrame(s, blinking, now, hovered);
      && (r.fired.Some? ==>
            && blinking && Started(s.start) && now - s.start.value > BlinkRequiredMs
            && Truthy(hovered) && r.fired == hovered && r.state == BlinkState(None, 0.0))
      && ((blinking && Started(s.start) && now - s.start.value > BlinkRequiredMs && Truthy(hovered))
            ==> r.fired == hovered)
      && (!blinking ==> r == BlinkFrameResult(BlinkState(None, 0.0), None))
      && (s.progress <= 100.0 ==> r.state.progress <= 100.0)
  {
  }

  /** After a firing frame a continued blink only records a new start: one hold fires once. */
  lemma BlinkFiresOncePerHold(s: BlinkState, t1: int, t2: int, hovered: Option<string>)
    requires BlinkFrame(s, true, t1, hovered).fired.Some?
    ensures var r1 := BlinkFrame(s, true, t1, hovered);
      var r2 := BlinkFrame(r1.state, true, t2, hovered);
      r2.fired.None? && r2.state.start == Some(t2)
  {
  }

  // ---------------------------------------------------------------------
  // The component's state
  // ---------------------------------------------------------------------

  function MovedView(v: ViewState, dx: real, dy: real): (r: ViewState)
    ensures r.yaw == v.yaw - dx * 0.1
    ensures -45.0 <= r.pitch <= 45.0
    ensures -45.0 <= v.pitch - dy * 0.1 <= 45.0 ==> r.pitch == v.pitch - dy * 0.1
  {
    ViewState(v.yaw - dx * 0.1, Clamp(v.pitch - dy * 0.1, -45.0, 45.0))
  }

  class ArSession {
    var view: ViewState
    var container: Option<Size>
    var windowW: real
    var windowH: real
    var inputMode: InputMode
    var anchors: seq<Anchor>
    var cursorPos: Point
    var lastCursor: Point
    var hoveredAnchorId: Option<string>
    var dwell: DwellState
    var blinkStart: Option<int>
    /** The ids handed to `onTriggerAnchor`, oldest first. */
    var triggered: seq<string>

    constructor (windowW: real, windowH: real, container: Option<Size>, inputMode: InputMode, anchors: seq<Anchor>)
      ensures view == ViewState(0.0, 0.0) && this.container == container
      ensures this.windowW == windowW && this.windowH == windowH
      ensures this.inputMode == inputMode && this.anchors == anchors
      ensures cursorPos == Point(windowW / 2.0, windowH / 2.0) && lastCursor == cursorPos
      ensures hoveredAnchorId == None && dwell == DwellState(None, 0.0) && blinkStart == None
      ensures triggered == []
    {
      view := ViewState(0.0, 0.0);
      this.container := container;
      this.windowW, this.windowH := windowW, windowH;
      this.inputMode, this.anchors := inputMode, anchors;
      cursorPos := Point(windowW / 2.0, windowH / 2.0);
      lastCursor := Point(windowW / 2.0, windowH / 2.0);
      hoveredAnchorId := None;
      dwell := DwellState(None, 0.0);
      blinkStart := None;
      triggered := [];
    }

    /** `handleViewMove`: yaw is unbounded, pitch stays within 45 degrees. */
    method ViewMove(dx: real, dy: real)
      modifies this`view
      ensures view == MovedView(old(view), dx, dy)
      ensures -45.0 <= view.pitch <= 45.0
    {
      view := ViewState(view.yaw - dx * 0.1, Max(-45.0, Min(45.0, view.pitch - dy * 0.1)));
    }

    /** `handlePointerMove`: ignored in face mode; a right-button mouse drag also turns the view. */
    method PointerMove(x: real, y: real, isTouch: bool, buttons: int, movementX: real, movementY: real)
      modifies this`view, this`cursorPos
      ensures inputMode == FaceMode ==> view == old(view) && cursorPos == old(cursorPos)
      ensures inputMode != FaceMode ==>
        && cursorPos == Point(x, y)
        && view == if !isTouch && buttons == 2 then MovedView(old(view), movementX, movementY) else old(view)
    {
      if inputMode == FaceMode {
        return;
      }
      if !isTouch && buttons == 2 {
        ViewMove(movementX, movementY);
      }
      cursorPos := Point(x, y);
    }

    /** The snap effect, run after the cursor, anchors, view or mode change. */
    method SnapEffect(now: int)
      modifies this`hoveredAnchorId, this`dwell
      ensures hoveredAnchorId.Some? ==>
        exists k :: IsSnap(anchors, view, container, cursorPos, k) && hoveredAnchorId == Some(anchors[k].id)
      ensures hoveredAnchorId.None? <==>
        forall j :: 0 <= j < |anchors| ==> !InReach(anchors, view, container, cursorPos, j)
      ensures dwell == if inputMode == GazeMode then GazeDwellOnSnap(old(dwell), hoveredAnchorId, now) else old(dwell)
    {
      var snappedId := SnapTarget(anchors, view, container, cursorPos);
      var next := dwell;
      if inputMode == GazeMode {
        if snappedId.Some? && snappedId.value != [] {
          if next.timer.None? {
            next := DwellState(Some(DwellTimer(now, snappedId.value)), 0.0);
          }
        } else if next.timer.Some? {
          next := DwellState(None, 0.0);
        }
      }
      ghost var k := -1;
      if snappedId.Some? {
        k :| IsSnap(anchors, view, container, cursorPos, k) && anchors[k].id == snappedId.value;
      }
      hoveredAnchorId, dwell := snappedId, next;
      assert hoveredAnchorId.Some? ==> IsSnap(anchors, view, container, cursorPos, k) && hoveredAnchorId == Some(anchors[k].id);
    }

    /** The dwell interval and timeout at time `now`. */
    method DwellTimerTick(now: int)
      modifies this`dwell, this`triggered
      ensures var r := GazeDwellTick(old(dwell), now);
        dwell == r.state && triggered == old(triggered) + (if r.fired.Some? then [r.fired.value] else [])
    {
      if dwell.timer.None? {
        return;
      }
      var t := dwell.timer.value;
      var elapsed := now - t.startMs;
      if elapsed >= GazeDwellMs {
        triggered := triggered + [t.anchorId];
        dwell := DwellState(None, 0.0);
      } else {
        dwell := dwell.(progress := Min(100.0, elapsed as real / GazeDwellMs as real * 100.0));
      }
    }

    /** One face-mode video frame: the blink gesture when blend shapes are present, then the
        clamped and smoothed cursor when not blinking and a face mesh is present. */
    method FaceFrame(now: int, freshFrame: bool, blendScores: Option<(real, real)>, landmarks: Option<seq<Point>>)
      requires landmarks.Some? ==> FullMesh(landmarks.value)
      modifies this`blinkStart, this`dwell, this`triggered, this`lastCursor, this`cursorPos
      ensures inputMode != FaceMode || !freshFrame ==>
        && blinkStart == old(blinkStart)
        && dwell == old(dwell) && triggered == old(triggered)
        && lastCursor == old(lastCursor) && cursorPos == old(cursorPos)
      ensures inputMode == FaceMode && freshFrame && blendScores.Some? ==>
        var r := BlinkFrame(BlinkState(old(blinkStart), old(dwell.progress)),
                            IsBlinking(blendScores.value.0, blendScores.value.1), now, hoveredAnchorId);
        && blinkStart == r.state.start && dwell == old(dwell).(progress := r.state.progress)
        && triggered == old(triggered) + (if r.fired.Some? then [r.fired.value] else [])
      ensures (blendScores.Some? && IsBlinking(blendScores.value.0, blendScores.value.1)) || landmarks.None?
        ==> lastCursor == old(lastCursor) && cursorPos == old(cursorPos)
      ensures (inputMode == FaceMode && freshFrame && landmarks.Some?
               && !(blendScores.Some? && IsBlinking(blendScores.value.0, blendScores.value.1))) ==>
        && lastCursor == SmoothCursor(old(lastCursor), FaceTarget(landmarks.value,
             EyeGazeRatio(landmarks.value, RightIrisId, RightEyeCorners),
             EyeGazeRatio(landmarks.value, LeftIrisId, LeftEyeCorners), windowW, windowH))
        && cursorPos == lastCursor
      ensures blendScores.None? ==> blinkStart == old(blinkStart) && dwell == old(dwell) && triggered == old(triggered)
      ensures InWindow(old(lastCursor), windowW, windowH) ==> InWindow(lastCursor, windowW, windowH)
      ensures lastCursor != old(lastCursor) ==> cursorPos == lastCursor
    {
      if inputMode != FaceMode || !freshFrame {
        return;
      }
      var isBlinking := false;
      if blendScores.Some? {
        var (blinkLeft, blinkRight) := blendScores.value;
        isBlinking := blinkLeft > BlinkThreshold && blinkRight > BlinkThreshold;
        if isBlinking {
          if blinkStart.None? || blinkStart.value == 0 {
            blinkStart := Some(now);
          } else {
            var elapsed := now - blinkStart.value;
            var progress := Min(100.0, elapsed as real / BlinkRequiredMs as real * 100.0);
            dwell := dwell.(progress := progress);
            if elapsed > BlinkRequiredMs {
              if hoveredAnchorId.Some? && hoveredAnchorId.value != [] {
                triggered := triggered + [hoveredAnchorId.value];
              }
              blinkStart := None;
              dwell := dwell.(progress := 0.0);
            }
          }
        } else {
          blinkStart := None;
          dwell := dwell.(progress := 0.0);
        }
      }
      if !isBlinking && landmarks.Some? {
        var lm := landmarks.value;
        var rightRatio := GetEyeGazeRatio(lm, RightIrisId, RightEyeCorners);
        var leftRatio := GetEyeGazeRatio(lm, LeftIrisId, LeftEyeCorners);
        var target := FaceTarget(lm, rightRatio, leftRatio, windowW, windowH);
        if InWindow(lastCursor, windowW, windowH) {
          FaceCursorStaysInWindow(lastCursor, lm, rightRatio, leftRatio, windowW, windowH);
        }
        var smoothX := lastCursor.x + (target.x - lastCursor.x) * Smoothing;
        var smoothY := lastCursor.y + (target.y - lastCursor.y) * Smoothing;
        assert Point(smoothX, smoothY) == SmoothCursor(lastCursor, target);
        lastCursor, cursorPos := Point(smoothX, smoothY), Point(smoothX, smoothY);
      }
    }

    /** A click on the container triggers the hovered anchor outside gaze and face modes. */
    method Click()
      modifies this`triggered
      ensures Truthy(hoveredAnchorId) && inputMode != GazeMode && inputMode != FaceMode
        ==> triggered == old(triggered) + [hoveredAnchorId.value]
      ensures !(Truthy(hoveredAnchorId) && inputMode != GazeMode && inputMode != FaceMode)
        ==> triggered == old(triggered)
    {
      if hoveredAnchorId.Some? && hoveredAnchorId.value != [] && inputMode != GazeMode && inputMode != FaceMode {
        triggered := triggered + [hoveredAnchorId.value];
      }
    }
  }
}
