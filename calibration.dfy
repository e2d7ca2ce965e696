/** The nine-point gaze calibration (src/hooks/useWebGazerCalibration.ts):
    a record of points keyed by id, each done after `requiredClicks` hits, a
    status that becomes completed once every point is done, and a dispersion
    of the tracker's stored predictions around their centroid. The tracker's
    stored points are an input; the distance of each point from the centroid
    is taken through a parameter `norm`, standing for `Math.sqrt(dx*dx + dy*dy)`. */
module Calibration {
  import opened Records
  import opened Text

  const DefaultRequiredClicks: int := 5

  datatype Status = Idle | Running | Completed

  datatype CalibrationPoint = CalibrationPoint(id: string, x: int, y: int, hits: int, done: bool)

  /** The literal position list, in percent of the screen. */
  const Positions: seq<(int, int)> :=
    [(15, 15), (50, 15), (85, 15), (15, 50), (50, 50), (85, 50), (15, 85), (50, 85), (85, 85)]

  /** The three grid lines, as an independent description of the positions. */
  const Grid: seq<int> := [15, 50, 85]

  /** `pt${idx + 1}` */
  function PointId(n: nat): string {
    "pt" + NatToString(n)
  }

  /** Different numbers give different ids. */
  lemma {:induction false} PointIdInjective(m: nat, n: nat)
    ensures PointId(m) == PointId(n) <==> m == n
  {
    if PointId(m) == PointId(n) {
      assert NatToString(m) == PointId(m)[2..];
      assert NatToString(n) == PointId(n)[2..];
      NatToStringValue(m);
      NatToStringValue(n);
    }
  }

  /** `basePoints` */
  function BasePoints(): seq<CalibrationPoint> {
    seq(9, i requires 0 <= i < 9 => CalibrationPoint(PointId(i + 1), Positions[i].0, Positions[i].1, 0, false))
  }

  /** The base points are the 3 by 3 grid, row by row, numbered pt1 to pt9, with no hits. */
  lemma BasePointsGrid()
    ensures |BasePoints()| == 9
    ensures forall i :: 0 <= i < 9 ==>
      && BasePoints()[i].id == PointId(i + 1) && BasePoints()[i].hits == 0 && !BasePoints()[i].done
      && BasePoints()[i].x == Grid[i % 3] && BasePoints()[i].y == Grid[i / 3]
    ensures forall i, j :: 0 <= i < j < 9 ==> BasePoints()[i].id != BasePoints()[j].id
  {
    forall i, j | 0 <= i < j < 9
      ensures BasePoints()[i].id != BasePoints()[j].id
    {
      PointIdInjective(i + 1, j + 1);
    }
  }

  /** `Object.fromEntries(points.map(p => [p.id, p]))`: every id is a key. */
  function FromEntries(ps: seq<CalibrationPoint>): (m: map<string, CalibrationPoint>)
    ensures forall i :: 0 <= i < |ps| ==> ps[i].id in m
    ensures forall id :: id in m ==> exists i :: 0 <= i < |ps| && ps[i].id == id
  {
    if ps == [] then map[]
    else FromEntries(ps[..|ps| - 1])[ps[|ps| - 1].id := ps[|ps| - 1]]
  }

  /** ... and an entry that no later entry overrides is the value of its id. */
  lemma {:induction false} FromEntriesLast(ps: seq<CalibrationPoint>, i: int)
    requires 0 <= i < |ps|
    requires forall j :: i < j < |ps| ==> ps[j].id != ps[i].id
    ensures FromEntries(ps)[ps[i].id] == ps[i]
  {
    if i < |ps| - 1 {
      var init := ps[..|ps| - 1];
      assert init[i] == ps[i];
      assert forall j :: i < j < |init| ==> init[j] == ps[j];
      FromEntriesLast(init, i);
    }
  }

  /** `resetPoints`: a fresh copy of the base points. */
  function FreshPoints(): map<string, CalibrationPoint> {
    FromEntries(BasePoints())
  }

  /** The fresh record holds exactly pt1 to pt9, each with no hits. */
  lemma {:induction false} FreshPointsKeys()
    ensures forall n: nat :: 1 <= n <= 9 ==> PointId(n) in FreshPoints()
    ensures forall id :: id in FreshPoints() ==> exists n: nat :: 1 <= n <= 9 && id == PointId(n)
    ensures forall id :: id in FreshPoints() ==>
      FreshPoints()[id].id == id && FreshPoints()[id].hits == 0 && !FreshPoints()[id].done
  {
    BasePointsGrid();
    var ps := BasePoints();
    forall n: nat | 1 <= n <= 9
      ensures PointId(n) in FreshPoints()
    {
      assert ps[n - 1].id == PointId(n);
    }
    forall id | id in FreshPoints()
      ensures exists n: nat :: 1 <= n <= 9 && id == PointId(n)
      ensures FreshPoints()[id].id == id && FreshPoints()[id].hits == 0 && !FreshPoints()[id].done
    {
      var i :| 0 <= i < 9 && ps[i].id == id;
      assert id == PointId(i + 1);
      FromEntriesLast(ps, i);
    }
  }

  /** ... and point `ptN` sits on column `(N - 1) % 3` and row `(N - 1) / 3` of the grid. */
  lemma {:induction false} FreshPointsPositions(n: nat)
    requires 1 <= n <= 9
    ensures PointId(n) in FreshPoints()
    ensures FreshPoints()[PointId(n)] == CalibrationPoint(PointId(n), Grid[(n - 1) % 3], Grid[(n - 1) / 3], 0, false)
  {
    BasePointsGrid();
    var ps := BasePoints();
    assert ps[n - 1].id == PointId(n);
    FromEntriesLast(ps, n - 1);
  }

  /** Every point in the record is done. */
  predicate AllDone(points: map<string, CalibrationPoint>) {
    forall q :: q in points ==> points[q].done
  }

  /** The click handler's effect on the record: an unknown or done point is ignored;
      otherwise one more hit, and done once the hits reach `required`. */
  function ClickPoints(points: map<string, CalibrationPoint>, id: string, required: int): (m: map<string, CalibrationPoint>)
    ensures m.Keys == points.Keys
    ensures id !in points || points[id].done ==> m == points
    ensures forall q :: q in points && q != id ==> m[q] == points[q]
    ensures id in points && !points[id].done ==>
      && m[id].hits == points[id].hits + 1
      && (m[id].done <==> m[id].hits >= required)
      && m[id] == points[id].(hits := m[id].hits, done := m[id].done)
    ensures forall q :: q in points && points[q].done ==> m[q].done
  {
    if id !in points || points[id].done then points
    else
      var p := points[id];
      var hits := p.hits + 1;
      points[id := p.(hits := hits, done := hits >= required)]
  }

  /** `k` clicks on the same point. */
  function Repeat(points: map<string, CalibrationPoint>, id: string, k: nat, required: int): map<string, CalibrationPoint> {
    if k == 0 then points else ClickPoints(Repeat(points, id, k - 1, required), id, required)
  }

  /** From no hits, exactly `required` clicks make a point done, and further clicks are
      ignored; no other point changes. */
  lemma {:induction false} ClicksUntilDone(points: map<string, CalibrationPoint>, id: string, k: nat, required: int)
    requires id in points && points[id].hits == 0 && !points[id].done && required >= 1
    ensures var m := Repeat(points, id, k, required);
      && m.Keys == points.Keys
      && m[id].hits == (if k < required then k else required)
      && (m[id].done <==> k >= required)
      && forall q :: q in points && q != id ==> m[q] == points[q]
  {
    if k > 0 {
      ClicksUntilDone(points, id, k - 1, required);
    }
  }

  /** Clicks on a done point change nothing. */
  lemma {:induction false} RepeatOnDone(points: map<string, CalibrationPoint>, id: string, k: nat, required: int)
    requires id in points && points[id].done
    ensures Repeat(points, id, k, required) == points
  {
    if k > 0 {
      RepeatOnDone(points, id, k - 1, required);
    }
  }

  /** `required` clicks on each id of `ids` in turn. */
  function ClickEach(points: map<string, CalibrationPoint>, ids: seq<string>, required: int): map<string, CalibrationPoint>
    decreases |ids|
  {
    if ids == [] then points
    else ClickEach(Repeat(points, ids[0], if required >= 0 then required else 0, required), ids[1..], required)
  }

  /** Clicking every listed point `required` times makes each of them done and leaves the
      others as they were, when every listed point starts done or without hits. */
  lemma {:induction false} ClickEachDone(points: map<string, CalibrationPoint>, ids: seq<string>, required: int)
    requires required >= 1
    requires forall i :: 0 <= i < |ids| ==> ids[i] in points && (points[ids[i]].done || points[ids[i]].hits == 0)
    ensures var m := ClickEach(points, ids, required);
      && m.Keys == points.Keys
      && (forall i :: 0 <= i < |ids| ==> m[ids[i]].done)
      && (forall q :: q in points && q !in ids ==> m[q] == points[q])
  {
    if ids != [] {
      var id := ids[0];
      var next := Repeat(points, id, required, required);
      if points[id].done {
        RepeatOnDone(points, id, required, required);
      } else {
        ClicksUntilDone(points, id, required, required);
      }
      assert next[id].done;
      ClickEachDone(next, ids[1..], required);
      var m := ClickEach(next, ids[1..], required);
      forall i | 0 <= i < |ids|
        ensures m[ids[i]].done
      {
        if i > 0 {
          assert ids[i] == ids[1..][i - 1];
        } else if id !in ids[1..] {
          assert m[id] == next[id];
        } else {
          var j :| 0 <= j < |ids[1..]| && ids[1..][j] == id;
        }
      }
    }
  }

  function AllIds(): seq<string> {
    seq(9, i requires 0 <= i < 9 => PointId(i + 1))
  }

  /** The ids pt1 to pt9 are exactly the keys of a fresh record, each point without hits. */
  lemma {:induction false} AllIdsFresh()
    ensures forall i :: 0 <= i < |AllIds()| ==>
      AllIds()[i] in FreshPoints() && FreshPoints()[AllIds()[i]].hits == 0
    ensures forall q :: q in FreshPoints() ==> q in AllIds()
  {
    FreshPointsKeys();
    var ids := AllIds();
    var m := FreshPoints();
    forall i | 0 <= i < |ids|
      ensures ids[i] in m && m[ids[i]].hits == 0
    {
      assert ids[i] == PointId(i + 1);
    }
    forall q | q in m
      ensures q in ids
    {
      var n: nat :| 1 <= n <= 9 && q == PointId(n);
      assert ids[n - 1] == q;
    }
  }

  /** From a fresh record, `required` clicks on each of pt1 to pt9 complete the calibration. */
  lemma {:induction false} CalibrationCompletes(required: int)
    requires required >= 1
    ensures AllDone(ClickEach(FreshPoints(), AllIds(), required))
  {
    AllIdsFresh();
    ClickEachDone(FreshPoints(), AllIds(), required);
  }

  // ---------------------------------------------------------------------
  // Accuracy
  // ---------------------------------------------------------------------

  function SumX(ps: seq<Point>): real {
    if ps == [] then 0.0 else SumX(ps[..|ps| - 1]) + ps[|ps| - 1].x
  }

  function SumY(ps: seq<Point>): real {
    if ps == [] then 0.0 else SumY(ps[..|ps| - 1]) + ps[|ps| - 1].y
  }

  /** The mean of the stored points. */
  function Centroid(ps: seq<Point>): Point
    requires |ps| > 0
  {
    Point(SumX(ps) / |ps| as real, SumY(ps) / |ps| as real)
  }

  /** The summed offsets of the points from `c` on each axis. */
  function OffsetX(ps: seq<Point>, c: real): real {
    if ps == [] then 0.0 else OffsetX(ps[..|ps| - 1], c) + (ps[|ps| - 1].x - c)
  }

  function OffsetY(ps: seq<Point>, c: real): real {
    if ps == [] then 0.0 else OffsetY(ps[..|ps| - 1], c) + (ps[|ps| - 1].y - c)
  }

  lemma {:induction false} OffsetSum(ps: seq<Point>, cx: real, cy: real)
    ensures OffsetX(ps, cx) == SumX(ps) - |ps| as real * cx
    ensures OffsetY(ps, cy) == SumY(ps) - |ps| as real * cy
  {
    if ps != [] {
      OffsetSum(ps[..|ps| - 1], cx, cy);
    }
  }

  /** The centroid balances the points: their offsets from it sum to zero on both axes. */
  lemma CentroidBalanced(ps: seq<Point>)
    requires |ps| > 0
    ensures OffsetX(ps, Centroid(ps).x) == 0.0 && OffsetY(ps, Centroid(ps).y) == 0.0
  {
    var c := Centroid(ps);
    OffsetSum(ps, c.x, c.y);
    assert |ps| as real * (SumX(ps) / |ps| as real) == SumX(ps);
    assert |ps| as real * (SumY(ps) / |ps| as real) == SumY(ps);
  }

  /** The summed distances of the points from `c`. */
  function SumDist(ps: seq<Point>, c: Point, norm: (real, real) -> real): real {
    if ps == [] then 0.0 else SumDist(ps[..|ps| - 1], c, norm) + norm(ps[|ps| - 1].x - c.x, ps[|ps| - 1].y - c.y)
  }

  /** `updateAccuracy`: none without stored points, else the mean distance from the centroid. */
  function Accuracy(stored: Option<seq<Point>>, norm: (real, real) -> real): (r: Option<real>)
    ensures r.None? <==> stored.None? || |stored.value| == 0
  {
    if stored.None? || |stored.value| == 0 then None
    else Some(SumDist(stored.value, Centroid(stored.value), norm) / |stored.value| as real)
  }

  lemma {:induction false} SumDistNonNegative(ps: seq<Point>, c: Point, norm: (real, real) -> real)
    requires forall a, b :: norm(a, b) >= 0.0
    ensures SumDist(ps, c, norm) >= 0.0
  {
    if ps != [] {
      SumDistNonNegative(ps[..|ps| - 1], c, norm);
    }
  }

  /** With a distance that is never negative, so is the accuracy. */
  lemma AccuracyNonNegative(stored: Option<seq<Point>>, norm: (real, real) -> real)
    requires forall a, b :: norm(a, b) >= 0.0
    ensures Accuracy(stored, norm).Some? ==> Accuracy(stored, norm).value >= 0.0
  {
    if stored.Some? && |stored.value| > 0 {
      SumDistNonNegative(stored.value, Centroid(stored.value), norm);
    }
  }

  /** One stored point is its own centroid: the accuracy is the distance of no offset. */
  lemma SinglePointAccuracy(p: Point, norm: (real, real) -> real)
    ensures Accuracy(Some([p]), norm) == Some(norm(0.0, 0.0))
  {
    var ps := [p];
    assert ps[..0] == [];
    assert SumX(ps) == p.x && SumY(ps) == p.y;
    var c := Centroid(ps);
    assert c == p;
    assert ps[0].x - c.x == 0.0 && ps[0].y - c.y == 0.0;
    assert SumDist(ps, c, norm) == norm(0.0, 0.0);
    assert |ps| as real == 1.0;
    assert SumDist(ps, c, norm) / |ps| as real == norm(0.0, 0.0);
  }

  // ---------------------------------------------------------------------
  // The hook
  // ---------------------------------------------------------------------

  /** The hook's state: `status`, `accuracy`, `pointsRef` and `requiredRef`. */
  class Calibrator {
    var status: Status
    var accuracy: Option<real>
    var points: map<string, CalibrationPoint>
    const required: int

    /** `requiredClicks` defaults to 5; the record starts empty until the first reset. */
    constructor (requiredClicks: Option<int>)
      ensures required == (if requiredClicks.Some? then requiredClicks.value else DefaultRequiredClicks)
      ensures status == Idle && accuracy.None? && points == map[]
    {
      required := if requiredClicks.Some? then requiredClicks.value else DefaultRequiredClicks;
      status := Idle;
      accuracy := None;
      points := map[];
    }

    /** `startCalibration` */
    method StartCalibration()
      modifies this`points, this`accuracy, this`status
      ensures points == FreshPoints() && accuracy.None? && status == Running
    {
      points := FromEntries(BasePoints());
      accuracy := None;
      status := Running;
    }

    /** `reset` */
    method Reset()
      modifies this`points, this`accuracy, this`status
      ensures points == FreshPoints() && accuracy.None? && status == Idle
    {
      points := FromEntries(BasePoints());
      accuracy := None;
      status := Idle;
    }

    /** A click on the button of point `id`; on the click that completes the last point the
        status becomes completed and the accuracy is read from the tracker's stored points. */
    method Click(id: string, stored: Option<seq<Point>>, norm: (real, real) -> real)
      modifies this`points, this`status, this`accuracy
      ensures points == ClickPoints(old(points), id, required)
      ensures id in old(points) && !old(points)[id].done && AllDone(points) ==>
        status == Completed && accuracy == Accuracy(stored, norm)
      ensures !(id in old(points) && !old(points)[id].done && AllDone(points)) ==>
        status == old(status) && accuracy == old(accuracy)
      ensures old(AllDone(points)) ==>
        points == old(points) && status == old(status) && accuracy == old(accuracy)
    {
      if id !in points || points[id].done {
        return;
      }
      var next := points[id];
      next := next.(hits := next.hits + 1);
      if next.hits >= required {
        next := next.(done := true);
      }
      points := points[id := next];
      if forall q :: q in points ==> points[q].done {
        status := Completed;
        if stored.None? || |stored.value| == 0 {
          accuracy := None;
        } else {
          var c := Centroid(stored.value);
          accuracy := Some(SumDist(stored.value, c, norm) / |stored.value| as real);
        }
      }
    }
  }
}
