/** The routine cards (src/components/RoutineSection.tsx): one card per
    routine with a preview of its first three steps in `order_index` order,
    an overflow line for the rest, a run button that is disabled while a run
    is pending, and the highlight of the scan screen. */
module RoutineSection {
  import opened Records

  const PreviewSize: int := 3

  // ---------------------------------------------------------------------
  // The stable sort by order_index
  // ---------------------------------------------------------------------

  predicate SortedByOrder(s: seq<RoutineDevice>) {
    forall i, j :: 0 <= i < j < |s| ==> s[i].orderIndex <= s[j].orderIndex
  }

  /** The steps carrying one order index, in their relative order. */
  function WithOrder(s: seq<RoutineDevice>, k: int): seq<RoutineDevice> {
    if s == [] then []
    else (if s[0].orderIndex == k then [s[0]] else []) + WithOrder(s[1..], k)
  }

  /** Put `x` before the first step whose order index is not smaller. */
  function Insert(x: RoutineDevice, s: seq<RoutineDevice>): seq<RoutineDevice> {
    if s == [] || x.orderIndex <= s[0].orderIndex then [x] + s
    else [s[0]] + Insert(x, s[1..])
  }

  /** `sort((a, b) => a.order_index - b.order_index)`, which is stable. */
  function SortByOrder(s: seq<RoutineDevice>): seq<RoutineDevice> {
    if s == [] then [] else Insert(s[0], SortByOrder(s[1..]))
  }

  lemma {:induction false} InsertCount(x: RoutineDevice, s: seq<RoutineDevice>)
    ensures multiset(Insert(x, s)) == multiset{x} + multiset(s)
    ensures |Insert(x, s)| == |s| + 1
  {
    if s != [] && x.orderIndex > s[0].orderIndex {
      InsertCount(x, s[1..]);
      assert s == [s[0]] + s[1..];
      assert multiset(s) == multiset{s[0]} + multiset(s[1..]);
    }
  }

  /** Inserting a step at or above a bound keeps every step at or above it. */
  lemma {:induction false} InsertAbove(x: RoutineDevice, s: seq<RoutineDevice>, low: int)
    requires low <= x.orderIndex
    requires forall i :: 0 <= i < |s| ==> low <= s[i].orderIndex
    ensures forall i :: 0 <= i < |Insert(x, s)| ==> low <= Insert(x, s)[i].orderIndex
  {
    if s != [] && x.orderIndex > s[0].orderIndex {
      InsertAbove(x, s[1..], low);
      var r := Insert(x, s[1..]);
      var q := [s[0]] + r;
      forall i | 0 <= i < |q|
        ensures low <= q[i].orderIndex
      {
        if i > 0 {
          assert q[i] == r[i - 1];
        }
      }
    }
  }

  lemma {:induction false} InsertSorted(x: RoutineDevice, s: seq<RoutineDevice>)
    requires SortedByOrder(s)
    ensures SortedByOrder(Insert(x, s))
  {
    if s != [] && x.orderIndex > s[0].orderIndex {
      var t := s[1..];
      assert SortedByOrder(t);
      InsertSorted(x, t);
      forall i | 0 <= i < |t|
        ensures s[0].orderIndex <= t[i].orderIndex
      {
        assert t[i] == s[1 + i];
      }
      InsertAbove(x, t, s[0].orderIndex);
      var r := Insert(x, t);
      var q := [s[0]] + r;
      forall i, j | 0 <= i < j < |q|
        ensures q[i].orderIndex <= q[j].orderIndex
      {
        assert q[j] == r[j - 1];
        if i > 0 {
          assert q[i] == r[i - 1];
        }
      }
    }
  }

  /** `WithOrder` of a sequence with a known first step. */
  lemma WithOrderCons(y: RoutineDevice, t: seq<RoutineDevice>, k: int)
    ensures WithOrder([y] + t, k) == (if y.orderIndex == k then [y] else []) + WithOrder(t, k)
  {
    var q := [y] + t;
    assert q[0] == y && q[1..] == t;
  }

  lemma {:induction false} InsertWithOrder(x: RoutineDevice, s: seq<RoutineDevice>, k: int)
    ensures WithOrder(Insert(x, s), k) == (if x.orderIndex == k then [x] else []) + WithOrder(s, k)
  {
    var here := if x.orderIndex == k then [x] else [];
    if s == [] || x.orderIndex <= s[0].orderIndex {
      WithOrderCons(x, s, k);
    } else {
      var first := if s[0].orderIndex == k then [s[0]] else [];
      InsertWithOrder(x, s[1..], k);
      WithOrderCons(s[0], Insert(x, s[1..]), k);
      WithOrderCons(s[0], s[1..], k);
      assert s == [s[0]] + s[1..];
      assert first == [] || here == [];
      calc {
        WithOrder(Insert(x, s), k);
        first + (here + WithOrder(s[1..], k));
        here + (first + WithOrder(s[1..], k));
        here + WithOrder(s, k);
      }
    }
  }

  /** The sort orders by `order_index`, is a permutation, and keeps steps with equal order
      indices in their original relative order. */
  lemma {:induction false} SortByOrderSpec(s: seq<RoutineDevice>)
    ensures SortedByOrder(SortByOrder(s))
    ensures multiset(SortByOrder(s)) == multiset(s)
    ensures |SortByOrder(s)| == |s|
    ensures forall k :: WithOrder(SortByOrder(s), k) == WithOrder(s, k)
  {
    if s != [] {
      SortByOrderSpec(s[1..]);
      InsertSorted(s[0], SortByOrder(s[1..]));
      InsertCount(s[0], SortByOrder(s[1..]));
      assert s == [s[0]] + s[1..];
      forall k
        ensures WithOrder(SortByOrder(s), k) == WithOrder(s, k)
      {
        InsertWithOrder(s[0], SortByOrder(s[1..]), k);
      }
    }
  }

  // ---------------------------------------------------------------------
  // The preview
  // ---------------------------------------------------------------------

  /** The steps shown on a card: the first three after sorting. */
  function Preview(steps: seq<RoutineDevice>): (r: seq<RoutineDevice>)
    ensures |r| == if |steps| < PreviewSize then |steps| else PreviewSize
    ensures SortedByOrder(r)
    ensures multiset(r) <= multiset(steps)
  {
    SortByOrderSpec(steps);
    var sorted := SortByOrder(steps);
    var n := if |steps| < PreviewSize then |steps| else PreviewSize;
    assert sorted == sorted[..n] + sorted[n..];
    assert multiset(sorted) == multiset(sorted[..n]) + multiset(sorted[n..]);
    sorted[..n]
  }

  /** The sorted steps past the preview hold every step the preview leaves out. */
  lemma {:induction false} OmittedInTail(sorted: seq<RoutineDevice>, n: int, x: RoutineDevice)
    requires 0 <= n <= |sorted|
    requires x in multiset(sorted) && x !in multiset(sorted[..n])
    ensures exists m :: n <= m < |sorted| && sorted[m] == x
  {
    assert sorted == sorted[..n] + sorted[n..];
    assert multiset(sorted) == multiset(sorted[..n]) + multiset(sorted[n..]);
    assert x in multiset(sorted[n..]);
    var m :| 0 <= m < |sorted[n..]| && sorted[n..][m] == x;
    assert sorted[n + m] == x;
  }

  /** A step left out of the preview orders no earlier than any step shown. */
  lemma {:induction false} PreviewSmallest(steps: seq<RoutineDevice>, i: int, j: int)
    requires 0 <= i < |Preview(steps)| && 0 <= j < |steps|
    requires steps[j] !in multiset(Preview(steps))
    ensures Preview(steps)[i].orderIndex <= steps[j].orderIndex
  {
    SortByOrderSpec(steps);
    var sorted := SortByOrder(steps);
    var n := |Preview(steps)|;
    assert Preview(steps) == sorted[..n];
    assert steps[j] in multiset(steps);
    OmittedInTail(sorted, n, steps[j]);
    var m :| n <= m < |sorted| && sorted[m] == steps[j];
    assert sorted[i] == Preview(steps)[i];
    assert i < m;
  }

  /** One preview line: `idx + 1. name (켜기|끄기)`, with "알 수 없음" for a step whose device
      is missing or has an empty name. */
  datatype Line = Line(number: int, deviceName: string, turnsOn: bool)

  function PreviewLine(idx: int, step: RoutineDevice): (l: Line)
    ensures l.number == idx + 1 && l.turnsOn == step.targetState
    ensures step.device.Some? && step.device.value.name != [] ==> l.deviceName == step.device.value.name
    ensures !(step.device.Some? && step.device.value.name != []) ==> l.deviceName == "알 수 없음"
  {
    Line(idx + 1, if step.device.Some? && step.device.value.name != [] then step.device.value.name else "알 수 없음",
      step.targetState)
  }

  function PreviewLines(steps: seq<RoutineDevice>): (r: seq<Line>)
    ensures |r| == |Preview(steps)|
    ensures forall i :: 0 <= i < |r| ==> r[i] == PreviewLine(i, Preview(steps)[i])
  {
    var p := Preview(steps);
    seq(|p|, i requires 0 <= i < |p| => PreviewLine(i, p[i]))
  }

  /** The `... 외 N개` line: present exactly when some steps are not previewed, and N counts them. */
  function Overflow(steps: seq<RoutineDevice>): (r: Option<int>)
    ensures r.Some? <==> |steps| > PreviewSize
    ensures r.Some? ==> r.value > 0 && |Preview(steps)| + r.value == |steps|
  {
    if |steps| > PreviewSize then Some(|steps| - PreviewSize) else None
  }

  // ---------------------------------------------------------------------
  // The cards
  // ---------------------------------------------------------------------

  /** What one card shows. */
  datatype Card = Card(
    routineId: string,
    highlighted: bool,
    executing: bool,
    disabled: bool,
    stepCount: int,
    lines: seq<Line>,
    overflow: Option<int>)

  /** The run button is disabled while this routine executes or any run is pending. */
  predicate Disabled(routineId: string, executingRoutineId: Option<string>, pending: bool) {
    executingRoutineId == Some(routineId) || pending
  }

  /** `isSwitchActive`, which is `() => false` when the screen passes none. */
  predicate Highlighted(isSwitchActive: Option<string -> bool>, routineId: string) {
    isSwitchActive.Some? && isSwitchActive.value(routineId)
  }

  function CardOf(rt: Routine, executingRoutineId: Option<string>, pending: bool, isSwitchActive: Option<string -> bool>): Card {
    Card(rt.id, Highlighted(isSwitchActive, rt.id), executingRoutineId == Some(rt.id),
      Disabled(rt.id, executingRoutineId, pending), |rt.routineDevices|,
      PreviewLines(rt.routineDevices), Overflow(rt.routineDevices))
  }

  /** The section: nothing at all without routines, otherwise one card per routine, in order. */
  function Render(routines: seq<Routine>, executingRoutineId: Option<string>, pending: bool,
                  isSwitchActive: Option<string -> bool>): (r: Option<seq<Card>>)
    ensures r.None? <==> |routines| == 0
    ensures r.Some? ==> |r.value| == |routines| && forall i :: 0 <= i < |routines| ==>
      && r.value[i].routineId == routines[i].id
      && (r.value[i].disabled <==> pending || executingRoutineId == Some(routines[i].id))
      && (isSwitchActive.None? ==> !r.value[i].highlighted)
      && (r.value[i].overflow.Some? <==> |routines[i].routineDevices| > PreviewSize)
      && |r.value[i].lines| <= PreviewSize
  {
    if |routines| == 0 then None
    else Some(seq(|routines|, i requires 0 <= i < |routines| => CardOf(routines[i], executingRoutineId, pending, isSwitchActive)))
  }

  // ---------------------------------------------------------------------
  // The run handler
  // ---------------------------------------------------------------------

  class Section {
    var executingRoutineId: Option<string>
    var pending: bool
    /** The `executeRoutine` requests sent. */
    var log: seq<Activation>
    /** The number of `onRoutineUpdate` calls. */
    var updates: nat

    constructor ()
      ensures executingRoutineId.None? && !pending && log == [] && updates == 0
    {
      executingRoutineId := None;
      pending := false;
      log := [];
      updates := 0;
    }

    /** `handleExecuteRoutine` up to the request: nothing without a user id; otherwise mark
        the run as pending and this routine as executing, then send the request. */
    method BeginExecute(userId: Option<string>, routineId: string) returns (started: bool)
      modifies this`pending, this`executingRoutineId, this`log
      ensures started <==> Truthy(userId)
      ensures started ==> pending && executingRoutineId == Some(routineId) && log == old(log) + [ExecuteRoutine(routineId)]
      ensures !started ==>
        pending == old(pending) && executingRoutineId == old(executingRoutineId) && log == old(log)
    {
      if !(userId.Some? && userId.value != []) {
        return false;
      }
      pending := true;
      executingRoutineId := Some(routineId);
      log := log + [ExecuteRoutine(routineId)];
      started := true;
    }

    /** The rest: a successful run calls `onRoutineUpdate` when one was passed; `finally`
        clears both flags, on success and on failure. */
    method FinishExecute(succeeded: bool, hasUpdateHandler: bool)
      modifies this`pending, this`executingRoutineId, this`updates
      ensures !pending && executingRoutineId.None?
      ensures updates == old(updates) + if succeeded && hasUpdateHandler then 1 else 0
    {
      if succeeded && hasUpdateHandler {
        updates := updates + 1;
      }
      pending := false;
      executingRoutineId := None;
    }
  }
}
