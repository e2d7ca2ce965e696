/** The gaze snap and dwell rule shared by the two device-card screens
    (src/app/access/client.tsx and src/app/access/eye/client.tsx): a card
    captures the gaze when the gaze lies in its bounding rectangle enlarged
    about its centre (1.5 times on the first screen, 3 times on the second),
    the last capturing card in list order wins, and a snapped card is toggled
    once its dwell reaches the screen's threshold. */
module CardSnap {
  import opened Records

  /** A card element's bounding client rectangle. */
  datatype Rect = Rect(left: real, top: real, width: real, height: real)

  /** The enlarged rectangle test, with the source's inclusive comparisons. */
  predicate InExpanded(rect: Rect, gaze: Point, scale: real) {
    var expandedWidth := rect.width * scale;
    var expandedHeight := rect.height * scale;
    var cx := rect.left + rect.width / 2.0;
    var cy := rect.top + rect.height / 2.0;
    var left := cx - expandedWidth / 2.0;
    var top := cy - expandedHeight / 2.0;
    var right := cx + expandedWidth / 2.0;
    var bottom := cy + expandedHeight / 2.0;
    gaze.x >= left && gaze.x <= right && gaze.y >= top && gaze.y <= bottom
  }

  /** The gaze is captured exactly when it is within `scale / 2` card widths and heights of the
      card's centre, borders included. */
  lemma InExpandedIff(rect: Rect, gaze: Point, scale: real)
    ensures InExpanded(rect, gaze, scale) <==>
      && Abs(gaze.x - (rect.left + rect.width / 2.0)) <= rect.width * scale / 2.0
      && Abs(gaze.y - (rect.top + rect.height / 2.0)) <= rect.height * scale / 2.0
  {
  }

  /** Enlarging never loses a capture: the card itself is always inside its enlargement. */
  lemma {:induction false} ExpandedGrows(rect: Rect, gaze: Point, scale: real, larger: real)
    requires rect.width >= 0.0 && rect.height >= 0.0 && scale <= larger
    requires InExpanded(rect, gaze, scale)
    ensures InExpanded(rect, gaze, larger)
  {
    MulNonNeg(rect.width, larger - scale);
    MulNonNeg(rect.height, larger - scale);
  }

  /** A device captures the gaze: its card is registered and the gaze is in the enlargement. */
  predicate Captures(devices: seq<Device>, cards: map<string, Rect>, gaze: Point, scale: real, k: int)
    requires 0 <= k < |devices|
  {
    devices[k].id in cards && InExpanded(cards[devices[k].id], gaze, scale)
  }

  /** `k` is the last capturing device in list order. */
  predicate IsLastCapture(devices: seq<Device>, cards: map<string, Rect>, gaze: Point, scale: real, k: int) {
    && 0 <= k < |devices| && Captures(devices, cards, gaze, scale, k)
    && forall j :: k < j < |devices| ==> !Captures(devices, cards, gaze, scale, j)
  }

  /** The snap loop of one animation frame: every capturing device overwrites `nextSnap`, so the
      last one wins; devices without a registered card are skipped. */
  method ScanSnap(devices: seq<Device>, cards: map<string, Rect>, gaze: Point, scale: real)
    returns (nextSnap: Option<string>)
    ensures nextSnap.None? <==> forall j :: 0 <= j < |devices| ==> !Captures(devices, cards, gaze, scale, j)
    ensures nextSnap.Some? ==>
      exists k :: IsLastCapture(devices, cards, gaze, scale, k) && nextSnap.value == devices[k].id
  {
    nextSnap := None;
    ghost var last: int := -1;
    var i := 0;
    while i < |devices|
      invariant 0 <= i <= |devices| && -1 <= last < i
      invariant last == -1 <==> forall j :: 0 <= j < i ==> !Captures(devices, cards, gaze, scale, j)
      invariant last == -1 ==> nextSnap.None?
      invariant last >= 0 ==> Captures(devices, cards, gaze, scale, last) && nextSnap == Some(devices[last].id)
      invariant forall j :: last < j < i ==> !Captures(devices, cards, gaze, scale, j)
    {
      var device := devices[i];
      if device.id !in cards {
        assert !Captures(devices, cards, gaze, scale, i);
      } else {
        if InExpanded(cards[device.id], gaze, scale) {
          assert Captures(devices, cards, gaze, scale, i);
          nextSnap := Some(device.id);
          last := i;
        } else {
          assert !Captures(devices, cards, gaze, scale, i);
        }
      }
      i := i + 1;
    }
    if last >= 0 {
      assert IsLastCapture(devices, cards, gaze, scale, last);
    }
  }

  /** With no card registered nothing is ever captured. */
  lemma NoCardsNoCapture(devices: seq<Device>, gaze: Point, scale: real, k: int)
    requires 0 <= k < |devices|
    ensures !Captures(devices, map[], gaze, scale, k)
  {
  }

  // ---------------------------------------------------------------------
  // Dwell
  // ---------------------------------------------------------------------

  /** JavaScript `Math.round`: half-way cases round up. */
  function Round(x: real): (r: int)
    ensures r as real - 0.5 <= x < r as real + 0.5
  {
    (x + 0.5).Floor
  }

  function IntMin(a: int, b: int): int { if a <= b then a else b }

  lemma {:induction false} RoundMonotone(x: real, y: real)
    requires x <= y
    ensures Round(x) <= Round(y)
  {
  }

  /** `dwellPercent`: `Math.min(100, Math.round(ms / thresholdMs * 100))`. */
  function DwellPercent(ms: real, thresholdMs: real): int
    requires thresholdMs > 0.0
  {
    IntMin(100, Round(ms / thresholdMs * 100.0))
  }

  /** The percentage is at most 100, reaches 100 at the threshold, is 0 at the start and never
      negative for non-negative progress. */
  lemma {:induction false} DwellPercentBounds(ms: real, thresholdMs: real)
    requires thresholdMs > 0.0
    ensures DwellPercent(ms, thresholdMs) <= 100
    ensures ms >= 0.0 ==> DwellPercent(ms, thresholdMs) >= 0
    ensures ms >= thresholdMs ==> DwellPercent(ms, thresholdMs) == 100
    ensures ms == 0.0 ==> DwellPercent(ms, thresholdMs) == 0
  {
    if ms >= 0.0 {
      DivNonNeg(ms, thresholdMs);
      RoundMonotone(0.0, ms / thresholdMs * 100.0);
      assert Round(0.0) == 0;
    }
    if ms >= thresholdMs {
      DivMonotone(thresholdMs, ms, thresholdMs);
      assert thresholdMs / thresholdMs == 1.0;
      RoundMonotone(100.0, ms / thresholdMs * 100.0);
      assert Round(100.0) == 100;
    }
  }

  /** More dwell never shows less progress. */
  lemma {:induction false} DwellPercentMonotone(ms1: real, ms2: real, thresholdMs: real)
    requires thresholdMs > 0.0 && ms1 <= ms2
    ensures DwellPercent(ms1, thresholdMs) <= DwellPercent(ms2, thresholdMs)
  {
    DivMonotone(ms1, ms2, thresholdMs);
    RoundMonotone(ms1 / thresholdMs * 100.0, ms2 / thresholdMs * 100.0);
  }

  lemma DivNonNeg(a: real, t: real)
    requires a >= 0.0 && t > 0.0
    ensures a / t >= 0.0
  {
  }

  lemma DivMonotone(a: real, b: real, t: real)
    requires a <= b && t > 0.0
    ensures a / t <= b / t
  {
    DivNonNeg(b - a, t);
    assert b / t - a / t == (b - a) / t;
  }

  /** The dwell state the two screens keep: the store's snapped id and progress, and the
      time the current dwell started (`dwellStartRef`). */
  datatype Dwell = Dwell(snapped: Option<string>, start: Option<real>, progressMs: real)

  /** `!dwellStartRef.current`: a start of 0 reads as none. */
  predicate HasStart(start: Option<real>) {
    start.Some? && start.value != 0.0
  }

  /** The dwell effect, re-run whenever the snapped id, the device list or the threshold
      changes: a snapped id (re)starts the dwell now; no snap resets progress and start. */
  function DwellRestart(d: Dwell, now: real): (r: Dwell)
    ensures r.snapped == d.snapped
    ensures Truthy(d.snapped) ==> r.start == Some(now) && r.progressMs == d.progressMs
    ensures !Truthy(d.snapped) ==> r.start == None && r.progressMs == 0.0
  {
    if Truthy(d.snapped) then d.(start := Some(now)) else Dwell(d.snapped, None, 0.0)
  }

  /** The first device carrying `id`, as `devices.find`. */
  function Find(devices: seq<Device>, id: string): (r: Option<Device>)
    ensures r.Some? ==> r.value in devices && r.value.id == id
    ensures r.None? ==> forall j :: 0 <= j < |devices| ==> devices[j].id != id
  {
    if devices == [] then None
    else if devices[0].id == id then Some(devices[0])
    else Find(devices[1..], id)
  }

  datatype DwellTickResult = DwellTickResult(dwell: Dwell, fired: Option<Activation>)

  /** One tick of the 120 ms dwell interval, which exists only while an id is snapped:
      record the elapsed time, and at the threshold toggle the device if it is still listed,
      then clear the snap and the progress. */
  function DwellTick(d: Dwell, devices: seq<Device>, now: real, thresholdMs: real): DwellTickResult {
    if !Truthy(d.snapped) || !HasStart(d.start) then DwellTickResult(d, None)
    else
      var elapsed := now - d.start.value;
      if elapsed >= thresholdMs then
        var target := Find(devices, d.snapped.value);
        DwellTickResult(Dwell(None, d.start, 0.0), if target.Some? then Some(Toggle(target.value)) else None)
      else DwellTickResult(d.(progressMs := elapsed), None)
  }

  /** A tick fires only at or past the threshold, only for the snapped device, which must still
      be listed, and sends the inverse of its state; a firing tick always clears snap and progress. */
  lemma DwellTickFires(d: Dwell, devices: seq<Device>, now: real, thresholdMs: real)
    ensures var r := DwellTick(d, devices, now, thresholdMs);
      && (r.fired.Some? ==>
            && Truthy(d.snapped) && HasStart(d.start) && now - d.start.value >= thresholdMs
            && exists k :: 0 <= k < |devices| && devices[k].id == d.snapped.value && r.fired == Some(Toggle(devices[k])))
      && (Truthy(d.snapped) && HasStart(d.start) && now - d.start.value >= thresholdMs ==>
            r.dwell.snapped.None? && r.dwell.progressMs == 0.0)
      && (Truthy(d.snapped) && HasStart(d.start) && now - d.start.value < thresholdMs ==>
            r == DwellTickResult(d.(progressMs := now - d.start.value), None))
  {
    var r := DwellTick(d, devices, now, thresholdMs);
    if r.fired.Some? {
      var t := Find(devices, d.snapped.value).value;
      var k :| 0 <= k < |devices| && devices[k] == t;
    }
  }

  /** After a firing tick the snap is empty, so later ticks do nothing until a new snap
      restarts the dwell: at most one toggle per dwell start. */
  lemma {:induction false} DwellFiresOnce(d: Dwell, devices: seq<Device>, ticks: seq<real>, thresholdMs: real)
    ensures |Fired(d, devices, ticks, thresholdMs)| <= 1
    decreases |ticks|
  {
    if ticks != [] {
      var r := DwellTick(d, devices, ticks[0], thresholdMs);
      if r.fired.Some? {
        SilentAfterClear(r.dwell, devices, ticks[1..], thresholdMs);
      } else {
        DwellFiresOnce(r.dwell, devices, ticks[1..], thresholdMs);
      }
    }
  }

  /** The activations a run of ticks at the given times emits, with no restart in between. */
  function Fired(d: Dwell, devices: seq<Device>, ticks: seq<real>, thresholdMs: real): seq<Activation>
    decreases |ticks|
  {
    if ticks == [] then []
    else
      var r := DwellTick(d, devices, ticks[0], thresholdMs);
      (if r.fired.Some? then [r.fired.value] else []) + Fired(r.dwell, devices, ticks[1..], thresholdMs)
  }

  lemma {:induction false} SilentAfterClear(d: Dwell, devices: seq<Device>, ticks: seq<real>, thresholdMs: real)
    requires d.snapped.None?
    ensures Fired(d, devices, ticks, thresholdMs) == []
    decreases |ticks|
  {
    if ticks != [] {
      assert DwellTick(d, devices, ticks[0], thresholdMs) == DwellTickResult(d, None);
      SilentAfterClear(d, devices, ticks[1..], thresholdMs);
    }
  }
}
