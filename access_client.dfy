/** The shared access screen (src/app/access/client.tsx) in its three input
    modes: eye (gaze snap over 1.5-times card hitboxes and a 2000 ms dwell),
    mouse (hover snaps, click toggles) and switch (a 2000 ms scan over the
    device list with a Space/Enter key or a select button). The screen reads
    and writes the store; toggles are appended to `log`. */
module AccessScreen {
  import opened Records
  import opened DeviceStore
  import opened CardSnap
  import ScanCycle

  const HitboxScale: real := 1.5
  const DwellThresholdMs: real := 2000.0

  /** What a switch confirmation does. */
  datatype ConfirmOutcome =
    | NoDevices
    | Confirmed(request: Activation)
    /** `devices[switchIndex]` is undefined once the list has shrunk below the index; the
        toggle handler then fails on `device.id` and nothing is sent. */
    | StaleIndex

  /** `handleSwitchClick` and the key handler: nothing on an empty list, otherwise toggle the
      highlighted device. */
  function SwitchConfirm(devices: seq<Device>, index: int): (r: ConfirmOutcome)
    ensures |devices| == 0 <==> r == NoDevices
    ensures r.Confirmed? <==> 0 <= index < |devices|
    ensures r.Confirmed? ==> r.request == Toggle(devices[index])
  {
    if |devices| == 0 then NoDevices
    else if 0 <= index < |devices| then Confirmed(Toggle(devices[index]))
    else StaleIndex
  }

  /** Nothing clamps the index when the list shrinks: a confirm after the list lost its
      highlighted tail reaches a missing device. */
  lemma StaleAfterShrink(devices: seq<Device>, index: int, kept: nat)
    requires 0 < kept <= index < |devices|
    ensures SwitchConfirm(devices[..kept], index) == StaleIndex
  {
  }

  /** The card highlight: the snapped card in eye mode, the scanned card in switch mode. */
  predicate IsHighlighted(mode: StoreMode, snapped: Option<string>, switchIndex: int, devices: seq<Device>, index: int)
    requires 0 <= index < |devices|
  {
    (mode == EyeMode && snapped == Some(devices[index].id)) || (mode == SwitchMode && switchIndex == index)
  }

  /** With distinct ids at most one card is highlighted, and none in mouse mode. */
  lemma AtMostOneHighlighted(mode: StoreMode, snapped: Option<string>, switchIndex: int,
                              devices: seq<Device>, i: int, j: int)
    requires 0 <= i < |devices| && 0 <= j < |devices|
    requires forall a, b :: 0 <= a < b < |devices| ==> devices[a].id != devices[b].id
    requires IsHighlighted(mode, snapped, switchIndex, devices, i)
    requires IsHighlighted(mode, snapped, switchIndex, devices, j)
    ensures i == j && mode != MouseMode
  {
  }

  /** The select button's caption: the highlighted device's name, or "없음" when there is none. */
  function SelectCaption(devices: seq<Device>, index: int): (r: string)
    ensures 0 <= index < |devices| && devices[index].name != [] ==> r == devices[index].name
    ensures !(0 <= index < |devices| && devices[index].name != []) ==> r == "없음"
  {
    if 0 <= index < |devices| && devices[index].name != [] then devices[index].name else "없음"
  }

  class Screen {
    const store: Store
    const mode: StoreMode
    /** `cardRefs`: the bounding rectangle of every mounted card. */
    var cards: map<string, Rect>
    var dwellStart: Option<real>
    var switchIndex: int
    /** The number of `setSnappedDevice` calls made by the snap loop. */
    var snapUpdates: nat
    var log: seq<Activation>

    /** Mounting: the mode and the server-loaded devices go into the store. */
    constructor (store: Store, mode: StoreMode, initialDevices: seq<Device>)
      modifies store`inputMode, store`devices
      ensures this.store == store && this.mode == mode
      ensures store.inputMode == mode && store.devices == initialDevices
      ensures cards == map[] && dwellStart.None? && switchIndex == 0 && snapUpdates == 0 && log == []
    {
      this.store, this.mode := store, mode;
      cards := map[];
      dwellStart := None;
      switchIndex := 0;
      snapUpdates := 0;
      log := [];
      new;
      store.SetInputMode(mode);
      store.SetDevices(initialDevices);
    }

    /** The ref callback of a card: a mounted element registers its rectangle, null removes it. */
    method RegisterCard(id: string, element: Option<Rect>)
      modifies this`cards
      ensures cards == if element.Some? then old(cards)[id := element.value] else old(cards) - {id}
    {
      if element.Some? {
        cards := cards[id := element.value];
      } else {
        cards := cards - {id};
      }
    }

    /** One animation frame of the snap loop (which runs in every mode): the last device whose
        enlarged card holds the gaze, written to the store only when it differs. */
    method SnapFrame()
      modifies store`snappedDeviceId, this`snapUpdates
      ensures store.snappedDeviceId.None? <==>
        forall j :: 0 <= j < |store.devices| ==> !Captures(store.devices, cards, store.gaze, HitboxScale, j)
      ensures store.snappedDeviceId.Some? ==>
        exists k :: IsLastCapture(store.devices, cards, store.gaze, HitboxScale, k)
          && store.snappedDeviceId.value == store.devices[k].id
      ensures snapUpdates == old(snapUpdates) + if store.snappedDeviceId == old(store.snappedDeviceId) then 0 else 1
    {
      var devices, gaze := store.devices, store.gaze;
      var nextSnap := ScanSnap(devices, cards, gaze, HitboxScale);
      if nextSnap != store.snappedDeviceId {
        store.SetSnappedDevice(nextSnap);
        snapUpdates := snapUpdates + 1;
      }
      assert store.devices == devices && store.gaze == gaze;
      assert store.snappedDeviceId == nextSnap;
      assert nextSnap.None? <==> forall j :: 0 <= j < |devices| ==> !Captures(devices, cards, gaze, HitboxScale, j);
    }

    /** The dwell effect, run when the snapped id or the device list changes. */
    method DwellEffect(now: real)
      modifies this`dwellStart, store`dwellProgressMs
      ensures var r := DwellRestart(Dwell(store.snappedDeviceId, old(dwellStart), old(store.dwellProgressMs)), now);
        dwellStart == r.start && store.dwellProgressMs == r.progressMs
    {
      if store.snappedDeviceId.Some? && store.snappedDeviceId.value != [] {
        dwellStart := Some(now);
        return;
      }
      store.SetDwellProgress(0.0);
      dwellStart := None;
    }

    /** One tick of the 120 ms dwell interval. */
    method DwellIntervalTick(now: real)
      modifies this`log, store`snappedDeviceId, store`dwellProgressMs
      ensures var r := DwellTick(Dwell(old(store.snappedDeviceId), dwellStart, old(store.dwellProgressMs)),
                                 store.devices, now, DwellThresholdMs);
        && store.snappedDeviceId == r.dwell.snapped && store.dwellProgressMs == r.dwell.progressMs
        && log == old(log) + (if r.fired.Some? then [r.fired.value] else [])
    {
      if !(store.snappedDeviceId.Some? && store.snappedDeviceId.value != []) {
        return;
      }
      if !(dwellStart.Some? && dwellStart.value != 0.0) {
        return;
      }
      var elapsed := now - dwellStart.value;
      store.SetDwellProgress(elapsed);
      if elapsed >= DwellThresholdMs {
        var target := Find(store.devices, store.snappedDeviceId.value);
        if target.Some? {
          log := log + [ToggleDevice(target.value.id, !IsOn(target.value))];
        }
        store.SetSnappedDevice(None);
        store.SetDwellProgress(0.0);
      }
    }

    /** `dwellPercent` */
    function DwellPercentShown(): (r: int)
      reads this, store
      ensures r <= 100
      ensures store.dwellProgressMs >= 0.0 ==> r >= 0
    {
      DwellPercentBounds(store.dwellProgressMs, DwellThresholdMs);
      DwellPercent(store.dwellProgressMs, DwellThresholdMs)
    }

    /** A tick of the 2000 ms scan interval (the timer itself is not modelled), which runs only in switch mode on a non-empty list. */
    method SwitchTick()
      modifies this`switchIndex
      ensures mode == SwitchMode && |store.devices| > 0 ==>
        switchIndex == ScanCycle.NextIndex(old(switchIndex), |store.devices|) && 0 <= switchIndex < |store.devices|
      ensures !(mode == SwitchMode && |store.devices| > 0) ==> switchIndex == old(switchIndex)
    {
      if mode == SwitchMode && |store.devices| > 0 {
        switchIndex := (switchIndex + 1) % |store.devices|;
      }
    }

    method Confirm() returns (outcome: ConfirmOutcome)
      modifies this`log
      ensures outcome == SwitchConfirm(store.devices, switchIndex)
      ensures log == old(log) + if outcome.Confirmed? then [outcome.request] else []
    {
      if |store.devices| == 0 {
        return NoDevices;
      }
      if !(0 <= switchIndex < |store.devices|) {
        return StaleIndex;
      }
      var device := store.devices[switchIndex];
      outcome := Confirmed(ToggleDevice(device.id, !IsOn(device)));
      log := log + [outcome.request];
    }

    /** The keydown listener, installed only in switch mode: Space or Enter confirms. */
    method SwitchKey(key: string) returns (outcome: Option<ConfirmOutcome>)
      modifies this`log
      ensures mode == SwitchMode && (key == " " || key == "Enter") ==>
        outcome == Some(SwitchConfirm(store.devices, switchIndex))
      ensures !(mode == SwitchMode && (key == " " || key == "Enter")) ==> outcome.None? && log == old(log)
      ensures outcome.Some? && outcome.value.Confirmed? ==> log == old(log) + [outcome.value.request]
      ensures outcome.Some? && !outcome.value.Confirmed? ==> log == old(log)
    {
      if mode != SwitchMode || !(key == " " || key == "Enter") {
        return None;
      }
      var r := Confirm();
      outcome := Some(r);
    }

    /** The select button, rendered only in switch mode. */
    method SwitchButton() returns (outcome: Option<ConfirmOutcome>)
      modifies this`log
      ensures mode == SwitchMode ==> outcome == Some(SwitchConfirm(store.devices, switchIndex))
      ensures mode != SwitchMode ==> outcome.None? && log == old(log)
      ensures outcome.Some? && outcome.value.Confirmed? ==> log == old(log) + [outcome.value.request]
      ensures outcome.Some? && !outcome.value.Confirmed? ==> log == old(log)
    {
      if mode != SwitchMode {
        return None;
      }
      var r := Confirm();
      outcome := Some(r);
    }

    /** Hovering a card in mouse mode snaps it. */
    method MouseEnter(id: string)
      modifies store`snappedDeviceId
      ensures store.snappedDeviceId == if mode == MouseMode then Some(id) else old(store.snappedDeviceId)
    {
      if mode == MouseMode {
        store.SetSnappedDevice(Some(id));
      }
    }

    method MouseLeave()
      modifies store`snappedDeviceId
      ensures store.snappedDeviceId == if mode == MouseMode then None else old(store.snappedDeviceId)
    {
      if mode == MouseMode {
        store.SetSnappedDevice(None);
      }
    }

    /** Clicking a card in mouse mode toggles that device directly. */
    method MouseClick(device: Device)
      modifies this`log
      ensures log == old(log) + if mode == MouseMode then [Toggle(device)] else []
    {
      if mode == MouseMode {
        log := log + [ToggleDevice(device.id, !IsOn(device))];
      }
    }

    /** `resetView`: drop the snap and the progress. */
    method ResetView()
      modifies store`snappedDeviceId, store`dwellProgressMs
      ensures store.snappedDeviceId.None? && store.dwellProgressMs == 0.0
    {
      store.SetSnappedDevice(None);
      store.SetDwellProgress(0.0);
    }
  }
}
