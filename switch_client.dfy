/** The scanning access screen (src/app/access/switch/client.tsx): every
    routine and then every device in one scan list, a highlight that moves
    one item per `scanSpeed` seconds, and a Space/Enter key or a select
    button that acts on the highlighted item: a device is toggled, a routine
    is executed. Requests are appended to `log`. */
module SwitchScreen {
  import opened Records
  import opened DeviceStore
  import opened Text
  import ScanCycle

  const DefaultScanSeconds: int := 2

  datatype ScanItem = RoutineItem(routine: Routine) | DeviceItem(device: Device)

  function RoutineItems(routines: seq<Routine>): (r: seq<ScanItem>)
    ensures |r| == |routines|
    ensures forall i :: 0 <= i < |routines| ==> r[i] == RoutineItem(routines[i])
  {
    if routines == [] then []
    else RoutineItems(routines[..|routines| - 1]) + [RoutineItem(routines[|routines| - 1])]
  }

  function DeviceItems(devices: seq<Device>): (r: seq<ScanItem>)
    ensures |r| == |devices|
    ensures forall i :: 0 <= i < |devices| ==> r[i] == DeviceItem(devices[i])
  {
    if devices == [] then []
    else DeviceItems(devices[..|devices| - 1]) + [DeviceItem(devices[|devices| - 1])]
  }

  /** `scanItems`: the routines first, in order, then the devices, in order. */
  function ScanItems(routines: seq<Routine>, devices: seq<Device>): (r: seq<ScanItem>)
    ensures |r| == |routines| + |devices|
    ensures forall i :: 0 <= i < |routines| ==> r[i] == RoutineItem(routines[i])
    ensures forall j :: 0 <= j < |devices| ==> r[|routines| + j] == DeviceItem(devices[j])
  {
    RoutineItems(routines) + DeviceItems(devices)
  }

  /** The `useMemo` that builds `scanItems` by pushing in two `forEach` loops. */
  method BuildScanItems(routines: seq<Routine>, devices: seq<Device>) returns (items: seq<ScanItem>)
    ensures items == ScanItems(routines, devices)
  {
    items := [];
    for i := 0 to |routines|
      invariant items == RoutineItems(routines[..i])
    {
      assert routines[..i + 1][..i] == routines[..i];
      items := items + [RoutineItem(routines[i])];
    }
    assert routines[..|routines|] == routines;
    for j := 0 to |devices|
      invariant items == RoutineItems(routines) + DeviceItems(devices[..j])
    {
      assert devices[..j + 1][..j] == devices[..j];
      items := items + [DeviceItem(devices[j])];
    }
    assert devices[..|devices|] == devices;
  }

  /** What confirming the highlighted item does. */
  datatype Choice =
    | NothingToScan
    | DeviceChosen(request: Activation)
    | RoutineChosen(routineId: string)
    /** The index is past the end of a list that has shrunk: `scanItems[switchIndex]` is
        undefined and the handler fails before acting. */
    | MissingItem

  /** The key and button handlers: nothing on an empty list, else act on the item's type. */
  function ChoiceAt(items: seq<ScanItem>, index: int): (r: Choice)
    ensures r == NothingToScan <==> |items| == 0
    ensures r.DeviceChosen? <==> 0 <= index < |items| && items[index].DeviceItem?
    ensures r.DeviceChosen? ==> r.request == Toggle(items[index].device)
    ensures r.RoutineChosen? <==> 0 <= index < |items| && items[index].RoutineItem?
    ensures r.RoutineChosen? ==> r.routineId == items[index].routine.id
  {
    if |items| == 0 then NothingToScan
    else if !(0 <= index < |items|) then MissingItem
    else match items[index]
      case DeviceItem(d) => DeviceChosen(ToggleDevice(d.id, !IsOn(d)))
      case RoutineItem(rt) => RoutineChosen(rt.id)
  }

  /** `isSwitchActive` handed to the routine section. */
  predicate RoutineHighlighted(items: seq<ScanItem>, index: int, routineId: string) {
    0 <= index < |items| && items[index].RoutineItem? && items[index].routine.id == routineId
  }

  /** `isSwitchActive` handed to the 3D device view. */
  predicate DeviceHighlighted(items: seq<ScanItem>, index: int, deviceId: string) {
    0 <= index < |items| && items[index].DeviceItem? && items[index].device.id == deviceId
  }

  /** The first `|routines|` positions highlight routines, the rest devices. */
  lemma {:induction false} HighlightByPosition(routines: seq<Routine>, devices: seq<Device>, index: int, id: string)
    ensures RoutineHighlighted(ScanItems(routines, devices), index, id)
      <==> 0 <= index < |routines| && routines[index].id == id
    ensures DeviceHighlighted(ScanItems(routines, devices), index, id)
      <==> |routines| <= index < |routines| + |devices| && devices[index - |routines|].id == id
  {
    var items := ScanItems(routines, devices);
    if |routines| <= index < |routines| + |devices| {
      assert items[|routines| + (index - |routines|)] == DeviceItem(devices[index - |routines|]);
    }
  }

  /** The `switchIndex + 1 / length` label: the text before " / " reads back as the
      one-based position. */
  function PositionLabel(index: int, total: int): (r: string)
    ensures var k := |IntToString(index + 1)|;
      && k <= |r| && ParseInt(r[..k]) == Some(index + 1)
      && r[k..] == " / " + IntToString(total)
  {
    var head, tail := IntToString(index + 1), " / " + IntToString(total);
    IntToStringRoundTrip(index + 1);
    var shown := head + tail;
    assert shown[..|head|] == head;
    assert shown[|head|..] == tail;
    shown
  }

  /** The progress bar width, in percent: `(switchIndex + 1) / length * 100`. */
  function ProgressPercent(index: int, total: int): (r: real)
    requires 0 <= index < total
    ensures 0.0 < r <= 100.0
    ensures r == 100.0 <==> index == total - 1
  {
    ((index + 1) as real / total as real) * 100.0
  }

  /** The bar grows with every step of a round. */
  lemma ProgressIncreases(index: int, total: int)
    requires 0 <= index < total - 1
    ensures ProgressPercent(index, total) < ProgressPercent(index + 1, total)
  {
  }

  class Screen {
    const store: Store
    /** The routines loaded with the page; the screen never replaces them. */
    const routines: seq<Routine>
    var switchIndex: int
    var scanSeconds: int
    var executingRoutineId: Option<string>
    var log: seq<Activation>

    constructor (store: Store, initialDevices: seq<Device>, initialRoutines: seq<Routine>)
      modifies store`devices
      ensures this.store == store && routines == initialRoutines && store.devices == initialDevices
      ensures switchIndex == 0 && scanSeconds == DefaultScanSeconds && executingRoutineId.None? && log == []
    {
      this.store := store;
      routines := initialRoutines;
      switchIndex := 0;
      scanSeconds := DefaultScanSeconds;
      executingRoutineId := None;
      log := [];
      new;
      store.SetDevices(initialDevices);
    }

    function Items(): seq<ScanItem>
      reads this, store
    {
      ScanItems(routines, store.devices)
    }

    /** The speed slider: whole seconds from 1 to 10. */
    method SetScanSeconds(seconds: int)
      requires 1 <= seconds <= 10
      modifies this`scanSeconds
      ensures scanSeconds == seconds
    {
      scanSeconds := seconds;
    }

    /** The period of the scan interval. */
    function IntervalMs(): int
      reads this
    {
      scanSeconds * 1000
    }

    /** One tick of the scan interval, which exists only while the list is non-empty. */
    method Tick()
      modifies this`switchIndex
      ensures |Items()| > 0 ==> switchIndex == ScanCycle.NextIndex(old(switchIndex), |Items()|)
      ensures |Items()| > 0 ==> 0 <= switchIndex < |Items()| && ChoiceAt(Items(), switchIndex) != MissingItem
      ensures |Items()| == 0 ==> switchIndex == old(switchIndex)
    {
      var items := BuildScanItems(routines, store.devices);
      if |items| > 0 {
        switchIndex := (switchIndex + 1) % |items|;
      }
    }

    /** `handleExecuteRoutine` up to the request: nothing without a user id, otherwise mark
        the routine as executing and send the request. */
    method BeginRoutine(userId: Option<string>, routineId: string) returns (started: bool)
      modifies this`executingRoutineId, this`log
      ensures started <==> Truthy(userId)
      ensures started ==> executingRoutineId == Some(routineId) && log == old(log) + [ExecuteRoutine(routineId)]
      ensures !started ==> executingRoutineId == old(executingRoutineId) && log == old(log)
    {
      if !(userId.Some? && userId.value != []) {
        return false;
      }
      executingRoutineId := Some(routineId);
      log := log + [ExecuteRoutine(routineId)];
      started := true;
    }

    /** The rest of the transition: after a successful run refresh the devices from the
        listing, if one came back; success or failure, `finally` clears the executing id. */
    method FinishRoutine(succeeded: bool, listing: Option<seq<Device>>)
      modifies this`executingRoutineId, store`devices
      ensures executingRoutineId.None?
      ensures succeeded && listing.Some? ==> store.devices == listing.value
      ensures !(succeeded && listing.Some?) ==> store.devices == old(store.devices)
    {
      if succeeded && listing.Some? {
        store.SetDevices(listing.value);
      }
      executingRoutineId := None;
    }

    /** A click on a device in the 3D view toggles it. */
    method DeviceClick(device: Device)
      modifies this`log
      ensures log == old(log) + [Toggle(device)]
    {
      log := log + [ToggleDevice(device.id, !IsOn(device))];
    }

    /** Confirming the highlighted item. */
    method Confirm(userId: Option<string>) returns (choice: Choice)
      modifies this`log, this`executingRoutineId
      ensures choice == ChoiceAt(Items(), switchIndex)
      ensures choice.DeviceChosen? ==> log == old(log) + [choice.request]
      ensures choice.RoutineChosen? && Truthy(userId) ==>
        log == old(log) + [ExecuteRoutine(choice.routineId)] && executingRoutineId == Some(choice.routineId)
      ensures !choice.DeviceChosen? && !(choice.RoutineChosen? && Truthy(userId)) ==>
        log == old(log) && executingRoutineId == old(executingRoutineId)
    {
      var items := BuildScanItems(routines, store.devices);
      if |items| == 0 {
        return NothingToScan;
      }
      if !(0 <= switchIndex < |items|) {
        return MissingItem;
      }
      match items[switchIndex]
      case DeviceItem(d) =>
        choice := DeviceChosen(ToggleDevice(d.id, !IsOn(d)));
        DeviceClick(d);
      case RoutineItem(rt) =>
        choice := RoutineChosen(rt.id);
        var _ := BeginRoutine(userId, rt.id);
    }

    /** The keydown listener: only Space and Enter confirm. */
    method KeyDown(key: string, userId: Option<string>) returns (choice: Option<Choice>)
      modifies this`log, this`executingRoutineId
      ensures key == " " || key == "Enter" ==> choice == Some(ChoiceAt(Items(), switchIndex))
      ensures !(key == " " || key == "Enter") ==>
        choice.None? && log == old(log) && executingRoutineId == old(executingRoutineId)
    {
      if !(key == " " || key == "Enter") {
        return None;
      }
      var c := Confirm(userId);
      choice := Some(c);
    }
  }
}
