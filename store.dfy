/** The client-side store (src/hooks/useStore.ts): the device list, the
    conditioned gaze point, the snapped device, dwell progress, sensor
    readiness, the input mode and the calibration step. Every setter replaces
    exactly one field; the device-list operations are functions on the list
    that the store methods apply. */
module DeviceStore {
  import opened Records

  /** The store's `inputMode`: "eye" | "mouse" | "switch". */
  datatype StoreMode = EyeMode | MouseMode | SwitchMode

  /** `devices.findIndex(d => d.id === id)`: the first position holding `id`, or -1. */
  function FindIndex(devices: seq<Device>, id: string): (i: int)
    ensures -1 <= i < |devices|
    ensures i >= 0 ==> devices[i].id == id
    ensures forall j :: 0 <= j < |devices| && (i == -1 || j < i) ==> devices[j].id != id
  {
    if devices == [] then -1
    else if devices[0].id == id then 0
    else
      var k := FindIndex(devices[1..], id);
      if k == -1 then -1 else k + 1
  }

  predicate HasId(devices: seq<Device>, id: string) {
    exists j :: 0 <= j < |devices| && devices[j].id == id
  }

  /** `upsertDevice`: prepend an unknown id, otherwise overwrite its first occurrence. */
  function Upserted(devices: seq<Device>, device: Device): seq<Device> {
    var index := FindIndex(devices, device.id);
    if index == -1 then [device] + devices else devices[index := device]
  }

  /** `removeDevice`: `devices.filter(d => d.id !== id)`. */
  function Removed(devices: seq<Device>, id: string): seq<Device> {
    if devices == [] then []
    else if devices[0].id == id then Removed(devices[1..], id)
    else [devices[0]] + Removed(devices[1..], id)
  }

  /** `updateDeviceState`: `devices.map(d => d.id === id ? { ...d, is_active } : d)`. */
  function WithActive(devices: seq<Device>, id: string, isActive: bool): seq<Device> {
    seq(|devices|, j requires 0 <= j < |devices| =>
      if devices[j].id == id then devices[j].(isActive := Some(isActive)) else devices[j])
  }

  /** `r` keeps some of the elements of `s`, in their original relative order. */
  ghost predicate Subsequence<T>(r: seq<T>, s: seq<T>)
    decreases |s|
  {
    if r == [] then true
    else if s == [] then false
    else if r[0] == s[0] then Subsequence(r[1..], s[1..])
    else Subsequence(r, s[1..])
  }

  /** The number of list elements carrying `id`. */
  function CountId(devices: seq<Device>, id: string): nat {
    if devices == [] then 0
    else (if devices[0].id == id then 1 else 0) + CountId(devices[1..], id)
  }

  /** An unknown id is prepended: the list grows by one and the old elements follow in order. */
  lemma UpsertNewPrepends(devices: seq<Device>, device: Device)
    requires !HasId(devices, device.id)
    ensures |Upserted(devices, device)| == |devices| + 1
    ensures Upserted(devices, device)[0] == device
    ensures Upserted(devices, device)[1..] == devices
  {
  }

  /** A known id is replaced in place at its first occurrence; nothing else moves. */
  lemma UpsertExistingReplaces(devices: seq<Device>, device: Device)
    requires HasId(devices, device.id)
    ensures var r := Upserted(devices, device);
      var k := FindIndex(devices, device.id);
      && |r| == |devices|
      && 0 <= k && devices[k].id == device.id && r[k] == device
      && (forall j :: 0 <= j < k ==> devices[j].id != device.id)
      && (forall j :: 0 <= j < |r| && j != k ==> r[j] == devices[j])
  {
  }

  /** After `upsertDevice` the device is present under its id. */
  lemma UpsertContains(devices: seq<Device>, device: Device)
    ensures device in Upserted(devices, device)
    ensures HasId(Upserted(devices, device), device.id)
  {
    var r := Upserted(devices, device);
    var k := FindIndex(devices, device.id);
    if k == -1 {
      assert r[0] == device;
    } else {
      assert r[k] == device;
    }
  }

  /** `removeDevice` leaves no element with the id, drops exactly the elements
      that had it and keeps the others in their original relative order. */
  lemma {:induction false} RemovedSpec(devices: seq<Device>, id: string)
    ensures forall j :: 0 <= j < |Removed(devices, id)| ==> Removed(devices, id)[j].id != id
    ensures Subsequence(Removed(devices, id), devices)
    ensures |Removed(devices, id)| == |devices| - CountId(devices, id)
    ensures forall d :: d in devices && d.id != id ==> d in Removed(devices, id)
  {
    if devices != [] {
      RemovedSpec(devices[1..], id);
      var rest := Removed(devices[1..], id);
      if devices[0].id == id {
        SubsequenceSkip(rest, devices);
      } else {
        var r := [devices[0]] + rest;
        assert r[1..] == rest;
        forall d | d in devices && d.id != id
          ensures d in r
        {
          if d != devices[0] {
            assert d in devices[1..];
          }
        }
      }
    }
  }

  lemma SubsequenceSkip<T>(r: seq<T>, s: seq<T>)
    requires s != [] && Subsequence(r, s[1..])
    ensures Subsequence(r, s)
    decreases |s| + |r|
  {
    if r != [] && r[0] == s[0] {
      if |s| > 1 {
        SubsequenceTail(r, s[1..]);
        assert Subsequence(r[1..], s[1..]);
      } else {
        assert false;
      }
    }
  }

  lemma SubsequenceTail<T>(r: seq<T>, s: seq<T>)
    requires r != [] && Subsequence(r, s)
    ensures Subsequence(r[1..], s)
    decreases |s| + |r|
  {
    if s != [] && r[0] != s[0] {
      SubsequenceTail(r, s[1..]);
      SubsequenceSkip(r[1..], s);
    } else if s != [] {
      SubsequenceSkip(r[1..], s);
    }
  }

  /** `removeDevice` of an absent id changes nothing. */
  lemma {:induction false} RemoveAbsent(devices: seq<Device>, id: string)
    requires !HasId(devices, id)
    ensures Removed(devices, id) == devices
  {
    if devices != [] {
      assert devices[0].id != id;
      assert !HasId(devices[1..], id) by {
        forall j | 0 <= j < |devices[1..]| ensures devices[1..][j].id != id {
          assert devices[1..][j] == devices[j + 1];
        }
      }
      RemoveAbsent(devices[1..], id);
    }
  }

  /** `updateDeviceState` changes only `is_active` of the elements carrying the id. */
  lemma WithActiveSpec(devices: seq<Device>, id: string, isActive: bool)
    ensures |WithActive(devices, id, isActive)| == |devices|
    ensures forall j :: 0 <= j < |devices| ==>
      var r := WithActive(devices, id, isActive)[j];
      && r.id == devices[j].id
      && r.(isActive := devices[j].isActive) == devices[j]
      && (r.isActive == if devices[j].id == id then Some(isActive) else devices[j].isActive)
  {
  }

  /** The zustand store. */
  class Store {
    var devices: seq<Device>
    var gaze: Point
    var snappedDeviceId: Option<string>
    var dwellProgressMs: real
    var sensorReady: bool
    var inputMode: StoreMode
    var calibrationStep: int

    /** The store's initial state. */
    constructor ()
      ensures devices == [] && gaze == Point(0.0, 0.0) && snappedDeviceId == None
      ensures dwellProgressMs == 0.0 && !sensorReady && inputMode == EyeMode
      ensures calibrationStep == 0
    {
      devices := [];
      gaze := Point(0.0, 0.0);
      snappedDeviceId := None;
      dwellProgressMs := 0.0;
      sensorReady := false;
      inputMode := EyeMode;
      calibrationStep := 0;
    }

    method SetDevices(ds: seq<Device>)
      modifies this`devices
      ensures devices == ds
    {
      devices := ds;
    }

    /** Copies the list and overwrites the slot found by `findIndex`, or prepends. */
    method UpsertDevice(device: Device)
      modifies this`devices
      ensures devices == Upserted(old(devices), device)
      ensures !HasId(old(devices), device.id) ==> devices == [device] + old(devices)
      ensures HasId(old(devices), device.id) ==> |devices| == |old(devices)|
    {
      var index := FindIndex(devices, device.id);
      if index == -1 {
        devices := [device] + devices;
        return;
      }
      var next := devices;
      next := next[index := device];
      devices := next;
    }

    method RemoveDevice(id: string)
      modifies this`devices
      ensures devices == Removed(old(devices), id)
    {
      devices := Removed(devices, id);
    }

    method UpdateDeviceState(id: string, isActive: bool)
      modifies this`devices
      ensures devices == WithActive(old(devices), id, isActive)
    {
      devices := WithActive(devices, id, isActive);
    }

    method SetGaze(g: Point)
      modifies this`gaze
      ensures gaze == g
    {
      gaze := g;
    }

    /** The high-frequency variant; its effect on the state is that of `SetGaze`. */
    method SetGazeFast(g: Point)
      modifies this`gaze
      ensures gaze == g
    {
      SetGaze(g);
    }

    method SetSnappedDevice(id: Option<string>)
      modifies this`snappedDeviceId
      ensures snappedDeviceId == id
    {
      snappedDeviceId := id;
    }

    method SetDwellProgress(ms: real)
      modifies this`dwellProgressMs
      ensures dwellProgressMs == ms
    {
      dwellProgressMs := ms;
    }

    method SetSensorReady(ready: bool)
      modifies this`sensorReady
      ensures sensorReady == ready
    {
      sensorReady := ready;
    }

    method SetInputMode(mode: StoreMode)
      modifies this`inputMode
      ensures inputMode == mode
    {
      inputMode := mode;
    }

    method SetCalibrationStep(step: int)
      modifies this`calibrationStep
      ensures calibrationStep == step
    {
      calibrationStep := step;
    }
  }
}
