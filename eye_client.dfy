/** The gaze-only access screen (src/app/access/eye/client.tsx): the snap
    loop over 3-times card hitboxes runs only while the sensor is ready, the
    dwell threshold is a slider value of 1 to 10 seconds, and per-device
    progress is shown only on the snapped device. The screen declares a
    `cardRefs` record that nothing on it ever fills, so the model keeps the
    card map empty for the screen's whole life. */
module EyeScreen {
  import opened Records
  import opened DeviceStore
  import opened CardSnap
  import WebGazer

  const HitboxScale: real := 3.0
  const DefaultDwellSeconds: int := 2

  class Screen {
    const store: Store
    /** `cardRefs`: no element of this screen registers itself. */
    const cards: map<string, Rect>
    var dwellSeconds: int
    var dwellStart: Option<real>
    var log: seq<Activation>

    constructor (store: Store, initialDevices: seq<Device>)
      modifies store`devices
      ensures this.store == store && store.devices == initialDevices
      ensures cards == map[] && dwellSeconds == DefaultDwellSeconds && dwellStart.None? && log == []
    {
      this.store := store;
      cards := map[];
      dwellSeconds := DefaultDwellSeconds;
      dwellStart := None;
      log := [];
      new;
      store.SetDevices(initialDevices);
    }

    /** After mounting, start the tracker once its library is present; a rejection is logged. */
    method StartTracking(tracker: WebGazer.GazeTracker, libraryLoaded: bool, begin: WebGazer.BeginOutcome)
      requires tracker.store == store
      modifies tracker`initialized, tracker`listening, store`sensorReady
      ensures !libraryLoaded ==>
        && store.sensorReady == old(store.sensorReady) && tracker.initialized == old(tracker.initialized)
        && tracker.listening == old(tracker.listening)
      ensures libraryLoaded && !old(tracker.initialized) ==> tracker.listening
      ensures libraryLoaded && !old(tracker.initialized) && begin == WebGazer.BeginOk ==> store.sensorReady && tracker.initialized
      ensures libraryLoaded && !old(tracker.initialized) && begin == WebGazer.BeginError ==> !store.sensorReady && !tracker.initialized
      ensures libraryLoaded && !old(tracker.initialized) && begin == WebGazer.PermissionDenied ==>
        store.sensorReady == old(store.sensorReady) && !tracker.initialized
      ensures libraryLoaded && old(tracker.initialized) ==>
        store.sensorReady == old(store.sensorReady) && tracker.initialized && tracker.listening == old(tracker.listening)
    {
      if libraryLoaded {
        var _ := tracker.StartWebGazer(libraryLoaded, begin);
      }
    }

    /** The slider: whole seconds from 1 to 10. */
    method SetDwellSeconds(seconds: int)
      requires 1 <= seconds <= 10
      modifies this`dwellSeconds
      ensures dwellSeconds == seconds
    {
      dwellSeconds := seconds;
    }

    function ThresholdMs(): real
      reads this
    {
      dwellSeconds as real * 1000.0
    }

    /** One animation frame of the snap loop; nothing happens until the sensor is ready, and
        with no registered card the snap is always cleared. */
    method SnapFrame()
      modifies store`snappedDeviceId
      ensures !store.sensorReady ==> store.snappedDeviceId == old(store.snappedDeviceId)
      ensures store.sensorReady ==>
        (store.snappedDeviceId.None? <==>
          forall j :: 0 <= j < |store.devices| ==> !Captures(store.devices, cards, store.gaze, HitboxScale, j))
      ensures store.sensorReady && cards == map[] ==> store.snappedDeviceId.None?
    {
      if !store.sensorReady {
        return;
      }
      var devices, gaze := store.devices, store.gaze;
      var nextSnap := ScanSnap(devices, cards, gaze, HitboxScale);
      if nextSnap != store.snappedDeviceId {
        store.SetSnappedDevice(nextSnap);
      }
      assert store.devices == devices && store.gaze == gaze && store.snappedDeviceId == nextSnap;
    }

    /** The dwell effect, run when the snapped id, the device list or the threshold changes. */
    method DwellEffect(now: real)
      modifies this`dwellStart, store`dwellProgressMs
      ensures var r := DwellRestart(Dwell(store.snappedDeviceId, old(dwellStart), old(store.dwellProgressMs)), now);
        dwellStart == r.start && store.dwellProgressMs == r.progressMs
    {
      if store.snappedDeviceId.Some? && store.snappedDeviceId.value != [] {
        dwellStart := Some(now);
        return;
      }
      store.SetDwellProgress(0.0);
      dwellStart := None;
    }

    /** One tick of the 120 ms dwell interval, against `dwellTime * 1000`. */
    method DwellIntervalTick(now: real)
      modifies this`log, store`snappedDeviceId, store`dwellProgressMs
      ensures var r := DwellTick(Dwell(old(store.snappedDeviceId), dwellStart, old(store.dwellProgressMs)),
                                 store.devices, now, ThresholdMs());
        && store.snappedDeviceId == r.dwell.snapped && store.dwellProgressMs == r.dwell.progressMs
        && log == old(log) + (if r.fired.Some? then [r.fired.value] else [])
    {
      if !(store.snappedDeviceId.Some? && store.snappedDeviceId.value != []) {
        return;
      }
      if !(dwellStart.Some? && dwellStart.value != 0.0) {
        return;
      }
      var elapsed := now - dwellStart.value;
      store.SetDwellProgress(elapsed);
      if elapsed >= dwellSeconds as real * 1000.0 {
        var target := Find(store.devices, store.snappedDeviceId.value);
        if target.Some? {
          log := log + [ToggleDevice(target.value.id, !IsOn(target.value))];
        }
        store.SetSnappedDevice(None);
        store.SetDwellProgress(0.0);
      }
    }

    /** `dwellPercent` against the slider's threshold. */
    function DwellPercentShown(): (r: int)
      requires dwellSeconds >= 1
      reads this, store
      ensures r <= 100
      ensures store.dwellProgressMs >= 0.0 ==> r >= 0
      ensures store.dwellProgressMs >= ThresholdMs() ==> r == 100
    {
      DwellPercentBounds(store.dwellProgressMs, ThresholdMs());
      DwellPercent(store.dwellProgressMs, ThresholdMs())
    }

    /** The progress handed to the 3D view for one device: only the snapped device shows any. */
    function ProgressFor(deviceId: string): (r: int)
      requires dwellSeconds >= 1
      reads this, store
      ensures store.snappedDeviceId != Some(deviceId) ==> r == 0
      ensures store.snappedDeviceId == Some(deviceId) ==> r == DwellPercentShown()
    {
      if store.snappedDeviceId == Some(deviceId) then DwellPercentShown() else 0
    }

    /** A click on a device in the 3D view toggles it. */
    method DeviceClick(device: Device)
      modifies this`log
      ensures log == old(log) + [Toggle(device)]
    {
      log := log + [ToggleDevice(device.id, !IsOn(device))];
    }

    /** `handleRoutineUpdate`: with a signed-in user, replace the devices by a fresh listing
        when the listing call returns one. */
    method RoutineUpdate(userId: Option<string>, listing: Option<seq<Device>>)
      modifies store`devices
      ensures Truthy(userId) && listing.Some? ==> store.devices == listing.value
      ensures !(Truthy(userId) && listing.Some?) ==> store.devices == old(store.devices)
    {
      if !(userId.Some? && userId.value != []) {
        return;
      }
      if listing.Some? {
        store.SetDevices(listing.value);
      }
    }
  }
}
