# AAH access screens in Dafny

AAH lets a user switch smart-home devices and run routines without a keyboard. The input can be:
- gaze from a webcam eye tracker;
- a mouse;
- a single switch or key;
- voice;
- in the AR variant, iris landmarks and a two-eye blink.

This project models the logic that turns those signals into "toggle this device" and "run this routine" requests. It proves what that logic promises.

One Dafny module per source file:

- `Records`: the device and routine rows, `Option`, the activation events and small numeric helpers.
- `Text`: the JavaScript string built-ins the code relies on:
  - `includes`, `trim`, `toLowerCase`;
  - `parseInt`, `String(n)`.
- `DeviceStore` (src/hooks/useStore.ts): the global store, a class whose setters replace exactly their own field. The pure list operations (upsert, remove, update) are specified by lemmas.
- `WebGazer` (src/hooks/useWebGazer.ts):
  - the first-sample-snap exponential moving average with its calibration-dependent factor;
  - the calibration flag;
  - the start guard.
- `Calibration` (src/hooks/useWebGazerCalibration.ts):
  - the nine-point grid and the hit-counting clicks;
  - completion, start and reset;
  - the dispersion accuracy.
- `DeviceSync` (src/hooks/useDeviceSync.ts): the realtime payload filter, and dispatch to the store.
- `CardSnap`: the rule that the two access screens share:
  - enlarged-rectangle capture, where the last capturing card wins;
  - a timer-tick dwell that fires at most once;
  - `dwellPercent`.
- `AccessScreen` (src/app/access/client.tsx): the 1.5-times snap loop, the 2000 ms dwell, the switch scan with key and button confirmation, and mouse hover and click.
- `EyeScreen` (src/app/access/eye/client.tsx): the 3-times snap loop gated on the sensor, the 1–10 s dwell slider and per-device progress.
- `ScanCycle` and `SwitchScreen` (src/app/access/switch/client.tsx):
  - the scan list of routines followed by devices;
  - the cyclic scan tick;
  - confirmation by item type;
  - the highlight and progress display.
- `VoiceScreen` (src/app/access/voice/client.tsx): transcript normalisation, the on/off keyword match, and the loop that stops at the first device it toggles.
- `RoutineSection` (src/components/RoutineSection.tsx): the device preview, sorted by `order_index`, showing three and an overflow count, and the execute handler.
- `AccessPage` (src/app/access/page.tsx): input-mode resolution with the "mouse" default, and the redirect.
- `Middleware` (src/middleware.ts):
  - stripping the Clerk handshake parameter;
  - the redirect counter cookie that caps handshake redirects at three;
  - the protected-route test.
- `ArCanvas` (spatiallink-ar/components/ARCanvas.tsx):
  - the iris ratio;
  - yaw wrap and field-of-view culling in the projection;
  - the nearest-anchor snap;
  - the gaze dwell timer and the blink gesture;
  - the clamped and smoothed face cursor;
  - click activation.

Stateful components are classes whose methods change their fields and the store's fields; each method states its whole new state. Some details are not modelled directly:
- Timers and animation frames become explicit `Tick` and `Frame` methods, with the time as a parameter.
- Network and database calls are listed under "Left out". Their results become parameters instead.
- Toggles and routine runs are appended to a `log` of activation events, not performed.

## Model

| member | source | states |
|---|---|---|
| DeviceStore.FindIndex | src/hooks/useStore.ts:47 | the result is -1 or an in-range position holding the id, and no earlier position (none at all when -1) holds it |
| DeviceStore.Upserted | src/hooks/useStore.ts:45-52 | the list after `upsertDevice`; its meaning is stated by `UpsertNewPrepends`, `UpsertExistingReplaces` and `UpsertContains` |
| DeviceStore.UpsertNewPrepends | src/hooks/useStore.ts:45-48 | with an unknown id the list grows by one, the device comes first and the old list follows unchanged |
| DeviceStore.UpsertExistingReplaces | src/hooks/useStore.ts:47-51 | with a known id the length is kept, the first position with that id holds the new device and every other position is unchanged |
| DeviceStore.UpsertContains | src/hooks/useStore.ts:45-51 | after an upsert the device is in the list under its id |
| DeviceStore.Removed | src/hooks/useStore.ts:53-56 | the list after `removeDevice`; its meaning is stated by `RemovedSpec` and `RemoveAbsent` |
| DeviceStore.RemovedSpec | src/hooks/useStore.ts:53-56 | after a remove no element has the id, the rest is a subsequence of the old list (relative order kept), exactly the elements with the id are gone, and every other element is still there |
| DeviceStore.RemoveAbsent | src/hooks/useStore.ts:53-56 | removing an id no element carries leaves the list unchanged |
| DeviceStore.WithActive | src/hooks/useStore.ts:57-62 | the list after `updateDeviceState`; its meaning is stated by `WithActiveSpec` |
| DeviceStore.WithActiveSpec | src/hooks/useStore.ts:57-62 | an update keeps length, order and ids, changes no field but `is_active`, and sets `is_active` exactly on the elements with the id |
| DeviceStore.Store.constructor | src/hooks/useStore.ts:36-43 | the initial state: no devices, gaze (0,0), no snap, progress 0, sensor not ready, mode "eye", calibration step 0 |
| DeviceStore.Store.SetDevices | src/hooks/useStore.ts:44 | replaces the device list and no other field |
| DeviceStore.Store.UpsertDevice | src/hooks/useStore.ts:45-52 | the new list is the upsert of the old one: prepended for an unknown id, same length for a known one; no other field changes |
| DeviceStore.Store.RemoveDevice | src/hooks/useStore.ts:53-56 | the new list is the old one without the id; no other field changes |
| DeviceStore.Store.UpdateDeviceState | src/hooks/useStore.ts:57-62 | the new list is the old one with `is_active` set on the elements with the id; no other field changes |
| DeviceStore.Store.SetGaze | src/hooks/useStore.ts:63 | replaces the gaze and no other field |
| DeviceStore.Store.SetGazeFast | src/hooks/useStore.ts:69 | the same effect on the state as `SetGaze` |
| DeviceStore.Store.SetSnappedDevice | src/hooks/useStore.ts:64 | replaces the snapped id and no other field |
| DeviceStore.Store.SetDwellProgress | src/hooks/useStore.ts:65 | replaces the dwell progress and no other field |
| DeviceStore.Store.SetSensorReady | src/hooks/useStore.ts:66 | replaces the sensor flag and no other field |
| DeviceStore.Store.SetInputMode | src/hooks/useStore.ts:67 | replaces the input mode and no other field |
| DeviceStore.Store.SetCalibrationStep | src/hooks/useStore.ts:68 | replaces the calibration step and no other field |
| WebGazer.Alpha | src/hooks/useWebGazer.ts:64 | the smoothing factor is 0.08 while calibrating and 0.4 otherwise, strictly between 0 and 1 |
| WebGazer.Ema | src/hooks/useWebGazer.ts:66-67 | one averaging step on one axis; `EmaStep`, `EmaIterateGap` and `EmaIterateMonotone` state where it lands |
| WebGazer.Smoothed | src/hooks/useWebGazer.ts:53-67 | the pair after `applySmoothing`; `FirstSampleSnaps` and `SmoothedBetween` state its two branches |
| WebGazer.FirstSampleSnaps | src/hooks/useWebGazer.ts:55-60 | from the all-zero state the next sample is taken over unchanged |
| WebGazer.EmaStep | src/hooks/useWebGazer.ts:66-67 | one averaging step lands between the old value and the sample, and its gap to the sample is `(1 - alpha)` times the old gap, so it never grows |
| WebGazer.SmoothedBetween | src/hooks/useWebGazer.ts:62-67 | away from the origin each smoothed coordinate lies between its previous value and the raw one |
| WebGazer.EmaIterateGap | src/hooks/useWebGazer.ts:66-67 | with a constant raw input the gap after `n` samples is `(1 - alpha)^n` times the first gap |
| WebGazer.EmaIterateGapStep | src/hooks/useWebGazer.ts:66 | one more sample multiplies the gap by `(1 - alpha)` |
| WebGazer.EmaIterateMonotone | src/hooks/useWebGazer.ts:66-67 | with a constant raw input the distance to it never grows from one sample to the next |
| WebGazer.CalibrationFlag.constructor | src/hooks/useWebGazer.ts:14 | the flag starts off |
| WebGazer.CalibrationFlag.SetCalibrationMode | src/hooks/useWebGazer.ts:15-17 | the flag takes the given value |
| WebGazer.GazeTracker.constructor | src/hooks/useWebGazer.ts:48-51 | the smoothed pair starts at (0,0), not initialised, no listener |
| WebGazer.GazeTracker.ApplySmoothing | src/hooks/useWebGazer.ts:53-70 | the new pair is the snap or average step of the old pair and the sample, and it is what the store's gaze now holds |
| WebGazer.GazeTracker.OnGaze | src/hooks/useWebGazer.ts:93-99 | a null payload changes neither the pair nor the store; any other is smoothed and published |
| WebGazer.GazeTracker.StartWebGazer | src/hooks/useWebGazer.ts:72-115 | false with nothing changed without the library; true with nothing changed when already initialised; otherwise the listener is installed and the outcome of `begin()` decides readiness: success sets both flags, a permission refusal rejects and leaves the sensor flag, any other error rejects and clears it |
| Calibration.PointIdInjective | src/hooks/useWebGazerCalibration.ts:58 | two point numbers give the same `pt${n}` id exactly when they are equal |
| Calibration.BasePointsGrid | src/hooks/useWebGazerCalibration.ts:45-64 | nine base points with distinct ids pt1 to pt9 on the {15, 50, 85}% grid, row by row, each with no hits and not done |
| Calibration.FromEntries | src/hooks/useWebGazerCalibration.ts:67-69 | the record's keys are exactly the ids of the entries |
| Calibration.FromEntriesLast | src/hooks/useWebGazerCalibration.ts:67-69 | an entry no later entry overrides is the value stored under its id |
| Calibration.FreshPointsKeys | src/hooks/useWebGazerCalibration.ts:66-70 | a reset record holds exactly pt1 to pt9, each under its own id, with no hits and not done |
| Calibration.FreshPointsPositions | src/hooks/useWebGazerCalibration.ts:45-70 | after a reset point `ptN` sits on column `(N-1) % 3` and row `(N-1) / 3` of the grid, with no hits |
| Calibration.ClickPoints | src/hooks/useWebGazerCalibration.ts:134-139 | a click on an unknown or done point changes nothing; otherwise that point gains exactly one hit and is done exactly when its hits reach `requiredClicks`; no other point changes, the keys stay, and no done point becomes undone |
| Calibration.ClicksUntilDone | src/hooks/useWebGazerCalibration.ts:136-139 | from no hits, `k` clicks leave `min(k, required)` hits and the point is done exactly when `k >= required`; no other point changes |
| Calibration.RepeatOnDone | src/hooks/useWebGazerCalibration.ts:136 | any number of clicks on a done point changes nothing |
| Calibration.ClickEachDone | src/hooks/useWebGazerCalibration.ts:134-147 | clicking each listed point `required` times makes every listed point done and leaves the others as they were |
| Calibration.AllIdsFresh | src/hooks/useWebGazerCalibration.ts:57-70 | the ids pt1 to pt9 are exactly the keys of a reset record, each point without hits |
| Calibration.CalibrationCompletes | src/hooks/useWebGazerCalibration.ts:134-149 | from a reset record, `required` clicks on each of the nine points make every point done, which is when the status becomes completed |
| Calibration.CentroidBalanced | src/hooks/useWebGazerCalibration.ts:86-95 | the offsets of the stored points from their mean sum to zero on both axes |
| Calibration.Accuracy | src/hooks/useWebGazerCalibration.ts:79-101 | the accuracy is absent exactly when there are no stored points |
| Calibration.AccuracyNonNegative | src/hooks/useWebGazerCalibration.ts:96-101 | with a distance that is never negative, the accuracy is never negative |
| Calibration.SinglePointAccuracy | src/hooks/useWebGazerCalibration.ts:86-101 | a single stored point is its own mean, so the accuracy is the distance of a zero offset |
| Calibration.Calibrator.constructor | src/hooks/useWebGazerCalibration.ts:36-43 | `requiredClicks` defaults to 5; idle, no accuracy, empty record |
| Calibration.Calibrator.StartCalibration | src/hooks/useWebGazerCalibration.ts:171-175 | the record is reset, the accuracy cleared and the status running |
| Calibration.Calibrator.Reset | src/hooks/useWebGazerCalibration.ts:182-186 | the record is reset, the accuracy cleared and the status idle |
| Calibration.Calibrator.Click | src/hooks/useWebGazerCalibration.ts:134-151 | the record becomes `ClickPoints` of the old one; the click that completes the last point sets the status to completed and reads the accuracy; any other click leaves status and accuracy; once all points are done a click changes nothing, so completion happens at most once per run |
| DeviceSync.ActiveOrFalse | src/hooks/useDeviceSync.ts:69 | `is_active ?? false` is true exactly when the row says true |
| DeviceSync.Passes | src/hooks/useDeviceSync.ts:60 | the owner filter: a new row with a non-empty user id equal to the signed-in user's; `DeleteNeedsOwnerInNewRow` states its effect on deletes |
| DeviceSync.SyncEffect | src/hooks/useDeviceSync.ts:59-73 | an event whose new row lacks the user's id leaves the list unchanged; a passing delete leaves no device with the old id, keeps every other device and their order; a passing update changes only `is_active` (null read as false) of the devices with that id; a passing insert of a new id prepends the row to the unchanged list, and one of a known id replaces the first device with that id and keeps every other device in place |
| DeviceSync.DeleteNeedsOwnerInNewRow | src/hooks/useDeviceSync.ts:60-66 | a delete whose new row is empty changes nothing, because the owner filter runs before the event type is looked at |
| DeviceSync.UpdateKeepsOtherFields | src/hooks/useDeviceSync.ts:68-69 | a passing update keeps length and every field other than `is_active` of every device |
| DeviceSync.DeleteIdempotent | src/hooks/useDeviceSync.ts:63-66 | applying a passing delete twice gives the list of applying it once |
| DeviceSync.Subscription.constructor | src/hooks/useDeviceSync.ts:18-19 | no channel is open at first |
| DeviceSync.Subscription.Start | src/hooks/useDeviceSync.ts:15-54 | the list is loaded and the channel opened exactly when signed in with a user id, a user row id was found and the listing succeeded; otherwise nothing changes |
| DeviceSync.Subscription.OnChange | src/hooks/useDeviceSync.ts:59-73 | with an open channel the store's list becomes `SyncEffect` of the old one; without one it is unchanged |
| CardSnap.InExpandedIff | src/app/access/client.tsx:212-220 | the gaze is captured exactly when it lies within `scale / 2` card widths and heights of the card's centre, borders included |
| CardSnap.ExpandedGrows | src/app/access/eye/client.tsx:88-101 | a larger enlargement never loses a capture, so the 3-times test captures whatever the 1.5-times test does |
| CardSnap.ScanSnap | src/app/access/client.tsx:206-223 | the result is none exactly when no registered card captures the gaze, and otherwise the id of the last capturing device in list order |
| CardSnap.InExpanded | src/app/access/client.tsx:211-220 | the inclusive enlarged-rectangle test; `InExpandedIff` and `ExpandedGrows` state what it means |
| CardSnap.Captures | src/app/access/client.tsx:209-220 | a listed device with a registered card whose enlargement holds the gaze; `ScanSnap` and `NoCardsNoCapture` are stated in its terms |
| CardSnap.NoCardsNoCapture | src/app/access/client.tsx:209-210 | devices without a registered card never capture the gaze |
| CardSnap.Round | src/app/access/client.tsx:97 | `Math.round` lands within half a unit of its input, half-way cases rounding up |
| CardSnap.RoundMonotone | src/app/access/client.tsx:97 | rounding never reverses an order |
| CardSnap.DwellPercent | src/app/access/client.tsx:96-99 | the shown dwell percentage; `DwellPercentBounds` and `DwellPercentMonotone` state its range and order |
| CardSnap.DwellPercentBounds | src/app/access/client.tsx:96-99 | the dwell percentage is at most 100, 0 at the start, never negative for non-negative progress and exactly 100 from the threshold on |
| CardSnap.DwellPercentMonotone | src/app/access/client.tsx:96-99 | more dwell never shows a smaller percentage |
| CardSnap.DwellRestart | src/app/access/client.tsx:53-94 | a change with a snapped id restarts the dwell now and keeps the progress; without a snap the start is dropped and the progress reset to 0 |
| CardSnap.Find | src/app/access/client.tsx:61 | the found device is listed and carries the id; none means no listed device carries it |
| CardSnap.DwellTick | src/app/access/client.tsx:56-83 | one dwell interval tick; `DwellTickFires`, `DwellFiresOnce` and `SilentAfterClear` state when it fires |
| CardSnap.DwellTickFires | src/app/access/client.tsx:56-83 | a tick fires only at or past the threshold, only for the snapped device while it is still listed, and sends the inverse of its state; a firing tick clears snap and progress; an earlier tick only records the elapsed time |
| CardSnap.DwellFiresOnce | src/app/access/client.tsx:60-82 | any run of ticks after one dwell start toggles at most one device |
| CardSnap.SilentAfterClear | src/app/access/client.tsx:56-83 | once the snap is cleared no tick fires until a new snap |
| AccessScreen.SwitchConfirm | src/app/access/client.tsx:284-286 | an empty list confirms nothing; an in-range index toggles exactly the highlighted device; any other index reaches no device |
| AccessScreen.StaleAfterShrink | src/app/access/client.tsx:313-317 | the index is not clamped when the list shrinks, so a confirm after losing the highlighted tail reaches a missing device |
| AccessScreen.IsHighlighted | src/app/access/client.tsx:427-429 | the card highlight: the snapped card in eye mode, the scanned position in switch mode; its consequences are stated by `AtMostOneHighlighted` |
| AccessScreen.AtMostOneHighlighted | src/app/access/client.tsx:427-429 | with distinct device ids at most one card is highlighted, and none in mouse mode |
| AccessScreen.SelectCaption | src/app/access/client.tsx:356 | the select button shows the highlighted device's name, and "없음" when the index is out of range or the name is empty |
| AccessScreen.Screen.constructor | src/app/access/client.tsx:44-51 | mounting stores the screen's input mode and the server-loaded devices; no card, dwell start, scan index or toggle yet |
| AccessScreen.Screen.RegisterCard | src/app/access/client.tsx:434-436 | a mounted card records its rectangle under its id and an unmounted one removes it; no other card changes |
| AccessScreen.Screen.SnapFrame | src/app/access/client.tsx:204-231 | after a frame the snapped id is none exactly when no registered card's 1.5-times box holds the gaze, otherwise the last capturing device in list order; the store is written only when the id changes |
| AccessScreen.Screen.DwellEffect | src/app/access/client.tsx:53-94 | a snapped id restarts the dwell at the current time; no snap drops the start and resets the progress to 0 |
| AccessScreen.Screen.DwellIntervalTick | src/app/access/client.tsx:56-83 | a tick records the elapsed time, and at 2000 ms toggles the snapped device when it is still listed and clears snap and progress, appending exactly that toggle to the log |
| AccessScreen.Screen.DwellPercentShown | src/app/access/client.tsx:96-99 | the shown percentage is at most 100 and never negative for non-negative progress |
| AccessScreen.Screen.SwitchTick | src/app/access/client.tsx:260-275 | in switch mode with a non-empty list the scan moves to the next device, cyclically and in range; in any other case the index is kept |
| AccessScreen.Screen.Confirm | src/app/access/client.tsx:313-317 | the outcome is the switch confirmation for the current index, and the log gains exactly the confirmed toggle |
| AccessScreen.Screen.SwitchKey | src/app/access/client.tsx:278-294 | only in switch mode and only for Space or Enter a key confirms the highlighted device; any other key or mode changes nothing |
| AccessScreen.Screen.SwitchButton | src/app/access/client.tsx:351-357 | the select button exists only in switch mode and confirms the highlighted device there |
| AccessScreen.Screen.MouseEnter | src/app/access/client.tsx:437-441 | hovering a card snaps it in mouse mode and changes nothing in other modes |
| AccessScreen.Screen.MouseLeave | src/app/access/client.tsx:442-446 | leaving a card clears the snap in mouse mode and changes nothing in other modes |
| AccessScreen.Screen.MouseClick | src/app/access/client.tsx:239-254 | clicking a card in mouse mode sends exactly the inverse of its state; in other modes nothing is sent |
| AccessScreen.Screen.ResetView | src/app/access/client.tsx:198-201 | resetting the view leaves no snap and zero progress |
| EyeScreen.Screen.constructor | src/app/access/eye/client.tsx:52-66 | mounting stores the server-loaded devices, starts with a 2-second dwell, no card, no dwell start and no toggle |
| EyeScreen.Screen.StartTracking | src/app/access/eye/client.tsx:69-75 | without the library nothing changes; a tracker already started changes nothing; on a fresh tracker the listener is registered, a successful start marks the sensor ready, a denied camera leaves the sensor flag as it was, and any other failure leaves it not ready |
| EyeScreen.Screen.SetDwellSeconds | src/app/access/eye/client.tsx:254-259 | the slider sets the dwell time to the chosen whole number of seconds from 1 to 10 |
| EyeScreen.Screen.SnapFrame | src/app/access/eye/client.tsx:78-109 | before the sensor is ready nothing changes; afterwards the snap is none exactly when no registered card's 3-times box holds the gaze, and with no registered card it is always cleared |
| EyeScreen.Screen.DwellEffect | src/app/access/eye/client.tsx:112-154 | a snapped id restarts the dwell at the current time; no snap drops the start and resets the progress to 0 |
| EyeScreen.Screen.DwellIntervalTick | src/app/access/eye/client.tsx:115-142 | a tick records the elapsed time, and at `dwellTime * 1000` ms toggles the snapped device when it is still listed and clears snap and progress, appending exactly that toggle to the log |
| EyeScreen.Screen.DwellPercentShown | src/app/access/eye/client.tsx:156-159 | the shown percentage is at most 100, never negative for non-negative progress and 100 once the slider's threshold is reached |
| EyeScreen.Screen.ProgressFor | src/app/access/eye/client.tsx:274-275 | only the snapped device shows dwell progress; every other device shows 0 |
| EyeScreen.Screen.DeviceClick | src/app/access/eye/client.tsx:161-168 | a click in the 3D view sends exactly the inverse of the device's state |
| EyeScreen.Screen.RoutineUpdate | src/app/access/eye/client.tsx:170-176 | with a signed-in user a returned listing replaces the devices; otherwise the list is kept |
| ScanCycle.NextIndex | src/app/access/switch/client.tsx:76 | after a tick the index is in range `0 <= i < length` |
| ScanCycle.NextIndexStep | src/app/access/switch/client.tsx:76 | from an in-range index a tick moves to the next item, and from the last one back to the first |
| ScanCycle.AfterTicksFromZero | src/app/access/switch/client.tsx:72-77 | from the first item, `k` ticks land on item `k mod length`: the scan visits the items in order |
| ScanCycle.FullRound | src/app/access/switch/client.tsx:72-77 | `length` ticks from the first item return to it |
| SwitchScreen.RoutineItems | src/app/access/switch/client.tsx:51-53 | one routine item per routine, in order |
| SwitchScreen.DeviceItems | src/app/access/switch/client.tsx:55-57 | one device item per device, in order |
| SwitchScreen.ScanItems | src/app/access/switch/client.tsx:48-59 | the scan list has as many items as there are routines and devices together: the routines in order, then the devices in order |
| SwitchScreen.BuildScanItems | src/app/access/switch/client.tsx:48-59 | the two push loops build exactly the scan list |
| SwitchScreen.ChoiceAt | src/app/access/switch/client.tsx:115-125 | confirming does nothing exactly on an empty list; a device item is toggled with `!is_active`; a routine item runs that routine; an index past the end of a shrunk list reaches neither branch |
| SwitchScreen.HighlightByPosition | src/app/access/switch/client.tsx:194-211 | a routine is highlighted exactly when the index is one of the first positions, one per routine, and holds it; a device exactly when the index is one of the later positions and holds it |
| SwitchScreen.PositionLabel | src/app/access/switch/client.tsx:261 | the label is the one-based position, which reads back as `switchIndex + 1`, followed by " / " and the length |
| SwitchScreen.ProgressPercent | src/app/access/switch/client.tsx:297 | for an in-range index the bar is above 0% and at most 100%, and full exactly on the last item |
| SwitchScreen.ProgressIncreases | src/app/access/switch/client.tsx:297 | the bar grows with every step of a round |
| SwitchScreen.Screen.constructor | src/app/access/switch/client.tsx:36-69 | index 0, scan speed 2 s, nothing executing, no request; the store's list becomes the initial devices |
| SwitchScreen.Screen.SetScanSeconds | src/app/access/switch/client.tsx:174-179 | the slider sets the scan speed |
| SwitchScreen.Screen.Tick | src/app/access/switch/client.tsx:72-84 | with a non-empty list the index becomes `(index + 1) mod length`, which is in range so confirming acts on an item; with an empty list no interval runs and the index stays |
| SwitchScreen.Screen.BeginRoutine | src/app/access/switch/client.tsx:95-100 | without a user id nothing happens; otherwise the routine is marked executing and one `executeRoutine` request is sent |
| SwitchScreen.Screen.FinishRoutine | src/app/access/switch/client.tsx:100-111 | the executing id is cleared on success and on failure; after a success the device list is refreshed from the listing when one came back |
| SwitchScreen.Screen.DeviceClick | src/app/access/switch/client.tsx:86-93 | one toggle request for the device is sent |
| SwitchScreen.Screen.Confirm | src/app/access/switch/client.tsx:115-125 | the choice is `ChoiceAt` of the scan list and index; a device choice sends its toggle, a routine choice with a user id sends `executeRoutine`; anything else sends nothing |
| SwitchScreen.Screen.KeyDown | src/app/access/switch/client.tsx:116-126 | Space and Enter confirm the highlighted item; any other key does nothing |
| Records.Toggle | src/app/access/voice/client.tsx:93-99 | the toggle request names the device and asks for the opposite of its current `is_active`, null counting as off |
| Text.ContainsAt | src/app/access/voice/client.tsx:129-130 | `includes` holds exactly when the word occurs at some offset of the transcript |
| Text.ToLower | src/app/access/voice/client.tsx:123 | lower-casing keeps the length and maps each character by itself |
| Text.ToLowerIdempotent | src/app/access/voice/client.tsx:123-128 | lower-casing twice is lower-casing once |
| Text.TrimStartSpec | src/middleware.ts:23 | what the leading-space skip removes is a prefix made only of white space, and what it keeps starts with none |
| Text.TrimEnd | src/app/access/voice/client.tsx:123 | what is cut from the end is white space only, and the rest is a prefix that does not end in white space |
| Text.Trim | src/app/access/voice/client.tsx:123 | the result is an infix of the input with white space only cut off on either side, neither starting nor ending with white space |
| Text.DigitPrefix | src/middleware.ts:23 | the longest prefix of decimal digits: all digits, and the next character (if any) is not one |
| Text.NatToStringValue | src/middleware.ts:27 | the decimal digits written for `n` have the value `n` |
| Text.IntToStringRoundTrip | src/middleware.ts:23-27 | `parseInt(String(n), 10)` is `n` for every integer, negative ones included |
| VoiceScreen.Transcript | src/app/access/voice/client.tsx:122-123 | the transcript is lower case, neither starts nor ends with white space, and is no longer than the first alternative of the last result |
| VoiceScreen.CommandWords | src/app/access/voice/client.tsx:129-130 | the two-syllable words add nothing: the on-test is "켜" or "on" and the off-test is "끄" or "off" |
| VoiceScreen.IsOnCommand | src/app/access/voice/client.tsx:128 | `isOnCommand`: the transcript holds the lower-cased name and an on-word; `CommandWords` and `OnInsideName` state what that admits |
| VoiceScreen.IsOffCommand | src/app/access/voice/client.tsx:129 | `isOffCommand`: the transcript holds the lower-cased name and an off-word |
| VoiceScreen.Acts | src/app/access/voice/client.tsx:131-157 | the handler toggles a device on an on-command while it is off or an off-command while it is on; `MatchCommand` and `RepeatedOnIgnored` are stated in its terms |
| VoiceScreen.MatchCommand | src/app/access/voice/client.tsx:127-159 | the loop finds no device exactly when the transcript acts on none (an on-command for a device that is off, an off-command for one that is on), and otherwise the first one in list order that it acts on |
| VoiceScreen.RepeatedOnIgnored | src/app/access/voice/client.tsx:132-146 | "X on" said again while X is on toggles nothing, unless the words also read as an off-command for X |
| VoiceScreen.OnInsideName | src/app/access/voice/client.tsx:128-134 | "monitor off" said of a monitor that is off switches it on: the "on" inside the name reads as an on-word |
| VoiceScreen.WithoutFirst | src/app/access/voice/client.tsx:128-129 | the transcript with the first occurrence of the name cut out: the whole tail after the name when the transcript starts with it, the transcript itself when the name does not occur, never longer |
| VoiceScreen.CommandOutsideName | src/app/access/voice/client.tsx:128-134 | corrected: with the on- and off-words looked for outside the name, "X off" acts exactly on a device X that is on and "X on" exactly on one that is off, whatever the name |
| VoiceScreen.Screen.constructor | src/app/access/voice/client.tsx:89-91 | the store's list becomes the initial devices and no request has been sent |
| VoiceScreen.Screen.DeviceClick | src/app/access/voice/client.tsx:93-100 | one toggle request for the device is sent |
| VoiceScreen.Screen.OnResult | src/app/access/voice/client.tsx:121-160 | at most one toggle per transcript: none exactly when the transcript acts on no device, otherwise the toggle of the first device it acts on, sent once |
| Text.NatToString | src/middleware.ts:27 | the decimal rendering of a count is non-empty and made of digits only |
| RoutineSection.InsertSorted | src/components/RoutineSection.tsx:115 | inserting a step into a list sorted by `order_index` keeps it sorted |
| RoutineSection.InsertWithOrder | src/components/RoutineSection.tsx:115 | the steps carrying one `order_index` after an insertion are the new step (when it carries that index) followed by the old ones, in their old order |
| RoutineSection.SortByOrderSpec | src/components/RoutineSection.tsx:115 | the sort result is ordered by `order_index`, is a permutation of the input, and keeps steps with equal `order_index` in their original relative order (a stable sort) |
| RoutineSection.Preview | src/components/RoutineSection.tsx:114-116 | the preview holds `min(3, n)` steps, in `order_index` order, all taken from the routine's steps |
| RoutineSection.PreviewSmallest | src/components/RoutineSection.tsx:114-116 | a step left out of the preview has an `order_index` no smaller than any step shown |
| RoutineSection.PreviewLine | src/components/RoutineSection.tsx:117-120 | a line is numbered `idx + 1`, names the joined device or "알 수 없음" for a missing device or empty name, and shows the step's target state |
| RoutineSection.PreviewLines | src/components/RoutineSection.tsx:114-121 | one line per previewed step, the i-th describing the i-th previewed step |
| RoutineSection.Overflow | src/components/RoutineSection.tsx:122-126 | the overflow line appears exactly when there are more than 3 steps, and its count is positive and equals the number of steps not previewed |
| RoutineSection.Render | src/components/RoutineSection.tsx:59-130 | nothing without routines; otherwise one card per routine in order, with that routine's id, a button disabled exactly while any run is pending or this routine executes, no highlight without `isSwitchActive`, an overflow line exactly for more than 3 steps and at most 3 preview lines |
| RoutineSection.Section.constructor | src/components/RoutineSection.tsx:30-31 | nothing executing, nothing pending, no request sent |
| RoutineSection.Section.BeginExecute | src/components/RoutineSection.tsx:33-43 | without a (truthy) user id nothing happens; otherwise pending is set, the routine is marked executing and one `executeRoutine` request for it is appended |
| RoutineSection.Section.FinishExecute | src/components/RoutineSection.tsx:44-56 | pending and the executing id are cleared on success and on failure; `onRoutineUpdate` is called once exactly after a success with a handler |
| Middleware.WithoutParam | src/middleware.ts:15 | no entry with the name is left, every entry with another name is kept, nothing new appears, an absent name leaves the query unchanged, and the query never grows |
| Middleware.StripHandshake | src/middleware.ts:9-15 | the cloned URL keeps origin and path, loses the handshake parameter and keeps every other parameter, adding none |
| Middleware.RootOf | src/middleware.ts:36 | "/" on the request's origin, with no query |
| Middleware.CounterValue | src/middleware.ts:22-23 | a missing or empty cookie counts as 0 |
| Middleware.CounterRoundTrip | src/middleware.ts:23-27 | a counter written with `String(n)` reads back through `parseInt` as `n` |
| Middleware.ApplyCookies | src/middleware.ts:27-35 | the cookie a browser keeps after a response: the last operation decides it (deleted, or set to its value), and no operation leaves it as it was |
| Middleware.HandleAsWritten | src/middleware.ts:9-53 | as written: a handshake request below the limit is retried on the stripped URL (the new counter is stated by `HandleAsWrittenRetry`); one at or past the limit, or whose counter is not a number, goes to "/" with no retry and the counter cookie left as it was; any other request proceeds with the counter cleared and protection exactly on the protected routes |
| Middleware.HandleAsWrittenRetry | src/middleware.ts:18-32 | as written, a handshake request whose counter reads `c < 3` is redirected to its own URL with only the parameter removed, and the counter it leaves reads `c + 1` |
| Middleware.Handle | src/middleware.ts:9-53 | as intended: a handshake request is redirected to a URL without the parameter, and it is a retry exactly when the counter reads a number below 3; any other request proceeds; the branches in full are `HandleRetry`, `HandleRoot` and `HandlePass` |
| Middleware.BelowLimit | src/middleware.ts:22-25 | the counter cookie parses to a number below 3 |
| Middleware.HandleRetry | src/middleware.ts:18-32 | a handshake request whose counter reads `c < 3` is redirected to its own URL with only the parameter removed, and the counter it leaves reads `c + 1` |
| Middleware.HandleRoot | src/middleware.ts:33-38 | a handshake request whose counter reads 3 or more, or is not a number, is redirected to "/" of its origin and the counter is cleared |
| Middleware.HandlePass | src/middleware.ts:41-53 | a request without the parameter proceeds, the counter is cleared (or stays absent) and `auth.protect()` is called exactly on `/admin…` and `/access…` paths |
| Middleware.AsWrittenKeepsCounter | src/middleware.ts:33-38 | as written, a handshake request with counter "3" is sent to "/" with the cookie still "3"; as intended the cookie is gone, and a handshake request without a cookie is retried |
| Middleware.StrippedUrlPasses | src/middleware.ts:10-18 | the redirect target, requested again with any counter, leaves the handshake branch |
| Middleware.StepKeepsRange | src/middleware.ts:22-49 | from a counter reading 0..3 every response leaves a counter reading 0..3, and every retry raises it by exactly one |
| Middleware.NoFourRetries | src/middleware.ts:25-38 | a browser whose counter starts at 0..3 (also one without the cookie) never receives four handshake retries in a row, whatever URLs it requests |
| Middleware.NoFourRetriesAsWritten | src/middleware.ts:25-38 | the middleware as written also never sends four handshake retries in a row to a browser whose counter starts at 0..3 |
| Middleware.Response.constructor | src/middleware.ts:18 | a new response has its location and no cookie operation |
| Middleware.Response.SetCounter | src/middleware.ts:27-31 | appends a set of the counter and changes nothing else |
| Middleware.Response.DeleteCounter | src/middleware.ts:35 | appends a deletion of the counter and changes nothing else |
| Middleware.MiddlewareAsWritten | src/middleware.ts:6-54 | the handler step by step as written computes `HandleAsWritten`: the deletion lands on a response that is dropped; `NoFourRetriesAsWritten` gives it the three-retry bound |
| Middleware.Middleware | src/middleware.ts:6-54 | the handler step by step as intended computes `Handle`, whose properties are those of `HandleRetry`, `HandleRoot`, `HandlePass` and `NoFourRetries` |
| AccessPage.ResolveInputMode | src/app/access/page.tsx:11-24 | the mode is one of eye, mouse, switch, voice; a stored valid mode is kept; a missing row, a failed lookup, a null or any other mode gives "mouse" |
| AccessPage.AccessRedirect | src/app/access/page.tsx:6-27 | no user is sent to "/sign-in"; a user is sent to "/access/" followed by the resolved mode |
| AccessPage.RedirectLandsOnMode | src/app/access/page.tsx:21-27 | every signed-in visitor lands on "/access/" plus one of the four valid modes |
| Middleware.HandleKeepsRange | src/middleware.ts:22-49 | every answer of the corrected middleware keeps an in-range counter in range, and each retry raises it by one |
| Middleware.StepKeepsRangeAsWritten | src/middleware.ts:22-49 | as written, from a counter reading 0..3 every response still leaves a counter in 0..3 (the redirect to "/" keeps "3"), and a retry raises it by one |
| Middleware.HandleAsWrittenKeepsRange | src/middleware.ts:22-49 | every answer of the middleware as written keeps an in-range counter in range and raises it by one on a retry |
| Middleware.RetryRunBound | src/middleware.ts:22-32 | for any step that keeps the counter in range, a run of consecutive retries from counter `c` is at most `3 - c` long |
| Middleware.NoFourRetriesRun | src/middleware.ts:25-38 | for any such step, among any four consecutive answers of a session starting in range at least one is not a retry |
| ArCanvas.MinMaxOfSpec | spatiallink-ar/components/ARCanvas.tsx:22-31 | the folded minimum and maximum bound every corner coordinate and are each attained by a corner |
| ArCanvas.EyeGazeRatio | spatiallink-ar/components/ARCanvas.tsx:20-46 | the iris position inside the box of the eye corners, (0.5, 0.5) for a degenerate box; `GetEyeGazeRatio` computes it and `RatioInUnitSquare` bounds it |
| ArCanvas.RatioInUnitSquare | spatiallink-ar/components/ARCanvas.tsx:33-45 | an iris inside the box of the eye corners gives a ratio in the unit square, the flat-box case giving the centre |
| ArCanvas.GetEyeGazeRatio | spatiallink-ar/components/ARCanvas.tsx:20-46 | the one-pass corner loop computes exactly the iris ratio inside the corners' bounding box, and 0.5/0.5 for a box of zero width or height |
| ArCanvas.ClampTo | spatiallink-ar/components/ARCanvas.tsx:229-230 | the clamped coordinate lies in `[0, hi]` and a coordinate already there is kept |
| ArCanvas.FaceTarget | spatiallink-ar/components/ARCanvas.tsx:193-230 | the clamped eye-and-head target; `FaceTargetInWindow` states that it lies in the window |
| ArCanvas.FaceTargetInWindow | spatiallink-ar/components/ARCanvas.tsx:193-230 | whatever the landmarks, the eye-and-head target lies inside the window |
| ArCanvas.SmoothCursor | spatiallink-ar/components/ARCanvas.tsx:233-235 | the 0.15 low-pass step; `SmoothCursorBetween` states where it lands |
| ArCanvas.SmoothCursorBetween | spatiallink-ar/components/ARCanvas.tsx:233-235 | the 0.15 low-pass step lands between the last cursor and the target on each axis |
| ArCanvas.FaceCursorStaysInWindow | spatiallink-ar/components/ARCanvas.tsx:225-237 | clamping before smoothing keeps a cursor that starts in the window inside it |
| ArCanvas.WrappedYaw | spatiallink-ar/components/ARCanvas.tsx:299-301 | the closed form of the yaw wrap; `WrappedYawRange`, `WrappedYawPeriodic` and `WrappedYawSeam` state its range, period and seam |
| ArCanvas.WrappedYawRange | spatiallink-ar/components/ARCanvas.tsx:299-301 | the wrapped yaw lies in [-180, 180], on (-180, 180] when it came from above, on [-180, 180) from below, and a yaw already in range is kept |
| ArCanvas.WrappedYawPeriodic | spatiallink-ar/components/ARCanvas.tsx:299-301 | adding whole turns keeps the size of the wrapped yaw, and the wrapped yaw itself away from the seam |
| ArCanvas.WrappedYawSeam | spatiallink-ar/components/ARCanvas.tsx:300-301 | the seam is asymmetric: -540 wraps to -180 while 180 is left at 180 |
| ArCanvas.Projected | spatiallink-ar/components/ARCanvas.tsx:289-312 | an anchor is hidden exactly when there is no container or its wrapped yaw or pitch offset exceeds 40 degrees |
| ArCanvas.ProjectedNearCentre | spatiallink-ar/components/ARCanvas.tsx:304-309 | a visible anchor lands within 40 degrees' worth of pixels of the container's centre on both axes |
| ArCanvas.ProjectedPeriodic | spatiallink-ar/components/ARCanvas.tsx:296-311 | turning an anchor by whole revolutions changes neither its visibility nor its screen position |
| ArCanvas.SameAnglesSameProjection | spatiallink-ar/components/ARCanvas.tsx:296-311 | the projection depends on an anchor only through its wrapped yaw offset and its pitch |
| ArCanvas.SeamCulled | spatiallink-ar/components/ARCanvas.tsx:300-306 | an anchor on the seam is always culled, so the asymmetric seam never shows |
| ArCanvas.NewAnchorAtCentre | spatiallink-ar/components/ARCanvas.tsx:393-398 | a new anchor placed at the current view projects to the exact centre of the container |
| ArCanvas.WrapYaw | spatiallink-ar/components/ARCanvas.tsx:300-301 | the two wrapping loops terminate and compute the closed-form wrapped yaw |
| ArCanvas.WrapYawAgrees | spatiallink-ar/components/ARCanvas.tsx:300-301 | a value in the wrap's range that differs from the offset by whole turns, in the direction the loops move, is the wrapped yaw |
| ArCanvas.ProjectAnchor | spatiallink-ar/components/ARCanvas.tsx:289-312 | `projectAnchor` with its loops computes exactly the specified projection |
| ArCanvas.SnapUnique | spatiallink-ar/components/ARCanvas.tsx:320-329 | at most one anchor is the snap target |
| ArCanvas.SnapTarget | spatiallink-ar/components/ARCanvas.tsx:315-329 | no snap exactly when no visible anchor is strictly within 80 px; otherwise the nearest one, the earliest of equally near ones |
| ArCanvas.GazeDwellTick | spatiallink-ar/components/ARCanvas.tsx:342-356 | one gaze dwell tick; `GazeDwellFiresCaptured` states when and what it fires |
| ArCanvas.GazeDwellOnSnap | spatiallink-ar/components/ARCanvas.tsx:335-369 | a snap starts a dwell only when none is pending, with progress 0; an empty snap cancels a pending dwell and resets progress; otherwise nothing changes |
| ArCanvas.GazeDwellFiresCaptured | spatiallink-ar/components/ARCanvas.tsx:342-356 | a dwell fires exactly once 1500 ms have passed, fires the id captured when it started and then clears; before that the progress stays at most 100 |
| ArCanvas.SwitchingSnapKeepsDwell | spatiallink-ar/components/ARCanvas.tsx:336-357 | moving the snap to another anchor neither restarts nor retargets the pending dwell: the first anchor fires |
| ArCanvas.BlinkFrame | spatiallink-ar/components/ARCanvas.tsx:137-173 | one blink-gesture frame; `BlinkFiresOnlyAfterHold` and `BlinkFiresOncePerHold` state when it fires |
| ArCanvas.BlinkFiresOnlyAfterHold | spatiallink-ar/components/ARCanvas.tsx:137-173 | a blink fires only the hovered anchor, only after more than 2000 ms since the recorded start, and resets; open eyes reset the gesture; the progress stays at most 100 |
| ArCanvas.BlinkFiresOncePerHold | spatiallink-ar/components/ARCanvas.tsx:147-166 | after a firing frame a continued blink only records a new start, so one hold fires once |
| ArCanvas.MovedView | spatiallink-ar/components/ARCanvas.tsx:253-258 | a drag turns the yaw by a tenth of the horizontal movement and the pitch by a tenth of the vertical one, clamped to [-45, 45] |
| ArCanvas.ArSession.constructor | spatiallink-ar/components/ARCanvas.tsx:61-77 | a new canvas looks straight ahead with the cursor at the window's centre, no hover, no pending dwell or blink and nothing triggered |
| ArCanvas.ArSession.ViewMove | spatiallink-ar/components/ARCanvas.tsx:253-258 | `handleViewMove` applies the drag to the view and keeps the pitch within 45 degrees |
| ArCanvas.ArSession.PointerMove | spatiallink-ar/components/ARCanvas.tsx:261-279 | face mode ignores the pointer; otherwise the cursor follows it and a right-button mouse drag also turns the view |
| ArCanvas.ArSession.SnapEffect | spatiallink-ar/components/ARCanvas.tsx:315-371 | the hovered anchor becomes the snap target, and in gaze mode the dwell follows the snap rule |
| ArCanvas.ArSession.DwellTimerTick | spatiallink-ar/components/ARCanvas.tsx:342-356 | the dwell interval and timeout update the progress and trigger exactly the captured anchor |
| ArCanvas.ArSession.FaceFrame | spatiallink-ar/components/ARCanvas.tsx:126-242 | only a new face-mode frame does anything; blend shapes drive the blink gesture, and a frame without them leaves the blink, dwell and triggers alone; on a non-blinking frame with a face mesh the cursor becomes the smoothed step towards the clamped eye-and-head target and stays in the window; otherwise the cursor stays |
| ArCanvas.ArSession.Click | spatiallink-ar/components/ARCanvas.tsx:411-415 | a click triggers the hovered anchor outside gaze and face modes, and nothing otherwise |

## Left out

- Server actions (`toggleDeviceStatus`, `executeRoutine`, `listDevices`, `getUserInfo`) and the Supabase queries: they are calls into services outside the core. Their requests become events in an output log, and their answers become parameters. A failed or empty answer is none.
- Camera, sensor and permission plumbing:
  - the permission request;
  - `getUserMedia`;
  - loading the WebGazer script;
  - the tracker's `begin()`;
  - the MediaPipe face-landmarker set-up and `detectForVideo`.
  
  These are device I/O. Their products are inputs: raw gaze samples, the outcome of `begin()`, blink scores and landmark lists.
- Scheduling:
  - `requestAnimationFrame`, `setInterval` and `setTimeout`;
  - the order in which React runs its effects.
  
  Each become explicit `Frame` and `Tick` methods that take the current time. The model does not decide when the runtime calls them.
- The visibility handlers that pause and resume WebGazer when the tab is hidden, in src/hooks/useWebGazer.ts and src/hooks/useWebGazerCalibration.ts. They only call into the tracker library.
- Building and removing the calibration overlay's DOM buttons, their opacity and colour, and its 300 ms removal timer. These are rendering.
- Calibration.Accuracy: the distance from the centroid is the parameter `norm`, standing for `Math.sqrt`. The `Number.isFinite` test is not modelled, because `real` has no infinities or NaN.
- The `calibration_started` and `calibration_completed` analytics events, the `device_clicked` event and all console logging. They are analytics only.
- The AR variant's `handleAddAnchor`, with its frame capture and the Gemini call in `identifyAppliance`. It is a foreign AI call with a random id and colour. Only the placement of the new anchor, at the current view, is stated, by `ArCanvas.NewAnchorAtCentre`.
- ArCanvas.WrappedYawPeriodic: if the wrapped yaw is on the seam (exactly ±180), adding whole turns may move it to the other end. So only its size is stated there, not its value. `ArCanvas.SeamCulled` shows that the seam is never visible.
- ArCanvas.ArSession.FaceFrame:
  - requires a face mesh of at least 474 landmarks when a mesh is present, as MediaPipe's face landmarker (with irises) always supplies.
  - a missing blend-shape category is passed in as score 0, as `?.score || 0` yields.
- Timestamps that JavaScript tests with `!ref.current` are `Option` values:
  - the dwell start in both access screens;
  - the AR blink start.
  
  A start of exactly 0 reads as none (`HasStart`, `Started`), as in the source.
- The speech engine's lifecycle in the voice screen: start, stop, automatic restart and error handling. Only the handler of one recognition result is modelled.
- The realtime channel: the subscription, opening and closing it, and the bootstrap fetch.
  - DeviceSync.Subscription.Start: the listing's query result is an input, and none stands for a failed query.
  - A null listing without an error, and events arriving after unmount, are not modelled.
- ToLower maps only ASCII capitals, not the full Unicode case tables of `toLowerCase`. (TrimStart and TrimEnd use the ECMAScript white space and line terminator set, as `trim` does.)
- RoutineSection: the source's `sort` reorders the `routine_devices` array it was given in place. The model sorts a copy, a stable insertion sort on values, and does not capture the mutation of the caller's array.
- The failure `alert` of the routine section's run handler. It is a browser dialog; the failure path itself is modelled.
- Middleware: the cookie's `httpOnly`, `maxAge` (10 s) and `path` attributes. Cookies are modelled as present or absent, never expiring.
- Middleware: what `auth.protect()` does internally. It is Clerk's own code; only whether it is called is modelled.
- Middleware.NoFourRetries: stated only for a counter that reads between 0 and 3, meaning none or one the middleware itself wrote. A client sending a negative counter cookie gets more than three retries in a row.
- Middleware.NoFourRetriesAsWritten: the same restriction to a counter that reads between 0 and 3.
- The mouse access screen (src/app/access/mouse/client.tsx), the admin screen, the 3D device view and the AR app shell. These are rendering or glue.
- The voice screen's handler and `MatchCommand` keep the matcher as written; the corrected tests (`IsOnCommandOutsideName`, `IsOffCommandOutsideName`, `ActsOutsideName`) stand beside them with `CommandOutsideName`, and nothing in the screen uses them, because the screen models the code.
- In the voice screen, a device for which the transcript reads both as an on-command and an off-command is toggled the same way whichever branch is taken. So the order of the two branches is not observable, and no separate property is stated for it.

## Findings

| source | as written | input that shows it | evidently intended | confidence | as-written member | corrected member |
|---|---|---|---|---|---|---|
| src/middleware.ts:33-38 | the too-many-redirects branch deletes the counter cookie on `response` and then returns a fresh `NextResponse.redirect(rootUrl)`, so the deletion is discarded and the counter stays at 3 | a request carrying `__clerk_handshake` with counter cookie "3" | the redirect to "/" clears the counter, as its comment says | not executed; the follow-up request to "/" carries no handshake and clears the counter there, so the effect is limited to handshake requests that arrive before it | Middleware.AsWrittenKeepsCounter | Middleware.HandleRoot |
| src/app/access/voice/client.tsx:128-129 | `isOnCommand` and `isOffCommand` look for "on" and "off" anywhere in the transcript, also inside the device name, so "on" is found inside "monitor" | "monitor off" said while a device named "monitor" is off: it reads as an on-command and the monitor is switched on | "X off" never switches X on; the command words are looked for outside the name | not executed; Korean commands ("켜", "끄") do not collide with names in the same way, so the effect is on English names holding "on" or "off" | VoiceScreen.OnInsideName | VoiceScreen.CommandOutsideName |
