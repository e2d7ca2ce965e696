/** Shapes of the rows the engine reads (the `devices`, `routines` and
    `routine_devices` tables) and the activation requests it emits.
    Device activation and routine execution are server calls in the
    application; here they become values appended to an output log. */
module Records {

  datatype Option<+T> = None | Some(value: T)

  /** A screen position, a gaze estimate or a landmark, in real coordinates. */
  datatype Point = Point(x: real, y: real)

  /** A row of the `devices` table; `is_active` may be null. */
  datatype Device = Device(
    id: string,
    userId: string,
    name: string,
    iconType: string,
    positionX: real,
    positionY: real,
    positionZ: real,
    isActive: Option<bool>,
    createdAt: Option<string>)

  /** A row of `routine_devices`, joined with the device it switches. */
  datatype RoutineDevice = RoutineDevice(
    id: string,
    deviceId: string,
    targetState: bool,
    orderIndex: int,
    device: Option<Device>)

  /** A row of `routines` with its joined `routine_devices`. */
  datatype Routine = Routine(
    id: string,
    userId: string,
    name: string,
    timeType: string,
    routineDevices: seq<RoutineDevice>)

  /** The request handed to the device/routine collaborator. */
  datatype Activation =
    | ToggleDevice(deviceId: string, isActive: bool)
    | ExecuteRoutine(routineId: string)

  /** JavaScript truthiness of `is_active`: null counts as off. */
  predicate IsOn(d: Device) {
    d.isActive == Some(true)
  }

  /** The toggle every client sends for a device: `isActive = !is_active`. */
  function Toggle(d: Device): (a: Activation)
    ensures a.ToggleDevice? && a.deviceId == d.id
    ensures a.isActive <==> !IsOn(d)
  {
    ToggleDevice(d.id, !IsOn(d))
  }

  /** JavaScript truthiness of a nullable string: null and "" are both falsy. */
  predicate Truthy(o: Option<string>) {
    o.Some? && o.value != []
  }

  function Min(a: real, b: real): real { if a <= b then a else b }

  function Max(a: real, b: real): real { if a >= b then a else b }

  function Abs(a: real): real { if a < 0.0 then -a else a }

  lemma MulNonNeg(a: real, b: real)
    requires a >= 0.0 && b >= 0.0
    ensures a * b >= 0.0
  {
  }

  /** `Math.max(lo, Math.min(hi, v))` */
  function Clamp(v: real, lo: real, hi: real): (r: real)
    requires lo <= hi
    ensures lo <= r <= hi
    ensures lo <= v <= hi ==> r == v
  {
    Max(lo, Min(hi, v))
  }
}
