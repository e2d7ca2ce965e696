/** The gaze signal conditioner (src/hooks/useWebGazer.ts): an exponential
    moving average with a first-sample snap, a module-wide calibration flag
    that selects the smoothing factor, and the guarded start of the tracker.
    Loading the tracker script, the camera and the tracker's own begin()
    are inputs: whether the library is present and how begin() ends. */
module WebGazer {
  import opened Records
  import DeviceStore

  const CalibratingAlpha: real := 0.08
  const NormalAlpha: real := 0.4

  /** The smoothing factor: 0.08 while calibrating, 0.4 otherwise. */
  function Alpha(calibrating: bool): (a: real)
    ensures 0.0 < a < 1.0
    ensures calibrating ==> a == 0.08
    ensures !calibrating ==> a == 0.4
  {
    if calibrating then CalibratingAlpha else NormalAlpha
  }

  /** One averaging step on one axis: `s * (1 - alpha) + raw * alpha`. */
  function Ema(s: real, raw: real, alpha: real): real {
    s * (1.0 - alpha) + raw * alpha
  }

  /** The effect of `applySmoothing` on the smoothed pair. */
  function Smoothed(s: Point, raw: Point, calibrating: bool): Point {
    if s.x == 0.0 && s.y == 0.0 then raw
    else Point(Ema(s.x, raw.x, Alpha(calibrating)), Ema(s.y, raw.y, Alpha(calibrating)))
  }

  /** From the origin (the state after start-up) the first sample is taken over unchanged. */
  lemma FirstSampleSnaps(raw: Point, calibrating: bool)
    ensures Smoothed(Point(0.0, 0.0), raw, calibrating) == raw
  {
  }

  /** Both factors non-negative, or both non-positive, give a non-negative product. */
  lemma MulSign(a: real, b: real)
    ensures a >= 0.0 && b >= 0.0 ==> a * b >= 0.0
    ensures a >= 0.0 && b <= 0.0 ==> a * b <= 0.0
  {
  }

  /** Away from the origin each step lands between the old value and the sample, and the
      remaining gap to the sample shrinks by the factor `1 - alpha`. */
  lemma {:induction false} EmaStep(s: real, raw: real, alpha: real)
    requires 0.0 <= alpha <= 1.0
    ensures Min(s, raw) <= Ema(s, raw, alpha) <= Max(s, raw)
    ensures Ema(s, raw, alpha) - raw == (1.0 - alpha) * (s - raw)
    ensures Abs(Ema(s, raw, alpha) - raw) <= Abs(s - raw)
  {
    var e := Ema(s, raw, alpha);
    assert e - raw == (1.0 - alpha) * (s - raw);
    assert e - s == alpha * (raw - s);
    MulSign(1.0 - alpha, s - raw);
    MulSign(alpha, raw - s);
    MulSign(alpha, s - raw);
    MulSign(1.0 - alpha, raw - s);
    assert alpha * (s - raw) == -(alpha * (raw - s));
    assert (1.0 - alpha) * (raw - s) == -((1.0 - alpha) * (s - raw));
  }

  lemma SmoothedBetween(s: Point, raw: Point, calibrating: bool)
    requires s.x != 0.0 || s.y != 0.0
    ensures var n := Smoothed(s, raw, calibrating);
      && Min(s.x, raw.x) <= n.x <= Max(s.x, raw.x)
      && Min(s.y, raw.y) <= n.y <= Max(s.y, raw.y)
  {
    EmaStep(s.x, raw.x, Alpha(calibrating));
    EmaStep(s.y, raw.y, Alpha(calibrating));
  }

  function Pow(b: real, n: nat): real {
    if n == 0 then 1.0 else b * Pow(b, n - 1)
  }

  /** `n` averaging steps towards a constant sample. */
  function EmaIterate(s: real, raw: real, alpha: real, n: nat): real {
    if n == 0 then s else Ema(EmaIterate(s, raw, alpha, n - 1), raw, alpha)
  }

  /** Holding the raw input steady, the gap after `n` samples is `(1 - alpha)^n` times the first. */
  lemma {:induction false} EmaIterateGap(s: real, raw: real, alpha: real, n: nat)
    ensures EmaIterate(s, raw, alpha, n) - raw == Pow(1.0 - alpha, n) * (s - raw)
  {
    if n > 0 {
      EmaIterateGap(s, raw, alpha, n - 1);
      EmaIterateGapStep(s, raw, alpha, n);
    }
  }

  /** The induction step of `EmaIterateGap`. */
  lemma EmaIterateGapStep(s: real, raw: real, alpha: real, n: nat)
    requires n > 0
    requires EmaIterate(s, raw, alpha, n - 1) - raw == Pow(1.0 - alpha, n - 1) * (s - raw)
    ensures EmaIterate(s, raw, alpha, n) - raw == Pow(1.0 - alpha, n) * (s - raw)
  {
    var prev := EmaIterate(s, raw, alpha, n - 1);
    assert EmaIterate(s, raw, alpha, n) == Ema(prev, raw, alpha);
    assert Pow(1.0 - alpha, n) == (1.0 - alpha) * Pow(1.0 - alpha, n - 1);
    GapStep(prev, raw, alpha, Pow(1.0 - alpha, n - 1), s - raw);
  }

  /** The algebra of one induction step: a gap of `p * g` shrinks to `((1 - alpha) * p) * g`. */
  lemma GapStep(prev: real, raw: real, alpha: real, p: real, g: real)
    requires prev - raw == p * g
    ensures Ema(prev, raw, alpha) - raw == ((1.0 - alpha) * p) * g
  {
    assert Ema(prev, raw, alpha) - raw == (1.0 - alpha) * (prev - raw);
    assert (1.0 - alpha) * (p * g) == ((1.0 - alpha) * p) * g;
  }

  /** ... and the gap never grows: convergence to a steady input is monotone. */
  lemma {:induction false} EmaIterateMonotone(s: real, raw: real, alpha: real, n: nat)
    requires 0.0 <= alpha <= 1.0
    ensures Abs(EmaIterate(s, raw, alpha, n + 1) - raw) <= Abs(EmaIterate(s, raw, alpha, n) - raw)
  {
    EmaStep(EmaIterate(s, raw, alpha, n), raw, alpha);
  }

  /** The module-level `isCalibrating` variable, shared by every tracker. */
  class CalibrationFlag {
    var calibrating: bool

    constructor ()
      ensures !calibrating
    {
      calibrating := false;
    }

    /** `setCalibrationMode` */
    method SetCalibrationMode(on: bool)
      modifies this
      ensures calibrating == on
    {
      calibrating := on;
    }
  }

  /** How the tracker's `begin()` ends. */
  datatype BeginOutcome = BeginOk | PermissionDenied | BeginError

  /** What `startWebGazer` resolves to or rejects with. */
  datatype StartResult =
    | Resolved(started: bool)
    | RejectedPermission
    | RejectedOther

  /** The hook's refs: the smoothed pair and the initialised flag. */
  class GazeTracker {
    var smoothX: real
    var smoothY: real
    var initialized: bool
    var listening: bool
    const flag: CalibrationFlag
    const store: DeviceStore.Store

    constructor (flag: CalibrationFlag, store: DeviceStore.Store)
      ensures smoothX == 0.0 && smoothY == 0.0
      ensures !initialized && !listening
      ensures this.flag == flag && this.store == store
    {
      smoothX, smoothY := 0.0, 0.0;
      initialized, listening := false, false;
      this.flag, this.store := flag, store;
    }

    /** `applySmoothing`: update the pair and publish it with `setGaze`. */
    method ApplySmoothing(x: real, y: real)
      modifies this`smoothX, this`smoothY, store`gaze
      ensures Point(smoothX, smoothY)
        == Smoothed(Point(old(smoothX), old(smoothY)), Point(x, y), flag.calibrating)
      ensures store.gaze == Point(smoothX, smoothY)
    {
      if smoothX == 0.0 && smoothY == 0.0 {
        smoothX := x;
        smoothY := y;
        store.SetGaze(Point(smoothX, smoothY));
        return;
      }
      var alpha := if flag.calibrating then CalibratingAlpha else NormalAlpha;
      smoothX := smoothX * (1.0 - alpha) + x * alpha;
      smoothY := smoothY * (1.0 - alpha) + y * alpha;
      store.SetGaze(Point(smoothX, smoothY));
    }

    /** The gaze listener: a null payload is dropped. */
    method OnGaze(data: Option<Point>)
      modifies this`smoothX, this`smoothY, store`gaze
      ensures data == None ==>
        smoothX == old(smoothX) && smoothY == old(smoothY) && store.gaze == old(store.gaze)
      ensures data.Some? ==>
        && Point(smoothX, smoothY)
          == Smoothed(Point(old(smoothX), old(smoothY)), data.value, flag.calibrating)
        && store.gaze == Point(smoothX, smoothY)
    {
      if data == None {
        return;
      }
      ApplySmoothing(data.value.x, data.value.y);
    }

    /** `startWebGazer`: refuse while the library is absent, do nothing twice, otherwise
        install the listener, begin and mark the sensor ready (or not) by the outcome. */
    method StartWebGazer(libraryLoaded: bool, begin: BeginOutcome) returns (r: StartResult)
      modifies this`initialized, this`listening, store`sensorReady
      ensures !libraryLoaded ==>
        && r == Resolved(false) && initialized == old(initialized)
        && listening == old(listening) && store.sensorReady == old(store.sensorReady)
      ensures libraryLoaded && old(initialized) ==>
        && r == Resolved(true) && initialized
        && listening == old(listening) && store.sensorReady == old(store.sensorReady)
      ensures libraryLoaded && !old(initialized) ==> listening && match begin
        case BeginOk => r == Resolved(true) && initialized && store.sensorReady
        case PermissionDenied => r == RejectedPermission && !initialized
          && store.sensorReady == old(store.sensorReady)
        case BeginError => r == RejectedOther && !initialized && !store.sensorReady
    {
      if !libraryLoaded {
        return Resolved(false);
      }
      if initialized {
        return Resolved(true);
      }
      listening := true;
      match begin
      case BeginOk =>
        initialized := true;
        store.SetSensorReady(true);
        r := Resolved(true);
      case PermissionDenied =>
        r := RejectedPermission;
      case BeginError =>
        store.SetSensorReady(false);
        r := RejectedOther;
    }
  }
}
