/** The direction-locked motion estimator of main/accel_to_draw.py
    (`MotionProcessor`).

    Raw accelerometer readings are integers; the estimator decides per sample
    whether the sensor rests, learns two movement thresholds while it rests,
    locks one direction of travel when movement starts and, while moving,
    advances the position by a fixed speed along that direction.

    The pure function `Step` gives the effect of one sample on the whole
    state; the class `MotionProcessor` holds the same state in fields that
    its methods update in place, and each method is proved to agree with
    `Step` or with the part of it that it implements. */
module MotionProcessing {
  import opened Options
  import opened Deque
  import opened Vectors

  // The constructor's constants.
  const OffsetX: int := -1950
  const OffsetY: int := 100
  const OffsetZ: int := 17600
  const MovementSpeed: real := 50.0
  const RestThreshold: int := 200

  // Deque capacities and the sample counts the decisions wait for.
  const CalibrationCapacity: nat := 20
  const CalibrationMinimum: nat := 10
  const RestWindowSize: nat := 8
  const RestMinimum: nat := 3
  const YWindowSize: nat := 3

  // Thresholds: initial values, the gain on the standard deviation and the
  // clamping bounds.
  const InitialThresholdX: real := 250.0
  const InitialThresholdY: real := 650.0
  const ThresholdGain: real := 3.0
  const MinThresholdX: real := 250.0
  const MaxThresholdX: real := 500.0
  const MinThresholdY: real := 500.0
  const MaxThresholdY: real := 800.0

  /** The bound on the standard deviation of the last Y readings, squared:
      a standard deviation is the non-negative root of the variance, so
      `std < 200` holds exactly when `variance < 200 * 200`. */
  const YStabilityVarianceLimit: real := 40000.0

  /** One sample (`IMUPoint`); the gyroscope fields are carried but unused. */
  datatype ImuPoint = ImuPoint(ax: int, ay: int, az: int, gx: real, gy: real, gz: real, timestamp: real)

  /** Every field of a `MotionProcessor`. */
  datatype MotionState = MotionState(
    position: Vec3,
    calibrationX: seq<int>,
    calibrationY: seq<int>,
    thresholdX: real,
    thresholdY: real,
    isMoving: bool,
    direction: Vec3,
    restFlags: seq<bool>,
    lastTimestamp: Option<real>,
    ySamples: seq<int>)

  /** The state `__init__` builds. */
  const Initial: MotionState :=
    MotionState(Zero, [], [], InitialThresholdX, InitialThresholdY, false, Zero, [], None, [])

  function Abs(v: int): nat { if v < 0 then -v else v }

  /** `np.sign` on an integer. */
  function Sign(v: int): int { if v < 0 then -1 else if v > 0 then 1 else 0 }

  /** `max(lo, min(hi, v))`. */
  function Clamp(v: real, lo: real, hi: real): (r: real)
    requires lo <= hi
    ensures lo <= r <= hi
    ensures lo <= v <= hi ==> r == v
    ensures v <= lo ==> r == lo
    ensures hi <= v ==> r == hi
  {
    var m := if hi <= v then hi else v;
    if m <= lo then lo else m
  }

  function Sum(s: seq<int>): int { if s == [] then 0 else s[0] + Sum(s[1..]) }

  /** The sum of squared distances of the samples from `mean`. */
  function SquaredDeviation(s: seq<int>, mean: real): (r: real)
    ensures r >= 0.0
  {
    if s == [] then 0.0
    else
      var d := s[0] as real - mean;
      d * d + SquaredDeviation(s[1..], mean)
  }

  function Mean(s: seq<int>): real
    requires |s| > 0
  {
    Sum(s) as real / |s| as real
  }

  /** The population variance (numpy's default, `ddof = 0`). */
  function Variance(s: seq<int>): (r: real)
    requires |s| > 0
    ensures r >= 0.0
  {
    SquaredDeviation(s, Mean(s)) / |s| as real
  }

  /** `np.std`, given the square root as `sqrt`. */
  function StdDev(s: seq<int>, sqrt: real -> real): real
    requires |s| > 0
  {
    sqrt(Variance(s))
  }

  /** The per-sample rest test: every axis within `RestThreshold` of the
      stationary offset. */
  function IsRestSample(ax: int, ay: int, az: int): (r: bool)
    ensures r <==> OffsetX - RestThreshold < ax < OffsetX + RestThreshold &&
                   OffsetY - RestThreshold < ay < OffsetY + RestThreshold &&
                   OffsetZ - RestThreshold < az < OffsetZ + RestThreshold
  {
    Abs(ax - OffsetX) < RestThreshold && Abs(ay - OffsetY) < RestThreshold && Abs(az - OffsetZ) < RestThreshold
  }

  /** The answer `_is_at_rest` gives for a window of rest flags. */
  predicate AllRest(flags: seq<bool>)
  {
    |flags| >= RestMinimum && forall i :: 0 <= i < |flags| ==> flags[i]
  }

  /** The answer `_is_y_stable` gives once its deque holds `ys`: a full
      deque whose readings are stable. Readings all closer than 200 to their
      mean are stable, and stable readings are each closer than
      `200 * sqrt(|ys|)` to it. */
  function YStable(ys: seq<int>): (r: bool)
    ensures r ==> |ys| >= YWindowSize && SpreadBelow(ys, |ys| as real * YStabilityVarianceLimit)
    ensures |ys| >= YWindowSize && SpreadBelow(ys, YStabilityVarianceLimit) ==> r
  {
    if |ys| >= YWindowSize then
      StabilityBand(ys);
      Variance(ys) < YStabilityVarianceLimit
    else
      false
  }

  /** Every reading's squared distance from the mean is below `bound`. */
  predicate SpreadBelow(ys: seq<int>, bound: real)
    requires |ys| > 0
  {
    forall i :: 0 <= i < |ys| ==> Squared(ys[i] as real - Mean(ys)) < bound
  }

  function Squared(d: real): real { d * d }

  lemma StabilityBand(ys: seq<int>)
    requires |ys| > 0
    ensures Variance(ys) < YStabilityVarianceLimit ==> SpreadBelow(ys, |ys| as real * YStabilityVarianceLimit)
    ensures SpreadBelow(ys, YStabilityVarianceLimit) ==> Variance(ys) < YStabilityVarianceLimit
  {
    var m, n, total := Mean(ys), |ys| as real, SquaredDeviation(ys, Mean(ys));
    assert Variance(ys) * n == total;
    if Variance(ys) < YStabilityVarianceLimit {
      assert total < n * YStabilityVarianceLimit;
      forall i | 0 <= i < |ys|
        ensures Squared(ys[i] as real - m) < n * YStabilityVarianceLimit
      {
        DeviationWithinTotal(ys, m, i);
      }
    }
    if SpreadBelow(ys, YStabilityVarianceLimit) {
      TotalBelow(ys, m, YStabilityVarianceLimit);
      assert total < n * YStabilityVarianceLimit;
    }
  }

  /** One reading's squared deviation is at most the total. */
  lemma {:induction false} DeviationWithinTotal(s: seq<int>, mean: real, i: nat)
    requires i < |s|
    ensures Squared(s[i] as real - mean) <= SquaredDeviation(s, mean)
    decreases |s|
  {
    var d := s[0] as real - mean;
    assert SquaredDeviation(s, mean) == Squared(d) + SquaredDeviation(s[1..], mean);
    assert Squared(d) >= 0.0;
    if i > 0 {
      DeviationWithinTotal(s[1..], mean, i - 1);
      assert s[1..][i - 1] == s[i];
    }
  }

  /** Squared deviations each below `bound` total less than `|s| * bound`. */
  lemma {:induction false} TotalBelow(s: seq<int>, mean: real, bound: real)
    requires |s| > 0
    requires forall i :: 0 <= i < |s| ==> Squared(s[i] as real - mean) < bound
    ensures SquaredDeviation(s, mean) < |s| as real * bound
    decreases |s|
  {
    if |s| > 1 {
      forall i | 0 <= i < |s[1..]|
        ensures Squared(s[1..][i] as real - mean) < bound
      {
        assert s[1..][i] == s[i + 1];
      }
      TotalBelow(s[1..], mean, bound);
    }
  }

  /** A locked direction: each component is -1, 0 or 1, at most one is not
      zero, and it is never the vertical one. */
  predicate IsAxisDirection(d: Vec3)
  {
    (d.x == -1.0 || d.x == 0.0 || d.x == 1.0) &&
    (d.y == -1.0 || d.y == 0.0 || d.y == 1.0) &&
    d.z == 0.0 && (d.x == 0.0 || d.y == 0.0)
  }

  /** Every bounded deque within its capacity, the calibration histories
      of equal length. */
  predicate Bounded(s: MotionState)
  {
    |s.restFlags| <= RestWindowSize &&
    |s.ySamples| <= YWindowSize &&
    |s.calibrationX| == |s.calibrationY| <= CalibrationCapacity
  }

  /** What holds of the fields between any two calls. */
  predicate Inv(s: MotionState)
  {
    Bounded(s) &&
    MinThresholdX <= s.thresholdX <= MaxThresholdX &&
    MinThresholdY <= s.thresholdY <= MaxThresholdY &&
    IsAxisDirection(s.direction) &&
    (s.isMoving <==> s.direction != Zero)
  }

  /** `_update_thresholds`: record the offset-corrected X and Y readings and,
      once at least `CalibrationMinimum` are held, re-derive both thresholds
      from their standard deviations. */
  function RecordCalibration(s: MotionState, ax: int, ay: int, sqrt: real -> real): (r: MotionState)
    requires |s.calibrationX| == |s.calibrationY| <= CalibrationCapacity
    ensures r.calibrationX == Append(s.calibrationX, ax, CalibrationCapacity)
    ensures r.calibrationY == Append(s.calibrationY, ay, CalibrationCapacity)
    ensures |r.calibrationX| == |r.calibrationY| <= CalibrationCapacity
    ensures |r.calibrationX| < CalibrationMinimum ==>
              r.thresholdX == s.thresholdX && r.thresholdY == s.thresholdY
    ensures |r.calibrationX| >= CalibrationMinimum ==>
              MinThresholdX <= r.thresholdX <= MaxThresholdX &&
              MinThresholdY <= r.thresholdY <= MaxThresholdY
    ensures r.position == s.position && r.isMoving == s.isMoving && r.direction == s.direction &&
            r.restFlags == s.restFlags && r.lastTimestamp == s.lastTimestamp && r.ySamples == s.ySamples
  {
    var cx := Append(s.calibrationX, ax, CalibrationCapacity);
    var cy := Append(s.calibrationY, ay, CalibrationCapacity);
    if |cx| >= CalibrationMinimum then
      s.(calibrationX := cx, calibrationY := cy,
         thresholdX := Clamp(StdDev(cx, sqrt) * ThresholdGain, MinThresholdX, MaxThresholdX),
         thresholdY := Clamp(StdDev(cy, sqrt) * ThresholdGain, MinThresholdY, MaxThresholdY))
    else
      s.(calibrationX := cx, calibrationY := cy)
  }

  /** The movement-start check of `_process_point` for a sample that is not
      at rest, given its offset-corrected X and Y readings. */
  function StartMovement(s: MotionState, ax: int, ay: int): (r: MotionState)
    requires |s.ySamples| <= YWindowSize
    ensures s.isMoving ==> r == s
    ensures |r.ySamples| <= YWindowSize
    ensures r.position == s.position && r.restFlags == s.restFlags && r.lastTimestamp == s.lastTimestamp &&
            r.calibrationX == s.calibrationX && r.calibrationY == s.calibrationY &&
            r.thresholdX == s.thresholdX && r.thresholdY == s.thresholdY
  {
    if s.isMoving then s
    else if Abs(ay) as real > s.thresholdY then
      s.(isMoving := true, direction := Vec3(0.0, -Sign(ay) as real, 0.0))
    else
      var ys := Append(s.ySamples, ay, YWindowSize);
      if YStable(ys) && Abs(ax) as real > s.thresholdX then
        s.(ySamples := ys, isMoving := true, direction := Vec3(-Sign(ax) as real, 0.0, 0.0))
      else
        s.(ySamples := ys)
  }

  /** The seconds elapsed since the last sample; a negative value is not
      rejected. */
  function Elapsed(last: real, p: ImuPoint): real { (p.timestamp - last) / 1000.0 }

  /** A sample found at rest (its flag already recorded in `s`): coming to
      rest from movement empties both calibration histories first, then the
      sensor stops, drops its direction, records the sample for calibration
      and advances its timestamp. */
  function RestingStep(s: MotionState, p: ImuPoint, sqrt: real -> real): (r: MotionState)
    requires |s.calibrationX| == |s.calibrationY| <= CalibrationCapacity
    ensures !r.isMoving && r.direction == Zero
    ensures r.position == s.position && r.restFlags == s.restFlags && r.ySamples == s.ySamples
    ensures r.lastTimestamp == Some(p.timestamp)
    ensures r.calibrationX == Append(if s.isMoving then [] else s.calibrationX, p.ax - OffsetX, CalibrationCapacity)
    ensures r.calibrationY == Append(if s.isMoving then [] else s.calibrationY, p.ay - OffsetY, CalibrationCapacity)
  {
    RecordCalibration(Settle(s), p.ax - OffsetX, p.ay - OffsetY, sqrt).(lastTimestamp := Some(p.timestamp))
  }

  /** Stop and drop the direction, emptying both calibration histories when
      coming to rest from movement. */
  function Settle(s: MotionState): (r: MotionState)
    requires |s.calibrationX| == |s.calibrationY| <= CalibrationCapacity
    ensures |r.calibrationX| == |r.calibrationY| <= CalibrationCapacity
    ensures !r.isMoving && r.direction == Zero
    ensures s.isMoving ==> r.calibrationX == [] && r.calibrationY == []
    ensures !s.isMoving ==> r.calibrationX == s.calibrationX && r.calibrationY == s.calibrationY
    ensures r.position == s.position && r.restFlags == s.restFlags && r.ySamples == s.ySamples &&
            r.thresholdX == s.thresholdX && r.thresholdY == s.thresholdY && r.lastTimestamp == s.lastTimestamp
  {
    var cleared := if s.isMoving then s.(calibrationX := [], calibrationY := []) else s;
    cleared.(isMoving := false, direction := Zero)
  }

  /** A sample found not at rest (its flag already recorded in `s`), `dt`
      seconds after the previous one: check for movement start, move along
      the locked direction and advance the timestamp. */
  function MovingStep(s: MotionState, p: ImuPoint, dt: real): (r: MotionState)
    requires |s.ySamples| <= YWindowSize
    ensures |r.ySamples| <= YWindowSize
    ensures r.restFlags == s.restFlags && r.lastTimestamp == Some(p.timestamp)
    ensures r.calibrationX == s.calibrationX && r.calibrationY == s.calibrationY &&
            r.thresholdX == s.thresholdX && r.thresholdY == s.thresholdY
  {
    Advanced(StartMovement(s, p.ax - OffsetX, p.ay - OffsetY), p, dt)
  }

  /** After the movement-start check: move along the direction when moving,
      then advance the timestamp. */
  function Advanced(s: MotionState, p: ImuPoint, dt: real): (r: MotionState)
    ensures r.lastTimestamp == Some(p.timestamp)
    ensures r.restFlags == s.restFlags &&
            r.calibrationX == s.calibrationX && r.calibrationY == s.calibrationY &&
            r.thresholdX == s.thresholdX && r.thresholdY == s.thresholdY
  {
    var moved :=
      if s.isMoving then s.(position := Add(s.position, Scale(MovementSpeed * dt, s.direction)))
      else s;
    moved.(lastTimestamp := Some(p.timestamp))
  }

  /** The effect of one call of `_process_point`. */
  function Step(s: MotionState, p: ImuPoint, sqrt: real -> real): (r: MotionState)
    requires Bounded(s)
    ensures Bounded(r)
    ensures r.lastTimestamp == Some(p.timestamp)
  {
    match s.lastTimestamp
    case None => s.(lastTimestamp := Some(p.timestamp))
    case Some(last) =>
      var flagged := Flagged(s, p);
      if AllRest(flagged.restFlags) then RestingStep(flagged, p, sqrt)
      else MovingStep(flagged, p, Elapsed(last, p))
  }

  // ---------------------------------------------------------------------
  // Properties of one step

  /** The sample's rest flag, recorded. */
  function Flagged(s: MotionState, p: ImuPoint): (r: MotionState)
    requires Bounded(s)
    ensures Bounded(r)
    ensures r.position == s.position && r.isMoving == s.isMoving && r.direction == s.direction &&
            r.thresholdX == s.thresholdX && r.thresholdY == s.thresholdY && r.ySamples == s.ySamples &&
            r.calibrationX == s.calibrationX && r.calibrationY == s.calibrationY &&
            r.lastTimestamp == s.lastTimestamp
  {
    s.(restFlags := Append(s.restFlags, IsRestSample(p.ax, p.ay, p.az), RestWindowSize))
  }

  /** A later sample that completes a rest window takes the resting path. */
  lemma StepResting(s: MotionState, p: ImuPoint, sqrt: real -> real)
    requires Bounded(s) && s.lastTimestamp.Some? && AllRest(Flagged(s, p).restFlags)
    ensures Step(s, p, sqrt) == RestingStep(Flagged(s, p), p, sqrt)
  {
  }

  /** Any other later sample takes the moving path. */
  lemma StepMoving(s: MotionState, p: ImuPoint, sqrt: real -> real)
    requires Bounded(s) && s.lastTimestamp.Some? && !AllRest(Flagged(s, p).restFlags)
    ensures Step(s, p, sqrt) == MovingStep(Flagged(s, p), p, Elapsed(s.lastTimestamp.value, p))
  {
  }

  /** The invariant holds initially and every sample keeps it. */
  lemma StepPreservesInv(s: MotionState, p: ImuPoint, sqrt: real -> real)
    requires Inv(s)
    ensures Inv(Initial)
    ensures Inv(Step(s, p, sqrt))
  {
  }

  /** The first sample only records its timestamp. */
  lemma FirstSampleSeedsTimestamp(s: MotionState, p: ImuPoint, sqrt: real -> real)
    requires Bounded(s) && s.lastTimestamp == None
    ensures Step(s, p, sqrt) == s.(lastTimestamp := Some(p.timestamp))
  {
  }

  /** Once a sample completes a window of rest flags, the sensor is at rest:
      it stops, drops its direction, keeps its position, advances its
      timestamp and records the sample for calibration. Coming to rest from
      movement first empties both calibration histories, so each then holds
      exactly the current sample. */
  lemma RestSample(s: MotionState, p: ImuPoint, sqrt: real -> real)
    requires Bounded(s) && s.lastTimestamp.Some?
    requires AllRest(Append(s.restFlags, IsRestSample(p.ax, p.ay, p.az), RestWindowSize))
    ensures var r := Step(s, p, sqrt);
      !r.isMoving && r.direction == Zero && r.position == s.position &&
      r.lastTimestamp == Some(p.timestamp) && r.ySamples == s.ySamples &&
      (s.isMoving ==> r.calibrationX == [p.ax - OffsetX] && r.calibrationY == [p.ay - OffsetY])
  {
  }

  /** A sample that does not complete a window of rest flags never records
      calibration data and never changes a threshold. */
  lemma MovingSampleKeepsCalibration(s: MotionState, p: ImuPoint, sqrt: real -> real)
    requires Bounded(s) && s.lastTimestamp.Some?
    requires !AllRest(Append(s.restFlags, IsRestSample(p.ax, p.ay, p.az), RestWindowSize))
    ensures var r := Step(s, p, sqrt);
      r.calibrationX == s.calibrationX && r.calibrationY == s.calibrationY &&
      r.thresholdX == s.thresholdX && r.thresholdY == s.thresholdY
  {
  }

  /** Movement start from rest, Y before X: a Y reading beyond its threshold
      locks direction `(0, -sign(ay), 0)` without touching the Y deque;
      otherwise the Y reading enters the Y deque and movement starts along
      `(-sign(ax), 0, 0)` exactly when the Y deque is stable and the X
      reading exceeds its threshold. */
  lemma MovementStart(s: MotionState, p: ImuPoint, sqrt: real -> real)
    requires Bounded(s) && s.lastTimestamp.Some? && !s.isMoving && s.direction == Zero
    requires !AllRest(Append(s.restFlags, IsRestSample(p.ax, p.ay, p.az), RestWindowSize))
    ensures var r := Step(s, p, sqrt);
      var ax, ay := p.ax - OffsetX, p.ay - OffsetY;
      if Abs(ay) as real > s.thresholdY then
        r.isMoving && r.direction == Vec3(0.0, -Sign(ay) as real, 0.0) && r.ySamples == s.ySamples
      else
        r.ySamples == Append(s.ySamples, ay, YWindowSize) &&
        (r.isMoving <==> YStable(r.ySamples) && Abs(ax) as real > s.thresholdX) &&
        (r.isMoving ==> r.direction == Vec3(-Sign(ax) as real, 0.0, 0.0)) &&
        (!r.isMoving ==> r.direction == Zero && r.position == s.position)
  {
    var flagged := Flagged(s, p);
    var dt := Elapsed(s.lastTimestamp.value, p);
    var started := StartMovement(flagged, p.ax - OffsetX, p.ay - OffsetY);
    StepMoving(s, p, sqrt);
    assert Step(s, p, sqrt) == Advanced(started, p, dt);
    AdvancedFields(started, p, dt);
    StartFromRest(flagged, p.ax - OffsetX, p.ay - OffsetY);
  }

  /** Moving after the movement-start check keeps its decision, and moves
      only when moving. */
  lemma AdvancedFields(s: MotionState, p: ImuPoint, dt: real)
    ensures var r := Advanced(s, p, dt);
      r.isMoving == s.isMoving && r.direction == s.direction && r.ySamples == s.ySamples &&
      r.position == (if s.isMoving then Add(s.position, Scale(MovementSpeed * dt, s.direction)) else s.position)
  {
  }

  /** The movement-start check from rest, on its own. */
  lemma StartFromRest(s: MotionState, ax: int, ay: int)
    requires |s.ySamples| <= YWindowSize && !s.isMoving && s.direction == Zero
    ensures var r := StartMovement(s, ax, ay);
      r.position == s.position &&
      if Abs(ay) as real > s.thresholdY then
        r.isMoving && r.direction == Vec3(0.0, -Sign(ay) as real, 0.0) && r.ySamples == s.ySamples
      else
        r.ySamples == Append(s.ySamples, ay, YWindowSize) &&
        (r.isMoving <==> YStable(r.ySamples) && Abs(ax) as real > s.thresholdX) &&
        (r.isMoving ==> r.direction == Vec3(-Sign(ax) as real, 0.0, 0.0)) &&
        (!r.isMoving ==> r.direction == Zero)
  {
  }

  /** While moving, the direction is not re-evaluated and the Y deque is not
      touched. */
  lemma DirectionLocked(s: MotionState, p: ImuPoint, sqrt: real -> real)
    requires Bounded(s) && s.lastTimestamp.Some? && s.isMoving
    requires !AllRest(Append(s.restFlags, IsRestSample(p.ax, p.ay, p.az), RestWindowSize))
    ensures var r := Step(s, p, sqrt);
      r.isMoving && r.direction == s.direction && r.ySamples == s.ySamples
  {
  }

  /** Every sample after the first moves the position by exactly
      `direction * MovementSpeed * dt` for the direction it leaves behind
      (zero at rest and when no movement starts), so at most one horizontal
      coordinate changes and the vertical one never does. */
  lemma Displacement(s: MotionState, p: ImuPoint, sqrt: real -> real)
    requires Inv(s) && s.lastTimestamp.Some?
    ensures var r := Step(s, p, sqrt);
      var dt := Elapsed(s.lastTimestamp.value, p);
      r.position == Add(s.position, Scale(MovementSpeed * dt, r.direction)) &&
      r.position.z == s.position.z &&
      (r.position.x == s.position.x || r.position.y == s.position.y) &&
      (!r.isMoving ==> r.position == s.position)
  {
    var dt := Elapsed(s.lastTimestamp.value, p);
    var flagged := Flagged(s, p);
    var r := Step(s, p, sqrt);
    StepPreservesInv(s, p, sqrt);
    if AllRest(flagged.restFlags) {
      StepResting(s, p, sqrt);
      assert r.position == s.position && r.direction == Zero;
    } else {
      StepMoving(s, p, sqrt);
      MovingDisplacement(flagged, p, dt);
    }
    AxisMove(s.position, MovementSpeed * dt, r.direction);
  }

  /** A step that is not at rest moves along the direction it leaves
      behind, which is zero when no movement started. */
  lemma MovingDisplacement(s: MotionState, p: ImuPoint, dt: real)
    requires Bounded(s) && (!s.isMoving ==> s.direction == Zero)
    ensures var r := MovingStep(s, p, dt);
      r.position == Add(s.position, Scale(MovementSpeed * dt, r.direction)) &&
      (!r.isMoving ==> r.position == s.position && r.direction == Zero)
  {
    var started := StartMovement(s, p.ax - OffsetX, p.ay - OffsetY);
    assert started.position == s.position;
    assert !started.isMoving ==> started.direction == Zero;
    AdvancedFields(started, p, dt);
  }

  /** Moving along an axis direction leaves the vertical and at least one
      horizontal coordinate unchanged; the zero direction leaves the
      position unchanged. */
  lemma AxisMove(pos: Vec3, k: real, d: Vec3)
    requires IsAxisDirection(d)
    ensures Add(pos, Scale(k, d)).z == pos.z
    ensures Add(pos, Scale(k, d)).x == pos.x || Add(pos, Scale(k, d)).y == pos.y
    ensures d == Zero ==> Add(pos, Scale(k, d)) == pos
  {
  }

  /** A window is all true exactly when the elements of the sequence it
      keeps are. */
  lemma AllTrueWindow(s: seq<bool>, n: nat)
    ensures (forall i :: 0 <= i < |Window(s, n)| ==> Window(s, n)[i]) <==>
            (forall i :: |s| - Min(|s|, n) <= i < |s| ==> s[i])
  {
    var w := Window(s, n);
    var lo := |s| - |w|;
    assert w == s[lo..];
    if forall i :: 0 <= i < |w| ==> w[i] {
      forall i | lo <= i < |s|
        ensures s[i]
      {
        assert w[i - lo] == s[i];
      }
    }
  }

  /** The rest decision over a history of rest flags: starting from an empty
      window, the sensor is at rest exactly when at least `RestMinimum` flags
      were recorded and the last (at most `RestWindowSize`) of them are all
      true. */
  lemma RestDecision(history: seq<bool>)
    ensures AllRest(AppendAll([], history, RestWindowSize)) <==>
      |history| >= RestMinimum &&
      forall i :: |history| - Min(|history|, RestWindowSize) <= i < |history| ==> history[i]
  {
    AppendAllIsWindow([], history, RestWindowSize);
    assert [] + history == history;
    AllTrueWindow(history, RestWindowSize);
  }

  /** Once `RestWindowSize` flags have passed, the sensor is at rest exactly
      when the last `RestWindowSize` of them are all true, whatever the window
      held before. */
  lemma RestDecisionForgets(flags: seq<bool>, history: seq<bool>)
    requires |flags| <= RestWindowSize && |history| >= RestWindowSize
    ensures AllRest(AppendAll(flags, history, RestWindowSize)) <==>
      forall i :: |history| - RestWindowSize <= i < |history| ==> history[i]
  {
    AppendAllIsWindow(flags, history, RestWindowSize);
    var all := flags + history;
    assert all[|all| - RestWindowSize..] == history[|history| - RestWindowSize..];
    assert Window(all, RestWindowSize) == Window(history, RestWindowSize);
    AllTrueWindow(history, RestWindowSize);
  }

  /** The rest flags of a sequence of samples, in order. */
  function Flags(ps: seq<ImuPoint>): (r: seq<bool>)
    ensures |r| == |ps|
    ensures forall i :: 0 <= i < |ps| ==> r[i] == IsRestSample(ps[i].ax, ps[i].ay, ps[i].az)
  {
    if ps == [] then [] else [IsRestSample(ps[0].ax, ps[0].ay, ps[0].az)] + Flags(ps[1..])
  }

  /** Every sample after the first records exactly its own rest flag. */
  lemma StepRecordsFlag(s: MotionState, p: ImuPoint, sqrt: real -> real)
    requires Bounded(s) && s.lastTimestamp.Some?
    ensures Step(s, p, sqrt).restFlags == Append(s.restFlags, IsRestSample(p.ax, p.ay, p.az), RestWindowSize)
  {
    var flagged := Flagged(s, p);
    if AllRest(flagged.restFlags) {
      StepResting(s, p, sqrt);
    } else {
      StepMoving(s, p, sqrt);
    }
  }

  /** Once a timestamp is held, a run of samples feeds exactly their rest
      flags, in order, into the rest window. */
  lemma {:induction false} RunRecordsFlags(s: MotionState, ps: seq<ImuPoint>, sqrt: real -> real)
    requires Inv(s) && s.lastTimestamp.Some?
    ensures Run(s, ps, sqrt).restFlags == AppendAll(s.restFlags, Flags(ps), RestWindowSize)
    decreases |ps|
  {
    if ps != [] {
      var next := Step(s, ps[0], sqrt);
      StepPreservesInv(s, ps[0], sqrt);
      StepRecordsFlag(s, ps[0], sqrt);
      RunRecordsFlags(next, ps[1..], sqrt);
      var fs := Flags(ps);
      assert fs[1..] == Flags(ps[1..]);
    }
  }

  /** After at least `RestWindowSize` samples (once a timestamp is held),
      the processor is at rest exactly when the last `RestWindowSize`
      samples are each within the rest band, whatever came before. */
  lemma RunRestDecision(s: MotionState, ps: seq<ImuPoint>, sqrt: real -> real)
    requires Inv(s) && s.lastTimestamp.Some? && |ps| >= RestWindowSize
    ensures AllRest(Run(s, ps, sqrt).restFlags) <==>
      forall i :: |ps| - RestWindowSize <= i < |ps| ==> IsRestSample(ps[i].ax, ps[i].ay, ps[i].az)
  {
    RunRecordsFlags(s, ps, sqrt);
    RestDecisionForgets(s.restFlags, Flags(ps));
  }

  lemma ConstantReadingsAreStable(ys: seq<int>, v: int)
    requires |ys| == YWindowSize && forall i :: 0 <= i < |ys| ==> ys[i] == v
    ensures YStable(ys)
  {
    assert ys == [v, v, v];
    assert [v, v, v][1..] == [v, v] && [v, v][1..] == [v] && [v][1..] == [];
    assert Sum([v]) == v;
    assert Sum([v, v]) == 2 * v;
    assert Sum(ys) == 3 * v;
    var mean := Sum(ys) as real / 3.0;
    assert mean == v as real;
    assert SquaredDeviation([v], mean) == 0.0;
    assert SquaredDeviation([v, v], mean) == 0.0;
    assert SquaredDeviation(ys, mean) == 0.0;
  }

  /** From rest, with the initial Y threshold, a Y reading 1000 above its
      offset 100 ms after the last sample starts movement towards negative Y
      and moves 5 units. */
  lemma YTriggerScenario(s: MotionState, p: ImuPoint, sqrt: real -> real)
    requires Bounded(s) && !s.isMoving && s.thresholdY == InitialThresholdY
    requires s.lastTimestamp == Some(0.0)
    requires p == ImuPoint(OffsetX, OffsetY + 1000, OffsetZ, 0.0, 0.0, 0.0, 100.0)
    ensures var r := Step(s, p, sqrt);
      r.isMoving && r.direction == Vec3(0.0, -1.0, 0.0) &&
      r.position == Vec3(s.position.x, s.position.y - 5.0, s.position.z)
  {
  }

  // ---------------------------------------------------------------------
  // Runs of samples

  /** The state after the samples `ps`, one `add_point` call each. */
  function Run(s: MotionState, ps: seq<ImuPoint>, sqrt: real -> real): (r: MotionState)
    requires Inv(s)
    ensures Inv(r)
    decreases |ps|
  {
    if ps == [] then s
    else
      StepPreservesInv(s, ps[0], sqrt);
      Run(Step(s, ps[0], sqrt), ps[1..], sqrt)
  }

  /** A rest flag recorded in a window that already decides "at rest"
      keeps it deciding "at rest". */
  lemma RestWindowStays(flags: seq<bool>)
    requires |flags| <= RestWindowSize && AllRest(flags)
    ensures AllRest(Append(flags, true, RestWindowSize))
  {
    var r := Append(flags, true, RestWindowSize);
    assert r == Window(flags + [true], RestWindowSize);
    var all := flags + [true];
    forall i | 0 <= i < |r|
      ensures r[i]
    {
      assert r[i] == all[|all| - |r| + i];
    }
  }

  /** Once at rest, a run of rest samples keeps the sensor at rest and its
      position fixed, whatever their timestamps. */
  lemma {:induction false} RestPersists(s: MotionState, ps: seq<ImuPoint>, sqrt: real -> real)
    requires Inv(s) && s.lastTimestamp.Some? && AllRest(s.restFlags)
    requires forall i :: 0 <= i < |ps| ==> IsRestSample(ps[i].ax, ps[i].ay, ps[i].az)
    ensures var r := Run(s, ps, sqrt);
      r.position == s.position && AllRest(r.restFlags) && r.lastTimestamp.Some? &&
      (|ps| > 0 ==> !r.isMoving && r.direction == Zero)
    decreases |ps|
  {
    if ps != [] {
      var p := ps[0];
      RestWindowStays(s.restFlags);
      RestSample(s, p, sqrt);
      var next := Step(s, p, sqrt);
      StepPreservesInv(s, p, sqrt);
      assert next.restFlags == Append(s.restFlags, true, RestWindowSize);
      RestPersists(next, ps[1..], sqrt);
    }
  }

  /** A sample that reads exactly the stationary offset. */
  function Still(timestamp: real): ImuPoint
  {
    ImuPoint(OffsetX, OffsetY, OffsetZ, 0.0, 0.0, 0.0, timestamp)
  }

  /** Before three rest flags are recorded, a still sample never decides
      "at rest" and, from rest, never starts movement: it only records its
      flag and timestamp (and its Y reading). */
  lemma StillBeforeRest(s: MotionState, t: real, sqrt: real -> real)
    requires Inv(s) && s.lastTimestamp.Some? && !s.isMoving && |s.restFlags| < RestMinimum - 1
    ensures var r := Step(s, Still(t), sqrt);
      r.position == s.position && !r.isMoving && r.restFlags == s.restFlags + [true] &&
      r.lastTimestamp == Some(t)
  {
    var flagged := s.(restFlags := Append(s.restFlags, true, RestWindowSize));
    assert flagged.restFlags == s.restFlags + [true];
    assert !AllRest(flagged.restFlags);
    var started := StartMovement(flagged, 0, 0);
    assert !started.isMoving;
  }

  /** From the initial state, samples that read exactly the stationary
      offset, whatever their timestamps: the first only seeds the timestamp
      and the next two record rest flags without deciding "at rest"; the
      position stays at the origin. */
  lemma WarmUp(t0: real, t1: real, t2: real, sqrt: real -> real)
    ensures var r := Run(Initial, [Still(t0), Still(t1), Still(t2)], sqrt);
      r.position == Zero && !r.isMoving && r.restFlags == [true, true] &&
      !AllRest(r.restFlags) && r.lastTimestamp == Some(t2)
  {
    var s1 := Step(Initial, Still(t0), sqrt);
    StillBeforeRest(s1, t1, sqrt);
    var s2 := Step(s1, Still(t1), sqrt);
    StillBeforeRest(s2, t2, sqrt);
    RunCons(Initial, Still(t0), [Still(t1), Still(t2)], sqrt);
    RunCons(s1, Still(t1), [Still(t2)], sqrt);
    RunCons(s2, Still(t2), [], sqrt);
  }

  /** The fourth still sample completes three rest flags: the sensor is at
      rest, still at the origin. */
  lemma WarmUpAtRest(t0: real, t1: real, t2: real, t3: real, sqrt: real -> real)
    ensures var r := Run(Initial, [Still(t0), Still(t1), Still(t2), Still(t3)], sqrt);
      r.position == Zero && !r.isMoving && AllRest(r.restFlags)
  {
    var ps := [Still(t0), Still(t1), Still(t2)];
    WarmUp(t0, t1, t2, sqrt);
    var s3 := Run(Initial, ps, sqrt);
    RunConcat(Initial, ps, [Still(t3)], sqrt);
    assert ps + [Still(t3)] == [Still(t0), Still(t1), Still(t2), Still(t3)];
    RestSample(s3, Still(t3), sqrt);
    RunCons(s3, Still(t3), [], sqrt);
    assert Append([true, true], true, RestWindowSize) == [true, true, true];
  }

  lemma RunCons(s: MotionState, p: ImuPoint, ps: seq<ImuPoint>, sqrt: real -> real)
    requires Inv(s)
    ensures Inv(Step(s, p, sqrt))
    ensures Run(s, [p] + ps, sqrt) == Run(Step(s, p, sqrt), ps, sqrt)
  {
    StepPreservesInv(s, p, sqrt);
    assert ([p] + ps)[1..] == ps;
  }

  /** Feeding two batches of samples one after the other is feeding their
      concatenation. */
  lemma {:induction false} RunConcat(s: MotionState, ps: seq<ImuPoint>, qs: seq<ImuPoint>, sqrt: real -> real)
    requires Inv(s)
    ensures Run(s, ps + qs, sqrt) == Run(Run(s, ps, sqrt), qs, sqrt)
    decreases |ps|
  {
    if ps == [] {
      assert ps + qs == qs;
    } else {
      assert ps + qs == [ps[0]] + (ps[1..] + qs);
      RunCons(s, ps[0], ps[1..] + qs, sqrt);
      RunConcat(Step(s, ps[0], sqrt), ps[1..], qs, sqrt);
    }
  }

  // ---------------------------------------------------------------------
  // The object

  class MotionProcessor {
    /** The square root `np.std` takes; supplied by the caller. */
    const sqrt: real -> real

    var position: Vec3
    var calibrationX: seq<int>
    var calibrationY: seq<int>
    var thresholdX: real
    var thresholdY: real
    var isMoving: bool
    var direction: Vec3
    var restFlags: seq<bool>
    var lastTimestamp: Option<real>
    var ySamples: seq<int>

    ghost function State(): MotionState
      reads this
    {
      MotionState(position, calibrationX, calibrationY, thresholdX, thresholdY,
                  isMoving, direction, restFlags, lastTimestamp, ySamples)
    }

    ghost predicate Valid()
      reads this
    {
      Inv(State())
    }

    constructor (sqrt: real -> real)
      ensures Valid() && State() == Initial && this.sqrt == sqrt
    {
      this.sqrt := sqrt;
      position := Zero;
      calibrationX, calibrationY := [], [];
      thresholdX, thresholdY := InitialThresholdX, InitialThresholdY;
      isMoving := false;
      direction := Zero;
      restFlags := [];
      lastTimestamp := None;
      ySamples := [];
    }

    method UpdateThresholds(ax: int, ay: int)
      requires |calibrationX| == |calibrationY| <= CalibrationCapacity
      modifies this`calibrationX, this`calibrationY, this`thresholdX, this`thresholdY
      ensures var r := RecordCalibration(old(State()), ax, ay, sqrt);
        calibrationX == r.calibrationX && calibrationY == r.calibrationY &&
        thresholdX == r.thresholdX && thresholdY == r.thresholdY
    {
      calibrationX := Append(calibrationX, ax, CalibrationCapacity);
      calibrationY := Append(calibrationY, ay, CalibrationCapacity);
      if |calibrationX| >= CalibrationMinimum {
        var xStd := sqrt(Variance(calibrationX));
        var yStd := sqrt(Variance(calibrationY));
        thresholdX := Clamp(xStd * ThresholdGain, MinThresholdX, MaxThresholdX);
        thresholdY := Clamp(yStd * ThresholdGain, MinThresholdY, MaxThresholdY);
      }
    }

    method IsAtRest(ax: int, ay: int, az: int) returns (atRest: bool)
      requires |restFlags| <= RestWindowSize
      modifies this`restFlags
      ensures restFlags == Append(old(restFlags), IsRestSample(ax, ay, az), RestWindowSize)
      ensures atRest == AllRest(restFlags)
    {
      var isRest := Abs(ax - OffsetX) < RestThreshold && Abs(ay - OffsetY) < RestThreshold && Abs(az - OffsetZ) < RestThreshold;
      restFlags := Append(restFlags, isRest, RestWindowSize);
      atRest := |restFlags| >= RestMinimum && forall i :: 0 <= i < |restFlags| ==> restFlags[i];
    }

    method IsYStable(ay: int) returns (stable: bool)
      requires |ySamples| <= YWindowSize
      modifies this`ySamples
      ensures ySamples == Append(old(ySamples), ay, YWindowSize)
      ensures stable == YStable(ySamples)
    {
      ySamples := Append(ySamples, ay, YWindowSize);
      if |ySamples| < YWindowSize {
        return false;
      }
      var variation := Variance(ySamples);
      stable := variation < YStabilityVarianceLimit;
    }

    method ProcessPoint(p: ImuPoint)
      requires Valid()
      modifies this
      ensures Valid()
      ensures State() == Step(old(State()), p, sqrt)
    {
      ghost var s := State();
      StepPreservesInv(s, p, sqrt);
      if lastTimestamp.None? {
        lastTimestamp := Some(p.timestamp);
        return;
      }
      var dt := (p.timestamp - lastTimestamp.value) / 1000.0;
      var atRest := IsAtRest(p.ax, p.ay, p.az);
      ghost var flagged := State();
      assert flagged == Flagged(s, p);
      if atRest {
        StepResting(s, p, sqrt);
        ComeToRest(p);
      } else {
        StepMoving(s, p, sqrt);
        Advance(p, dt);
      }
    }

    /** The at-rest branch of `_process_point`. */
    method ComeToRest(p: ImuPoint)
      requires |calibrationX| == |calibrationY| <= CalibrationCapacity
      modifies this
      ensures State() == RestingStep(old(State()), p, sqrt)
    {
      ghost var s := State();
      if isMoving {
        calibrationX, calibrationY := [], [];
      }
      isMoving := false;
      direction := Zero;
      assert State() == Settle(s);
      UpdateThresholds(p.ax - OffsetX, p.ay - OffsetY);
      assert State() == RecordCalibration(Settle(s), p.ax - OffsetX, p.ay - OffsetY, sqrt);
      lastTimestamp := Some(p.timestamp);
    }

    /** The not-at-rest branch of `_process_point`. */
    method Advance(p: ImuPoint, dt: real)
      requires |ySamples| <= YWindowSize
      modifies this
      ensures State() == MovingStep(old(State()), p, dt)
    {
      var ax, ay := p.ax - OffsetX, p.ay - OffsetY;
      if !isMoving {
        if Abs(ay) as real > thresholdY {
          isMoving := true;
          direction := Vec3(0.0, -Sign(ay) as real, 0.0);
        } else {
          var stable := IsYStable(ay);
          if stable && Abs(ax) as real > thresholdX {
            isMoving := true;
            direction := Vec3(-Sign(ax) as real, 0.0, 0.0);
          }
        }
      }
      if isMoving {
        position := Add(position, Scale(MovementSpeed * dt, direction));
      }
      lastTimestamp := Some(p.timestamp);
    }

    method AddPoint(ax: int, ay: int, az: int, gx: real, gy: real, gz: real, timestamp: real)
      requires Valid()
      modifies this
      ensures Valid()
      ensures State() == Step(old(State()), ImuPoint(ax, ay, az, gx, gy, gz, timestamp), sqrt)
    {
      var point := ImuPoint(ax, ay, az, gx, gy, gz, timestamp);
      ProcessPoint(point);
    }

    method GetCurrentPosition() returns (x: real, y: real, z: real)
      ensures Vec3(x, y, z) == position
    {
      x, y, z := position.x, position.y, position.z;
    }

    /** The pen flag is 0 while moving and 1 otherwise. */
    method GetPlotCoordinates() returns (x: real, y: real, pen: int)
      ensures x == position.x && y == position.y
      ensures pen == 0 <==> isMoving
      ensures pen == 1 <==> !isMoving
    {
      x, y := position.x, position.y;
      pen := if isMoving then 0 else 1;
    }

    method Reset()
      modifies this
      ensures Valid() && State() == Initial
    {
      position := Zero;
      calibrationX, calibrationY := [], [];
      thresholdX, thresholdY := InitialThresholdX, InitialThresholdY;
      isMoving := false;
      direction := Zero;
      restFlags := [];
      lastTimestamp := None;
      ySamples := [];
    }
  }
}
