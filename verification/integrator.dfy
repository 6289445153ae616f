/** The dead-reckoning integrator of main/integrate.py
    (`PositionIntegrator`).

    Each sample after the first rotates the running orientation by the
    gyroscope reading, carries the acceleration into the global frame,
    removes gravity and near-zero noise, then takes a velocity step, a decay
    step and a position step, and appends the new position to the drawing.
    All arithmetic is over the reals; the square root, cosine and sine the
    orientation update needs are supplied by the caller as `MathLib`. */
module Integration {
  import opened Options
  import opened Vectors

  const Gravity: Vec3 := Vec3(0.0, 0.0, 9.81)
  const AccelThreshold: real := 0.1
  const VelocityDecay: real := 0.95

  /** One reading (`SensorData`): a timestamp in milliseconds, an
      acceleration and an angular rate. */
  datatype SensorData = SensorData(timestamp: real, accel: Vec3, gyro: Vec3)

  /** The functions the source takes from numpy that have no exact model:
      `sqrt` (inside `np.linalg.norm`), `np.cos` and `np.sin`. */
  datatype MathLib = MathLib(sqrt: real -> real, cos: real -> real, sin: real -> real)

  function Abs(v: real): real { if v < 0.0 then -v else v }

  /** The noise filter on one component. */
  function Denoise(a: real): real { if Abs(a) < AccelThreshold then 0.0 else a }

  /** `np.where(np.abs(v) < threshold, 0, v)`. */
  function DenoiseVec(v: Vec3): Vec3 { Vec3(Denoise(v.x), Denoise(v.y), Denoise(v.z)) }

  /** No component is a non-zero value below the noise threshold. */
  predicate NoiseFree(v: Vec3)
  {
    (v.x == 0.0 || Abs(v.x) >= AccelThreshold) &&
    (v.y == 0.0 || Abs(v.y) >= AccelThreshold) &&
    (v.z == 0.0 || Abs(v.z) >= AccelThreshold)
  }

  /** `_transform_acceleration`: rotate into the global frame, subtract
      gravity, filter noise. */
  function TransformAcceleration(orientation: Mat3, accel: Vec3): (r: Vec3)
    ensures NoiseFree(r)
  {
    DenoiseVec(Sub(MatVec(orientation, accel), Gravity))
  }

  /** The rotation by the angle whose cosine and sine are `c` and `s` about
      the unit vector `axis` (Rodrigues' formula, as the source spells it). */
  function Rodrigues(axis: Vec3, c: real, s: real): Mat3
  {
    Mat3(FirstRow(axis, c, s), SecondRow(axis, c, s), ThirdRow(axis, c, s))
  }

  // The three rows of the formula, with `v = 1 - c`.

  function FirstRow(axis: Vec3, c: real, s: real): Vec3
  {
    var v, x, y, z := 1.0 - c, axis.x, axis.y, axis.z;
    Vec3(x * x * v + c, x * y * v - z * s, x * z * v + y * s)
  }

  function SecondRow(axis: Vec3, c: real, s: real): Vec3
  {
    var v, x, y, z := 1.0 - c, axis.x, axis.y, axis.z;
    Vec3(y * x * v + z * s, y * y * v + c, y * z * v - x * s)
  }

  function ThirdRow(axis: Vec3, c: real, s: real): Vec3
  {
    var v, x, y, z := 1.0 - c, axis.x, axis.y, axis.z;
    Vec3(z * x * v - y * s, z * y * v + x * s, z * z * v + c)
  }

  /** `np.linalg.norm`, through the supplied square root. */
  function Norm(v: Vec3, math: MathLib): real { math.sqrt(Dot(v, v)) }

  /** The rotation angle `|gyro| * dt`. */
  function Angle(gyro: Vec3, dt: real, math: MathLib): real { Norm(gyro, math) * dt }

  /** The orientation after `_update_orientation` with angular rate `gyro`
      over `dt` seconds: no change unless the angle is positive, otherwise
      the increment about the normalised rate, multiplied on the left. */
  function Rotated(orientation: Mat3, gyro: Vec3, dt: real, math: MathLib): (r: Mat3)
    ensures Angle(gyro, dt, math) <= 0.0 ==> r == orientation
  {
    var angle := Angle(gyro, dt, math);
    if angle > 0.0 then
      MatMul(Rodrigues(Div(gyro, Norm(gyro, math)), math.cos(angle), math.sin(angle)), orientation)
    else
      orientation
  }

  /** The velocity after `_update_position`: one step of `v += a * dt`,
      then the decay. */
  function NextVelocity(v: Vec3, a: Vec3, dt: real): (r: Vec3)
    ensures r == Add(Scale(VelocityDecay, v), Scale(VelocityDecay * dt, a))
    ensures dt == 0.0 ==> r == Scale(VelocityDecay, v)
  {
    Scale(VelocityDecay, Add(v, Scale(dt, a)))
  }

  /** The position after `_update_position`, given the new velocity. */
  function NextPosition(p: Vec3, newVelocity: Vec3, a: Vec3, dt: real): (r: Vec3)
    ensures dt == 0.0 ==> r == p
    ensures a == Zero ==> r == Add(p, Scale(dt, newVelocity))
  {
    Add(p, Add(Scale(dt, newVelocity), Scale(0.5 * dt * dt, a)))
  }

  // ---------------------------------------------------------------------
  // Properties

  /** The noise filter zeroes every component below the threshold, keeps
      every other component, and filtering twice changes nothing. */
  lemma NoiseFilter(v: Vec3)
    ensures var r := DenoiseVec(v);
      (Abs(v.x) < AccelThreshold ==> r.x == 0.0) && (Abs(v.x) >= AccelThreshold ==> r.x == v.x) &&
      (Abs(v.y) < AccelThreshold ==> r.y == 0.0) && (Abs(v.y) >= AccelThreshold ==> r.y == v.y) &&
      (Abs(v.z) < AccelThreshold ==> r.z == 0.0) && (Abs(v.z) >= AccelThreshold ==> r.z == v.z) &&
      DenoiseVec(r) == r
  {
  }

  /** Gravity is subtracted from the vertical component only, after the
      rotation: with the identity orientation the filter sees
      `accel - (0, 0, 9.81)`. */
  lemma GravityRemoval(accel: Vec3)
    ensures TransformAcceleration(Identity, accel) == DenoiseVec(Vec3(accel.x, accel.y, accel.z - 9.81))
  {
  }

  /** Without acceleration every velocity component shrinks to 95% of its
      magnitude in one step. */
  lemma DecayWithoutAcceleration(v: Vec3, dt: real)
    ensures var w := NextVelocity(v, Zero, dt);
      w == Scale(VelocityDecay, v) &&
      Abs(w.x) == VelocityDecay * Abs(v.x) && Abs(w.y) == VelocityDecay * Abs(v.y) && Abs(w.z) == VelocityDecay * Abs(v.z)
  {
  }

  function Pow(r: real, n: nat): real { if n == 0 then 1.0 else r * Pow(r, n - 1) }

  /** The velocity after `n` steps without acceleration. */
  function Coast(v: Vec3, dt: real, n: nat): Vec3
  {
    if n == 0 then v else NextVelocity(Coast(v, dt, n - 1), Zero, dt)
  }

  /** Without acceleration, `n` steps scale the velocity by `0.95^n`. */
  lemma {:induction false} CoastingDecays(v: Vec3, dt: real, n: nat)
    ensures Coast(v, dt, n) == Scale(Pow(VelocityDecay, n), v)
  {
    if n > 0 {
      CoastingDecays(v, dt, n - 1);
      var k := Pow(VelocityDecay, n - 1);
      assert VelocityDecay * (k * v.x) == (VelocityDecay * k) * v.x;
      assert VelocityDecay * (k * v.y) == (VelocityDecay * k) * v.y;
      assert VelocityDecay * (k * v.z) == (VelocityDecay * k) * v.z;
    }
  }

  /** The matrix of Rodrigues' formula leaves its (unit) axis where it is,
      and the zero turn is the identity. */
  lemma RodriguesFixesAxis(axis: Vec3, c: real, s: real)
    ensures Dot(axis, axis) == 1.0 ==> MatVec(Rodrigues(axis, c, s), axis) == axis
    ensures c == 1.0 && s == 0.0 ==> Rodrigues(axis, c, s) == Identity
  {
    if Dot(axis, axis) == 1.0 {
      FirstRowFixesAxis(axis, c, s);
      SecondRowFixesAxis(axis, c, s);
      ThirdRowFixesAxis(axis, c, s);
    }
  }

  // Each row of the formula times the unit axis gives that axis component.

  lemma FirstRowFixesAxis(axis: Vec3, c: real, s: real)
    requires Dot(axis, axis) == 1.0
    ensures Dot(FirstRow(axis, c, s), axis) == axis.x
  {
    var x, y, z, v := axis.x, axis.y, axis.z, 1.0 - c;
    assert (x * x * v + c) * x + (x * y * v - z * s) * y + (x * z * v + y * s) * z
        == x * v * (x * x + y * y + z * z) + c * x;
  }

  lemma SecondRowFixesAxis(axis: Vec3, c: real, s: real)
    requires Dot(axis, axis) == 1.0
    ensures Dot(SecondRow(axis, c, s), axis) == axis.y
  {
    var x, y, z, v := axis.x, axis.y, axis.z, 1.0 - c;
    assert (y * x * v + z * s) * x + (y * y * v + c) * y + (y * z * v - x * s) * z
        == y * v * (x * x + y * y + z * z) + c * y;
  }

  lemma ThirdRowFixesAxis(axis: Vec3, c: real, s: real)
    requires Dot(axis, axis) == 1.0
    ensures Dot(ThirdRow(axis, c, s), axis) == axis.z
  {
    var x, y, z, v := axis.x, axis.y, axis.z, 1.0 - c;
    assert (z * x * v - y * s) * x + (z * y * v + x * s) * y + (z * z * v + c) * z
        == z * v * (x * x + y * y + z * z) + c * z;
  }

  /** From the identity, a positive turn about the angular rate leaves the
      rate vector where it is, given an exact square root: the rotation is
      about the rate. */
  lemma RotationFixesRate(gyro: Vec3, dt: real, math: MathLib)
    requires Angle(gyro, dt, math) > 0.0
    requires Norm(gyro, math) * Norm(gyro, math) == Dot(gyro, gyro)
    ensures MatVec(Rotated(Identity, gyro, dt, math), gyro) == gyro
  {
    var angle, n := Angle(gyro, dt, math), Norm(gyro, math);
    assert n != 0.0;
    var m := Rodrigues(Div(gyro, n), math.cos(angle), math.sin(angle));
    MatMulIdentity(m);
    assert Rotated(Identity, gyro, dt, math) == m;
    RateIsFixed(gyro, n, math.cos(angle), math.sin(angle));
  }

  /** The rotation about the normalised rate fixes the rate itself, when
      `n` is its exact length. */
  lemma RateIsFixed(gyro: Vec3, n: real, c: real, s: real)
    requires n != 0.0 && n * n == Dot(gyro, gyro)
    ensures MatVec(Rodrigues(Div(gyro, n), c, s), gyro) == gyro
  {
    var u := Div(gyro, n);
    assert gyro == Scale(n, u) by {
      assert n * u.x == gyro.x && n * u.y == gyro.y && n * u.z == gyro.z;
    }
    var d := Dot(u, u);
    calc {
      n * n;
      Dot(gyro, gyro);
      Dot(Scale(n, u), Scale(n, u));
      { SquaredLength(n, u); }
      (n * n) * d;
    }
    UnitLength(n, d);
    RodriguesFixesAxis(u, c, s);
    MatVecScale(Rodrigues(u, c, s), n, u);
  }

  /** Scaling a vector by `n` scales its squared length by `n * n`. */
  lemma SquaredLength(n: real, u: Vec3)
    ensures Dot(Scale(n, u), Scale(n, u)) == (n * n) * Dot(u, u)
  {
    assert (n * u.x) * (n * u.x) == (n * n) * (u.x * u.x);
    assert (n * u.y) * (n * u.y) == (n * n) * (u.y * u.y);
    assert (n * u.z) * (n * u.z) == (n * n) * (u.z * u.z);
  }

  /** `n * n == (n * n) * a` with `n` non-zero forces `a == 1`. */
  lemma UnitLength(n: real, a: real)
    requires n != 0.0 && n * n == (n * n) * a
    ensures a == 1.0
  {
    if n < 0.0 { assert n * n == (-n) * (-n); }
    var k := n * n;
    assert k * a - k * 1.0 == 0.0;
    assert k * (a - 1.0) == 0.0;
  }

  /** Matrix-vector products are linear in the vector. */
  lemma MatVecScale(m: Mat3, k: real, v: Vec3)
    ensures MatVec(m, Scale(k, v)) == Scale(k, MatVec(m, v))
  {
    DotScale(m.r0, k, v);
    DotScale(m.r1, k, v);
    DotScale(m.r2, k, v);
  }

  lemma DotScale(a: Vec3, k: real, v: Vec3)
    ensures Dot(a, Scale(k, v)) == k * Dot(a, v)
  {
    assert a.x * (k * v.x) + a.y * (k * v.y) + a.z * (k * v.z) == k * (a.x * v.x + a.y * v.y + a.z * v.z);
  }

  /** The orientation update does not depend on the old orientation except
      through a left multiplication: the new orientation is the increment
      (the update applied to the identity) times the old one. A non-positive
      angle leaves the orientation unchanged. */
  lemma OrientationComposes(orientation: Mat3, gyro: Vec3, dt: real, math: MathLib)
    ensures Rotated(orientation, gyro, dt, math) == MatMul(Rotated(Identity, gyro, dt, math), orientation)
    ensures Angle(gyro, dt, math) <= 0.0 ==> Rotated(orientation, gyro, dt, math) == orientation
  {
    MatMulIdentity(orientation);
    var angle := Angle(gyro, dt, math);
    if angle > 0.0 {
      MatMulIdentity(Rodrigues(Div(gyro, Norm(gyro, math)), math.cos(angle), math.sin(angle)));
    }
  }

  /** When each increment is a rotation (which needs an exact square root,
      cosine and sine), the orientation stays a rotation after every update. */
  lemma OrientationStaysOrthogonal(orientation: Mat3, gyro: Vec3, dt: real, math: MathLib)
    requires IsOrthogonal(orientation)
    requires IsOrthogonal(Rotated(Identity, gyro, dt, math))
    ensures IsOrthogonal(Rotated(orientation, gyro, dt, math))
  {
    OrientationComposes(orientation, gyro, dt, math);
    OrthogonalProduct(Rotated(Identity, gyro, dt, math), orientation);
  }

  /** The formula's matrix for a half turn about Z (cosine -1, sine 0)
      reverses the X axis. */
  lemma HalfTurnMatrix()
    ensures MatVec(Rodrigues(Vec3(0.0, 0.0, 1.0), -1.0, 0.0), Vec3(1.0, 0.0, 0.0)) == Vec3(-1.0, 0.0, 0.0)
  {
  }

  /** From the identity, an angular rate `w` about the vertical axis over a
      `dt` that makes a half turn reverses the X axis. */
  lemma HalfTurnAboutZ(w: real, dt: real, math: MathLib)
    requires w > 0.0 && dt > 0.0
    requires math.sqrt(w * w) == w && math.cos(w * dt) == -1.0 && math.sin(w * dt) == 0.0
    ensures MatVec(Rotated(Identity, Vec3(0.0, 0.0, w), dt, math), Vec3(1.0, 0.0, 0.0)) == Vec3(-1.0, 0.0, 0.0)
  {
    HalfTurnIncrement(w, dt, math);
    HalfTurnMatrix();
  }

  /** The increment for a half turn about the vertical axis, from the
      identity, is the matrix of Rodrigues' formula for that turn. */
  lemma HalfTurnIncrement(w: real, dt: real, math: MathLib)
    requires w > 0.0 && dt > 0.0
    requires math.sqrt(w * w) == w && math.cos(w * dt) == -1.0 && math.sin(w * dt) == 0.0
    ensures Rotated(Identity, Vec3(0.0, 0.0, w), dt, math) == Rodrigues(Vec3(0.0, 0.0, 1.0), -1.0, 0.0)
  {
    VerticalRate(w, dt, math);
    var half := Rodrigues(Vec3(0.0, 0.0, 1.0), -1.0, 0.0);
    RotatedFromParts(Vec3(0.0, 0.0, w), dt, math, Vec3(0.0, 0.0, 1.0), -1.0, 0.0);
    MatMulIdentity(half);
  }

  /** `Rotated` from the identity, once the unit axis, cosine and sine are
      known. */
  lemma RotatedFromParts(gyro: Vec3, dt: real, math: MathLib, axis: Vec3, c: real, s: real)
    requires Angle(gyro, dt, math) > 0.0
    requires Div(gyro, Norm(gyro, math)) == axis
    requires math.cos(Angle(gyro, dt, math)) == c && math.sin(Angle(gyro, dt, math)) == s
    ensures Rotated(Identity, gyro, dt, math) == MatMul(Rodrigues(axis, c, s), Identity)
  {
  }

  /** The length, angle and unit axis of a vertical rate `w`. */
  lemma VerticalRate(w: real, dt: real, math: MathLib)
    requires w > 0.0 && dt > 0.0 && math.sqrt(w * w) == w
    ensures Norm(Vec3(0.0, 0.0, w), math) == w
    ensures Angle(Vec3(0.0, 0.0, w), dt, math) == w * dt > 0.0
    ensures Div(Vec3(0.0, 0.0, w), w) == Vec3(0.0, 0.0, 1.0)
  {
    assert Dot(Vec3(0.0, 0.0, w), Vec3(0.0, 0.0, w)) == w * w;
    assert w / w == 1.0 && 0.0 / w == 0.0;
  }

  // ---------------------------------------------------------------------
  // The object

  class PositionIntegrator {
    const math: MathLib

    var position: Vec3
    var velocity: Vec3
    var orientation: Mat3
    var lastUpdate: Option<real>
    var isDrawing: bool
    var drawPoints: seq<Vec3>

    constructor (math: MathLib)
      ensures this.math == math
      ensures position == Zero && velocity == Zero && orientation == Identity
      ensures lastUpdate == None && !isDrawing && drawPoints == []
    {
      this.math := math;
      position, velocity := Zero, Zero;
      orientation := Identity;
      lastUpdate := None;
      isDrawing := false;
      drawPoints := [];
    }

    /** `process_sensor_data`: the first reading only records its timestamp;
        every later one updates the orientation, then the velocity and
        position from the transformed acceleration (with the new
        orientation), appends the new position to the drawing and returns it. */
    method ProcessSensorData(data: SensorData) returns (point: Option<Vec3>)
      modifies this
      ensures lastUpdate == Some(data.timestamp)
      ensures old(lastUpdate).None? ==>
        point == None && position == old(position) && velocity == old(velocity) &&
        orientation == old(orientation) && drawPoints == old(drawPoints) && isDrawing == old(isDrawing)
      ensures old(lastUpdate).Some? ==>
        var dt := (data.timestamp - old(lastUpdate).value) / 1000.0;
        var accel := TransformAcceleration(orientation, data.accel);
        orientation == Rotated(old(orientation), data.gyro, dt, math) &&
        velocity == NextVelocity(old(velocity), accel, dt) &&
        position == NextPosition(old(position), velocity, accel, dt) &&
        isDrawing && drawPoints == old(drawPoints) + [position] && point == Some(position)
    {
      var currentTime := data.timestamp;
      if lastUpdate.None? {
        lastUpdate := Some(currentTime);
        return None;
      }
      var dt := (currentTime - lastUpdate.value) / 1000.0;
      UpdateOrientation(data.gyro, dt);
      var accelGlobal := TransformAcceleration(orientation, data.accel);
      UpdatePosition(accelGlobal, dt);
      lastUpdate := Some(currentTime);
      isDrawing := true;
      if isDrawing {
        drawPoints := drawPoints + [position];
        return Some(position);
      }
      return None;
    }

    /** `_update_orientation`. */
    method UpdateOrientation(gyro: Vec3, dt: real)
      modifies this`orientation
      ensures orientation == Rotated(old(orientation), gyro, dt, math)
    {
      var angle := Angle(gyro, dt, math);
      if angle > 0.0 {
        var axis := Div(gyro, Norm(gyro, math));
        var c := math.cos(angle);
        var s := math.sin(angle);
        var rotation := Rodrigues(axis, c, s);
        orientation := MatMul(rotation, orientation);
      }
    }

    /** `_update_position`: the velocity step uses the acceleration alone, the
        position step the already decayed velocity. */
    method UpdatePosition(accel: Vec3, dt: real)
      modifies this`velocity, this`position
      ensures velocity == NextVelocity(old(velocity), accel, dt)
      ensures position == NextPosition(old(position), velocity, accel, dt)
    {
      velocity := Add(velocity, Scale(dt, accel));
      velocity := Scale(VelocityDecay, velocity);
      position := Add(position, Add(Scale(dt, velocity), Scale(0.5 * dt * dt, accel)));
    }

    method GetDrawing() returns (points: seq<Vec3>)
      ensures points == drawPoints
    {
      points := drawPoints;
    }

    /** `reset`: `is_drawing` is left as it was. */
    method Reset()
      modifies this
      ensures position == Zero && velocity == Zero && orientation == Identity
      ensures lastUpdate == None && drawPoints == [] && isDrawing == old(isDrawing)
    {
      position, velocity := Zero, Zero;
      orientation := Identity;
      lastUpdate := None;
      drawPoints := [];
    }
  }
}
