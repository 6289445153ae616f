# IMU drawing core: motion estimation, dead reckoning, stroke plotting

This project models the three components of the IMU drawing system that hold its logic, and proves properties of them in Dafny:

- **`MotionProcessor`** (main/accel_to_draw.py) is a direction-locked motion estimator. It turns raw integer accelerometer samples into a position and a pen flag:
  - it records a bounded window of rest flags and decides "at rest";
  - at rest, it learns two clamped movement thresholds from calibration histories;
  - when movement starts, it locks one direction, and a Y trigger wins over an X trigger;
  - while moving, it advances the position by `direction * 50 * dt`.
- **`PositionIntegrator`** (main/integrate.py) is a dead-reckoning integrator. For each sample it:
  - rotates an orientation matrix by the gyroscope reading (Rodrigues' formula, multiplied on the left);
  - moves the acceleration into the global frame, removes gravity and zeroes near-zero components;
  - takes a velocity step, a decay by 0.95 and a position step;
  - appends the new position to the drawing.
- **`Plotter`** (main/plotter.py) buffers and segments the points. Points arrive on a FIFO queue and drain into three parallel bounded deques. Each frame groups the buffered points into pen-down strokes, which are the maximal runs of points with `z == 0`.

The modules are:

| module | file | contents |
|---|---|---|
| `Options` | options.dfy | `Option` |
| `Deque` | deque.dfy | `collections.deque(maxlen = n)` as a value: `Window`, `Append` |
| `Vectors` | vectors.dfy | 3-vectors and 3x3 matrices over `real`, with matrix algebra |
| `MotionProcessing` | motion_processor.dfy | `MotionProcessor` (see below) |
| `Integration` | integrator.dfy | the `PositionIntegrator` class |
| `Segmentation` | strokes.dfy | `Strokes`, the reference definition of pen-down strokes, and its laws |
| `Plotting` | plotter.dfy | the `Plotter` class, the grouping loop and the animation index |

`MotionProcessing` has two layers:
- `Step` is a pure function that gives the effect of one sample on the whole state. The lemmas about a sample are stated on `Step`, and `Run` gives the effect of a sequence of samples.
- The `MotionProcessor` class holds the same state in fields. Its methods are proved to update the fields exactly as `Step` says.

Each class's fields mirror the source object's fields. The methods update them in place, and their postconditions give the new state in terms of pure functions about which the lemmas are proved.

The square root (inside `np.std` and `np.linalg.norm`) and the cosine and sine have no exact model. The caller supplies them as function values:
- the `MotionProcessor` constructor takes `sqrt`;
- `MathLib` supplies all three for `PositionIntegrator`.

Every property proved holds whatever functions are supplied, except where a lemma says otherwise. The Y-stability test `std < 200` needs no square root. A standard deviation is the non-negative root of the variance, so the test holds exactly when the variance is below 40000, and the model compares the variance.

Points where the code's behaviour is easy to misread:
- **Rest decision.** `_is_at_rest` answers "at rest" only when at least 3 flags are held and every flag in the 8-deep window is true (main/accel_to_draw.py:69). A window holding true, true, true after an earlier false is not at rest until the false drops out.
- **Y stability.** `_is_y_stable` compares the standard deviation of a full 3-deep deque with the fixed bound 200 (main/accel_to_draw.py:74-77). Neither movement threshold enters it.
- **Y deque updates.** The Y deque is appended only when the Y trigger does not fire, because `elif` and `and` short-circuit (main/accel_to_draw.py:105-110).
- **Velocity step.** The step is a plain Euler `v += a * dt` (main/integrate.py:99), although the comment on line 98 calls it trapezoidal.
- **Out-of-order timestamps.** A negative `dt` is accepted and integrated. No error is raised.

## Model

| member | source | states |
|---|---|---|
| Deque.Window | main/plotter.py:12-14 | A bounded deque keeps the last `n` elements it was given: the window has length `min(|s|, n)` |
| Deque.Append | main/plotter.py:54-56 | `append` on a deque of capacity `maxlen`: the result is the window of the old contents plus the new element, never longer than `maxlen`, and ends with the new element (a full deque drops its oldest element) |
| Deque.WindowOfWindow | main/accel_to_draw.py:41 | Cutting a deque to its capacity early loses nothing a later cut would keep |
| Deque.AppendAllIsWindow | main/accel_to_draw.py:68 | A deque fed a sequence one element at a time holds the last `maxlen` elements of everything it was given, in arrival order |
| MotionProcessing.Clamp | main/accel_to_draw.py:57 | `max(lo, min(hi, v))` lies in `[lo, hi]`, equals `v` inside the range and the nearer bound outside it |
| MotionProcessing.IsRestSample | main/accel_to_draw.py:66-67 | A sample is at rest exactly when each of its three raw readings lies strictly within 200 of that axis's stationary offset |
| MotionProcessing.YStable | main/accel_to_draw.py:71-77 | A deque holding fewer than 3 readings is never stable. A full deque whose readings all lie within 200 of their mean is stable, and every reading of a stable deque lies within `200 * sqrt(len)` of the mean |
| MotionProcessing.Flagged | main/accel_to_draw.py:66-68 | Recording a rest flag keeps every window within capacity and changes no other field |
| MotionProcessing.RecordCalibration | main/accel_to_draw.py:47-60 | `_update_thresholds`: both offset-corrected readings are appended to histories of capacity 20; thresholds change only once at least 10 are held, and then land in `[250, 500]` and `[500, 800]`; no other field changes |
| MotionProcessing.Step | main/accel_to_draw.py:79-119 | `_process_point` keeps every window within capacity and always leaves the sample's timestamp as the last one |
| MotionProcessing.StartMovement | main/accel_to_draw.py:103-113 | While moving, the check changes nothing. From rest it leaves the Y deque within capacity and changes neither the position, the rest window, the timestamp, the calibration histories nor the thresholds |
| MotionProcessing.RestingStep | main/accel_to_draw.py:91-100 | The at-rest branch stops the sensor and zeroes the direction. It keeps the position, rest window and Y deque, and sets the timestamp. Each calibration history becomes the old one (or the empty one after movement) with the offset-corrected reading appended, within capacity 20 |
| MotionProcessing.Settle | main/accel_to_draw.py:92-97 | Coming to rest stops the sensor and zeroes the direction. It empties both calibration histories exactly when the sensor was moving and keeps every other field |
| MotionProcessing.MovingStep | main/accel_to_draw.py:102-119 | The not-at-rest branch keeps the Y deque within capacity and the rest window, calibration histories and thresholds unchanged, and sets the timestamp |
| MotionProcessing.Advanced | main/accel_to_draw.py:115-119 | After the movement-start check, the timestamp is set and the rest window, calibration histories and thresholds are kept |
| MotionProcessing.StepPreservesInv | main/accel_to_draw.py:33-45 | The constructor state and every sample keep the invariant: windows within capacity (8, 3, 20), equal-length calibration histories, thresholds within their bounds, a direction with at most one non-zero component in {-1, 0, 1} and never vertical, and moving exactly when the direction is non-zero |
| MotionProcessing.StepResting | main/accel_to_draw.py:91-100 | A later sample that completes a rest window takes the resting path, with its rest flag recorded |
| MotionProcessing.StepMoving | main/accel_to_draw.py:102-119 | Any other later sample takes the not-at-rest path, with its rest flag recorded and `dt` in seconds |
| MotionProcessing.FirstSampleSeedsTimestamp | main/accel_to_draw.py:80-82 | The first sample only records its timestamp; nothing else changes |
| MotionProcessing.RestSample | main/accel_to_draw.py:91-100 | A sample that completes a rest window stops the sensor, zeroes the direction, keeps the position and Y deque, advances the timestamp, and after a moving-to-rest transition leaves both calibration histories holding exactly the current sample |
| MotionProcessing.MovingSampleKeepsCalibration | main/accel_to_draw.py:91-119 | A sample that is not at rest changes neither calibration history nor either threshold |
| MotionProcessing.MovementStart | main/accel_to_draw.py:103-113 | From rest: a Y reading beyond its threshold locks `(0, -sign(ay), 0)` without touching the Y deque; otherwise the Y reading is appended and movement starts along `(-sign(ax), 0, 0)` if and only if the Y deque is stable and the X reading beyond its threshold; when none starts, the direction stays zero and the position unchanged |
| MotionProcessing.StartFromRest | main/accel_to_draw.py:103-113 | The movement-start check alone, from rest: Y priority, the Y deque appended only when the Y trigger does not fire, and the position untouched |
| MotionProcessing.AdvancedFields | main/accel_to_draw.py:115-119 | After the movement-start check, the position moves by `direction * 50 * dt` exactly when moving; movement state, direction and Y deque are kept |
| MotionProcessing.DirectionLocked | main/accel_to_draw.py:103 | While moving, the direction is not re-evaluated and the Y deque is not touched |
| MotionProcessing.Displacement | main/accel_to_draw.py:115-117 | Every later sample moves the position by exactly `direction * 50 * dt`, so the vertical and at least one horizontal coordinate stay put, and a sample that leaves the sensor not moving leaves the position unchanged |
| MotionProcessing.MovingDisplacement | main/accel_to_draw.py:115-117 | On the not-at-rest path, the position moves along the direction left behind, which is zero (with the position unchanged) when not moving |
| MotionProcessing.AxisMove | main/accel_to_draw.py:117 | Moving along an axis direction changes at most one horizontal coordinate and never the vertical one |
| MotionProcessing.RestDecision | main/accel_to_draw.py:64-69 | From an empty window, the sensor is at rest if and only if at least 3 flags were recorded and the last (up to 8) flags are all true |
| MotionProcessing.RestDecisionForgets | main/accel_to_draw.py:64-69 | After at least 8 flags, the rest decision depends only on the last 8 flags, whatever the window held before |
| MotionProcessing.Flags | main/accel_to_draw.py:66-67 | One rest flag per sample, in order, each being that sample's rest test |
| MotionProcessing.StepRecordsFlag | main/accel_to_draw.py:64-68 | Every sample after the first appends exactly its own rest flag to the 8-deep window, on either branch |
| MotionProcessing.RunRecordsFlags | main/accel_to_draw.py:64-68 | Once a timestamp is held, any run of `add_point` calls leaves the rest window as a deque of capacity 8 fed the samples' own flags in order after the old ones, so it holds the last 8 of the two together |
| MotionProcessing.RunRestDecision | main/accel_to_draw.py:64-69 | After at least 8 samples, the sensor is found at rest if and only if each of the last 8 samples is within the rest band, whatever came before |
| MotionProcessing.ConstantReadingsAreStable | main/accel_to_draw.py:71-77 | Three equal Y readings make the Y deque stable |
| MotionProcessing.YTriggerScenario | main/accel_to_draw.py:103-117 | From rest, with the initial Y threshold 650, a Y reading 1000 above its offset 100 ms later starts movement along `(0, -1, 0)` and moves the position by exactly -5 in Y |
| MotionProcessing.Run | main/accel_to_draw.py:121-124 | Any sequence of `add_point` calls keeps the invariant |
| MotionProcessing.RunConcat | main/accel_to_draw.py:121-124 | Feeding two batches of samples in turn is feeding their concatenation |
| MotionProcessing.RestWindowStays | main/accel_to_draw.py:68-69 | A rest flag added to a window that decides "at rest" keeps it deciding "at rest" |
| MotionProcessing.RestPersists | main/accel_to_draw.py:91-100 | Once at rest, any run of rest samples keeps the sensor at rest, with zero direction and an unchanged position |
| MotionProcessing.StillBeforeRest | main/accel_to_draw.py:64-69 | While fewer than 3 flags are held, a sample at the stationary offset neither decides "at rest" nor starts movement, and leaves the position unchanged |
| MotionProcessing.WarmUp | main/accel_to_draw.py:80-119 | From the constructor state, three samples at the stationary offset keep the position at the origin; the sensor is not moving and not yet at rest |
| MotionProcessing.WarmUpAtRest | main/accel_to_draw.py:64-100 | A fourth such sample brings the sensor to rest at the origin |
| MotionProcessing.MotionProcessor.constructor | main/accel_to_draw.py:20-45 | Builds the initial state and establishes the invariant |
| MotionProcessing.MotionProcessor.UpdateThresholds | main/accel_to_draw.py:47-60 | Updates the histories and thresholds exactly as `RecordCalibration` |
| MotionProcessing.MotionProcessor.IsAtRest | main/accel_to_draw.py:64-69 | Appends the sample's rest flag (every axis within 200 of the offset) to the 8-deep window and answers whether at least 3 are held and all are true |
| MotionProcessing.MotionProcessor.IsYStable | main/accel_to_draw.py:71-77 | Appends the Y reading to the 3-deep deque and answers whether it is full with standard deviation below 200 |
| MotionProcessing.MotionProcessor.ProcessPoint | main/accel_to_draw.py:79-119 | `_process_point` keeps the invariant and changes the fields exactly as `Step` |
| MotionProcessing.MotionProcessor.ComeToRest | main/accel_to_draw.py:91-100 | The at-rest branch changes the fields exactly as `RestingStep` |
| MotionProcessing.MotionProcessor.Advance | main/accel_to_draw.py:102-119 | The not-at-rest branch changes the fields exactly as `MovingStep` |
| MotionProcessing.MotionProcessor.AddPoint | main/accel_to_draw.py:121-124 | `add_point` is one `Step` on the sample it builds |
| MotionProcessing.MotionProcessor.GetCurrentPosition | main/accel_to_draw.py:126-127 | Returns the position, changing nothing |
| MotionProcessing.MotionProcessor.GetPlotCoordinates | main/accel_to_draw.py:129-131 | Returns x, y and a pen flag that is 0 if and only if moving and 1 otherwise, changing nothing |
| MotionProcessing.MotionProcessor.Reset | main/accel_to_draw.py:133-134 | Restores every field to the constructor state |
| Integration.TransformAcceleration | main/integrate.py:83-94 | The transformed acceleration has no non-zero component below the noise threshold 0.1 |
| Integration.Rotated | main/integrate.py:64-81 | A non-positive angle leaves the orientation unchanged |
| Integration.RodriguesFixesAxis | main/integrate.py:75-79 | The rotation matrix as the source spells it leaves a unit axis where it is, and with cosine 1 and sine 0 it is the identity |
| Integration.RotationFixesRate | main/integrate.py:64-81 | From the identity, a positive turn leaves the angular-rate vector itself where it is, given an exact norm: the rotation is about the rate |
| Integration.NextVelocity | main/integrate.py:99-102 | The new velocity is `0.95 * v + 0.95 * dt * a`, and a zero `dt` only decays it |
| Integration.NextPosition | main/integrate.py:105 | A zero `dt` leaves the position where it is, and without acceleration the position moves by `dt` times the new velocity |
| Integration.NoiseFilter | main/integrate.py:92 | Components with magnitude below 0.1 become 0, all others are kept, and filtering twice changes nothing |
| Integration.GravityRemoval | main/integrate.py:86-89 | Gravity 9.81 is removed from the vertical component only, after the rotation: with the identity orientation the filter sees `accel - (0, 0, 9.81)` |
| Integration.DecayWithoutAcceleration | main/integrate.py:99-102 | Without acceleration, one step scales the velocity by 0.95, so each component's magnitude shrinks to 95% |
| Integration.CoastingDecays | main/integrate.py:99-102 | Without acceleration, `n` steps scale the velocity by `0.95^n` |
| Integration.OrientationComposes | main/integrate.py:67-81 | The new orientation is the increment times the old one (left multiplication), and a non-positive angle leaves it unchanged |
| Integration.OrientationStaysOrthogonal | main/integrate.py:75-81 | If the old orientation and the increment are rotations, so is the new orientation |
| Integration.HalfTurnAboutZ | main/integrate.py:64-81 | From the identity, a rate `w > 0` about Z over a `dt > 0` whose supplied cosine is -1 and sine 0 (with an exact square root of `w * w`) makes `_update_orientation` turn the X axis into its opposite |
| Integration.PositionIntegrator.constructor | main/integrate.py:13-29 | Zero position and velocity, identity orientation, no last update, not drawing, empty drawing |
| Integration.PositionIntegrator.ProcessSensorData | main/integrate.py:31-62 | The first reading only records its timestamp, returns None and changes nothing else. Every later reading sets orientation, velocity and position to the rotated orientation, the decayed velocity and the new position (with the acceleration transformed by the new orientation), appends exactly the new position to the drawing and returns it |
| Integration.PositionIntegrator.UpdateOrientation | main/integrate.py:64-81 | The orientation becomes `Rotated(old orientation, gyro, dt)` |
| Integration.PositionIntegrator.UpdatePosition | main/integrate.py:96-105 | The velocity becomes `0.95 * (v + a * dt)` and the position `p + v' * dt + 0.5 * a * dt^2`, using the decayed new velocity |
| Integration.PositionIntegrator.GetDrawing | main/integrate.py:107-109 | Returns the drawn points |
| Integration.PositionIntegrator.Reset | main/integrate.py:111-117 | Zero position and velocity, identity orientation, no last update, empty drawing; `is_drawing` is left as it was |
| Segmentation.PenDownPrefix | main/plotter.py:76-79 | The longest pen-down prefix: all its points have `z == 0`, and the point after it, if any, does not |
| Segmentation.Strokes | main/plotter.py:76-90 | The maximal pen-down runs of the points, in order. It has no contract of its own; its meaning is proved by MaximalRunIsStroke, StrokesSplitAtPenUp, StrokesAreNonEmptyPenDown, StrokesCoverPenDownPoints and StrokeCount |
| Segmentation.PenDownPointsSelect | main/plotter.py:77-79 | The pen-down points are all pen-down, and every pen-down point of the input is among them |
| Segmentation.StrokesSplitAtPenUp | main/plotter.py:80-85 | A pen-up point closes the strokes before it: the strokes of `a + [u] + b` are those of `a` followed by those of `b` |
| Segmentation.SplitBeforePenUp | main/plotter.py:80-85 | A sequence starting with a pen-up point adds its strokes after those of whatever precedes it |
| Segmentation.StrokeOfRun | main/plotter.py:77-79 | A run of pen-down points is one stroke, or none when empty |
| Segmentation.StrokesAppendRun | main/plotter.py:87-90 | A pen-down run at the end, after a pen-up point or at the start, is the last stroke |
| Segmentation.StrokesCloseRun | main/plotter.py:80-85 | A pen-down run closed by a pen-up point is the last stroke, and an empty one adds no stroke |
| Segmentation.MaximalRunIsStroke | main/plotter.py:76-90 | Every maximal pen-down run is a stroke, at its place among the strokes |
| Segmentation.StrokesAreNonEmptyPenDown | main/plotter.py:81 | Every stroke is non-empty and consists of pen-down points |
| Segmentation.StrokesCoverPenDownPoints | main/plotter.py:76-90 | Concatenating the strokes gives exactly the pen-down points, in order |
| Segmentation.StrokeCount | main/plotter.py:76-90 | There are exactly as many strokes as places where a pen-down run begins (a pen-down point at the start or after a pen-up point) |
| Plotting.Zip | main/plotter.py:76 | Zipping three equal-length deques gives one point per index |
| Plotting.ZipAppend | main/plotter.py:54-56 | Appending a point's three coordinates to the three deques appends the point to the zipped deque |
| Plotting.DrainStep | main/plotter.py:53-56 | Draining one point keeps the deques the window of everything buffered so far |
| Plotting.GroupSegments | main/plotter.py:68-90 | The grouping loop returns the x and y coordinates of exactly the strokes of the points, with as many x segments as y segments; every segment is non-empty, and its two coordinate lists have the same length |
| Plotting.NextIndex | main/plotter.py:109-115 | One `_animate` frame advances the index by one exactly when a coordinate is left, and keeps it otherwise (also when no list was given), so an index within the list never passes its end |
| Plotting.PointsAfter | main/plotter.py:107-116 | The buffer after any number of animation frames is within capacity |
| Plotting.AnimationIndex | main/plotter.py:109-115 | After `k` frames following `add_points(list)`, the index is `min(k, len(list))`: it never passes the end |
| Plotting.AnimationReplaysList | main/plotter.py:107-116 | After `k` frames, the buffer holds the last `max_points` of the first `min(k, len(list))` coordinates, in order |
| Plotting.Plotter.constructor | main/plotter.py:10-17 | Empty deques of capacity `max_points`, an empty queue and no coordinate list |
| Plotting.Plotter.AddPoint | main/plotter.py:36-38 | Appends the point to the back of the queue |
| Plotting.Plotter.ProcessQueue | main/plotter.py:49-56 | Empties the queue; the deques stay parallel and within capacity and hold the window of the old buffer followed by the old queue, in FIFO order |
| Plotting.Plotter.TakeOne | main/plotter.py:52-56 | One drain iteration removes the front of the queue and extends the window of buffered points by it |
| Plotting.Plotter.Clear | main/plotter.py:133-140 | Leaves all three deques and the queue empty |
| Plotting.Plotter.AddPoints | main/plotter.py:40-47 | Clears, then remembers the list with index 0 |
| Plotting.Plotter.UpdatePlot | main/plotter.py:58-90 | Drains the queue, then returns the x and y coordinates of the strokes of the buffered points |
| Plotting.Plotter.Animate | main/plotter.py:107-116 | Advances the index as `NextIndex` does, and the buffer gains the old queue followed by the replayed coordinate, if any; then returns the strokes |

## Left out

- I/O and rendering are not modelled:
  - the matplotlib figure, `_setup_plot`, the lines and end markers drawn per segment, axis rescaling, `start_animation` and `plot_static`;
  - `UpdatePlot` and `Animate` return the segments that would be drawn, not the artists.
  - The `print` in `_update_thresholds` is not modelled.
- Concurrency is not modelled. The `Lock` and the thread-safe `Queue` of main/plotter.py are a plain sequence here, and every operation runs to completion alone.
- The square root, cosine and sine are parameters of the model, because they have no exact model over the reals.
- Integration.OrientationStaysOrthogonal assumes the increment is a rotation; it does not prove it from Rodrigues' formula. That needs a unit axis and `cos² + sin² = 1`, which supplied functions do not guarantee.
- MotionProcessing.MotionProcessor.UpdateThresholds: the thresholds are stated through the supplied square root of the variance. Only their bounds are proved whatever that function is.
- Floating point is not modelled. All arithmetic is over `real`, with no rounding, NaN or infinity.
- Raw accelerometer readings are integers, as the sensor delivers them. Fractional readings are not covered.
- Integration.PositionIntegrator.GetDrawing returns the drawn points as a value. In the source, `get_drawing` returns the list object itself, and `reset` clears that list in place, so an earlier result is emptied too. Aliasing is not modelled.
- `window_size` in main/accel_to_draw.py is accepted by the constructor but never used, and `is_calibrating` is stored but never read, so neither is modelled.
- Plotting.Plotter.constructor takes a capacity of type `nat`. A negative `max_points` (rejected by `deque`) and `None` (an unbounded deque) are not modelled.
- In `_animate`, a coordinate may be a dict or a tuple. Both give the same `(x, y, z)`, so the model has a single point type.
- An absent `coordinate_list` (the `hasattr` test) is `None`.
