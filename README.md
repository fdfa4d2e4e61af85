# FusionEKF controller — a Dafny model

This project models the `FusionEKF` controller of an extended-Kalman-filter
tracker for a car that sees an object with a laser (position `px, py`) and a
radar (range, bearing, range rate). The controller owns the measurement
noises `R_laser_` and `R_radar_` and the laser observation matrix `H_laser_`,
and it drives a Kalman filter object `ekf_` with state `x = [px, py, vx, vy]`,
covariance `P`, transition `F` and process noise `Q`.

- **Construction** sets the constant matrices, `P = diag(1, 1, 1000, 1000)`,
  `F = F(1)`, an all-zero `Q` and the acceleration noises `noise_ax = noise_ay = 9`.
- **The first measurement** seeds `x`. A laser reading gives `[px, py, 0, 0]`.
  A radar reading is turned from polar to Cartesian coordinates. The
  controller then hands `x, P, F, H_laser, R_laser, R_radar, Q` to the
  filter's `Init`, records the timestamp, sets the initialised flag and
  returns. There is no predict and no update.
- **Every later measurement** goes through these steps:
  - compute `dt` in seconds from the microsecond timestamps;
  - record the timestamp;
  - overwrite the two `dt` entries of `F` and the eight non-zero entries of `Q` in place;
  - call `Predict` once;
  - call `UpdateEKF` for radar and `Update` otherwise.

The model is in five files.

- `matrix.dfy` (module `Matrix`) holds values as sequences and the filter's storage as arrays.
  - `MatOf` reads a 4x4 array as a value.
  - `Assign` is the in-place `a(i, j) = v`, proved to equal the value-level `Set`.
- `motion.dfy` (module `Motion`) holds the motion model:
  - the transition `Transition(dt)` and the refresh `SetDt` that writes its two cells;
  - the process noise `ProcessNoise(dt, ax, ay)` and the refresh `SetNoise` that writes its eight cells;
  - the shape Q keeps: symmetric, zero outside its eight cells, non-negative diagonal;
  - Q(dt) is positive semidefinite for every dt.
- `kalman_filter.dfy` (module `Kalman`) models the filter object `ekf_`.
  - `x`, `P`, `F` and `Q` are arrays. `Init` stores `H`, `R` and the radar noise.
  - The numerics of `Predict`, `Update` and `UpdateEKF` are parameters, of type `Numerics`.
  - A ghost trace `calls` records every call and the matrices it saw.
- `fusion_spec.dfy` (module `FusionSpec`) holds the measurement datatype and a pure `Step`. `Step` says what one `ProcessMeasurement` call does to a value `Controller`. `Run` folds `Step` over a stream of measurements. The lemmas prove the controller's promises about both.
- `fusion_ekf.dfy` (module `Fusion`) holds the class `FusionEKF`.
  - Its methods update the fields and the filter's arrays step by step.
  - `ProcessMeasurement` is proved to do exactly `Step`: `Snapshot() == Step(Settings(), old(Snapshot()), m)`.
  - `ProcessMeasurement` also keeps `Valid()`. This invariant says F is `F(dt)` for the gap it holds and Q keeps its shape.

The library `cos` and `sin` are parameters of type `Trig`.

## Model

| member | source | states |
|---|---|---|
| Fusion.FusionEKF.constructor | src/FusionEKF.cpp:14-68 | not initialised, previous timestamp 0, R_laser = diag(0.0225, 0.0225), R_radar = diag(0.09, 0.0009, 0.09), H_laser selects px and py, P = diag(1, 1, 1000, 1000), F = F(1), Q = 0, noise_ax = noise_ay = 9, no filter call made; the controller invariant holds |
| Fusion.FusionEKF.NewFilter | src/FusionEKF.cpp:43-61 | the filter's P, F and Q hold the initial covariance, F(1) and the zero matrix, in fresh storage, with no call made |
| Fusion.FusionEKF.ProcessMeasurement | src/FusionEKF.cpp:75-170 | the new controller state (flag, timestamp, x, P, F, Q, the matrices given to Init, the call trace) is exactly Step of the old one; the invariant on F and Q is kept; afterwards the controller is initialised and remembers this measurement's timestamp |
| Fusion.FusionEKF.Initialize | src/FusionEKF.cpp:81-126 | the first-measurement branch does exactly Step's first case: x seeded, P, F and Q unchanged, one Init call, flag set, timestamp recorded |
| Fusion.FusionEKF.SeedState | src/FusionEKF.cpp:94-119 | x is written with the seed of the measurement: radar polar-to-Cartesian, laser position with zero velocity |
| Fusion.FusionEKF.Advance | src/FusionEKF.cpp:128-165 | a later measurement does exactly Step's second case: timestamp recorded, F and Q refreshed in place, one Predict, then the sensor's update |
| Fusion.FusionEKF.ApplyUpdate | src/FusionEKF.cpp:159-165 | radar goes to UpdateEKF with the radar noise, anything else to Update with H and R; exactly one of them is called |
| Fusion.FusionEKF.RefreshMotionModel | src/FusionEKF.cpp:136-151 | the in-place writes leave F = SetDt(old F, dt) and Q = SetNoise(old Q, dt, noise_ax, noise_ay) |
| Matrix.Assign | src/FusionEKF.cpp:137-151 | writing one coefficient of a 4x4 array changes its value to Set(old value, i, j, v) |
| Matrix.PowSmall | src/FusionEKF.cpp:141-151 | pow(dt, 2), pow(dt, 3) and pow(dt, 4) are the products of two, three and four factors dt |
| Motion.TransitionKinematics | src/FusionEKF.cpp:51-55 | F(dt) applied to a state advances each position by dt times its velocity and keeps the velocities |
| Motion.TransitionCompose | src/FusionEKF.cpp:137-138 | moving by F(dt1) and then F(dt2) is moving by F(dt1 + dt2) |
| Motion.TransitionOnlyGapCells | src/FusionEKF.cpp:51-55 | F(dt) differs from the constructor's F(1) only at (0, 2) and (1, 3), which hold dt |
| Motion.SetDtIsTransition | src/FusionEKF.cpp:137-138 | writing dt at (0, 2) and (1, 3) of a constant-velocity F gives exactly F(dt), whatever gap F held |
| Motion.SetNoiseIsProcessNoise | src/FusionEKF.cpp:141-151 | the eight written cells, on a Q that is zero outside them, give exactly Q(dt): dt^4/4 ax, dt^3/2 ax, dt^2 ax on the x axis and the same with ay on the y axis |
| Motion.ProcessNoiseShaped | src/FusionEKF.cpp:141-151 | for non-negative ax and ay, Q(dt) is symmetric, zero outside its eight cells and has a non-negative diagonal |
| Motion.ProcessNoisePositiveSemidefinite | src/FusionEKF.cpp:141-151 | for non-negative ax and ay, v' Q(dt) v >= 0 for every 4-vector v |
| Motion.ProcessNoiseAtRest | src/FusionEKF.cpp:57-61 | Q(0) is the all-zero matrix the constructor writes |
| Kalman.KalmanFilter.Init | src/FusionEKF.cpp:109 | the filter takes over x, P, F, Q, H_laser, R_laser and R_radar as given, and one Init call is recorded |
| Kalman.KalmanFilter.Predict | src/FusionEKF.cpp:153 | the estimate becomes the prediction with the F and Q the filter holds, and the call is recorded with those F and Q |
| Kalman.KalmanFilter.UpdateEKF | src/FusionEKF.cpp:161 | the estimate becomes the extended update with the radar noise taken over by Init, and the call is recorded |
| Kalman.KalmanFilter.Update | src/FusionEKF.cpp:164 | the estimate becomes the linear update with the H and R taken over by Init, and the call is recorded |
| FusionSpec.ElapsedSeconds | src/FusionEKF.cpp:129 | dt * 1e6 is the timestamp difference; dt is 0, positive or negative exactly when the new timestamp is equal to, after or before the previous one |
| FusionSpec.SeedLaser | src/FusionEKF.cpp:113 | the laser seed is read back by H_laser as the measured position, and its velocity is zero |
| FusionSpec.SeedRadar | src/FusionEKF.cpp:99-108 | with cos^2 + sin^2 = 1, the radar seed lies at the measured range, has the measured range rate as speed, and its position and velocity are collinear along the bearing |
| FusionSpec.SeedRadarStraightAhead | src/FusionEKF.cpp:99-108 | a radar reading at bearing 0 seeds [range, 0, range rate, 0] |
| FusionSpec.FirstMeasurement | src/FusionEKF.cpp:81-125 | the first call sets the flag and the timestamp, seeds x, leaves P, F and Q unchanged, and adds one Init call and nothing else: no predict or update |
| FusionSpec.LaterMeasurement | src/FusionEKF.cpp:128-165 | a later call leaves F = F(dt) and Q = Q(dt) for the elapsed dt, the estimate is the sensor's update of the prediction with them, Init's matrices are unchanged, and exactly [Predict(F, Q), the sensor's update] is added to the trace |
| FusionSpec.StepPreservesInvariant | src/FusionEKF.cpp:137-151 | every call keeps F a constant-velocity transition and Q symmetric, zero outside its cells and with a non-negative diagonal |
| FusionSpec.RunInitialized | src/FusionEKF.cpp:124 | after a stream the controller is initialised exactly when it was before or the stream was not empty: the flag never reverts |
| FusionSpec.RunTimestamp | src/FusionEKF.cpp:121-130 | after a stream the previous timestamp is the last measurement's |
| FusionSpec.RunPreservesInvariant | src/FusionEKF.cpp:137-151 | the invariant on F and Q holds after any stream |
| FusionSpec.StepKeepsNoiseModelled | src/FusionEKF.cpp:141-151 | every call keeps Q either the all-zero matrix or Q(dt) for the gap F holds |
| FusionSpec.RunKeepsNoiseModelled | src/FusionEKF.cpp:141-151 | over any stream, Q stays either the all-zero matrix or Q(dt) for the gap F holds, and the invariant on F and Q holds |
| FusionSpec.NoiseModelledPositiveSemidefinite | src/FusionEKF.cpp:57-61 | the all-zero Q and every Q(dt) are positive semidefinite for non-negative noise intensities |
| FusionSpec.RunNoisePositiveSemidefinite | src/FusionEKF.cpp:141-153 | starting from the constructor's all-zero Q, the Q the filter predicts with is positive semidefinite after any stream |
| FusionSpec.TracedCons | src/FusionEKF.cpp:153-165 | the call pattern of the first measurement followed by that of the rest is the call pattern of the whole stream |
| FusionSpec.RunTrace | src/FusionEKF.cpp:153-165 | an initialised controller adds, per measurement, exactly one Predict with F(gap) and Q(gap) followed by exactly the update its sensor calls for, and keeps the earlier trace |
| FusionSpec.RunFromFresh | src/FusionEKF.cpp:94-165 | a fresh controller makes one Init call with the seeded x, then per later measurement one Predict and one update, 2n - 1 calls in all |
| FusionSpec.TenthOfASecond | src/FusionEKF.cpp:129-151 | measurements at 0 and 100000 microseconds leave F = F(0.1) and Q = Q(0.1) |
| FusionSpec.RepeatedTimestamp | src/FusionEKF.cpp:129-151 | a repeated timestamp gives F = F(0) and an all-zero Q |
| FusionSpec.OutOfOrderTimestamp | src/FusionEKF.cpp:129-138 | an older timestamp is not rejected: F gets a negative gap, the timestamp goes back, and Predict and the update still run |
| FusionSpec.RunKeepsObservationModel | src/FusionEKF.cpp:109-114 | after the first measurement, the filter's H, R and radar noise remain the controller's H_laser, R_laser and R_radar whatever follows |

## Left out

- The Kalman filter and tools sources are not part of this model. What the model takes for granted about the filter:
  - `Init` assigns its seven arguments to the filter's `x`, `P`, `F`, `H`, `R`, radar noise and `Q`. `Kalman.KalmanFilter.Init` is that store. `FirstMeasurement`, `RunKeepsObservationModel` and `Step`'s use of the filter's `H`, `R` and radar noise rest on it.
  - `Predict`, `Update` and `UpdateEKF` write only `x` and `P`, never `F`, `Q`, `H` or the noise matrices. The invariant on `F` and `Q` across calls rests on it. The new `x` and `P` are function parameters (`Kalman.Numerics`), so every property holds whatever these three numeric steps compute.
- A ghost call trace stands for "which filter calls were made". The `H`, `R` and `RRadar` fields of `KalmanFilter` stand for the matrices `Init` receives.
- The filter's constructor is not part of this model. `Kalman.KalmanFilter.constructor` only allocates storage.
- `cos` and `sin` are function parameters (`FusionSpec.Trig`). `SeedRadar` assumes only cos^2 + sin^2 = 1.
- Float rounding is not modelled:
  - `dt`, `ro`, `phi` and `ro_dot` are truncated to `float` in the source; the model uses exact reals;
  - `pow` is exact repeated multiplication;
  - matrix entries are exact reals.
- Console output is left out (src/FusionEKF.cpp:90, 168-169).
- The commented-out noise values are left out (src/FusionEKF.cpp:66-67).
- `Hj_` is allocated by the constructor but never read or written here. It is kept as a 3x4 array and nothing is proved about it.
- `R_laser_`, `R_radar_` and `H_laser_` are Eigen values that are assigned once in the constructor. They are modelled as immutable fields, so "never modified by processing" holds by construction. `RunKeepsObservationModel` adds that the filter keeps what `Init` gave it.
- Fusion.FusionEKF.ProcessMeasurement requires `WellFormed(m)`: 2 laser readings, 3 radar readings. The source indexes the raw vector without a check and its algebra is fixed-size, so another length has no defined behaviour there.
- Only the two sensor kinds of the measurement package exist. The first-measurement `else if (LASER)` is therefore always taken when the sensor is not radar.
- There is no guard against out-of-order timestamps, as in the source. `OutOfOrderTimestamp` states what then happens.
- The source overwrites only the eight non-zero cells of Q (src/FusionEKF.cpp:141-151). `SetNoiseIsProcessNoise` shows that on a Q that is zero outside them this gives exactly Q(dt).
- `UpdateEKF` receives only the raw reading (src/FusionEKF.cpp:161). Any Jacobian belongs to the filter's numerics.
