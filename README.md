# rustycam adaptive-optics core, modelled in Dafny

This project models the sequential core of rustycam, an adaptive-optics
control loop, and proves properties of it. One pass of the loop does the
following:

- It takes a frame from each camera.
- A Shack-Hartmann wavefront sensor cuts each frame into rectangular
  subapertures, of which the top-left `pixels_per_subap`² pixels are used.
  It calibrates the pixels against dark, background and
  flat-field maps, and reports each subaperture's centre of gravity as an x
  and a y entry of a measurement vector.
- An integrator controller adds `gain · (control matrix · measurement)` to
  its persistent command vector.
- The commands are written to every deformable mirror.
- The iteration counter is advanced.

Modules, one per source file:

| file | module | source |
|---|---|---|
| `wrappers.dfy` | `Wrappers` | the `Option` type used for "no number" results |
| `centre_of_gravity.dfy` | `CentreOfGravity` | `src/wfs/centreofgravity.rs` |
| `vectors.dfy` | `Vectors` | the `ndarray` operations the controller and mirrors use |
| `floats.dfy` | `Floats` | the same operations in `f32`, where NaN and infinities absorb |
| `controller.dfy` | `Controller` | `src/controller.rs` |
| `fakedm.dfy` | `FakeDm` | `src/fakedm.rs` |
| `wfs.dfy` | `Wfs` | `src/wfs.rs` |
| `aoloop.dfy` | `ControlLoop` | `src/aoloop.rs` |

Modelling choices:

- **Numbers.** A finite `f32` is a Dafny `real`. A pixel is a `nat` below 65536.
- **Non-finite values.** Every non-finite `f32` (NaN or an infinity) is
  `None` in an `Option<real>`. The centre-of-gravity routines divide by the
  total intensity without a guard, so a subaperture whose total is zero
  produces `None`. The controller and the mirrors carry such values on, as
  `f32` arithmetic does: a sum or product with a non-finite operand is
  non-finite, even `0 · NaN` (`Floats`).
- **Loops.** The centre-of-gravity routines, pixel calibration, the
  measurement loop, the per-sensor and per-mirror loops and the control
  loop are methods with loops. Each one is proved equal to a recursive or
  comprehension-defined specification function. The controller update has
  no loop. It is one `ndarray` expression, proved equal to the `f32`
  control law `Controller.Update`.
- **Sensor.** The Shack-Hartmann sensor is a datatype, because nothing
  updates it after construction.
- **Controller, mirror and loop.** These are classes whose methods update
  their fields.
- **Camera index.** In the source, each sensor's camera index
  (`wfs.detector_id`, `src/aoloop.rs:57`) is not a field of
  `ShackHartmann`. The model pairs each sensor with an explicit camera index
  (`ControlLoop.Sensor`).
- **Camera frames.** Frames are parameters: `Step` takes one batch of
  frames and `Run` takes one batch per iteration.
- **Which `measure`.** `Step`, `Run` and `MeasureAll` take a flag
  `corrected`. With `corrected` false they call `measure` as written,
  which is what `src/aoloop.rs:56-58` does. With it true they call the
  corrected measurement of Findings.
- **Where the code and the specification differ, the model follows the
  code.**
  - The y coordinate is offset by the row count. See Findings.
  - `measure` takes the centroid of the stored calibrated maps, not of the
    freshly calibrated pixels. See Findings. The control loop, run as
    written, therefore drives every command and every mirror to NaN on its
    first pass (`ControlLoop.AOLoop.AsWrittenCommandsNonFinite`).
  - Subaperture bounds are not validated at construction. The model states
    them as preconditions of `measure`, which is where `ndarray` would
    otherwise panic.
  - Dimension errors panic rather than being reported. The model makes
    matching shapes a precondition.

## Model

| member | source | states |
|---|---|---|
| CentreOfGravity.SimpleCentreOfGravity | src/wfs/centreofgravity.rs:4-18 | The nested accumulation loops compute exactly the recursive row, column and total sums. The result is their two means, each shifted by half the row count less one half. It is defined exactly when the total intensity is nonzero. |
| CentreOfGravity.ThresholdCentreOfGravity | src/wfs/centreofgravity.rs:20-36 | The same, summing only pixels strictly above the threshold. It is defined exactly when the sum of those pixels is nonzero. |
| CentreOfGravity.Accumulate | src/wfs/centreofgravity.rs:9-17 | The outer row loop and the final division: the result equals `Centroid` of the grid, and is defined exactly when the kept total is nonzero. |
| CentreOfGravity.AccumulateRow | src/wfs/centreofgravity.rs:10-15 | The inner column loop adds the row's kept sum, its row-weighted sum and its column-weighted sum to the running accumulators. |
| CentreOfGravity.RowStepKept | src/wfs/centreofgravity.rs:11-14 | A kept pixel `v` at column `j` extends the three row sums by `v`, `v·i` and `v·j`. |
| CentreOfGravity.RowStepSkipped | src/wfs/centreofgravity.rs:28-32 | A pixel at or below the threshold leaves all three row sums unchanged. |
| CentreOfGravity.GridStep | src/wfs/centreofgravity.rs:9-16 | Each further row adds its row sums to the grid totals. |
| CentreOfGravity.OnesEightByEightCentred | src/wfs/centreofgravity.rs:80-85 | An 8×8 array of ones has centre of gravity exactly (0, 0). |
| CentreOfGravity.ThresholdOnesEightByEightCentred | src/wfs/centreofgravity.rs:87-92 | The thresholded routine with threshold 0 on an 8×8 array of ones gives exactly (0, 0). |
| CentreOfGravity.UniformGridCog | src/wfs/centreofgravity.rs:17 | Any uniformly lit `rows × cols` array gives x = 0 and y = (cols − rows)/2, because the y offset uses the row count. For square input both are zero. |
| CentreOfGravity.SinglePixelCog | src/wfs/centreofgravity.rs:9-17 | An array dark but for one nonzero pixel at (r, c) gives (r − rows/2 + 0.5, c − rows/2 + 0.5). |
| CentreOfGravity.ThresholdIsMaskedCog | src/wfs/centreofgravity.rs:20-36 | The thresholded centroid equals the plain centroid of the array with every pixel at or below the threshold set to zero. |
| CentreOfGravity.MaskedGridSums | src/wfs/centreofgravity.rs:28-32 | Pixels at or below the threshold contribute to none of the x, y or total sums. |
| CentreOfGravity.ThresholdAllAbove | src/wfs/centreofgravity.rs:4-36 | If every pixel exceeds the threshold, the thresholded result equals the plain result. |
| CentreOfGravity.ThresholdIgnoresLowPixel | src/wfs/centreofgravity.rs:28 | Changing a pixel that is at or below the threshold to another value at or below it does not change the thresholded result. |
| CentreOfGravity.WeightedRow | src/wfs/centreofgravity.rs:12 | A row's weighted sum is its kept sum times the row index. |
| CentreOfGravity.WideUniformOffCentre | src/wfs/centreofgravity.rs:17 | A uniformly lit 2×4 array is reported at (0, 1) rather than at its centre. |
| CentreOfGravity.UniformGridCentredCog | src/wfs/centreofgravity.rs:17 | With each coordinate offset by its own dimension, every uniformly lit array is reported at (0, 0). |
| CentreOfGravity.SquareCogsAgree | src/wfs/centreofgravity.rs:17 | On square input the corrected and the as-written centroid agree. |
| Vectors.ZeroMatrixAnnihilates | src/controller.rs:19 | The zero control matrix maps every measurement vector to the zero vector. |
| Controller.IntegratorController.constructor | src/controller.rs:18-27 | A new controller has a zero `n_commands × n_measurements` control matrix, a finite zero command vector of length `n_commands`, and the given gain. |
| Controller.IntegratorController.SetControlMatrix | src/controller.rs:29-35 | `get_control_matrix` afterwards returns the matrix just set. Gain and commands are unchanged, and no shape is checked. |
| Controller.IntegratorController.SetGain | src/controller.rs:37-43 | `get_gain` afterwards returns the gain just set. Matrix and commands are unchanged. |
| Controller.IntegratorController.ComputeCommands | src/controller.rs:46-49 | The stored commands become `Update(old, gain, matrix, m)`, the `f32` value of `old + gain·(matrix·m)`, and the returned vector is exactly the new stored vector. Gain and matrix are unchanged. The command length is preserved. |
| Controller.Integrate | src/controller.rs:47 | The control law on finite numbers: one step adds exactly `gain·(row i · m)` to command `i`, and the vector keeps its length. |
| Controller.Update | src/controller.rs:47 | The same law evaluated in `f32`, keeping the length of the command vector. |
| Controller.UpdateFinite | src/controller.rs:47 | On finite commands and a finite measurement, the `f32` step equals the exact step `Integrate`. |
| Controller.UpdateNonFinite | src/controller.rs:47 | One non-finite measurement entry makes every command non-finite. |
| Controller.UpdateStaysNonFinite | src/controller.rs:47 | Non-finite commands stay non-finite, whatever the next measurement. |
| Controller.UpdateAllFinite | src/controller.rs:46-49 | While every measurement is finite, repeated calls leave the commands equal to the exact integral `IntegrateAll` of the measurements. |
| Controller.UpdateAllNonFinite | src/controller.rs:46-49 | One non-finite entry in any measurement of a sequence leaves every command non-finite at the end. |
| Controller.IntegratorController.GetControlMatrix | src/controller.rs:33-35 | Returns the stored matrix. With `SetControlMatrix` it completes the set/get round trip. |
| Controller.IntegratorController.GetGain | src/controller.rs:41-43 | Returns the stored gain. With `SetGain` it completes the set/get round trip. |
| Floats.DotF32Exact | src/controller.rs:47 | The `f32` inner product in `dot` is the exact one on finite input, and non-finite as soon as one measurement entry is. |
| Controller.IntegratorSums | src/controller.rs:47 | On the exact law `IntegrateAll`, which the controller's `f32` commands follow while every measurement is finite (`UpdateAllFinite`): after any sequence of measurements, each command equals its start value plus the gain times the sum over all measurements of its matrix row's inner product with them. |
| Controller.FreshControllerStaysZero | src/controller.rs:18-49 | On the exact law `IntegrateAll`, which the controller's `f32` commands follow while every measurement is finite (`UpdateAllFinite`): with the zero matrix of a fresh controller, the commands stay all zero across any number of steps. |
| Controller.FreshControllerStaysZeroWhileFinite | src/controller.rs:18-49 | A fresh controller's `f32` commands stay all zero under its zero matrix while every measurement is finite. One non-finite measurement turns them all to NaN even then (`UpdateAllNonFinite`), which is what `measure` as written causes. |
| Controller.TwoStepsDouble | src/controller.rs:47 | For the exact law on finite numbers, two steps from zero with the same inputs give twice the result of one step. |
| Controller.StepIdempotentIff | src/controller.rs:47 | For the exact law on finite numbers, a step is idempotent if and only if `gain·(matrix·m)` is the zero vector. In `f32` a non-finite measurement also makes a second step change nothing, because both leave every command NaN (`UpdateNonFinite`, `UpdateStaysNonFinite`). |
| Controller.RepeatedSteps | src/controller.rs:47 | For the exact law on finite numbers, `k` steps from zero with the same inputs give `k·gain·(row i · m)` in command `i`. |
| Controller.SumDotsRepeat | src/controller.rs:47 | Seeing the same measurement `k` times sums to `k` times its inner product. |
| FakeDm.DM.constructor | src/fakedm.rs:9-16 | A new mirror holds `n_acts` zeros. |
| FakeDm.DM.GetActuators | src/fakedm.rs:22-24 | Returns the buffer as last set, non-finite entries included. |
| FakeDm.DM.SetActuators | src/fakedm.rs:18-24 | `get_actuators` afterwards returns exactly the vector set. The previous contents, `n_acts` and the vector's length have no influence, so setting twice equals setting once. |
| Wfs.New | src/wfs.rs:34-58 | `n_measurements` is twice the number of coordinate rows. Dark, background and calibrated maps are all zero, and the flat field is all one. Every map is `n_subaps × p × p`. |
| Wfs.SubapData | src/wfs.rs:65-68 | Subaperture data is the frame rectangle with rows `c[0]..c[1]` and columns `c[2]..c[3]`, entry by entry. |
| Wfs.CalibratePixel | src/wfs.rs:78 | A calibrated pixel times the flat field equals raw − background − dark. |
| Wfs.CalibrateSubap | src/wfs.rs:70-80 | The nested pixel loops overwrite a fresh copy of the stored grid so that every pixel holds its calibrated value. |
| Wfs.DefaultCalibrationIsIdentity | src/wfs.rs:41-44 | With the maps as constructed (zero dark and background, unit flat field), the calibration formula leaves every pixel at its raw value. |
| Wfs.Layout | src/wfs.rs:87-88 | A vector of `2n` entries, with subaperture `i`'s x at index `i` and its y at `i + n`. |
| Wfs.MeasureWith | src/wfs.rs:60-91 | The subaperture loop fills the zeroed vector so that it equals the layout of the per-subaperture centroids. |
| Wfs.SubapCentroid | src/wfs.rs:65-84 | One pass of the loop yields the centroid of either the stored map (as written) or the calibrated data (corrected). |
| Wfs.Measure | src/wfs.rs:60-91 | `measure` as written: a vector of `n_measurements` entries holding the centroids of the stored calibrated maps. |
| Wfs.MeasureCorrected | src/wfs.rs:60-91 | `measure` as intended: the same layout over the centroids of the freshly calibrated subaperture data. |
| Wfs.ZeroGridUndefined | src/wfs.rs:83-84 | A zero grid has no centre of gravity, because its total is zero. |
| Wfs.AsWrittenUndefined | src/wfs.rs:83-84 | With the stored maps as constructed (all zero), every entry that `measure` returns is undefined, for every frame. |
| Wfs.AsWrittenIgnoresFrame | src/wfs.rs:83-84 | As written, `measure` returns the same vector whatever the frame. |
| Wfs.MeasurementLocality | src/wfs.rs:63-88 | For the corrected measurement, entries `i` and `i + n_subaps` depend only on subaperture `i`'s rectangle of the frame. As written, `AsWrittenIgnoresFrame` gives the stronger fact that the frame has no influence at all. |
| Wfs.UniformSubapCentred | src/wfs.rs:76-88 | With the maps as constructed, the corrected measurement puts a subaperture whose pixels all read the same nonzero count at x = y = 0. As written, `measure` gives NaN there (`AsWrittenUndefined`). |
| Wfs.SinglePixelSubap | src/wfs.rs:76-88 | With the maps as constructed, the corrected measurement puts a subaperture dark but for one pixel at that pixel's offset from the centre. As written, `measure` gives NaN there (`AsWrittenUndefined`). |
| ControlLoop.AOLoop.constructor | src/aoloop.rs:25-37 | A new loop is stopped and its iteration number is 0. |
| ControlLoop.AOLoop.StartLoop | src/aoloop.rs:39-47 | Starting sets the running flag and keeps the counter. |
| ControlLoop.AOLoop.StopLoop | src/aoloop.rs:75-78 | Stopping clears the running flag and keeps the counter. |
| ControlLoop.AOLoop.GetIterationNumber | src/aoloop.rs:80-82 | Returns the stored iteration counter. |
| ControlLoop.AOLoop.Step | src/aoloop.rs:51-70 | One pass of the loop body. Every sensor is measured, and the controller always applies the `f32` update law to the first sensor's measurement, non-finite entries included. Every mirror then holds exactly the returned commands. The counter advances by one after actuation, wrapping at 2^64. Gain and matrix are unchanged. |
| ControlLoop.AOLoop.MeasureAll | src/aoloop.rs:54-58 | One measurement per sensor, in sensor order, each on the frame of that sensor's camera. With `corrected` false it calls `measure` as written. |
| ControlLoop.AOLoop.ApplyToAll | src/aoloop.rs:66-67 | Every mirror receives the same command vector. |
| ControlLoop.AOLoop.Run | src/aoloop.rs:50-71 | A stopped loop changes nothing. A running loop makes one pass per batch of frames and advances the counter once per pass. The controller's commands are `UpdateAll` of the first sensor's readings over all passes. After at least one pass, every mirror holds them; with no batch, every mirror keeps its buffer. With finite readings this is the exact integral (`UpdateAllFinite`). After any non-finite reading it is all NaN (`UpdateAllNonFinite`). |
| ControlLoop.AOLoop.ReadingsStep | src/aoloop.rs:61-62 | One more pass feeds one more reading of the first sensor to the controller. |
| ControlLoop.AOLoop.AsWrittenCommandsNonFinite | src/aoloop.rs:56-62 | As written (`measure` on the maps as constructed, at least one subaperture), any run of at least one pass leaves every command non-finite, and `Run` puts that vector on every mirror. |
| ControlLoop.IterateAdds | src/aoloop.rs:69 | `k` passes advance the counter by `k` modulo 2^64. |
| ControlLoop.CounterCountsIterations | src/aoloop.rs:69 | Below 2^64 passes from zero, the counter equals the number of passes. |

## Left out

- `src/fakecamera.rs`: the camera's background acquisition thread, its
  sleep and its random noise generator. Frames are parameters of `Step` and
  `Run`.
- Threads, `Arc`, `Mutex`, atomics, `join` and `trace!` logging in
  `src/aoloop.rs`. Because the model is sequential, `stop_loop` cannot
  interrupt a `Run` between passes. `start_loop` on a running loop, which
  spawns a second loop thread in the source, is modelled only as raising
  the flag.
- `src/main.rs`, `src/shmupdater.rs` and the benchmark programs under
  `rustbench/`: demos, benchmarks, and a wrapper over an external
  shared-memory library.
- The timing and printing helpers `bench_simple_centre_of_gravity` and
  `test_cog` in `src/wfs/centreofgravity.rs`, and the unused `WFS` struct
  in `src/wfs.rs`.
- `f32` rounding and overflow. Finite values are exact reals. NaN and the
  infinities are one value, `None`, which suffices because each of them
  absorbs in every sum and product the core computes.
- The gain and the control matrix are taken to be finite. The source
  accepts any `f32` through `set_gain` and `set_control_matrix`.
- `ndarray` broadcasting. Shapes must match exactly, where `ndarray` would
  also broadcast a length-1 operand.
- Wfs.FitsFrame: the column bound is checked only on the rows a
  subaperture covers. For a subaperture zero rows high, `ndarray` would
  also check it against the frame width.
- The subaperture coordinate array is modelled as one four-field record
  per subaperture. Extra columns that the source would ignore do not exist
  in the model.

## Findings

| source | as written | input that shows it | evidently intended | confidence | as-written member | corrected member |
|---|---|---|---|---|---|---|
| src/wfs.rs:83-84 | The centroid is taken of `self.cal_subaps`: the stored map that construction fills with zeros and nothing updates. The freshly calibrated copy `cal_subap` is discarded. `Wfs.Measure` models this, and `Wfs.AsWrittenIgnoresFrame` shows the frame has no influence. | Any frame, e.g. a subaperture uniformly lit at count 1: every entry of the result is 0/0, NaN | The centroid of the calibrated subaperture data. `Wfs.UniformSubapCentred` and `Wfs.SinglePixelSubap` prove centring for the corrected measurement. The control loop takes either one: with `measure` as written, `ControlLoop.AOLoop.AsWrittenCommandsNonFinite` shows every command and mirror becomes NaN on the first pass. | not executed | Wfs.AsWrittenUndefined | Wfs.MeasureCorrected |
| src/wfs/centreofgravity.rs:17 | The y mean is offset by `n_rows / 2 - 0.5`, using the row count instead of the column count. Line 35 of the thresholded routine does the same. `CentreOfGravity.UniformGridCog` gives the general uniform case. | A uniformly lit 2×4 array: reported at (0, 1) instead of (0, 0) | The column count in the y offset. Every uniformly lit array is then centred, and on the sensor's square subapertures the two definitions agree (`CentreOfGravity.SquareCogsAgree`). | not executed | CentreOfGravity.WideUniformOffCentre | CentreOfGravity.UniformGridCentredCog |
