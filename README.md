# pypilot autopilot core in Dafny

This project models the control core of pypilot, an autopilot for sailboats.

**The autopilot process (`pypilot/autopilot.py`).** Every cycle it does the following:
- reads the inertial measurement unit (IMU), making at most 14 attempts (so at most 13 retries);
- compensates for compass calibration and alignment jumps;
- smooths the GPS and wind readings into three compass offsets (GPS, wind, true wind);
- lets the selected pilot choose the mode and the heading;
- computes the clamped heading error and its clamped integral;
- resets the integral when the autopilot becomes enabled;
- hands the cycle to the tack manoeuvre or the pilot;
- sleeps out the rest of its period.

On a signal or at exit, a handler sends SIGTERM to the child processes.

**The learning pilot's helpers (`pypilot/pilots/intellect.py`).**
- `stopwatch`: an elapsed-time accumulator.
- `History`: a sliding window of samples.
- `inputs`: selects named fields from each sample and flattens them into one vector.

## How angles are modelled

Headings are `real` degrees. The repository's `resolv(angle, reference)` is not part of this model. It is specified by its contract, `Angles.Resolv`:
- the result lies in `[reference - 180, reference + 180)`;
- it is congruent to `angle`, meaning they differ by a whole number of turns (`Angles.Congruent`).

The body is a closed form that meets this contract. `Angles.ResolvUnique` shows the contract fixes the result, so any implementation of the contract gives the same values.

## Module layout

| file | module | models |
|---|---|---|
| angles.dfy | `Angles` | `minmax`, `resolv` and congruence of angles |
| modes.dfy | `Modes` | the four modes, the "contains 'wind'" test, `HeadingProperty.set` |
| filters.dfy | `Filters` | `HeadingOffset` and the exponential blends |
| heading_error.dfy | `HeadingError` | the error, integral and mode-switch rules of `compute_heading_error` |
| calibration.dfy | `Calibration` | the jumps measured by `fix_compass_calibration_change` |
| supervisor.dfy | `Supervisor` | the IMU retry loop and the period-aligning sleep of `iteration` |
| lifecycle.dfy | `Lifecycle` | which children `cleanup` signals, and in which order |
| autopilot.dfy | `Autopilot` | the `Autopilot` object and its methods |
| intellect.dfy | `Intellect` | `stopwatch`, `History`, `select`, `flatten`, `inputs` |
| readings.dfy, wrappers.dfy | `Readings`, `Wrappers` | sensor records and `Option` |

## Model

| member | source | states |
|---|---|---|
| Angles.MinMax | pypilot/autopilot.py:27-28 | For a non-negative bound the result lies in `[-r, r]`. It equals the value when the value is in range and the nearer bound otherwise. A negative bound yields the bound. |
| Angles.Resolv | pypilot/autopilot.py:21 | The result lies in `[reference - 180, reference + 180)` and is congruent to the input angle. |
| Angles.ResolvUnique | pypilot/autopilot.py:21 | Any angle in the window that is congruent to the input equals `Resolv`. |
| Angles.ResolvIdempotent | pypilot/autopilot.py:21 | Resolving twice against the same reference gives the same result as resolving once. |
| Angles.ResolvCongruent | pypilot/autopilot.py:21 | Congruent inputs resolve to the same angle. |
| Angles.ResolvRelative | pypilot/autopilot.py:56-57 | `Resolv(a, ref) - ref == Resolv(a - ref, 0)`: the resolved sample minus the filter value is the signed shortest turn to it. |
| Modes.WindModeByName | pypilot/autopilot.py:66 | `IsWind(m)` holds exactly when the mode's name contains "wind", namely for `wind` and `true wind`. |
| Modes.CommandValue | pypilot/autopilot.py:65-67 | The stored command is congruent to its input. It lies in `[-180, 180)` in wind modes and in `[0, 360)` otherwise, so always within the property's `[-180, 360]` range. |
| Modes.CommandValueIdempotent | pypilot/autopilot.py:258-259 | Storing an already stored command changes nothing, so pre-resolving near 180 before `set` has no effect. |
| Filters.Blend | pypilot/autopilot.py:207 | For `d` in `[0, 1]` the blend lies between the old value and the sample (the speed averages are convex combinations). `d = 0` keeps the old value and `d = 1` takes the sample. |
| Filters.OffsetUpdate | pypilot/autopilot.py:55-57 | The new filter value lies in `[-180, 180)`. |
| Filters.OffsetUpdateTurn | pypilot/autopilot.py:55-57 | The new value is congruent to `value + d * Resolv(offset - value, 0)`, whatever branch the sample was given in. |
| Filters.OffsetStep | pypilot/autopilot.py:55-57 | For `d` in `[0, 1]` the filter turns by exactly `d` times the signed shortest turn to the sample. A wraparound never makes it jump. |
| Filters.ScaledTurnBounds | pypilot/autopilot.py:55-57 | A turn in `[-180, 180)` scaled by `d` in `[0, 1]` stays in `[-180, 180)` and within `180 * d` either way, so by `OffsetStep` one update turns the filter by at most `180 * d` degrees. |
| Filters.OffsetUpdateCongruentSample | pypilot/autopilot.py:55-57 | Samples a whole number of turns apart give the same new value. |
| Filters.HeadingOffset.constructor | pypilot/autopilot.py:52-53 | A new offset filter starts at 0. |
| Filters.HeadingOffset.Update | pypilot/autopilot.py:55-57 | The value becomes `OffsetUpdate(old value, offset, d)` and lies in `[-180, 180)`. |
| HeadingError.Sign | pypilot/autopilot.py:280-281 | The sign is -1 exactly in the wind modes and +1 otherwise. |
| HeadingError.ErrorOf | pypilot/autopilot.py:276-282 | The error is within ±60. Multiplied by the mode's sign, it is the shortest turn from command to heading, saturated at ±60. |
| HeadingError.WindErrorReversed | pypilot/autopilot.py:280-282 | In the wind modes the error is `-minmax(resolv(heading - command), 60)`, the negation of the compass/GPS error. |
| HeadingError.SwitchCommand | pypilot/autopilot.py:265-270 | The command set on a mode switch is congruent to `heading - sign * previous error`. |
| HeadingError.SwitchKeepsError | pypilot/autopilot.py:265-282 | With a previous error within ±60, the error recomputed against the switch command equals the previous error. |
| HeadingError.ClampedDt | pypilot/autopilot.py:285-286 | The integration step is at most 1 second and at most the time elapsed. It equals the time elapsed when that is at most 1. |
| HeadingError.IntegralStep | pypilot/autopilot.py:289-290 | The integral stays within ±1. It equals `integral + error/1500 * dt` unless that leaves the range, in which case it saturates. |
| HeadingError.IntegralStepNoTime | pypilot/autopilot.py:285-290 | With no time elapsed, an in-range integral is unchanged. |
| Calibration.RateInterval | pypilot/autopilot.py:234 | The turn-rate interval is at most 0.25 s and at most the time since the last cycle. |
| Calibration.CalibrationJump | pypilot/autopilot.py:239-245 | The jump is zero unless the read carries a calibration update and a last heading is known. When counted, the jump plus the turn `rate * dt` is congruent to `heading - last heading` and lies in `(-180, 180]`. |
| Calibration.AlignmentJump | pypilot/autopilot.py:248-251 | The jump is zero when the alignment is unchanged. It lies in `(-180, 180]` and is congruent to the change of alignment. |
| Calibration.CompensationKeepsError | pypilot/autopilot.py:253-259 | In compass mode, shifting the command by the heading's jump leaves the heading error unchanged. |
| Supervisor.RetrySlack | pypilot/autopilot.py:312-319 | For a non-negative period the slack is non-negative, and with at most 14 failures it is at most 14 tenths of the period. |
| Supervisor.ReadImu | pypilot/autopilot.py:311-319 | The IMU is read between 1 and 14 times and stops at the first success. Every earlier attempt failed, and a failed read means all 14 were tried. The slack is a tenth of the period per failure, so between 0 and 14 tenths of a non-negative period. |
| Supervisor.PauseAt | pypilot/autopilot.py:373-374 | A pause is taken exactly when the deadline `t0 + period + slack` lies strictly after the current time and less than one period after it. The pause then lies strictly in `(0, period)` and ends at that deadline. |
| Supervisor.SleepRemainder | pypilot/autopilot.py:372-376 | Every pause lies strictly in `(0, period)` and at most one is taken. None is taken exactly when the first computed pause is out of range. A pause taken is the one `PauseAt` computes at the start time, and after it the clock stands at `t0 + period + slack`. |
| Lifecycle.TermOrder | pypilot/autopilot.py:152-159 | At most one SIGTERM per entry, and none when no entry holds a process. |
| Lifecycle.TermOrderReversesLive | pypilot/autopilot.py:152-159 | The SIGTERMs go to exactly the entries that hold a process, one each, in reverse list order. |
| Autopilot.GpsOffsetBlend | pypilot/autopilot.py:211 | The GPS offset's blend factor lies in `[0, 1]` while `log(gps_speed + 1)` lies in `[0, 200]`, and is negative when that logarithm is. |
| Autopilot.WindBlend | pypilot/autopilot.py:219 | The wind blend factor lies in `[0, 1]` while `log(wind_speed/5 + 1.2)` lies in `[0, 20]`, and is negative when that logarithm is. |
| Autopilot.CompensatedCommand | pypilot/autopilot.py:253-259 | In compass mode with a non-zero change, the command moves by the change modulo whole turns and is stored in `[0, 360)`. Otherwise it is unchanged. |
| Autopilot.Autopilot.constructor | pypilot/autopilot.py:70-137 | Initial state: mode from the persistent store, preferred mode `compass`, no last mode. Errors, integral and offsets are 0, and the autopilot is disabled. No last heading is known. The clocks are set up and the children are recorded. |
| Autopilot.Autopilot.SetMode | pypilot/autopilot.py:42-46 | A user-set mode also becomes the preferred mode. |
| Autopilot.Autopilot.SetModeInternal | pypilot/autopilot.py:48-49 | Sets the mode and nothing else; the frame excludes the preferred mode. |
| Autopilot.Autopilot.AdjustMode | pypilot/autopilot.py:195-199 | Afterwards the mode is `bestMode(preferred mode)`, and the preferred mode is untouched. |
| Autopilot.Autopilot.SetHeadingCommand | pypilot/autopilot.py:65-67 | The command becomes `CommandValue(mode, value)`, which is congruent to the value. |
| Autopilot.Autopilot.FixCompassCalibrationChange | pypilot/autopilot.py:232-259 | `compass_change` is the calibration jump plus the alignment jump. The GPS offset drops by it and the wind and true-wind offsets rise by it. The command shifts by it (resolved into `[0, 360)`) only when it is non-zero and the mode is compass. Last time and last alignment are always refreshed; the last heading is refreshed only when the IMU read succeeded. |
| Autopilot.Autopilot.MeasureCalibrationJump | pypilot/autopilot.py:239-245 | Returns `CalibrationJump` of the read. A successful read refreshes the last heading, whether or not it is flagged as a calibration update. |
| Autopilot.Autopilot.MeasureAlignmentJump | pypilot/autopilot.py:247-251 | Returns `AlignmentJump` and records the new alignment. |
| Autopilot.Autopilot.ComputeOffsets | pypilot/autopilot.py:201-230 | With GPS present, the GPS speed average takes a 0.002 blend. The GPS offset updates only when the raw speed exceeds 1 knot. With wind present, the wind speed average (0.005), the wind direction and the wind offset update. The true-wind offset updates with blend 0.05 only when both are present. Anything whose source is absent is unchanged. |
| Autopilot.Autopilot.UpdateFromGps | pypilot/autopilot.py:203-211 | With GPS present, the GPS speed average takes a 0.002 blend, and the GPS offset is updated towards track minus compass only when the raw speed exceeds 1 knot. Without GPS both are unchanged. |
| Autopilot.Autopilot.UpdateFromWind | pypilot/autopilot.py:213-230 | With wind present, the wind speed average (0.005), the wind direction and the wind offset update. The true-wind offset updates with blend 0.05, from the true wind resolved near the offset, only when GPS is present too. Without wind all are unchanged. |
| Autopilot.Autopilot.ComputeHeadingError | pypilot/autopilot.py:261-290 | On a mode change the command becomes the switch command, and the error equals the previous error. The last mode becomes the mode. The error is `ErrorOf(mode, heading, command)`. The integral is `IntegralStep` with the clamped dt. |
| Autopilot.Autopilot.Sense | pypilot/autopilot.py:328-329 | `compass_change` and the command are those of `FixCompassCalibrationChange`. The speeds and wind direction are those of `ComputeOffsets`. Each offset is updated as in `ComputeOffsets`, starting from its old value shifted by `compass_change` (minus for GPS, plus for wind and true wind). Last time and last alignment are always refreshed; the last heading is refreshed only when the IMU read succeeded. |
| Autopilot.Autopilot.Steer | pypilot/autopilot.py:331-348 | The mode becomes the pilot's best mode and the heading the pilot's. The error follows `ComputeHeadingError`. On a mode change the error equals the previous error. `reset` holds exactly on a false-to-true change of `enabled`, and then the integral is 0. |
| Autopilot.Autopilot.Iteration | pypilot/autopilot.py:291-376 | One cycle. The IMU is read 1 to 14 times, stopping at the first success, and a failed read means 14 attempts; the slack is a tenth of the period per failure. `compass_change` is the calibration jump plus the alignment jump. The mode is the pilot's best mode and the heading the pilot's. The command is the switch command on a mode change and otherwise the compensated old command. The error is `ErrorOf` that command, and equals the previous error on a mode change. `enabled` is the cycle's value. `reset` holds exactly on its rising edge and zeroes the integral; otherwise the integral takes one clamped step. `pilot.process(reset)` runs exactly when the tack does not claim the cycle. `force_engaged` equals `enabled`. The watchdog is written exactly when present. At most one pause is taken, exactly when `PauseAt` gives one; it lies in `(0, period)` and ends the cycle at `t0 + period + slack`. |
| Autopilot.Autopilot.Cleanup | pypilot/autopilot.py:143-164 | The child list ends empty. The pids signalled are `TermOrder` of the old list, popped from the end. The signal is ignored from then on, and re-raising is asked for exactly when not called at exit. |
| Intellect.Stopwatch.constructor | pypilot/pilots/intellect.py:21-23 | Starts with total 0 and no start time. |
| Intellect.Stopwatch.Start | pypilot/pilots/intellect.py:25-26 | The start time becomes the clock reading. |
| Intellect.Stopwatch.Stop | pypilot/pilots/intellect.py:28-29 | Adds exactly `now - starttime` to the total. The start time is kept, so `time()` at the same reading grows by that span again. |
| Intellect.Stopwatch.Time | pypilot/pilots/intellect.py:31-34 | 0 before any start; after a start, `total + now - starttime`. |
| Intellect.Drop1 | pypilot/pilots/intellect.py:46 | `data[1:]` is empty on empty, and otherwise the first element followed by it gives back the data. |
| Intellect.PutAll | pypilot/pilots/intellect.py:44-47 | After a series of puts the last item put is the newest in the window. A window within a positive bound stays within it. |
| Intellect.PutValueShape | pypilot/pilots/intellect.py:44-47 | After a put the new item is last. A window that was not full keeps its items and grows by one. A full window of positive size keeps its size and loses its oldest item. A window within a positive bound stays within it. |
| Intellect.PutValueLast | pypilot/pilots/intellect.py:44-47 | Putting an item into a window holding the latest `samples` items of a stream leaves the latest `samples` items of the extended stream. |
| Intellect.PutAllKeepsLatest | pypilot/pilots/intellect.py:44-47 | Fed from empty, a window of positive size holds exactly the latest `samples` items, oldest first. |
| Intellect.History.constructor | pypilot/pilots/intellect.py:38-42 | Starts empty with the given number of samples. |
| Intellect.History.Put | pypilot/pilots/intellect.py:44-47 | A full window drops its oldest item before appending. The new item is last. When not full, the length grows by one and the earlier items are unchanged. `len(data) <= samples` is preserved for positive `samples`. |
| Intellect.History.Clear | pypilot/pilots/intellect.py:49-50 | The window becomes empty. |
| Intellect.History.IsFull | pypilot/pilots/intellect.py:52-53 | Full exactly when `len(data) == samples`. |
| Intellect.Selected | pypilot/pilots/intellect.py:57-67 | Nothing is selected when no name is wanted or the sample has no field. A single field contributes exactly its piece: nothing when unwanted, a list's elements, or a number itself. |
| Intellect.Select | pypilot/pilots/intellect.py:57-67 | The loop returns `Selected`: the pieces of the fields, in key order. |
| Intellect.SelectedAppend | pypilot/pilots/intellect.py:57-67 | The selection of concatenated records is the concatenation of their selections. |
| Intellect.SelectedFromWanted | pypilot/pilots/intellect.py:57-67 | Every selected value is a wanted field's scalar value or an element of a wanted field's list. |
| Intellect.SelectedStep | pypilot/pilots/intellect.py:59-66 | Selecting one more field appends that field's piece at the end. |
| Intellect.SelectedSplit | pypilot/pilots/intellect.py:57-67 | Field `i`'s piece sits between the selection of the earlier fields and that of the later ones, so every piece of a wanted field is selected, in key order. |
| Intellect.Flatten | pypilot/pilots/intellect.py:69-75 | A number flattens to one number. A list of numbers flattens to one number per element. |
| Intellect.FlattenAll | pypilot/pilots/intellect.py:72-75 | No items flatten to nothing. One item flattens as that item does. A list of numbers gives one number per item. |
| Intellect.FlattenAllAppend | pypilot/pilots/intellect.py:69-75 | Flattening a list is the in-order concatenation of the flattenings of its parts. |
| Intellect.FlattenScalars | pypilot/pilots/intellect.py:69-75 | A list of numbers flattens to those numbers; each number flattens to a one-element list. |
| Intellect.FlattenIdempotent | pypilot/pilots/intellect.py:69-75 | Flattening an already flattened vector gives it back. |
| Intellect.Inputs | pypilot/pilots/intellect.py:76 | An empty history gives no inputs. A single sample gives the flattening of its selection. |
| Intellect.InputsAppend | pypilot/pilots/intellect.py:76 | A further history entry appends the flattening of its selection to the input vector. |
| Intellect.InputsLength | pypilot/pilots/intellect.py:76 | The input vector's length is the sum of the per-entry flattened selection sizes. |

## Left out

- Transport: the server/client registry, publish/subscribe, `register`, `server.poll`, `client.receive`, `sensors.poll` and `servo.poll`. These are message transport and collaborators. Their results reach the model as the inputs of a `Cycle`.
- Diagnostics: the slow-stage prints, `timings`, `timestamp` and the `runtime` counter. They are diagnostics with no effect on control.
- Collaborators: the IMU, sensors, servo, tack and pilot internals. `boatimu.read` becomes one given outcome per attempt. `pilot.best_mode` is a function parameter. `pilot.compute_heading` is the heading it publishes. `tack.process()` is a boolean. `pilot.process(reset)` is reported as the argument it would be called with. Pilot selection from the `pilots` table is not modelled.
- Numerics: `compute_true_wind` (trigonometry) and `math.log` in the blend factors are floating-point numerics and enter as function parameters. The model uses exact reals, so rounding is not captured.
- OS side of the watchdog: opening, the per-cycle write and closing the watchdog device. The model only reports whether the cycle writes it.
- OS side of `cleanup`: `os.kill`, `os.waitpid` on SIGCHLD, `sys.stdout.flush`, the installation of the signal handlers, the SIGPIPE warning handler, `atexit` registration, `chrt`, and `__del__`. This is operating-system I/O. The model keeps which pids are signalled and in which order, which signals become ignored, and whether `KeyboardInterrupt` is raised.
- Re-entrant `cleanup`: `Cleanup` is one atomic step. In the source a further signal, such as the SIGCHLD of a killed child, can interrupt the handler and run it again on the same, partly popped, child list. The model does not capture that interleaving.
- Clock: `time.monotonic` and `time.sleep` are replaced by explicit times. A sleep advances the clock by exactly its duration, and the cycle's own work before the sleep is the given `busy` time.
- Autopilot.Autopilot.Iteration: requires a positive IMU rate. The source divides by it.
- Autopilot.Autopilot.Iteration: does not restate the speed averages, the wind direction or the three offsets after the cycle. `Sense` states them, and `Iteration` runs `Sense` on the cycle's IMU read with nothing before or after it that touches them. Restating them in `Iteration` as well makes its proof too large for the verifier's resource limit.
- Autopilot.Autopilot.Sense: the split of `iteration` into `Sense` and `Steer` only names consecutive stages of the source; it adds no behaviour.
- `enabled`: the property is written by clients through the server. Each `Cycle` carries the value the server delivered before the cycle, and `Iteration` takes it as `enabled`.
- Autopilot.Autopilot.SetMode: the source updates the preferred mode only once the property is attached to the autopilot (`self.ap`), which happens during construction. The model treats it as always attached.
- Truthiness of 0: Python treats `False` and 0 alike, so `last_heading` and the stopwatch's `starttime` are reals where 0 stands for "unset". Like the source, a last heading of exactly 0 degrees counts as unset.
- `HeadingOffset` precondition: the blend factors are not required to lie in `[0, 1]`. The convexity and step bounds (`Filters.Blend`, `Filters.OffsetStep`, `Filters.ScaledTurnBounds`) are stated under that hypothesis, since the log-based factors depend on the speeds.
- `History` constructor: `History.__init__` reads `self.conf` and `self.state` before they are assigned (pypilot/pilots/intellect.py:39-40), so `samples` is a constructor parameter here.
- Intellect.History.Put: with `samples` 0 a window is never bounded. An empty window counts as full, so every put appends after dropping nothing. The bound is stated for positive `samples` only.
- Values in `flatten`: `float(value)` conversion of booleans and integers. Scalars are reals from the start.
- Rest of intellect.py: `KerasModel`, `model_filename`, `norm_sensor` and the training, recording and I/O code. This is TensorFlow, files and the network, and part of it does not parse.
