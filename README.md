# Sensor-experiment engine of the M5 physics lab firmware, in Dafny

This project models the part of the firmware that turns accelerometer
frames into physics results, and proves properties of that model. The
firmware runs on an M5 device, which serves a small web interface. It has
four parts:

- **`Filters`** (`filters.dfy`) is the one-dimensional Kalman filter that
  smooths each accelerometer axis.
  - `KalmanFilter` is a class whose `Update` overwrites the gain, the
    estimate and the covariance in place.
  - `Update` is proved against the pure recurrence `Step`; `SetTuning` and
    `Reset` state the new fields outright.
  - Lemmas show the gain lies in (0, 1) and the covariance stays positive.
    They also show the estimate moves toward the measurement and never
    overshoots, even over repeated updates.
- **`Sound`** (`sound.dfy`) is the non-blocking cue sequencer.
  - `MapEvent` holds the step table of each cue.
  - The class `Player` has the cursor `seq` and the single tone `current` as
    fields. Its methods are proved against the functions `Processed`,
    `Updated`, `Played` and `Triggered`.
  - Lemmas over a run of `update` calls show that the cursor stays in bounds.
    They show steps start in order, and only when no tone is sounding and the
    gap has elapsed.
  - They also show that triggers pre-empt rather than queue.
- **`Experiments`** (`experiments.dfy`) is the session globals of the four
  experiments, held as the class `Lab`, and their controllers.
  - The four experiments are projectile, pendulum, free fall and friction.
    Each controller method consumes one filtered frame and the current time.
  - It updates the globals in place and returns the sound cues it triggers,
    in order.
  - Each controller is proved equal to a pure one-tick function such as
    `ProjectileStep`. That function's contract states the experiment's rules:
    forward-only state changes, thresholds, the landing debounce,
    half-cycle counting, the refractory gate and degrading to zero.
  - `ExperimentProofs` (`experiment_lemmas.dfy`) proves the rules that span
    many ticks.
- **`Firmware`** (`firmware.dfy`) models what the web handlers and
  calibration in `src/main.cpp` do to the session.
  - Starting and resetting an experiment.
  - The result snapshot: which fields are reported for each type and state.
  - The closed-form simulators, with round-trip lemmas back to the
    experiments' formulas.
  - The 200-sample calibration loop.

## Design

- **Numbers.** Single-precision floats are modelled as `real`.
- **Time.** Clock readings (`millis`, `micros`) are `nat` parameters. Nothing
  requires successive readings to increase: an elapsed time is an integer
  difference, which goes negative where the source's unsigned subtraction
  would wrap.
- **Math functions.** `sqrt`, `sin`, `cos`, `atan2` and `tan` are function
  parameters.
  - The simulators' round-trip lemmas assume `sqrt` is the square root
    (`IsSquareRoot`).
  - The free-fall thresholds compare the squared magnitude with the squared
    threshold, which is exact over the reals and needs no square root.
- **Sound cues.** A controller's calls of `Sound::trigger` become the
  `seq<Sound.Event>` it returns.
  - `Sound.LastTriggerWins` shows that issuing them all in one tick leaves only
    the last cue installed.
- **Function-static variables.** These are `last_update_us` of the projectile
  controller and `last_smoothed_g_y`, `was_increasing` and `last_peak_time` of
  the pendulum controller. They are fields of the per-experiment records.
- **Start does not clear.** The start handler does not clear working
  variables: `Firmware.Started` keeps every working variable
  (`KeepsWorkingVars`). Every experiment and simulator page calls
  `resetInternalState` before it is served (src/main.cpp:570-626).

## Model

| member | source | states |
|---|---|---|
| `Filters.KalmanFilter.constructor` | src/filters.hpp:13-14 | Q and R as given, P = 0.1, X = initial, K = 0 |
| `Filters.KalmanFilter.SetTuning` | src/filters.hpp:16 | only Q and R change; P, X and K are untouched |
| `Filters.KalmanFilter.Reset` | src/filters.hpp:18 | X = initial and P = 0.1; Q, R and K are untouched |
| `Filters.KalmanFilter.Value` | src/filters.hpp:17 | the current estimate X |
| `Filters.KalmanFilter.Update` | src/filters.hpp:20-28 | the fields become `Step` of the old ones; the returned estimate is what `value()` then reads |
| `Filters.Step` | src/filters.hpp:20-28 | gain·(P+R) = P; for P, R > 0 the gain is in (0,1) and the new estimate lies strictly between the old one and the measurement, or equals both; a measurement equal to the estimate leaves it unchanged; P > 0, R > 0, Q ≥ 0 is preserved |
| `Filters.Iterate` | src/filters.hpp:20-28 | repeated updates keep P > 0, R > 0, Q ≥ 0 and the tuning |
| `Filters.IterateLast` | src/filters.hpp:20-28 | the (n+1)-th update is one more step after the n-th |
| `Filters.ConstantInputApproaches` | src/filters.hpp:22-26 | under a constant measurement each update moves the estimate toward it without overshooting (iterate n+1 lies between iterate n and the measurement, or equals both), and every iterate lies between the start and the measurement |
| `Sound.MapEvent` | src/sound.cpp:93-111 | every cue has 1 to 3 steps, each of positive frequency and duration, the last with no gap |
| `Sound.Stopped` | src/sound.cpp:69-74 | the tone stays active exactly while now < endMs |
| `Sound.Processed` | src/sound.cpp:76-90 | nothing changes while the cursor is inactive, a tone sounds or the gap has not elapsed; an eligible call starts step i (endMs = now+dur, nextStart = endMs+gap, index = i+1); an eligible call past the last step retires the cursor and changes nothing else, and the cursor retires only then; index ≤ count is kept |
| `Sound.Updated` | src/sound.cpp:120-123 | a sounding tone blocks the cursor; a step can start on the same tick the previous tone ends |
| `Sound.Played` | src/sound.cpp:125-132 | non-positive frequency or duration is a no-op; otherwise the single tone ends at now + duration and the cursor is untouched |
| `Sound.Installed` | src/sound.cpp:61-67 | an empty table changes nothing; otherwise a fresh cursor (index 0, nextStart 0, active) replaces the old one and the tone is untouched |
| `Sound.Triggered` | src/sound.cpp:134-138 | the event's table is installed from step 0, discarding the previous cursor; the sounding tone is kept |
| `Sound.LastTriggerWins` | src/sound.cpp:134-138 | after several triggers without an update only the last one's table is installed |
| `Sound.RunKeepsValid` | src/sound.cpp:81 | over any run of updates the cursor index never exceeds the step count |
| `Sound.FirstStart` | src/sound.cpp:80-89 | the first step started in a run is the cursor's current one, no earlier than its scheduled start |
| `Sound.StartsAreSpaced` | src/sound.cpp:76-90 | steps start in index order, each no earlier than the previous start plus its duration and gap |
| `Sound.Player.constructor` | src/sound.cpp:4-5 | no cursor and no tone at power-on |
| `Sound.Player.StartSequence` | src/sound.cpp:61-67 | the cursor is the given table at index 0, nextStart 0, active; the tone is untouched |
| `Sound.Player.StopTone` | src/sound.cpp:69-74 | the state becomes `Stopped` of the old tone; the cursor is untouched |
| `Sound.Player.ProcessSequence` | src/sound.cpp:76-90 | the state becomes `Processed` of the old state |
| `Sound.Player.Update` | src/sound.cpp:120-123 | the state becomes `Updated` of the old state |
| `Sound.Player.PlayTone` | src/sound.cpp:125-132 | the state becomes `Played` of the old state |
| `Sound.Player.Trigger` | src/sound.cpp:134-138 | the state becomes `Triggered` of the old state |
| `Experiments.Cleared` | src/experiments.cpp:66-72 | working and result variables are zero; state, type, calibration offsets, user parameters, the zero angle and the timestamp and peak-detector fields (re-stamped before use) are kept; an already-cleared session is unchanged |
| `Experiments.FlightG` | src/experiments.cpp:135 | 0 without samples, else mean \|net g\| × 9.80665 |
| `Experiments.ProjectileStep` | src/experiments.cpp:77-140 | no-op when idle or done; only forward moves; the throw threshold starts the run, stamping the update time and issuing the throw cue, and otherwise nothing changes; a running tick stamps the update time and applies `Boost` before free fall and `Flight` after it, so velocity, heights, peak force and the flight sums are exactly theirs and g at landing is the mean \|net g\| × 9.80665 over the free-fall samples; free fall begins exactly when \|net g\| < 1.2, capturing V0 as the velocity and its start time as now, after which V0 and the start time never change; the landing counter increments on a quiet sample during free fall and otherwise resets; done exactly at 20 with T measured from the free-fall start and g fixed; the cues are the free-fall cue on entry, then the done cue; a running tick that does not land keeps T and g |
| `Experiments.Boost` | src/experiments.cpp:105-117 | velocity += net·g·dt; peak force = max(old, m·\|net·g\|); free fall begins exactly when \|net g\| < 1.2, setting V0 to the velocity, the start time to now and height and peak height to 0; otherwise V0, start time and heights are kept; the landing count and flight sums are untouched |
| `Experiments.Flight` | src/experiments.cpp:118-124 | velocity += net·g·dt, then height += velocity·dt; the peak height is the max of the old one and the new height; one more flight sample accumulated; V0, start time and peak force are kept |
| `Experiments.Landed` | src/experiments.cpp:133-135 | T·10⁶ = now − free-fall start, g = `FlightG` of the flight sums, and nothing else changes |
| `Experiments.FrequencyOf` | src/experiments.cpp:181 | 0 for a period ≤ 0, else frequency × period = 1 |
| `Experiments.PendulumG` | src/experiments.cpp:181 | 0 for a period ≤ 0, else g·T² = 4π²L |
| `Experiments.Period` | src/experiments.cpp:180 | period·target = total time (0 for a target of 0) |
| `Experiments.PendulumStep` | src/experiments.cpp:145-188 | no-op when idle or done; waiting→running on a swing beyond the threshold, zeroing the smoother, slope and peak time and issuing the measure-start cue, and otherwise nothing changes; a running tick stores the smoothed value 0.4·current + 0.6·last and its slope; a peak cue iff `PeakFires`, which also stamps the peak time; the count grows by one on each change of side, and the first change records the start time; done exactly when the count reaches 2·target, with period = elapsed/target and consistent frequency and g; a running tick that does not finish keeps period, frequency and g |
| `Experiments.Tracked` | src/experiments.cpp:165-174 | the smoothed value becomes 0.4·current + 0.6·last and the slope whether it rose; the peak time becomes now exactly on a slope reversal beyond the threshold more than 250 ms after the last peak, and is kept otherwise; the side is updated; the count, start time, results and parameters are kept |
| `Experiments.Finished` | src/experiments.cpp:179-181 | period = elapsed/target; frequency and g agree with it and are 0 for a period ≤ 0; nothing else changes |
| `Experiments.FreefallG` | src/experiments.cpp:209 | g·t² = 2d |
| `Experiments.FreefallStep` | src/experiments.cpp:193-215 | waiting→running iff \|a\| < 0.3, recording the start and issuing the start cue; running→done iff \|a\| > 3.5, with the impact cue; time and g are 0 when elapsed ≤ 0.05 s, else g·t² = 2d; a tick that changes no state changes nothing and issues no cue |
| `Experiments.FrictionStep` | src/experiments.cpp:220-233 | the angle is updated while waiting or running; done only from running when \|ax − g0x\| > 0.5, with the critical angle the current one, μ = tan of it, and the slip cue then the done cue |
| `Experiments.Lab.constructor` | src/experiments.cpp:14-61 | the globals' initial values |
| `Experiments.Lab.ResetExperimentData` | src/experiments.cpp:66-72 | the globals become `Cleared` of the old ones |
| `Experiments.Lab.ProjectileController` | src/experiments.cpp:77-140 | state, projectile variables and cues equal `ProjectileStep`; the other experiments' globals are untouched |
| `Experiments.Lab.Launch` | src/experiments.cpp:105-117 | the projectile variables become `Boost` of the old ones |
| `Experiments.Lab.Fly` | src/experiments.cpp:118-124 | the projectile variables become `Flight` of the old ones |
| `Experiments.Lab.PendulumController` | src/experiments.cpp:145-188 | state, pendulum variables and cues equal `PendulumStep`; the other globals are untouched |
| `Experiments.Lab.TrackPeak` | src/experiments.cpp:165-174 | the pendulum variables become `Tracked`; it reports a peak exactly when the peak time was restamped past the refractory window |
| `Experiments.Lab.FinishPendulum` | src/experiments.cpp:179-181 | the pendulum variables become `Finished` |
| `Experiments.Lab.FreefallController` | src/experiments.cpp:193-215 | state, free-fall variables and cues equal `FreefallStep`; the other globals are untouched |
| `Experiments.Lab.FrictionController` | src/experiments.cpp:220-233 | state, friction variables and cues equal `FrictionStep`; the other globals are untouched |
| `ExperimentProofs.RunProjectile` | src/experiments.cpp:79-98 | over any run of ticks the state never moves backwards, never returns to idle, and an idle or done experiment ignores every sample |
| `ExperimentProofs.LandingDebounce` | src/experiments.cpp:126-135 | during flight, quiet samples are counted one by one and the run is done exactly on the 20th |
| `ExperimentProofs.NoisySampleRestartsCount` | src/experiments.cpp:126-130 | one sample outside the landing band during flight resets the counter to 0 and keeps running |
| `ExperimentProofs.RunPendulum` | src/experiments.cpp:146-162 | over any run the state never moves backwards; the offset, the target count and the string length are kept |
| `ExperimentProofs.SideChanges` | src/experiments.cpp:174-175 | a run has no more half-cycles than samples |
| `ExperimentProofs.HalfCycleCounting` | src/experiments.cpp:174-178 | below the target the count grows by exactly the number of side changes and the run keeps going |
| `ExperimentProofs.PeakTimes` | src/experiments.cpp:165-171 | consecutive peak cues are more than 250 ms apart, and the first is more than 250 ms after the last peak, or after clock time 0 when measuring has just started (the peak time is reset to 0 then, so a first cue can come sooner than 250 ms after measuring starts) |
| `ExperimentProofs.PeakTimesCount` | src/experiments.cpp:167-170 | the peak times are exactly the peak cues issued in the run |
| `Firmware.Started` | src/main.cpp:637-666 | projectile, pendulum and free fall start waiting with their parameters set; friction starts running; an unknown type changes nothing; no working variable is cleared |
| `Firmware.StartByReportedName` | src/main.cpp:637-682 | starting with the type name the snapshot reports selects that experiment, waiting unless it is friction |
| `Firmware.HandleStart` | src/main.cpp:637-666 | the globals and cues equal `Started` |
| `Firmware.ResetInternal` | src/main.cpp:757-761 | type none, state idle, working variables cleared, offsets and parameters kept |
| `Firmware.ResetIdempotent` | src/main.cpp:757-761 | resetting twice equals resetting once |
| `Firmware.ResetSilencesControllers` | src/main.cpp:757-761 | after a reset every controller ignores its input |
| `Firmware.ResetInternalState` | src/main.cpp:757-761 | the globals become `ResetInternal` of the old ones |
| `Firmware.StatusName` | src/main.cpp:682 | "done" exactly when done, "running" exactly when running, "waiting" for idle and waiting |
| `Firmware.StatusNames` | src/main.cpp:682 | two states report the same status iff they are equal or both precede running ("waiting" covers idle) |
| `Firmware.TypeName` | src/main.cpp:675-680 | "none" exactly for no experiment; every name is non-empty |
| `Firmware.TypeNamesDistinct` | src/main.cpp:675-680 | distinct types report distinct names |
| `Firmware.TrajectoryOf` | src/main.cpp:685-690 | T·g = 2·v0y and range = v0x·T |
| `Firmware.PeakAtHalfTime` | src/main.cpp:688-689 | the reported peak height equals g·T²/8 |
| `Firmware.Results` | src/main.cpp:673-707 | the type name and status; projectile and free-fall results only when done; the pendulum count only while running and its results only when done; the friction angle while running, and angle and μ when done |
| `Firmware.FinishedPendulumReportConsistent` | src/main.cpp:694-697 | a finished pendulum reports a consistent period, frequency and g, all 0 when the period is not positive |
| `Firmware.SimProjectile` | src/main.cpp:709-727 | the same trajectory, unvalidated, with T·g = 2·v0y, 8h = g·T² and range = v0x·T |
| `Firmware.SimPendulum` | src/main.cpp:729-739 | rejected iff length ≤ 0 or g ≤ 0 |
| `Firmware.SimPendulumRoundTrip` | src/main.cpp:734 | the pendulum experiment's formula applied to the simulated period gives back g |
| `Firmware.SimFreefall` | src/main.cpp:741-750 | rejected iff distance ≤ 0 |
| `Firmware.SimFreefallRoundTrip` | src/main.cpp:747 | the simulated time is positive, and the free-fall experiment's formula applied to it gives back 9.80665 |
| `Firmware.SumWithinBounds` | src/main.cpp:789-795 | the accumulated sum of n readings in [lo, hi] lies in [n·lo, n·hi] |
| `Firmware.Calibrated` | src/main.cpp:797-799 | only `proj_g0`, `pend_g0_y` and `fric_g0_x` change, to the Z, Y and X sums over 200; `fric_g0_z` is never set |
| `Firmware.OffsetsWithinReadings` | src/main.cpp:783-801 | each offset lies within the range of its axis's readings |
| `Firmware.CalibrateImu` | src/main.cpp:783-801 | the loop's sums give the globals `Calibrated` of the old ones |

## Left out

- Display output, HTTP transport, JSON text and decimal formatting are left out. WiFi provisioning, the DNS portal, EEPROM, low power mode and the `loop` orchestration (button hold, WiFi gating of the controllers) are left out too. They are I/O and plumbing around the modelled operations.
- The controllers' raw `getAccelData` read and the `axFilter`/`ayFilter`/`azFilter` updates are left to the caller. The model takes the filtered frame. The friction controller does not update `ayFilter`, and the model does not track that.
- `calibrateIMU`'s IMU reads and `delay(5)` are the `frames` parameter.
- The legacy `_toneState`/`playSound` tracker in `src/main.cpp` and `Sound::begin` are left out. The first duplicates the sequencer's tone and the second does nothing.
- `lastActivityTime` and the sleep timeout set by `resetInternalState` are left out, because they only drive low power mode.
- The `default` branch of `mapEvent` is left out. Every event has a table, so it cannot be reached. The empty-table guard of `trigger` is modelled in `Sound.Installed`.
- Floating-point rounding, infinities and NaN are left out. Real arithmetic is used throughout.
- `Experiments.Period`: a target of 0 oscillations divides by zero in the source, giving an infinite or NaN period. The model reports 0. The reported frequency and g are 0 in both.
- `Filters.KalmanFilter.Update` requires P + R ≠ 0, the case in which the source divides by zero. No convergence rate of P is proved.
- Clock wrap-around of `millis()`/`micros()` is left out. Readings are unbounded `nat`s with no ordering between calls, and the several clock reads of one controller call are treated as one instant.
- The two `millis()` reads of one `Sound::update` call, in `stopTone` and in `processSequence` (src/sound.cpp:70, 78), are modelled as one `now`.
- The width of C++ `int` is left out: the counters and `pend_oscillations_to_measure` are unbounded integers, so the overflow of `pend_oscillations_to_measure * 2` (src/experiments.cpp:178) for requests above 2^30 is not modelled.
- Steps' duration and gap are `nat` because every table entry is non-negative. A table's `count` is the length of its sequence.
- `sqrt`, `sin`, `cos`, `atan2` and `tan` are uninterpreted parameters. `Firmware.SimPendulumRoundTrip` and `Firmware.SimFreefallRoundTrip` assume only that `sqrt` is the square root on non-negative reals.
