# Hackflight flight-control core in Dafny

This project models the two pieces of integer logic at the centre of the
Hackflight firmware. Each runs once per tick.

- **The PID stabiliser** (`Stabilize` in firmware/stabilize.cpp). Per axis
  it computes a rate error and accumulates it into a rate integral
  (`errorGyroI`, clamped to ±16000). That integral is zeroed when the gyro
  rate is large, and on yaw also when the yaw command is large. Roll and
  pitch keep an angle integral (`errorAngleI`, clamped to ±10000). They
  blend the angle-holding (ACC) terms with the rate (GYRO) terms by the
  larger roll/pitch deflection `prop`. Every axis keeps a three-sample
  derivative history. The yaw output is clamped around the yaw command.
- **The arming and calibration state machine** (`Hackflight::initialize`
  and `Hackflight::update` in firmware/hackflight.cpp). It covers arming,
  disarming, gyro and accelerometer calibration, the integral reset while
  the throttle is down, the small-angle check, and the round-robin order of
  the board's extra tasks.

The model is functional. The stabiliser and the flight state are immutable
records. Each tick is a pure function from the old record and the tick's
inputs to the new record. `Hackflight.Loop` is one pass of
`Hackflight::update`. It composes the RC-tick or non-RC-tick branch with the
IMU tick and the stabiliser update. `Hackflight.Run` iterates it over a
trace of inputs.

Modules:

- `FixedPoint` (fixed_point.dfy) gives C++ meaning to the integer
  operators. `CDiv` is C++ `/`, which truncates toward zero; Dafny's `/` is
  Euclidean. `Asr` is `>>` on a signed value, which is an arithmetic shift
  (floor division by a power of two). `Constrain` is the firmware's
  `constrain` macro.
- `Stabilize` (stabilize.dfy) models firmware/stabilize.cpp.
- `StabilizeRange` (stabilize_range.dfy) justifies using unbounded
  integers. Every intermediate value of `update` fits in `int32_t` when the
  inputs are in the firmware's ranges, so no signed overflow happens.
- `Hackflight` (hackflight.dfy) models firmware/hackflight.cpp and composes
  it with the stabiliser.

## How the model reads the code

- **The `constrain` macro.** The macro at firmware/stabilize.cpp:45 has no
  outer parentheses. At lines 67-70 it is followed by `- angle[axis]`, and
  that subtraction binds only to the macro's second branch. So when
  `2 * rcCommand[axis] < -CONFIG_MAX_ANGLE_INCLINATION`, the angle error is
  exactly `-CONFIG_MAX_ANGLE_INCLINATION` and the measured angle is
  ignored. `Stabilize.ErrorAngle` models the expanded expression. Its
  contract states exactly when this differs from "clamped command minus
  angle": whenever the command is below the low bound and the angle is
  non-zero. The other uses of the macro (lines 56, 74, 95-96) stand alone
  and act as ordinary clamps.
- **Gains.** The tuning constants come from a configuration header that is
  not part of this model. They are the fields of `Stabilize.Config`.
  `init` copies them into `rate_p`, `rate_i` and `rate_d`, with
  `rate_d[yaw] = 0`. `update` needs every `rate_p` to be non-zero, because
  it divides by it. The firmware's axis indices are taken as roll = 0,
  pitch = 1, yaw = 2, for both `AXIS_*` and `DEMAND_*`.
- **Integer widths.** The model computes with unbounded integers.
  `StabilizeRange.AxisStepFitsInt32` shows that every intermediate fits in
  `int32_t` under these conditions:
  - roll, pitch and yaw commands are in [-500, 500];
  - gyro rates and angles are `int16_t`;
  - gains are `uint8_t`-sized, with `rate_p >= 1`;
  - the maximum inclination is at most 1000.

  The types of the `Stabilize` members and of the configuration constants
  are declared in headers that are not part of this model. The claim that
  the firmware computes what the model computes also rests on these
  assumptions about those headers:
  - `delta1` and `delta2` are wide enough to hold a difference of two
    `int16_t` rates (up to 65535 in magnitude). The store at
    firmware/stabilize.cpp:88-89 wraps if they are `int16_t`.
  - `errorGyroI`, `errorAngleI` and `lastGyro` hold their values without
    narrowing (±16000, ±10000 and an `int16_t` rate).
  - `CONFIG_MAX_ANGLE_INCLINATION` promotes to a signed `int`, so the
    comparison `2 * rcCommand > + CONFIG_MAX_ANGLE_INCLINATION` at line 69
    is signed. If the constant were unsigned, a negative command would take
    the high branch there and `Stabilize.ErrorAngle` would not match.
  - `rate_p`, `rate_i`, `rate_d`, `CONFIG_LEVEL_P` and `CONFIG_LEVEL_I`
    promote to `int`, so the products are signed and the shifts `>> 6` and
    `>> 12` at lines 59 and 75 are arithmetic shifts of a signed value.
  - `axisPID` holds an `int32_t` output without narrowing. The store at
    line 91 would wrap if it were `int16_t`: with in-range inputs the
    derivative term alone can reach about 1.5 million in magnitude.
- **Stick gestures.** The firmware adds per-channel codes (`THR_LO + YAW_HI
  + ...`) into one number. The codes are defined in a header that is not
  part of this model. The model treats distinct gestures as distinct
  values: a gesture is a record of four three-valued positions, and two
  gestures match only when all four positions agree.
- **Static locals.** `accCalibrated`, `calibratingA`, `on` and `taskOrder`
  are function-static locals that start at zero or false. In the model they
  are fields of `FlightState`, with those initial values set by
  `Initialize`.
- **Behaviour of the code worth knowing:**
  - Ground idle. The throttle-down integral reset at
    firmware/hackflight.cpp:112-113 happens on the RC branch of a pass. If
    the IMU task is also due in that pass, `stab.update` runs afterwards
    (line 220). The integrals then end the pass holding that tick's
    single-sample errors, not zero (`Hackflight.GroundIdleThenUpdate`). They
    are zero at the end of the pass only when no IMU update follows
    (`Hackflight.Loop`).
  - Accelerometer calibration. On every due check of the accel-calibration
    task (firmware/hackflight.cpp:202-216), `accCalibrated` is set to
    `haveSmallAngle`. This does not depend on whether the `calibratingA`
    countdown has finished.
  - The blend proportion. `prop` at firmware/stabilize.cpp:77-78 is not
    clamped. It is the larger of `|roll|` and `|pitch|`, which the comment
    there puts in [0, 500]. The blend at lines 80-81 stays between its ACC
    and GYRO terms only while `prop` is in that range.

## Model

| member | source | states |
|---|---|---|
| FixedPoint.CDiv | firmware/stabilize.cpp:51 | C++ integer division: the remainder is smaller than the divisor in magnitude and never has the opposite sign of the dividend (truncation toward zero) |
| FixedPoint.Asr | firmware/stabilize.cpp:59 | `>> k` on a signed value is floor division by 2^k: `r * 2^k <= x < (r + 1) * 2^k` |
| FixedPoint.Constrain | firmware/stabilize.cpp:45 | the macro used as a whole expression is a clamp: within `[lo, hi]` when `lo <= hi`, unchanged inside the range, `lo` below it, `hi` above it |
| FixedPoint.CDivOfMultiple | firmware/stabilize.cpp:80-81 | dividing an exact multiple `x * d` by a positive `d` gives `x` back, which is why the blend's end points are exact |
| FixedPoint.CDivBetween | firmware/stabilize.cpp:80-81 | a truncated quotient of a value between `lo * d` and `hi * d` lies between `lo` and `hi` |
| Stabilize.Init | firmware/stabilize.cpp:22-43 | roll and pitch share the pitch/roll gains; yaw has its own P and I and a zero D gain; the derivative history and both integrals start at zero |
| Stabilize.ResetIntegral | firmware/stabilize.cpp:99-106 | zeroes the three rate integrals and both angle integrals; leaves the gains, `lastGyro`, `delta1`, `delta2` and the output unchanged |
| Stabilize.GyroIntegral | firmware/stabilize.cpp:56-58 | the new rate integral is within ±16000; it is 0 when the gyro rate exceeds 640 in magnitude, or on yaw when the yaw command exceeds 100; otherwise it is the old integral plus the error, saturated at ±16000 |
| Stabilize.ErrorAngle | firmware/stabilize.cpp:67-70 | the macro expansion: `-maxIncl` when `2*rc < -maxIncl`, whatever the angle; otherwise the clamped command minus the angle; and it equals "clamped command minus angle" exactly when the command is not below the low bound or the angle is zero |
| Stabilize.Prop | firmware/stabilize.cpp:77-78 | the blend proportion is the larger of `abs(roll)` and `abs(pitch)` |
| Stabilize.Blend | firmware/stabilize.cpp:80-81 | at `prop == 0` the result is the ACC term, at `prop == 500` the GYRO term, and for `prop` in [0, 500] it lies between the two |
| Stabilize.LevelingOf | firmware/stabilize.cpp:64-78 | roll and pitch get ACC terms; the angle integral stays within ±10000; the proportion is zero exactly when both roll and pitch commands are zero |
| Stabilize.AxisStep | firmware/stabilize.cpp:49-91 | per axis: rate integral within ±16000 and zeroed by the reset rule; an angle integral within ±10000 on roll and pitch only; yaw P and I come from the rate controller alone and yaw D is 0 when `rate_d[yaw] == 0`; centred sticks give pure ACC P and I, full deflection gives pure GYRO P and I, and in between the blend lies between them |
| Stabilize.Update | firmware/stabilize.cpp:47-97 | after `update`, every rate integral is within ±16000 and every angle integral within ±10000, whatever the prior state; an axis with gyro rate over 640 and yaw under a yaw command over 100 end with a zero rate integral; the yaw output lies in `[-100 - abs(yaw), 100 + abs(yaw)]`; the history shifts (`lastGyro' = gyro`, `delta1' = gyro - lastGyro`, `delta2' = delta1`); the gains are unchanged |
| Stabilize.ResetForgetsHistory | firmware/stabilize.cpp:56-106 | after `resetIntegral`, the next `update` leaves integrals that depend on that tick's inputs alone: the single-sample rate error and angle error, clamped or zeroed by the reset rule |
| Stabilize.DerivativeSpansThreeTicks | firmware/stabilize.cpp:85-90 | after three updates, the next `deltaSum` is the gyro rate now minus the gyro rate three updates back, whatever the history was before |
| Stabilize.InitIsAtRest | firmware/stabilize.cpp:22-97 | `init` followed by `update` with zero command, rate and angle gives zero output on every axis and leaves the state as `init` left it |
| Stabilize.AxisAtRest | firmware/stabilize.cpp:49-91 | with zero memory and zero inputs, one axis's integrals, delta and output are all zero |
| StabilizeRange.InitMemoryInRange | firmware/stabilize.cpp:22-43 | the state `init` leaves is within the ranges the no-overflow argument assumes |
| StabilizeRange.UpdateKeepsMemoryInRange | firmware/stabilize.cpp:56-89 | `update` keeps the integrals, `lastGyro` (an `int16_t`) and `delta1`/`delta2` (at most 65535 in magnitude) within range |
| StabilizeRange.RateErrorFits | firmware/stabilize.cpp:51-52 | `rcCommand * 10 * 8` and the rate error fit comfortably in `int32_t` |
| StabilizeRange.GyroITermFits | firmware/stabilize.cpp:59 | `errorGyroI / 125 * rate_i` and its shift are at most 128 * 255 in magnitude |
| StabilizeRange.DampingFits | firmware/stabilize.cpp:84 | `gyroADC * rate_p` and its two divisions are at most 32768 * 255 in magnitude |
| StabilizeRange.DerivativeFits | firmware/stabilize.cpp:87-90 | `deltaSum * rate_d` and `DTerm` are at most 3 * 65535 * 255 in magnitude |
| StabilizeRange.LevelingFits | firmware/stabilize.cpp:67-78 | the angle error, its products with the level gains, the angle integral's sum and the ACC terms are bounded well inside `int32_t` |
| StabilizeRange.BlendFits | firmware/stabilize.cpp:80-81 | each product of the blend is bounded by its term's bound times 500 |
| StabilizeRange.AxisRateFits | firmware/stabilize.cpp:51-90 | bounds on the rate error, rate integral sum, GYRO I term, gyro damping and derivative terms of one axis |
| StabilizeRange.AxisLevelFits | firmware/stabilize.cpp:67-81 | bounds on the ACC terms and the blended P and I of a roll or pitch axis |
| StabilizeRange.AxisStepFitsInt32 | firmware/stabilize.cpp:49-91 | every intermediate product, sum and term of one axis fits in `int32_t`, so, under the header assumptions listed above, the firmware never overflows and computes what the model computes |
| StabilizeRange.UpdateOutputFitsInt32 | firmware/stabilize.cpp:91-96 | every axis output, including the clamped yaw output, fits in `int32_t` |
| Hackflight.Initialize | firmware/hackflight.cpp:31-90 | starts disarmed, with `calibratingG` set to the gyro-calibration length and small angle assumed; the static locals start at zero or false; the stabiliser is freshly initialised |
| Hackflight.RcTick | firmware/hackflight.cpp:100-147 | the integral reset is issued exactly when the throttle is down, whether or not the sticks changed; from disarmed, the craft arms exactly when the sticks changed to throttle-low/yaw-high/pitch-centre/roll-centre, `calibratingG == 0`, `accCalibrated` holds and the aux switch is at zero; from armed, it disarms exactly on a changed throttle-low/yaw-low/pitch-centre/roll-centre gesture, whatever the counters; the gyro- and accel-calibration gestures reload their counters only while disarmed and changed; an unchanged reading changes nothing |
| Hackflight.TaskTick | firmware/hackflight.cpp:152-162 | runs task `taskOrder`; afterwards `taskOrder` stays non-negative and, with a positive task count, below the count; nothing else changes |
| Hackflight.ImuTick | firmware/hackflight.cpp:166-217 | each calibration counter drops by exactly one if positive and stays 0 otherwise; `haveSmallAngle` holds iff both angle magnitudes are below the small-angle limit; a due accel check sets `accCalibrated` to `haveSmallAngle`; the blink toggle flips exactly on a due check while not small-angle; arming is untouched |
| Hackflight.Loop | firmware/hackflight.cpp:92-230 | one pass arms only on an RC tick whose arm gesture meets every guard, and disarms only on an RC tick with the disarm gesture; it keeps the integrals bounded and the gains fixed; with the throttle down and no IMU update, the integrals end the pass at zero |
| Hackflight.Run | firmware/hackflight.cpp:239-242 | repeated passes never change the stabiliser gains |
| Hackflight.ArmedPersists | firmware/hackflight.cpp:115-125 | once armed, the craft stays armed through any run with no disarm gesture on an RC tick: calibration, IMU and task ticks never disarm it |
| Hackflight.ArmingNeedsGesture | firmware/hackflight.cpp:133-139 | a run that goes from disarmed to armed contains an RC tick with the arm gesture at which every guard held in the state reached just before it, and that tick is the one where the craft goes from disarmed to armed |
| Hackflight.LoopGyroCountdown | firmware/hackflight.cpp:126-176 | one pass keeps `calibratingG` at most the calibration length and lowers it by at most one, and only on an IMU tick |
| Hackflight.GyroCountdownLowerBound | firmware/hackflight.cpp:126-176 | over a run, `calibratingG` falls by at most the number of IMU ticks and never exceeds the calibration length |
| Hackflight.NoArmingDuringGyroCalibration | firmware/hackflight.cpp:74-176 | after `initialize`, no run arms the craft before it has seen at least the gyro-calibration length of IMU ticks |
| Hackflight.IntegralsStayBounded | firmware/hackflight.cpp:112-220 | the windup bounds hold after every run that starts within them |
| Hackflight.GroundIdleThenUpdate | firmware/hackflight.cpp:112-220 | a pass with throttle down and an IMU update equals `update` applied to the reset stabiliser, so each rate integral is the single-sample value |
| Hackflight.RoundRobin | firmware/hackflight.cpp:154-161 | with a fixed positive task count, after `n` non-RC ticks `taskOrder` has advanced by `n` modulo the count |
| Hackflight.CalibrationCountdown | firmware/hackflight.cpp:172-176 | after `n` IMU ticks both calibration counters equal `max(0, start - n)` |

## Left out

- All `Board::` calls are left out because they are hardware I/O. This
  covers LEDs, delays, `getMicros`, `imuRead`, `showArmedStatus`,
  `showAuxStatus` and `rcSerialReady`. The LED colours set during the IMU
  tick are not modelled. The blink toggle `on` is modelled.
- The timer tasks (`checkAndUpdate`, `check`, `update`) are taken as
  boolean inputs (`rcDue`, `imuDue`, `accelDue`). The restart of the
  accel-calibration timer at firmware/hackflight.cpp:213 belongs to the
  timer's internals and is not modelled.
- The receiver (`rc.update`, `rc.changed`, `rc.sticks`, `rc.auxState`,
  `rc.throttleIsDown`, `rc.computeExpo`) is an input. Stick classification
  and expo happen outside the model.
- `imu.update` is foreign code, so the angles and gyro rates are inputs. It
  also reads `armed`, `calibratingA` and `calibratingG`, and how it uses
  them is not modelled.
- The mixer, MSP telemetry and the board's extras hooks are foreign calls
  and are not modelled. The index passed to `extrasPerformTask` is the
  `task` output of `TaskTick`.
- The float computation of the calibration lengths at
  firmware/hackflight.cpp:44-45 is not modelled. The lengths are parameters
  in `Params`, as is `CONFIG_SMALL_ANGLE`.
- The type of `axisPID` is declared in a header that is not part of this
  model. The output is kept as an unbounded integer and shown to fit in
  `int32_t`. A narrowing to `int16_t`, if the header declares one, is not
  modelled.
- Outside the ranges of `StabilizeRange` (commands beyond ±500, gains
  beyond 255), the firmware's `int32_t` arithmetic can overflow, which is
  undefined behaviour in C++. The model computes the mathematical value
  there.
- The floating-point stabiliser variant (src/stabilizer.hpp) and the
  simulator receiver are not part of this model.
