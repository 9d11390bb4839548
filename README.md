# ARDrone attitude control, modelled in Dafny

This project models `control_attitude`, the attitude controller of the PX4
firmware's ARDrone application. The firmware calls it once per 5 ms control
tick. It turns a thrust and attitude setpoint into four motor values, front,
right, back and left, and sends them to the motor driver on every fifth tick.

Each tick does the following:

- It initialises the four PID controllers on the first call and reloads their
  gains and output limits every 50 ticks.
- It selects the base thrust by the vehicle state and multiplies it by a tilt
  compensation factor.
- It limits the nick (pitch), roll and yaw-rate outputs and flags
  saturation.
- It computes a thrust-dependent output band.
- It mixes the four motors, and mixes again with the yaw output halved if the
  first mix leaves the band.
- It clamps every motor into the band, converts the motors to actuator
  units with two failsafe clamps, and counts the tick.

The modules follow those stages:

- `thrust.dfy` (`Thrust`): mode gating, tilt factor, output band.
- `mixer.dfy` (`Mixer`): axis limiting, the cross mixing law, the
  halved-yaw retry, and the band clamp loop (an in-place method on an array).
- `actuator.dfy` (`Actuator`): the integer conversion as written, and the
  failsafe clamps.
- `attitude_control.dfy` (`AttitudeControl`): `Step`, the pure result of one
  tick. `AttitudeController` is a class holding the function's static state:
  the tick counter, the `initialized` flag, the four controllers, the cached
  limits and the `motor_calc`/`motor_pwm` arrays. Its `Tick` method is proved
  to leave `Step`'s motor values and sent values in the arrays. Each
  saturation flag becomes its old value or'ed with whether `Step` found that
  limit exceeded.

Thrust, band and mixer arithmetic uses exact `real`s. The actuator stage
works on unbounded `int`s after truncation toward zero. The cosine is a parameter `cos: real -> real`, so
only the branch structure of the tilt factor is verified. Its one assumed
property (`Thrust.CosBounded`: 0 < cos ≤ 1 on [-1, 1]) is used only where the
factor is shown to be at least 1.

### Where the code does something other than its comments say (the model follows the code)

- **Actuator scaling.** The comment at `attitude_control.c:313` says the
  motor values are scaled up from 0..1 to 10..512, an affine mapping under
  which half thrust gives the middle of the range. The code casts to
  `uint16_t` before it multiplies, so `Actuator.PwmIsBinary` holds: a motor
  value below 1 sends 10, and a value of 1 or more sends 512.
  `AttitudeControl.PwmIgnoresControls` goes further: over exact reals, all
  four motors get 10 while the base thrust is below full thrust, and 512 from full thrust on,
  whatever the control outputs. `AttitudeControl.HoverSendsIdleFloor` shows
  this at half thrust.
- **Output band.** The comment at line 249 names 25% thrust as the start of
  full control. The band's rising ramp starts at `min_thrust`, though, so it
  reaches only 0.75 × (0.25 − 0.02) = 0.1725 just below 25% and then jumps to
  the flat 0.1875. The shrinking part starts at 81.25% with 0.140625, another
  jump (`Thrust.BandJumpsAtBreakpoints`).
- **Above full thrust.** Tilt compensation can push the base thrust above 1.
  The band then becomes negative, and the clamp loop sets every motor to
  `thrust + band` (`AttitudeControl.OverFullThrustFlattensMotors`). Nothing
  in the function guards against this case.
- **Saturation flags.** The function only ever sets a controller's
  `saturated` flag to 1 and never clears it. The model keeps the earlier value
  unless a limit fires.
- **Negative limits.** A limit below zero gives the control output `-lim`
  and always flags saturation (`Mixer.ClampAxis`).

## Model

| member | source | states |
|---|---|---|
| `Thrust.ModeThrust` | apps/ardrone_control/attitude_control.c:188-206 | the setpoint thrust passes through exactly in the six flying states (manual, ground-ready, stabilized, auto, mission-abort, emergency-landing); emergency cut-off and every other state give exactly 0 |
| `Thrust.AxisFactor` | apps/ardrone_control/attitude_control.c:172-186 | past one radian the per-axis factor is the constant 1.85081571768; otherwise it is the reciprocal of the cosine (factor × cos = 1) |
| `Thrust.AxisFactorAtLeastOne` | apps/ardrone_control/attitude_control.c:172-186 | with 0 < cos ≤ 1 on [-1, 1] the per-axis factor is defined and at least 1 |
| `Thrust.TiltAtLeastOne` | apps/ardrone_control/attitude_control.c:172-186 | the tilt factor is the product of the roll and pitch factors, at least 1, and the square of the cap when both angles are past one radian |
| `Thrust.TiltFactor` | apps/ardrone_control/attitude_control.c:172-186 | within one radian on both axes the factor times both cosines is 1; with one axis beyond, the factor times the other axis's cosine is the cap; with both beyond it is the cap squared |
| `Thrust.CompensatedThrust` | apps/ardrone_control/attitude_control.c:188-211 | 0 in every non-flying state; in a flying state within one radian on both axes, the result times both cosines gives back the setpoint; with one axis within one radian and the other beyond, the result times the inner axis's cosine is the setpoint times the cap; with both axes beyond one radian it is the setpoint times the cap squared |
| `Thrust.CompensationNeverReducesThrust` | apps/ardrone_control/attitude_control.c:188-211 | for a non-negative setpoint the compensated thrust is at least the setpoint in a flying state and exactly 0 otherwise |
| `Thrust.Band` | apps/ardrone_control/attitude_control.c:247-264 | a thrust ≤ 0.02 is raised to 0.02 with band 0; above that the thrust is kept. The band is 0 exactly at or below the minimum and at full thrust. Up to full thrust it lies in [0, 0.1875] and keeps thrust ± band inside [0, 1]; above full thrust it is negative. The source's fourth guard is proved to hold whenever the first three fail, so the four branches cover every thrust |
| `Thrust.BandJumpsAtBreakpoints` | apps/ardrone_control/attitude_control.c:256-264 | the band is below 0.1725 just under 25% thrust, 0.1875 from 25% to 81.25%, and 0.140625 at 81.25% |
| `Mixer.ClampAxis` | apps/ardrone_control/attitude_control.c:213-243 | for a limit ≥ 0 the output lies in [-lim, lim]; an output already inside is unchanged; the saturation report fires exactly when the output was outside; for a negative limit the result is -lim with saturation |
| `Mixer.Mix` | apps/ardrone_control/attitude_control.c:266-278 | the four motors sum to four times the base thrust; the roll, nick and yaw differentials of the fixed sign pattern equal the roll output, the nick output and the yaw output × yaw factor |
| `Mixer.MixDeterminedByTorques` | apps/ardrone_control/attitude_control.c:268-278 | any four motors with that sum and those three differentials are exactly the mix, so the sign pattern is the only one that decouples the axes |
| `Mixer.MixWithoutControls` | apps/ardrone_control/attitude_control.c:268-278 | with all control outputs zero every motor equals the base thrust |
| `Mixer.InsideBandSurvivesClamp` | apps/ardrone_control/attitude_control.c:281-284 | for `StrictlyInside`, the test that keeps the first mix: motors strictly inside the band require a positive band, and the band clamp leaves them unchanged |
| `Mixer.MixWithRetry` | apps/ardrone_control/attitude_control.c:280-298 | roll and nick differentials and the mean are always those of the first mix. The yaw differential is the full yaw output iff every first-pass motor is strictly inside (t - band, t + band), and half of it otherwise. With band ≤ 0 the retry always runs |
| `Mixer.BandClamp` | apps/ardrone_control/attitude_control.c:300-309 | for band ≥ 0 the motor ends in [t - band, t + band], unchanged if already inside and moved to the nearer edge otherwise; for band < 0 it ends at t + band |
| `Mixer.ClampAll` | apps/ardrone_control/attitude_control.c:300-309 | the clamp of all motors keeps their number; for a non-negative band every motor ends inside it and those already inside are unchanged; for a negative band every motor ends at t + band |
| `Mixer.UniformMotorsWithoutControls` | apps/ardrone_control/attitude_control.c:266-309 | with no control output and band ≥ 0 the mixer and the clamp leave all four motors at the base thrust |
| `Mixer.ClampToBand` | apps/ardrone_control/attitude_control.c:300-309 | the in-place loop leaves each of the first four entries clamped to the band and every other entry unchanged |
| `Actuator.Trunc` | apps/ardrone_control/attitude_control.c:314-317 | conversion to an integer truncates toward zero: the result has the sign of the input and lies within 1 of it, on the side of zero |
| `Actuator.ScaleToGas` | apps/ardrone_control/attitude_control.c:313-317 | the conversion as written, truncating before and after scaling: a motor value strictly between -1 and 1 gives 10, one of at least 1 gives at least 512, and one of -1 or less gives at most 0 |
| `Actuator.Failsafe` | apps/ardrone_control/attitude_control.c:319-331 | the result lies in [1, 512]. A value in 1..512 is kept; a non-positive value becomes 10; a value above 512 becomes 512 |
| `Actuator.Pwm` | apps/ardrone_control/attitude_control.c:313-331 | the value sent for one motor never exceeds 512 and is never 0 |
| `Actuator.PwmIsBinary` | apps/ardrone_control/attitude_control.c:313-317 | because the cast truncates the motor value before scaling, the value sent is 512 for a motor value ≥ 1 and 10 for anything below |
| `AttitudeControl.ReloadTickIsSendTick` | apps/ardrone_control/attitude_control.c:126-127 | for `ReloadTick`: a parameter-reload tick (counter divisible by 50) is always also a transmission tick, as the nested test at lines 334-335 relies on |
| `AttitudeControl.SendOncePerFiveTicks` | apps/ardrone_control/attitude_control.c:333-334 | for `SendTick` (counter divisible by 5): a transmission tick is followed by four ticks without one, and every five consecutive ticks include a transmission tick |
| `AttitudeControl.LimitedControls` | apps/ardrone_control/attitude_control.c:213-243 | for non-negative limits the nick and roll outputs lie within the attitude limit and the yaw-rate output within the yaw-speed limit, each unchanged when already inside; a negative limit yields its negation |
| `AttitudeControl.Pwms` | apps/ardrone_control/attitude_control.c:313-331 | each of the four values sent is 512 or 10, according to whether its motor value reaches 1 |
| `AttitudeControl.Step` | apps/ardrone_control/attitude_control.c:213-331 | one tick yields four motor values and four values sent, each sent value in [10, 512] |
| `AttitudeControl.SaturationFlagsReportClamps` | apps/ardrone_control/attitude_control.c:213-243 | for non-negative limits each limited output lies within its limit, is unchanged when it was inside, and its flag is raised exactly when it was outside |
| `AttitudeControl.MotorsNonNegative` | apps/ardrone_control/attitude_control.c:300-317 | every motor value a tick computes is at least 0, so the conversion to the unsigned actuator type never sees a negative value |
| `AttitudeControl.MotorsStayInBand` | apps/ardrone_control/attitude_control.c:300-309 | up to full thrust the band is ≥ 0 and every final motor lies in [thrust - band, thrust + band] ⊆ [0, 1] |
| `AttitudeControl.OverFullThrustFlattensMotors` | apps/ardrone_control/attitude_control.c:262-309 | above full thrust the band is negative and all four motors end at thrust + band whatever the controls |
| `AttitudeControl.LowThrustPinsMotors` | apps/ardrone_control/attitude_control.c:252-309 | a base thrust ≤ 0.02 gives band 0 and all four motors exactly 0.02, whatever the controls, and sends 10 to each |
| `AttitudeControl.CutoffIdlesMotors` | apps/ardrone_control/attitude_control.c:199-206 | emergency cut-off, or any non-flying state, gives all four motors 0.02 and sends 10 to each, whatever the setpoint, attitude and controls |
| `AttitudeControl.ZeroControlsGiveUniformMotors` | apps/ardrone_control/attitude_control.c:266-309 | with zero control outputs, non-negative limits and base thrust up to full, all four motors equal the (possibly raised) base thrust |
| `AttitudeControl.PwmIgnoresControls` | apps/ardrone_control/attitude_control.c:313-317 | as written, all four values sent are 10 while the base thrust is below 1 and 512 from 1 on, whatever the control outputs |
| `AttitudeControl.HoverSendsIdleFloor` | apps/ardrone_control/attitude_control.c:313-317 | at half thrust with no control output every motor is exactly 0.5, yet 10 is sent to each rather than the midpoint of the actuator range |
| `AttitudeControl.Pid.constructor` | apps/ardrone_control/attitude_control.c:66-69 | a controller in static storage starts with zero gains and a clear saturation flag |
| `AttitudeControl.AttitudeController.constructor` | apps/ardrone_control/attitude_control.c:62-86 | the static state starts with counter 0, not initialised, zero limits and zeroed motor arrays of size 16, and it satisfies the class invariant |
| `AttitudeControl.AttitudeController.LoadParameters` | apps/ardrone_control/attitude_control.c:126-155 | the yaw-position and yaw-speed controllers get their own gains; nick and roll share the attitude gains; the three limits are cached |
| `AttitudeControl.AttitudeController.Refresh` | apps/ardrone_control/attitude_control.c:88-155 | the parameters are loaded iff this is the first call or the counter is divisible by 50, and are left unchanged otherwise; afterwards the controller is initialised |
| `AttitudeControl.AttitudeController.LimitControls` | apps/ardrone_control/attitude_control.c:213-243 | returns the limited controls; each of the three flags becomes its old value or'ed with whether its limit fired |
| `AttitudeControl.AttitudeController.MixMotors` | apps/ardrone_control/attitude_control.c:266-298 | the first four array entries hold the mix with retry; the rest are unchanged |
| `AttitudeControl.AttitudeController.ScaleMotors` | apps/ardrone_control/attitude_control.c:313-331 | the first four sent values are those of the four motor values, each in [10, 512]; the rest are unchanged |
| `AttitudeControl.AttitudeController.BaseThrust` | apps/ardrone_control/attitude_control.c:172-211 | the thrust is the mode-gated setpoint multiplied by the tilt factor |
| `AttitudeControl.AttitudeController.Control` | apps/ardrone_control/attitude_control.c:213-331 | the arrays hold `Step`'s motor values and sent values for the given base thrust and the cached limits; each saturation flag becomes its old value or'ed with whether `Step` found that limit exceeded; entries 4..15 are unchanged |
| `AttitudeControl.AttitudeController.Tick` | apps/ardrone_control/attitude_control.c:60-342 | the class invariant is kept: initialised iff the counter is positive, and once initialised every sent value is in [10, 512]. The counter rises by exactly 1. Initialisation runs iff this is the first call; reload runs iff the counter is divisible by 50; sending iff it is divisible by 5. The gains and limits are reloaded or untouched accordingly. The arrays hold `Step`'s motor values and sent values; each saturation flag becomes its old value or'ed with whether `Step` found that limit exceeded. The yaw-position controller and array entries 4..15 are untouched |

## Left out

- The PID library is not part of this model: its initialisation and
  parameter update functions and `pid_calculate`. The three controller outputs
  of a tick are inputs of `Tick`. A controller's integral and derivative
  state is not modelled, and neither is any change `pid_calculate` makes to
  the `saturated` flag. Only the gains handed over are recorded.
- The setpoint offsets `PARAM_ATT_XOFFSET`/`PARAM_ATT_YOFFSET`, the control
  interval and the measured rates feed only `pid_calculate`, so they are not
  part of this model.
- The parameter store is a read-only snapshot (`Params`) passed to `Tick`.
- The debug `printf` calls, building the motor packet (`ar_get_motor_packet`)
  and the UART `write` are I/O. Only the decision to send on this tick is
  modelled (`TickEvents.sent`).
- Single-precision rounding, `cosf`, NaN and infinities are not modelled. The
  constants are exact reals (0.02, 10.24, 501.76), and the cosine is a
  parameter.
- AttitudeControl.PwmIgnoresControls: holds over exact reals only. In single
  precision a base thrust just below 1 can put the band edge at 1.0f, and a
  motor clamped to that edge then sends 512.
- Actuator.ScaleToGas: converting a value outside 0..65535 to `uint16_t` is
  undefined in C. Negative motor values are proved unreachable from `Step`
  (`AttitudeControl.MotorsNonNegative`). Motor values of 131 or more, which
  only a setpoint far above full thrust produces, overflow the second
  conversion. For those the model keeps the unbounded integer, and the
  failsafe then gives 512.
- AttitudeController.Tick: the counter is an unbounded integer, so signed
  overflow of the C `int` after 2^31 ticks is not modelled.
- The yaw-position controller and its limit are loaded and cached like the
  others but never used in mixing, as in the source.
- Thrust.TiltAtLeastOne: it gives no upper bound for the factor within one
  radian, because only 0 < cos ≤ 1 is assumed of the cosine.
