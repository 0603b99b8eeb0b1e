# spin: the turntable controller, modelled in Dafny

`spin` turns a motorised platform to a requested heading. An accelerometer mounted on the
platform delivers samples. Each sample is smoothed by three 5-deep moving-average filters, one
per axis. The filtered x/y pair is turned into a heading in [0, 360] by `calculateAngle`. Wraps
past 0/360 are counted as whole rotations, which gives a continuous absolute angle. While a
target is active, a DC motor is driven towards it:

- The speed grows linearly with the clamped distance to the target.
- Within one degree, the motor is stopped.
- The target counts as reached once the angle has stayed within one degree for more than
  half a second.

`turnTo` posts a target request. The first sample once priming is complete takes it up, so a
request made during priming waits for the fifth sample; a terminated controller never takes it up. `shutDown` (called from the
signal handler and from the device detach and error callbacks) terminates the controller.

The model has two layers.

- **`Spin.Controller`** (`controller.dfy`) is the program as written. It is a class whose
  fields are the globals of `main.c`:
  - the three filter windows are `array<real>`s shifted in place;
  - the accelerometer's change trigger and the motor's target velocity are fields too;
  - every `setTargetVelocity` command is appended to a log.

  There is one method per entry point (`TurnTo`, `ShutDown`, `OnSample`) and one per part of
  the sample handler. Each of these methods ensures that the new state, taken as one value
  with `Snapshot()`, equals a state function of `Motion` applied to the old state:

  - `TurnTo`, `ShutDown` and `OnSample` with `Motion.TurnTo`, `Motion.ShutDown` and
    `Motion.OnSample`;
  - `FilterSample` with `Motion.Filtered`, and `CountDown` with `Motion.CountDown`;
  - `Initialize` with `Motion.Initialize`, and `TakeRequest` with `Motion.ConsumeRequest`;
  - `UpdateAngle` with `Motion.Track`, and `Drive` with `Motion.Drive`.

  The constructor ensures `Snapshot() == Motion.Initial(...)`. The two device calls
  `SetAcceleratorSensitivity` and `SetTargetVelocity` instead ensure the values of the fields
  they may change. The handlers keep the invariant `Valid()`.
- **`Motion`** (`motion.dfy`) states the handlers as functions on a `State` value:
  - `TurnTo`, `ShutDown` and `OnSample`;
  - `OnSample` is composed of the stages `Filtered`, `CountDown`, `Initialize`,
    `ConsumeRequest`, `Track` and `Drive`, in the order of the handler;
  - `Run` folds `OnSample` over a sequence of samples;
  - `Inv` is the invariant of every reachable state.

  `MotionProperties` (`properties.dfy`) proves the behaviour the program promises about
  these functions. `CMath` (`fmin`, `fabs`, `fmod`), `MovingAverage` (`processFilter`) and
  `AngleTracker` (`calculateAngle` and rotation counting) hold the parts they are built from.

Modelling decisions:

- Doubles are `real`.
- `atan2(x, y) * 180 / M_PI` is an uninterpreted parameter of type `(real, real) -> real`,
  fixed when the controller is constructed. `ERROR` is 0.0.
- Times are integer microseconds. `gettimeofday` becomes the `now` argument of `OnSample`, and
  `_halfSecond` is 500000. A cleared `timeval` is `None`.
- `fmod(angle, 360.0)` follows section 7.12.10.2 of ISO C99: it is `angle - 360 n` for an
  integer `n`, it has the sign of `angle`, and its magnitude is below 360.
  `CMath.FMod360Unique` shows that exactly one value meets these conditions.
- `getTargetVelocity` reports the motor's target velocity: the last value sent with
  `setTargetVelocity`, or the initial target velocity before any command. It is the
  `motor.velocity` field; `MotionProperties.SeekingSample` relies on this.
- The accelerometer's initial change trigger and the motor's initial target velocity are not
  set by the program before the first `turnTo`. They are parameters of the initial state.

Behaviour of the code that a reader might not expect (the model follows the code):

- `turnTo(-10)` stores -10, not 350, because `fmod` keeps the sign of its dividend.
- The motor direction is +1 exactly when the target lies *below* the absolute angle. With the
  target at 180 and the angle at 170, the velocity is -0.4 (`SeekVelocityExamples`).
- Reaching the target does not clear it. A later request for the same target starts no motion
  (`RequestForHeldTargetIsIgnored`).
- The initial target -1.0 is also a value `fmod` returns, for requests of -1, -361, and so on.
  Such a request made before any other target was taken up is consumed without any motion
  (`RequestForInitialTargetIsIgnored`).
- The zero-velocity command on termination is sent by the cleanup at the end of `main`, not by
  `shutDown`. `shutDown` only clears `working` and sets `terminated`.

## Model

| member | source | states |
|---|---|---|
| CMath.Abs | main.c:178 | `fabs`: the result is non-negative and is `x` or `-x` |
| CMath.FMin | main.c:44-47 | `fmin` returns a value no larger than either argument and equal to one of them |
| CMath.FMod360 | main.c:66 | `fmod(x, 360.0)` differs from `x` by a whole multiple of 360; it lies in [0, 360) for `x >= 0` and in (-360, 0] for `x < 0` |
| CMath.FMod360Unique | main.c:66 | any `r` with `x == 360 n + r`, the sign of `x` and magnitude below 360 is `FMod360(x)`, so the C99 conditions define the result |
| CMath.FMod360Examples | main.c:66 | 400 gives 40, -10 gives -10, -370 gives -10, 720 gives 0 and -999 gives -279 |
| MovingAverage.Shift | main.c:74-80 | the new window keeps the length; every value moves one slot towards the front, and the new value takes the last slot |
| MovingAverage.ProcessFilter | main.c:71-83 | the array is shifted in place as `Shift` says, and the returned value is the sum of the new window divided by 5 |
| MovingAverage.MeanPermutation | main.c:71-83 | the filter output depends only on the multiset of values in the window, not on their order |
| AngleTracker.CalculateAngle | main.c:85-88 | for an arc tangent in [-180, 180] degrees, the heading lies in [0, 360] |
| AngleTracker.UpdateRotations | main.c:177-181 | the rotation count goes up by one exactly when the heading fell by more than 300, down by one exactly when it rose by more than 300, and is unchanged otherwise |
| AngleTracker.Advance | main.c:173-183 | the new heading is stored, the rotation count follows `UpdateRotations`, and the absolute angle is the heading plus 360 per rotation |
| AngleTracker.UnwrapIsContinuous | main.c:173-183 | with headings in [0, 360], the absolute angle moves by at most 300 per sample, and by less than 60 when a wrap is counted |
| AngleTracker.WrapForwardExample | main.c:177-183 | a heading of 359 followed by 2 counts one rotation forwards |
| Motion.ZeroWindow | main.c:29 | the statically initialised filter window has 5 slots, all 0.0 |
| Motion.Initial | main.c:259-274 | the initial state: not terminated, primed or working; counter 5; zero windows; angle consistent; no request pending; target -1; no deadline; device values as given; no command sent; all three coordinates 0 and the angle record zero (lemma `Motion.InitialInv`: it satisfies the invariant) |
| Motion.TurnTo | main.c:58-69 | unless terminated, full sensitivity and `fmod(angle, 360)` as the pending request, which lies in (-360, 360) and so never equals -999; nothing else changes; terminated, nothing changes at all (lemmas `MotionProperties.TurnToStoresRequest`, `MotionProperties.LastRequestWins`) |
| Motion.ShutDown | main.c:49-56 | the result is terminated; a first call also clears `working`; nothing else changes, and a terminated state is kept (lemma `MotionProperties.ShutDownIsIdempotent`) |
| Motion.Feed | main.c:129-131 | each window is shifted by its axis value, slot by slot, and each coordinate is the mean of its new window |
| Motion.Filtered | main.c:129-131 | the filters take the sample as `Feed` says, and nothing else changes (lemmas `MotionProperties.SampleFeedsFilters`, `MotionProperties.RunWindows`) |
| Motion.CountDown | main.c:133-134 | the counter goes down by one while positive, and nothing else changes (lemmas `MotionProperties.PrimingStep`, `MotionProperties.RunPriming`) |
| Motion.Initialize | main.c:145-154 | primed, coarse sensitivity, the first heading as relative angle, rotation count -1 when that heading is past 270 and unchanged otherwise; the absolute angle and all else unchanged (lemma `MotionProperties.PrimingCompletes`) |
| Motion.ConsumeRequest | main.c:157-171 | no request is left pending; a request different from the target becomes the target, clears the deadline, selects full sensitivity and starts work; otherwise only the request is cleared; nothing else changes (lemmas `MotionProperties.SampleTakesUpRequest`, `MotionProperties.RequestForHeldTargetIsIgnored`) |
| Motion.Track | main.c:173-183 | the new heading is the relative angle, the rotation count follows `UpdateRotations`, the absolute angle is consistent, and nothing else changes (lemmas `MotionProperties.SampleUnwrapsAngle`, `MotionProperties.SampleAngleIsContinuous`) |
| Motion.Drive | main.c:193-235 | at most one command is sent; outside the tolerance the deadline is cleared, the motor's velocity is the seek velocity, and a command is sent exactly when the old velocity differs from it; within the tolerance with no deadline the zero command is sent and the deadline set to `now` plus half a second; with a deadline nothing is sent, and work stops with coarse sensitivity exactly when the deadline lies before `now`; work never starts here; only the motor, deadline, sensitivity and `working` change (lemmas `MotionProperties.SeekingSample`, `MotionProperties.SettleStartsDwell`, `MotionProperties.DwellEndsAfterDeadline`) |
| Motion.OnSample | main.c:118-238 | a terminated state is kept; the sample never changes termination; it sends at most one motor command (lemmas `Motion.OnSamplePreservesInv`, `MotionProperties.TerminatedIsAbsorbing` and the other `MotionProperties` lemmas) |
| AngleTracker.AbsoluteAngle | main.c:183 | the absolute angle differs from the heading by a whole number of turns: equal for no rotation, at least a turn above for positive and at least a turn below for negative counts |
| Motion.Distance | main.c:196 | the clamped distance lies in [0, 10]; it is 10 exactly when the distance is at least 10, and the distance itself below that |
| Motion.Direction | main.c:194 | the direction is +1 or -1, and +1 exactly when the target lies below the absolute angle |
| Motion.Speed | main.c:225 | the speed lies in [0.1, 0.4]; it is 0.4 exactly at the clamp and at least 0.13 once the distance is at least 1 |
| Motion.SeekVelocity | main.c:194-226 | the velocity is positive exactly when the target lies below the angle, and its magnitude is the speed for the clamped distance |
| Motion.InitialInv | main.c:259-274 | the initial state satisfies the invariant |
| Motion.TurnToPreservesInv | main.c:58-69 | `turnTo` keeps the invariant |
| Motion.ShutDownPreservesInv | main.c:49-56 | `shutDown` keeps the invariant |
| Motion.OnSamplePreservesInv | main.c:118-238 | the sample handler keeps the invariant: window lengths, priming counter in [0, 5], `primed` exactly at counter 0, request in range or none pending, absolute angle consistent with heading and rotations, velocity equal to the last command |
| Spin.Controller.constructor | main.c:259-274 | fresh, zeroed filter arrays and the initial values of every global; the invariant holds |
| Spin.Controller.SetAcceleratorSensitivity | main.c:39-42 | the accelerometer's change trigger becomes the given value, and nothing else changes |
| Motion.SetTargetVelocity | main.c:206 | the motor's target velocity becomes the given value and the command is appended to the log |
| Spin.Controller.SetTargetVelocity | main.c:206 | the motor's target velocity becomes the given value, and the command is appended to the log |
| Spin.Controller.ShutDown | main.c:49-56 | the fields change as `Motion.ShutDown` says, and the invariant is kept |
| Spin.Controller.TurnTo | main.c:58-69 | the fields change as `Motion.TurnTo` says, and the invariant is kept |
| Spin.Controller.OnSample | main.c:118-238 | the fields and filter arrays change as `Motion.OnSample` says, and the invariant is kept |
| Spin.Controller.FilterSample | main.c:129-131 | each filter array is shifted by its axis value, and each coordinate becomes the mean of its new window |
| Spin.Controller.CountDown | main.c:133-134 | the priming counter goes down by one while positive |
| Spin.Controller.Initialize | main.c:145-154 | first heading, rotation count -1 past 270, coarse sensitivity, primed |
| Spin.Controller.TakeRequest | main.c:157-171 | a pending request is taken up as `Motion.ConsumeRequest` says |
| Spin.Controller.UpdateAngle | main.c:173-183 | new heading, rotation count and absolute angle as `Motion.Track` says |
| Spin.Controller.Drive | main.c:193-235 | the velocity command and the settle dwell, as `Motion.Drive` says |
| MotionProperties.ShutDownIsIdempotent | main.c:49-56 | `shutDown` leaves the controller terminated and not working; a second call changes nothing |
| MotionProperties.TerminatedIsAbsorbing | main.c:51-52 | once terminated, `turnTo`, `shutDown` and any run of samples change nothing |
| MotionProperties.StagesKeepFilters | main.c:137-235 | the stages after the filters leave the filters and the termination flag unchanged |
| MotionProperties.SampleFeedsFilters | main.c:118-238 | a sample handled while not terminated shifts every filter window and sets every coordinate to its mean, and does not terminate |
| MotionProperties.RunDoesNotTerminate | main.c:118-238 | no run of samples terminates the controller |
| MotionProperties.RunPreservesInv | main.c:118-238 | every state reached by a run of samples satisfies the invariant |
| MotionProperties.TurnToStoresRequest | main.c:58-69 | unless terminated, `turnTo` selects full sensitivity and stores `fmod(angle, 360)`, which never equals the -999 "none pending" value |
| MotionProperties.LastRequestWins | main.c:66 | of two requests in a row, the second replaces the first |
| MotionProperties.LastRequestIsTakenUp | main.c:157-171 | after two requests and a primed sample, the target is the second request and none is pending |
| MotionProperties.SampleTakesUpRequest | main.c:157-171 | after a sample past priming no request is pending; a request different from the target becomes the target and starts work with full sensitivity, otherwise the target is kept |
| MotionProperties.RequestForHeldTargetIsIgnored | main.c:158-170 | a pending request equal to the held target has exactly the effect of no request |
| MotionProperties.RequestForInitialTargetIsIgnored | main.c:158-170 | `turnTo(-1)` while the initial target -1 is held is consumed without motion or command |
| MotionProperties.RunWindows | main.c:129-131 | after any run, each window holds the last 5 raw values of its axis, and each coordinate is its window's mean |
| MotionProperties.FilterOutputIsMeanOfLastSamples | main.c:71-83 | after at least 5 samples, the x and y windows are the last 5 raw values of their axes, and the coordinates their means |
| MotionProperties.XCoordIgnoresOrder | main.c:71-83 | after at least 5 samples, the x coordinate is the mean of the last 5 raw x values taken in any order |
| MotionProperties.YCoordIgnoresOrder | main.c:71-83 | after at least 5 samples, the y coordinate is the mean of the last 5 raw y values taken in any order |
| MotionProperties.PrimingSampleOnlyFilters | main.c:133-143 | a sample that leaves the counter positive only updates the filters and the counter |
| MotionProperties.PrimingCompletes | main.c:145-155 | the sample that completes priming sets the heading, rotation count -1 exactly past 270 and 0 otherwise, and coarse sensitivity unless a new target starts work |
| MotionProperties.PrimingStep | main.c:133-153 | before priming, a sample primes the controller exactly when the counter is 1, and otherwise only counts down and filters |
| MotionProperties.PrimedStaysPrimed | main.c:137-155 | a primed controller stays primed |
| MotionProperties.RunPriming | main.c:133-155 | priming takes exactly as many samples as the counter says; until then only the filters and the counter change |
| MotionProperties.PrimedAfterFiveSamples | main.c:263 | from the initial state, the controller is primed exactly from the fifth sample on |
| MotionProperties.SampleUnwrapsAngle | main.c:173-183 | after a primed sample, the rotation count moves by one exactly on a jump of more than 300 (up on a fall, down on a rise), and the absolute angle is the heading plus 360 per rotation |
| MotionProperties.SampleAngleIsContinuous | main.c:173-183 | for an arc tangent within [-180, 180] degrees and a previous heading in [0, 360], the absolute angle moves by at most 300 per primed sample |
| MotionProperties.IdleSampleIssuesNoCommand | main.c:185-188 | while not working and without a new target, a sample sends no command and leaves the deadline and sensitivity alone |
| MotionProperties.SeekingSample | main.c:221-235 | on a sample past priming, or the one completing it, that is working or takes up a new request: outside the tolerance, the deadline is cleared and the velocity is sent only if it differs from the motor's current target velocity |
| MotionProperties.SeekSpeedBounds | main.c:225-226 | outside the tolerance, the speed lies in [0.13, 0.4], and is 0.4 from 10 degrees on |
| MotionProperties.SeekSpeedIsMonotone | main.c:225 | a larger error never gives a smaller speed |
| MotionProperties.SeekVelocityExamples | main.c:194-226 | target 180 at angle 170 gives -0.4; at 175 it gives -0.25; target 10 at 30 gives 0.4 |
| MotionProperties.SettleStartsDwell | main.c:201-209 | on a sample past priming, or the one completing it, that takes up a new request or is working with no deadline: within the tolerance, exactly one zero command is sent and the deadline is set half a second after `now` |
| MotionProperties.DwellEndsAfterDeadline | main.c:210-219 | within the tolerance and with a deadline, no command is sent, the deadline stays, and work ends with coarse sensitivity exactly when the deadline lies strictly before `now` |
| MotionProperties.ArrivalSendsOneStop | main.c:200-220 | two samples within the tolerance, more than half a second apart, leave the controller idle with coarse sensitivity after exactly one zero command |

## Left out

- `main` (argument parsing, device creation and attachment, the data interval, the ping loop
  and the cleanup with its final zero-velocity command): device I/O and process lifecycle.
- The mutex and the interleavings it does not prevent: each handler is one atomic method.
  `shutDown` takes no lock, and `turnTo` and the sample handler test `_terminated` before
  locking, so in the program a `shutDown` during a sample can leave `_terminated` and `_working`
  both set and let that sample still send a velocity. The invariant clause
  `terminated ==> !working` and `MotionProperties.TerminatedIsAbsorbing` hold only because the
  model makes every handler atomic.
- `signal`, `intHandler` and the device callbacks. `intHandler` and the detach and error
  callbacks only call `shutDown`, which is modelled. The two attach callbacks are empty.
- `printf` tracing: output only.
- `atan2`: it is an uninterpreted parameter. `AngleTracker.CalculateAngle` states the [0, 360]
  range only for an arc tangent that lies in [-180, 180] degrees, which the model cannot
  establish by itself.
- IEEE-754 rounding: doubles are exact reals. For example, the velocity comparison
  `currentVelocity != velocity` is exact.
- `gettimeofday`: it is the `now` parameter. `timeradd` and `timercmp` become integer addition
  and comparison of microseconds. The model does not capture that a deadline of exactly zero
  would read as unset.
- The integer overflow of `_rotations * 360`: rotation counts are unbounded integers.
- `_zCoord` is computed and kept, as the program does, but no property depends on it.
- `MotionProperties.SampleAngleIsContinuous`: it assumes the arc tangent lies in
  [-180, 180] degrees, the range of the library `atan2` in degrees, which the model cannot
  establish because `atan2` is a parameter.
