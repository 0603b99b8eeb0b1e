/** What the controller's handlers promise, stated over the state functions of `Motion`. */
module MotionProperties {
  import opened CMath
  import opened MovingAverage
  import opened AngleTracker
  import opened Motion

  /** Two states agree on termination and on everything the filters produce. */
  predicate SameFilters(a: State, b: State)
  {
    a.terminated == b.terminated && a.filters == b.filters
  }

  // ---------------------------------------------------------------------------------------
  // Termination

  /** `shutDown` leaves the controller terminated and idle, and a second call changes nothing. */
  lemma ShutDownIsIdempotent(s: State)
    requires Inv(s)
    ensures ShutDown(s).terminated && !ShutDown(s).working
    ensures ShutDown(ShutDown(s)) == ShutDown(s)
    ensures s.terminated ==> ShutDown(s) == s
    ensures !s.terminated ==> ShutDown(s) == s.(terminated := true, working := false)
  {
  }

  /** Once terminated, no handler changes anything, however many samples arrive. */
  lemma {:induction false} TerminatedIsAbsorbing(s: State, atan2: Atan2, angle: real, samples: seq<Sample>)
    requires s.terminated
    ensures TurnTo(s, angle) == s
    ensures ShutDown(s) == s
    ensures Run(s, atan2, samples) == s
  {
    if samples != [] {
      TerminatedIsAbsorbing(s, atan2, angle, samples[..|samples| - 1]);
    }
  }

  /** The stages past the filters leave the filters and the termination flag alone. */
  lemma StagesKeepFilters(s: State, atan2: Atan2, now: int)
    ensures SameFilters(Initialize(s, atan2), s)
    ensures SameFilters(ConsumeRequest(s), s)
    ensures SameFilters(Track(s, atan2), s)
    ensures SameFilters(Drive(s, now), s)
  {
  }

  /** A sample that is handled feeds every filter and leaves the termination flag alone. */
  lemma SampleFeedsFilters(s: State, atan2: Atan2, ax: real, ay: real, az: real, now: int)
    requires !s.terminated
    ensures var t := OnSample(s, atan2, ax, ay, az, now);
      !t.terminated && t.filters == Feed(s.filters, ax, ay, az)
  {
    var f := CountDown(Filtered(s, ax, ay, az));
    if f.primed || f.prime == 0 {
      var p := if f.primed then f else Initialize(f, atan2);
      StagesKeepFilters(f, atan2, now);
      var c := ConsumeRequest(p);
      StagesKeepFilters(p, atan2, now);
      var t := Track(c, atan2);
      StagesKeepFilters(c, atan2, now);
      StagesKeepFilters(t, atan2, now);
    }
  }

  /** The sample handler never terminates the controller by itself. */
  lemma {:induction false} RunDoesNotTerminate(s: State, atan2: Atan2, samples: seq<Sample>)
    requires !s.terminated
    ensures !Run(s, atan2, samples).terminated
  {
    if samples != [] {
      var last := samples[|samples| - 1];
      RunDoesNotTerminate(s, atan2, samples[..|samples| - 1]);
      SampleFeedsFilters(Run(s, atan2, samples[..|samples| - 1]), atan2, last.ax, last.ay, last.az, last.now);
    }
  }

  /** Every state reached by samples keeps the invariant. */
  lemma {:induction false} RunPreservesInv(s: State, atan2: Atan2, samples: seq<Sample>)
    requires Inv(s)
    ensures Inv(Run(s, atan2, samples))
  {
    if samples != [] {
      var last := samples[|samples| - 1];
      RunPreservesInv(s, atan2, samples[..|samples| - 1]);
      OnSamplePreservesInv(Run(s, atan2, samples[..|samples| - 1]), atan2, last.ax, last.ay, last.az, last.now);
    }
  }

  // ---------------------------------------------------------------------------------------
  // Target requests

  /** Unless terminated, `turnTo` stores `fmod(angle, 360)` as the pending request and selects
      full sensitivity; the stored value never collides with the "no request" sentinel. */
  lemma TurnToStoresRequest(s: State, angle: real)
    requires !s.terminated
    ensures TurnTo(s, angle) == s.(sensitivity := SensitivityFull, targetRequest := FMod360(angle))
    ensures TurnTo(s, angle).targetRequest != NoRequest
    ensures 0.0 <= angle ==> 0.0 <= TurnTo(s, angle).targetRequest < FullTurn
    ensures angle < 0.0 ==> -FullTurn < TurnTo(s, angle).targetRequest <= 0.0
  {
  }

  /** A second request before the first is taken up replaces it. */
  lemma LastRequestWins(s: State, first: real, second: real)
    ensures TurnTo(TurnTo(s, first), second) == TurnTo(s, second)
  {
  }

  /** Of two requests made before a sample, the sample takes up the second. */
  lemma LastRequestIsTakenUp(s: State, atan2: Atan2, first: real, second: real, ax: real, ay: real, az: real, now: int)
    requires Inv(s) && !s.terminated && s.primed
    ensures var t := OnSample(TurnTo(TurnTo(s, first), second), atan2, ax, ay, az, now);
      t.targetRequest == NoRequest && t.target == FMod360(second)
  {
    LastRequestWins(s, first, second);
  }

  /** After every sample past priming no request is pending. A pending request that differs
      from the held target becomes the target and starts motion with full sensitivity (the same
      sample may already have started the dwell); otherwise the target is kept. */
  lemma SampleTakesUpRequest(s: State, atan2: Atan2, ax: real, ay: real, az: real, now: int)
    requires Inv(s) && !s.terminated && (s.primed || s.prime == 1)
    ensures var t := OnSample(s, atan2, ax, ay, az, now);
      t.targetRequest == NoRequest &&
      (s.targetRequest != NoRequest && s.targetRequest != s.target ==>
        t.target == s.targetRequest && t.working && t.sensitivity == SensitivityFull &&
        (t.timeout == None || t.timeout == Some(now + HalfSecond))) &&
      (s.targetRequest == NoRequest || s.targetRequest == s.target ==> t.target == s.target)
  {
  }

  /** A request equal to the held target has the same effect as no request at all. */
  lemma RequestForHeldTargetIsIgnored(s: State, atan2: Atan2, ax: real, ay: real, az: real, now: int)
    requires !s.terminated && (s.primed || s.prime <= 1)
    requires s.targetRequest == s.target
    ensures OnSample(s, atan2, ax, ay, az, now) == OnSample(s.(targetRequest := NoRequest), atan2, ax, ay, az, now)
  {
    var  f := CountDown(Filtered(s, ax, ay, az));
    var f' := CountDown(Filtered(s.(targetRequest := NoRequest), ax, ay, az));
    assert f' == f.(targetRequest := NoRequest);
    var p := if f.primed then f else Initialize(f, atan2);
    var p' := if f'.primed then f' else Initialize(f', atan2);
    assert p' == p.(targetRequest := NoRequest);
    assert ConsumeRequest(p) == ConsumeRequest(p');
  }

  /** The initial target -1 doubles as a value `fmod` can return: a request for -1 degrees
      (or -361, ...) made while the initial target is held is taken up without any motion. */
  lemma RequestForInitialTargetIsIgnored(s: State, atan2: Atan2, ax: real, ay: real, az: real, now: int)
    requires Inv(s) && !s.terminated && s.primed && !s.working && s.target == InitialTarget
    ensures var t := OnSample(TurnTo(s, -1.0), atan2, ax, ay, az, now);
      !t.working && t.target == InitialTarget && t.motor.commands == s.motor.commands && t.targetRequest == NoRequest
  {
    FMod360Unique(-1.0, 0, -1.0);
  }

  // ---------------------------------------------------------------------------------------
  // Filters and priming

  /** Each filter window holds the last `FilterDepth` raw values of its axis, and each
      coordinate is the output of its filter. */
  lemma {:induction false} RunWindows(s: State, atan2: Atan2, samples: seq<Sample>)
    requires !s.terminated
    ensures var t := Run(s, atan2, samples);
      t.filters.xWindow == (s.filters.xWindow + Xs(samples))[|samples|..] &&
      t.filters.yWindow == (s.filters.yWindow + Ys(samples))[|samples|..] &&
      t.filters.zWindow == (s.filters.zWindow + Zs(samples))[|samples|..]
    ensures samples != [] ==> var t := Run(s, atan2, samples);
      t.filters.xCoord == Mean(t.filters.xWindow) && t.filters.yCoord == Mean(t.filters.yWindow) && t.filters.zCoord == Mean(t.filters.zWindow)
  {
    if samples != [] {
      var n := |samples| - 1;
      var front := samples[..n];
      var last := samples[n];
      RunWindows(s, atan2, front);
      RunDoesNotTerminate(s, atan2, front);
      SampleFeedsFilters(Run(s, atan2, front), atan2, last.ax, last.ay, last.az, last.now);
      AxesSnoc(samples);
      ShiftSuffix(s.filters.xWindow, Xs(front), last.ax);
      ShiftSuffix(s.filters.yWindow, Ys(front), last.ay);
      ShiftSuffix(s.filters.zWindow, Zs(front), last.az);
    }
  }

  /** The raw values of a run extended by one sample. */
  lemma AxesSnoc(samples: seq<Sample>)
    requires samples != []
    ensures var n := |samples| - 1;
      Xs(samples) == Xs(samples[..n]) + [samples[n].ax] &&
      Ys(samples) == Ys(samples[..n]) + [samples[n].ay] &&
      Zs(samples) == Zs(samples[..n]) + [samples[n].az]
  {
    var n := |samples| - 1;
    assert Xs(samples) == Xs(samples[..n]) + [samples[n].ax];
    assert Ys(samples) == Ys(samples[..n]) + [samples[n].ay];
    assert Zs(samples) == Zs(samples[..n]) + [samples[n].az];
  }

  /** Shifting the last values of `w + xs` by `v` gives the last values of `w + xs + [v]`. */
  lemma ShiftSuffix(w: seq<real>, xs: seq<real>, v: real)
    ensures Shift((w + xs)[|xs|..], v) == (w + (xs + [v]))[|xs| + 1..]
  {
    assert (w + xs + [v]) == w + (xs + [v]);
  }

  /** Once the run is at least as long as the window, the window holds only values of the run. */
  lemma WindowOfLongRun(w: seq<real>, xs: seq<real>)
    requires |w| == FilterDepth <= |xs|
    ensures (w + xs)[|xs|..] == xs[|xs| - FilterDepth..]
  {
  }

  /** Once at least `FilterDepth` samples have arrived, the x and y windows hold exactly the
      last `FilterDepth` raw values of their axes, and each coordinate is their mean. */
  lemma FilterOutputIsMeanOfLastSamples(s: State, atan2: Atan2, samples: seq<Sample>)
    requires !s.terminated && |s.filters.xWindow| == FilterDepth && |s.filters.yWindow| == FilterDepth
    requires |samples| >= FilterDepth
    ensures var t := Run(s, atan2, samples);
      t.filters.xWindow == Xs(samples)[|samples| - FilterDepth..] &&
      t.filters.yWindow == Ys(samples)[|samples| - FilterDepth..] &&
      t.filters.xCoord == Mean(Xs(samples)[|samples| - FilterDepth..]) &&
      t.filters.yCoord == Mean(Ys(samples)[|samples| - FilterDepth..])
  {
    RunWindows(s, atan2, samples);
    WindowOfLongRun(s.filters.xWindow, Xs(samples));
    WindowOfLongRun(s.filters.yWindow, Ys(samples));
  }

  /** The x coordinate does not depend on the order of the last `FilterDepth` raw values. */
  lemma XCoordIgnoresOrder(s: State, atan2: Atan2, samples: seq<Sample>, xs: seq<real>)
    requires !s.terminated && |s.filters.xWindow| == FilterDepth && |s.filters.yWindow| == FilterDepth
    requires |samples| >= FilterDepth
    requires multiset(xs) == multiset(Xs(samples)[|samples| - FilterDepth..])
    ensures Run(s, atan2, samples).filters.xCoord == Mean(xs)
  {
    FilterOutputIsMeanOfLastSamples(s, atan2, samples);
    MeanPermutation(xs, Xs(samples)[|samples| - FilterDepth..]);
  }

  /** The y coordinate does not depend on the order of the last `FilterDepth` raw values. */
  lemma YCoordIgnoresOrder(s: State, atan2: Atan2, samples: seq<Sample>, ys: seq<real>)
    requires !s.terminated && |s.filters.xWindow| == FilterDepth && |s.filters.yWindow| == FilterDepth
    requires |samples| >= FilterDepth
    requires multiset(ys) == multiset(Ys(samples)[|samples| - FilterDepth..])
    ensures Run(s, atan2, samples).filters.yCoord == Mean(ys)
  {
    FilterOutputIsMeanOfLastSamples(s, atan2, samples);
    MeanPermutation(ys, Ys(samples)[|samples| - FilterDepth..]);
  }

  /** Samples 1 to 4 only feed the filters and count down. */
  lemma PrimingSampleOnlyFilters(s: State, atan2: Atan2, ax: real, ay: real, az: real, now: int)
    requires Inv(s) && !s.terminated && !s.primed && s.prime > 1
    ensures OnSample(s, atan2, ax, ay, az, now) == Filtered(s, ax, ay, az).(prime := s.prime - 1)
  {
  }

  /** The sample that completes priming sets the first heading; the rotation count becomes -1
      exactly when that heading is past 270 and stays 0 otherwise; sensitivity turns coarse
      unless a pending request starts motion in the same sample. */
  lemma PrimingCompletes(s: State, atan2: Atan2, ax: real, ay: real, az: real, now: int)
    requires Inv(s) && !s.terminated && !s.primed && s.prime == 1
    ensures var t := OnSample(s, atan2, ax, ay, az, now);
      var heading := CalculateAngle(atan2, t.filters.xCoord, t.filters.yCoord);
      t.primed && t.prime == 0 &&
      t.angle.relative == heading &&
      t.angle.rotations == (if heading > PrimeWrapLimit then -1 else 0) &&
      t.angle.absolute == AbsoluteAngle(heading, t.angle.rotations) &&
      t.targetRequest == NoRequest &&
      t.sensitivity == (if s.targetRequest != NoRequest && s.targetRequest != s.target then SensitivityFull else SensitivityNone)
  {
  }

  /** A sample before priming completes: the counter moves down by one; only the last
      priming sample leaves the controller primed. */
  lemma PrimingStep(s: State, atan2: Atan2, ax: real, ay: real, az: real, now: int)
    requires Inv(s) && !s.terminated && !s.primed
    ensures OnSample(s, atan2, ax, ay, az, now).primed <==> s.prime == 1
    ensures s.prime > 1 ==> OnSample(s, atan2, ax, ay, az, now) == Filtered(s, ax, ay, az).(prime := s.prime - 1)
  {
  }

  /** A primed controller stays primed. */
  lemma PrimedStaysPrimed(s: State, atan2: Atan2, ax: real, ay: real, az: real, now: int)
    requires s.primed
    ensures OnSample(s, atan2, ax, ay, az, now).primed
  {
  }

  /** Priming takes exactly `prime` samples; until then only the filters and the counter change. */
  lemma {:induction false} RunPriming(s: State, atan2: Atan2, samples: seq<Sample>)
    requires Inv(s) && !s.terminated && !s.primed
    ensures Run(s, atan2, samples).primed <==> |samples| >= s.prime
    ensures |samples| < s.prime ==> var t := Run(s, atan2, samples);
      t.prime == s.prime - |samples| &&
      t.(filters := s.filters, prime := s.prime) == s
  {
    if samples != [] {
      var n := |samples| - 1;
      var front := samples[..n];
      var last := samples[n];
      RunPriming(s, atan2, front);
      RunPreservesInv(s, atan2, front);
      RunDoesNotTerminate(s, atan2, front);
      var u := Run(s, atan2, front);
      if u.primed {
        PrimedStaysPrimed(u, atan2, last.ax, last.ay, last.az, last.now);
      } else {
        PrimingStep(u, atan2, last.ax, last.ay, last.az, last.now);
      }
    }
  }

  /** From the initial state, the fifth sample is the first that is primed. */
  lemma PrimedAfterFiveSamples(trigger0: real, velocity0: real, atan2: Atan2, samples: seq<Sample>)
    ensures Run(Initial(trigger0, velocity0), atan2, samples).primed <==> |samples| >= FilterDepth
  {
    InitialInv(trigger0, velocity0);
    RunPriming(Initial(trigger0, velocity0), atan2, samples);
  }

  // ---------------------------------------------------------------------------------------
  // Angle tracking

  /** After a sample past priming the rotation count moves by one exactly when the heading
      jumps by more than the wrap threshold (up when it fell, down when it rose), and the
      unwrapped angle is the heading plus 360 per rotation. */
  lemma SampleUnwrapsAngle(s: State, atan2: Atan2, ax: real, ay: real, az: real, now: int)
    requires Inv(s) && !s.terminated && s.primed
    ensures var t := OnSample(s, atan2, ax, ay, az, now);
      var delta := s.angle.relative - t.angle.relative;
      t.angle.relative == CalculateAngle(atan2, t.filters.xCoord, t.filters.yCoord) &&
      (t.angle.rotations == s.angle.rotations + 1 <==> Abs(delta) > WrapThreshold && delta >= 0.0) &&
      (t.angle.rotations == s.angle.rotations - 1 <==> Abs(delta) > WrapThreshold && delta < 0.0) &&
      (t.angle.rotations == s.angle.rotations <==> Abs(delta) <= WrapThreshold) &&
      t.angle.absolute == t.angle.relative + (t.angle.rotations * 360) as real
  {
  }

  /** For an arc tangent within [-180, 180] degrees, the unwrapped angle moves by at most the
      wrap threshold per sample past priming: there is no silent discontinuity. */
  lemma SampleAngleIsContinuous(s: State, atan2: Atan2, ax: real, ay: real, az: real, now: int)
    requires Inv(s) && !s.terminated && s.primed
    requires forall x, y :: -HalfTurn <= atan2(x, y) <= HalfTurn
    requires 0.0 <= s.angle.relative <= FullTurn
    ensures var t := OnSample(s, atan2, ax, ay, az, now);
      Abs(t.angle.absolute - s.angle.absolute) <= WrapThreshold
  {
    var t := OnSample(s, atan2, ax, ay, az, now);
    SampleUnwrapsAngle(s, atan2, ax, ay, az, now);
    assert 0.0 <= t.angle.relative <= FullTurn;
    UnwrapIsContinuous(s.angle.relative, t.angle.relative, s.angle.rotations);
  }

  // ---------------------------------------------------------------------------------------
  // Motor commands

  /** While not working (and no new target arrives), a sample past priming only tracks the
      angle: no motor command, and timeout and sensitivity are untouched. */
  lemma IdleSampleIssuesNoCommand(s: State, atan2: Atan2, ax: real, ay: real, az: real, now: int)
    requires Inv(s) && !s.terminated && s.primed && !s.working
    requires s.targetRequest == NoRequest || s.targetRequest == s.target
    ensures var t := OnSample(s, atan2, ax, ay, az, now);
      !t.working && t.target == s.target &&
      t.motor.commands == s.motor.commands && t.motor.velocity == s.motor.velocity &&
      t.timeout == s.timeout && t.sensitivity == s.sensitivity
  {
  }

  /** A pending request that differs from the held target: taking it up starts motion. */
  predicate StartsWork(s: State)
  {
    s.targetRequest != NoRequest && s.targetRequest != s.target
  }

  /** On a sample that reaches the motion decision (priming is over, or this sample completes
      it) while working, or while a new request starts work: outside the tolerance, the velocity
      is re-sent only when it differs from the motor's current target velocity, and the dwell
      deadline is cleared. */
  lemma SeekingSample(s: State, atan2: Atan2, ax: real, ay: real, az: real, now: int)
    requires Inv(s) && !s.terminated && (s.primed || s.prime == 1)
    requires s.working || StartsWork(s)
    ensures var t := OnSample(s, atan2, ax, ay, az, now);
      var v := SeekVelocity(t.target, t.angle.absolute);
      Distance(t.target, t.angle.absolute) >= Tolerance ==>
        t.working && t.timeout == None && t.motor.velocity == v &&
        t.motor.commands == (if s.motor.velocity != v then s.motor.commands + [v] else s.motor.commands)
  {
  }

  /** Outside the tolerance the speed lies between 0.13 and 0.4, and is 0.4 from 10 degrees on. */
  lemma SeekSpeedBounds(target: real, absolute: real)
    requires Distance(target, absolute) >= Tolerance
    ensures 0.13 <= Abs(SeekVelocity(target, absolute)) <= Velocity1
    ensures Abs(target - absolute) >= SpeedClamp ==> Abs(SeekVelocity(target, absolute)) == Velocity1
  {
  }

  /** A larger error never gives a smaller speed. */
  lemma SeekSpeedIsMonotone(target: real, near: real, far: real)
    requires Abs(target - near) <= Abs(target - far)
    ensures Abs(SeekVelocity(target, near)) <= Abs(SeekVelocity(target, far))
  {
  }

  /** Target 180 with the angle at 170: clamped distance 10, full speed, negative direction. */
  lemma SeekVelocityExamples()
    ensures SeekVelocity(180.0, 170.0) == -0.4
    ensures SeekVelocity(180.0, 175.0) == -0.25
    ensures SeekVelocity(10.0, 30.0) == 0.4
  {
  }

  /** On a sample that reaches the motion decision while working with no deadline, or while a
      new request starts work: within the tolerance, exactly one zero-velocity command is sent
      and the deadline is set half a second ahead. */
  lemma SettleStartsDwell(s: State, atan2: Atan2, ax: real, ay: real, az: real, now: int)
    requires Inv(s) && !s.terminated && (s.primed || s.prime == 1)
    requires StartsWork(s) || (s.working && s.timeout == None)
    ensures var t := OnSample(s, atan2, ax, ay, az, now);
      Distance(t.target, t.angle.absolute) < Tolerance ==>
        t.working && t.motor.commands == s.motor.commands + [0.0] && t.motor.velocity == 0.0 &&
        t.timeout == Some(now + HalfSecond) &&
        t.sensitivity == (if StartsWork(s) then SensitivityFull else s.sensitivity)
  {
  }

  /** Within the tolerance with a deadline set, no command is sent; the controller stops working,
      with coarse sensitivity, once the deadline lies strictly before `now`; the deadline stays. */
  lemma DwellEndsAfterDeadline(s: State, atan2: Atan2, ax: real, ay: real, az: real, now: int)
    requires Inv(s) && !s.terminated && s.primed
    requires ConsumeRequest(s).working && ConsumeRequest(s).timeout.Some?
    ensures var t := OnSample(s, atan2, ax, ay, az, now);
      var deadline := s.timeout.value;
      Distance(t.target, t.angle.absolute) < Tolerance ==>
        t.motor.commands == s.motor.commands && t.motor.velocity == s.motor.velocity && t.timeout == s.timeout &&
        (t.working <==> !(deadline < now)) &&
        t.sensitivity == (if deadline < now then SensitivityNone else s.sensitivity)
  {
  }

  /** Two samples within the tolerance, more than half a second apart, after the motion: the
      controller is idle again, with coarse sensitivity, after exactly one (zero) command. */
  lemma ArrivalSendsOneStop(s: State, atan2: Atan2, a: Sample, b: Sample)
    requires Inv(s) && !s.terminated && s.primed && s.working
    requires s.timeout == None && s.targetRequest == NoRequest
    requires var t := OnSample(s, atan2, a.ax, a.ay, a.az, a.now);
      Distance(t.target, t.angle.absolute) < Tolerance
    requires a.now + HalfSecond < b.now
    requires var t := OnSample(s, atan2, a.ax, a.ay, a.az, a.now);
      var u := OnSample(t, atan2, b.ax, b.ay, b.az, b.now);
      Distance(u.target, u.angle.absolute) < Tolerance
    ensures var t := OnSample(s, atan2, a.ax, a.ay, a.az, a.now);
      var u := OnSample(t, atan2, b.ax, b.ay, b.az, b.now);
      !u.working && u.motor.commands == s.motor.commands + [0.0] && u.sensitivity == SensitivityNone &&
      u.target == s.target
  {
    var t := OnSample(s, atan2, a.ax, a.ay, a.az, a.now);
    SettleStartsDwell(s, atan2, a.ax, a.ay, a.az, a.now);
    OnSamplePreservesInv(s, atan2, a.ax, a.ay, a.az, a.now);
    DwellEndsAfterDeadline(t, atan2, b.ax, b.ay, b.az, b.now);
  }
}
