/** The controller's state and its three entry points as functions on that state: a pending
    target request (`turnTo`), termination (`shutDown`) and the per-sample step of the
    accelerometer handler. The motor and the accelerometer are part of the state: the motor's
    target velocity with the log of every velocity command, and the accelerometer's change
    trigger ("sensitivity"). */
module Motion {
  import opened CMath
  import opened MovingAverage
  import opened AngleTracker

  datatype Option<T> = None | Some(value: T)

  /** Change trigger that reports every change of acceleration. */
  const SensitivityFull: real := 0.0
  /** Change trigger that reports only large changes. */
  const SensitivityNone: real := 1.0
  /** Speed at (and beyond) the clamp distance. */
  const Velocity1: real := 0.4
  /** Creep speed just outside the tolerance. */
  const Velocity2: real := 0.1
  /** `targetRequest` value that means "no request pending". */
  const NoRequest: real := -999.0
  /** `target` before any request was taken up. */
  const InitialTarget: real := -1.0
  /** The settle dwell, in microseconds. */
  const HalfSecond: int := 500000
  /** Distance, in degrees, under which the platform counts as on target. */
  const Tolerance: real := 1.0
  /** Distance, in degrees, beyond which the speed no longer grows. */
  const SpeedClamp: real := 10.0

  /** The three axis filters and their outputs, the filtered coordinates. */
  datatype Filters = Filters(
    xWindow: seq<real>, yWindow: seq<real>, zWindow: seq<real>,
    xCoord: real, yCoord: real, zCoord: real)

  /** The motor as the controller sees it: its target velocity and every velocity command
      sent to it, oldest first. */
  datatype Motor = Motor(velocity: real, commands: seq<real>)

  /** Everything the handlers read or write. `timeout` is `None` where the program's
      timeval is cleared; times are in microseconds. `sensitivity` is the accelerometer's
      change trigger. */
  datatype State = State(
    terminated: bool,
    primed: bool,
    working: bool,
    prime: int,
    filters: Filters,
    angle: AngleState,
    targetRequest: real,
    target: real,
    timeout: Option<int>,
    sensitivity: real,
    motor: Motor)

  /** One accelerometer event: the three accelerations and the time of delivery. */
  datatype Sample = Sample(ax: real, ay: real, az: real, now: int)

  /** A filter window in static storage before any sample: five zeros. */
  function ZeroWindow(): (w: seq<real>)
    ensures |w| == FilterDepth
    ensures forall i :: 0 <= i < |w| ==> w[i] == 0.0
  {
    seq(FilterDepth, _ => 0.0)
  }

  /** The state set up before the handlers are installed; the accelerometer's change trigger
      and the motor's target velocity are whatever the devices start with. */
  function Initial(trigger0: real, velocity0: real): (r: State)
    ensures !r.terminated && !r.primed && !r.working && r.prime == FilterDepth
    ensures r.filters.xWindow == r.filters.yWindow == r.filters.zWindow == ZeroWindow()
    ensures r.angle.absolute == AbsoluteAngle(r.angle.relative, r.angle.rotations)
    ensures r.targetRequest == NoRequest && r.target == InitialTarget && r.timeout == None
    ensures r.sensitivity == trigger0 && r.motor.velocity == velocity0 && r.motor.commands == []
    ensures r.filters.xCoord == r.filters.yCoord == r.filters.zCoord == 0.0
    ensures r.angle == AngleState(0.0, 0, 0.0)
  {
    State(false, false, false, FilterDepth as int,
          Filters(ZeroWindow(), ZeroWindow(), ZeroWindow(), 0.0, 0.0, 0.0),
          AngleState(0.0, 0, 0.0),
          NoRequest, InitialTarget, None,
          trigger0, Motor(velocity0, []))
  }

  /** What holds of every reachable state. */
  predicate Inv(s: State)
  {
    |s.filters.xWindow| == FilterDepth && |s.filters.yWindow| == FilterDepth && |s.filters.zWindow| == FilterDepth &&
    0 <= s.prime <= FilterDepth as int &&
    (s.primed <==> s.prime == 0) &&
    (s.working ==> s.primed) &&
    (s.terminated ==> !s.working) &&
    (s.timeout.Some? ==> s.primed) &&
    (s.targetRequest == NoRequest || -FullTurn < s.targetRequest < FullTurn) &&
    Unwrapped(s.angle) &&
    (!s.primed ==> s.angle == AngleState(0.0, 0, 0.0) && s.target == InitialTarget && s.motor.commands == []) &&
    (s.motor.commands != [] ==> s.motor.velocity == s.motor.commands[|s.motor.commands| - 1])
  }

  /** `turnTo`: unless terminated, switch to full sensitivity and overwrite the pending request. */
  function TurnTo(s: State, angle: real): (r: State)
    ensures s.terminated ==> r == s
    ensures !s.terminated ==> r.sensitivity == SensitivityFull && r.targetRequest == FMod360(angle)
    ensures !s.terminated ==> r.targetRequest != NoRequest && -FullTurn < r.targetRequest < FullTurn
    ensures r.(sensitivity := s.sensitivity, targetRequest := s.targetRequest) == s
  {
    if s.terminated then s
    else s.(sensitivity := SensitivityFull, targetRequest := FMod360(angle))
  }

  /** `shutDown`: the first call stops work and terminates; later calls do nothing. */
  function ShutDown(s: State): (r: State)
    ensures r.terminated
    ensures s.terminated ==> r == s
    ensures !s.terminated ==> !r.working
    ensures r.(terminated := s.terminated, working := s.working) == s
  {
    if s.terminated then s
    else s.(working := false, terminated := true)
  }

  /** Each axis filter takes its new raw value; the coordinates become the filter outputs. */
  function Feed(f: Filters, ax: real, ay: real, az: real): (r: Filters)
    ensures |r.xWindow| == |f.xWindow| && |r.yWindow| == |f.yWindow| && |r.zWindow| == |f.zWindow|
    ensures |f.xWindow| > 0 ==> r.xWindow[|f.xWindow| - 1] == ax
    ensures |f.yWindow| > 0 ==> r.yWindow[|f.yWindow| - 1] == ay
    ensures |f.zWindow| > 0 ==> r.zWindow[|f.zWindow| - 1] == az
    ensures forall i :: 0 <= i < |f.xWindow| - 1 ==> r.xWindow[i] == f.xWindow[i + 1]
    ensures forall i :: 0 <= i < |f.yWindow| - 1 ==> r.yWindow[i] == f.yWindow[i + 1]
    ensures forall i :: 0 <= i < |f.zWindow| - 1 ==> r.zWindow[i] == f.zWindow[i + 1]
    ensures r.xCoord == Mean(r.xWindow) && r.yCoord == Mean(r.yWindow) && r.zCoord == Mean(r.zWindow)
  {
    var xw, yw, zw := Shift(f.xWindow, ax), Shift(f.yWindow, ay), Shift(f.zWindow, az);
    Filters(xw, yw, zw, Mean(xw), Mean(yw), Mean(zw))
  }

  /** The filters take one sample; nothing else changes. */
  function Filtered(s: State, ax: real, ay: real, az: real): (r: State)
    ensures r.filters == Feed(s.filters, ax, ay, az)
    ensures r.(filters := s.filters) == s
  {
    s.(filters := Feed(s.filters, ax, ay, az))
  }

  /** The priming counter counts down to zero and stays there. */
  function CountDown(s: State): (r: State)
    ensures s.prime > 0 ==> r.prime == s.prime - 1
    ensures s.prime <= 0 ==> r == s
    ensures r.(prime := s.prime) == s
  {
    if s.prime > 0 then s.(prime := s.prime - 1) else s
  }

  /** The heading of the current filtered coordinates. */
  function Heading(s: State, atan2: Atan2): real
  {
    CalculateAngle(atan2, s.filters.xCoord, s.filters.yCoord)
  }

  /** The end of priming: first heading, one rotation below zero when just past the wrap,
      coarse sensitivity. The unwrapped angle is left as it was. */
  function Initialize(s: State, atan2: Atan2): (r: State)
    ensures r.primed && r.sensitivity == SensitivityNone
    ensures r.angle.relative == Heading(s, atan2)
    ensures r.angle.rotations == -1 <==> Heading(s, atan2) > PrimeWrapLimit || s.angle.rotations == -1
    ensures Heading(s, atan2) <= PrimeWrapLimit ==> r.angle.rotations == s.angle.rotations
    ensures r.angle.absolute == s.angle.absolute
    ensures r.(angle := s.angle, sensitivity := s.sensitivity, primed := s.primed) == s
  {
    var relative := Heading(s, atan2);
    s.(angle := s.angle.(relative := relative,
                         rotations := if relative > PrimeWrapLimit then -1 else s.angle.rotations),
       sensitivity := SensitivityNone,
       primed := true)
  }

  /** Take up a pending request; one that differs from the held target starts motion. */
  function ConsumeRequest(s: State): (r: State)
    ensures r.targetRequest == NoRequest
    ensures s.targetRequest != NoRequest && s.targetRequest != s.target ==>
      r.target == s.targetRequest && r.timeout == None && r.sensitivity == SensitivityFull && r.working
    ensures s.targetRequest == NoRequest || s.targetRequest == s.target ==> r == s.(targetRequest := NoRequest)
    ensures r.(targetRequest := s.targetRequest, target := s.target, timeout := s.timeout,
               sensitivity := s.sensitivity, working := s.working) == s
  {
    if s.targetRequest == NoRequest then s
    else
      var started :=
        if s.target != s.targetRequest then
          s.(target := s.targetRequest, timeout := None, sensitivity := SensitivityFull, working := true)
        else s;
      started.(targetRequest := NoRequest)
  }

  /** New heading, rotation count and unwrapped angle. */
  function Track(s: State, atan2: Atan2): (r: State)
    ensures Unwrapped(r.angle) && r.angle.relative == Heading(s, atan2)
    ensures r.angle.rotations == UpdateRotations(s.angle.relative, Heading(s, atan2), s.angle.rotations)
    ensures r.(angle := s.angle) == s
  {
    s.(angle := Advance(s.angle, Heading(s, atan2)))
  }

  /** The clamped distance between target and angle. */
  function Distance(target: real, absolute: real): (d: real)
    ensures 0.0 <= d <= SpeedClamp
    ensures d == SpeedClamp <==> Abs(target - absolute) >= SpeedClamp
    ensures d < SpeedClamp ==> d == Abs(target - absolute)
  {
    FMin(Abs(target - absolute), SpeedClamp)
  }

  /** The motor's direction: +1 exactly when the target lies below the angle. */
  function Direction(target: real, absolute: real): (d: int)
    ensures d == 1 || d == -1
    ensures d == 1 <==> target < absolute
  {
    if target < absolute then 1 else -1
  }

  /** Speed for a clamped distance: a straight line from the creep speed at distance 0 to
      `Velocity1` at the clamp. */
  function Speed(distance: real): (v: real)
    requires 0.0 <= distance <= SpeedClamp
    ensures Velocity2 <= v <= Velocity1
    ensures v == Velocity1 <==> distance == SpeedClamp
    ensures distance >= Tolerance ==> v >= Velocity2 + (Velocity1 - Velocity2) / SpeedClamp
  {
    distance * (Velocity1 - Velocity2) / SpeedClamp + Velocity2
  }

  /** The velocity commanded while seeking: the speed, signed by the direction. */
  function SeekVelocity(target: real, absolute: real): (v: real)
    ensures v > 0.0 <==> target < absolute
    ensures Abs(v) == Speed(Distance(target, absolute))
  {
    var speed := Speed(Distance(target, absolute));
    if Direction(target, absolute) == 1 then speed else -speed
  }

  /** The motor's `setTargetVelocity`. */
  function SetTargetVelocity(m: Motor, v: real): (r: Motor)
    ensures r.velocity == v && r.commands == m.commands + [v]
  {
    Motor(v, m.commands + [v])
  }

  /** Velocity decision and settle dwell, for a state that is working. */
  function Drive(s: State, now: int): (r: State)
    ensures r.motor.commands == s.motor.commands || r.motor.commands == s.motor.commands + [r.motor.velocity]
    ensures r.motor.commands == s.motor.commands ==> r.motor == s.motor
    ensures Distance(s.target, s.angle.absolute) < Tolerance ==> r.motor.velocity == 0.0 || r.motor == s.motor
    ensures Distance(s.target, s.angle.absolute) >= Tolerance ==>
      r.working == s.working && r.timeout == None && r.motor.velocity == SeekVelocity(s.target, s.angle.absolute)
    ensures Distance(s.target, s.angle.absolute) >= Tolerance ==>
      (r.motor == s.motor <==> s.motor.velocity == SeekVelocity(s.target, s.angle.absolute))
    ensures Distance(s.target, s.angle.absolute) < Tolerance && s.timeout.None? ==>
      r.motor.velocity == 0.0 && r.motor.commands == s.motor.commands + [0.0] &&
      r.timeout == Some(now + HalfSecond) && r.working == s.working && r.sensitivity == s.sensitivity
    ensures Distance(s.target, s.angle.absolute) < Tolerance && s.timeout.Some? ==>
      r.motor == s.motor && r.timeout == s.timeout &&
      (r.working <==> s.working && now <= s.timeout.value) &&
      r.sensitivity == (if s.timeout.value < now then SensitivityNone else s.sensitivity)
    ensures r.working ==> s.working
    ensures r.(motor := s.motor, timeout := s.timeout, sensitivity := s.sensitivity, working := s.working) == s
  {
    if Distance(s.target, s.angle.absolute) < Tolerance then
      if s.timeout.None? then
        s.(motor := SetTargetVelocity(s.motor, 0.0), timeout := Some(now + HalfSecond))
      else if s.timeout.value < now then
        s.(sensitivity := SensitivityNone, working := false)
      else
        s
    else
      var v := SeekVelocity(s.target, s.angle.absolute);
      var cleared := s.(timeout := None);
      if s.motor.velocity != v then cleared.(motor := SetTargetVelocity(s.motor, v)) else cleared
  }

  /** `onAccelerometer_AccelerationChange`: one sample, handled atomically. */
  function OnSample(s: State, atan2: Atan2, ax: real, ay: real, az: real, now: int): (r: State)
    ensures s.terminated ==> r == s
    ensures r.terminated == s.terminated
    ensures r.motor.commands == s.motor.commands || r.motor.commands == s.motor.commands + [r.motor.velocity]
  {
    if s.terminated then s
    else
      var f := CountDown(Filtered(s, ax, ay, az));
      if !f.primed && f.prime > 0 then f
      else
        var p := if f.primed then f else Initialize(f, atan2);
        var t := Track(ConsumeRequest(p), atan2);
        if t.working then Drive(t, now) else t
  }

  /** The raw values of one axis over a run of samples. */
  function Xs(samples: seq<Sample>): (r: seq<real>)
    ensures |r| == |samples|
  {
    seq(|samples|, i requires 0 <= i < |samples| => samples[i].ax)
  }

  function Ys(samples: seq<Sample>): (r: seq<real>)
    ensures |r| == |samples|
  {
    seq(|samples|, i requires 0 <= i < |samples| => samples[i].ay)
  }

  function Zs(samples: seq<Sample>): (r: seq<real>)
    ensures |r| == |samples|
  {
    seq(|samples|, i requires 0 <= i < |samples| => samples[i].az)
  }

  /** Samples handled one after the other, oldest first. */
  function Run(s: State, atan2: Atan2, samples: seq<Sample>): State
    decreases |samples|
  {
    if samples == [] then s
    else
      var last := samples[|samples| - 1];
      OnSample(Run(s, atan2, samples[..|samples| - 1]), atan2, last.ax, last.ay, last.az, last.now)
  }

  lemma InitialInv(trigger0: real, velocity0: real)
    ensures Inv(Initial(trigger0, velocity0))
  {
  }

  lemma TurnToPreservesInv(s: State, angle: real)
    requires Inv(s)
    ensures Inv(TurnTo(s, angle))
  {
  }

  lemma ShutDownPreservesInv(s: State)
    requires Inv(s)
    ensures Inv(ShutDown(s))
  {
  }

  lemma OnSamplePreservesInv(s: State, atan2: Atan2, ax: real, ay: real, az: real, now: int)
    requires Inv(s)
    ensures Inv(OnSample(s, atan2, ax, ay, az, now))
  {
    if !s.terminated {
      var f := CountDown(Filtered(s, ax, ay, az));
      if f.primed || f.prime == 0 {
        var p := if f.primed then f else Initialize(f, atan2);
        var t := Track(ConsumeRequest(p), atan2);
        assert Inv(t);
      }
    }
  }
}
