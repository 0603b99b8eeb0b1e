/** The controller as the program keeps it: global state updated in place by three handlers.
    Each method is one locked critical section of the program, taken as atomic. */
module Spin {
  import opened CMath
  import opened MovingAverage
  import opened AngleTracker
  import Motion

  class Controller {
    /** The arc tangent in degrees, which `calculateAngle` uses and which is not modelled. */
    const atan2: Atan2

    var terminated: bool
    var primed: bool
    var working: bool
    var prime: int
    const xFilter: array<real>
    const yFilter: array<real>
    const zFilter: array<real>
    var xCoord: real
    var yCoord: real
    var zCoord: real
    var absoluteAngle: real
    var relativeAngle: real
    var rotations: int
    var targetRequest: real
    var target: real
    var timeout: Motion.Option<int>
    /** The accelerometer's change trigger. */
    var sensitivity: real
    /** The motor's target velocity, as `getTargetVelocity` reports it. */
    var motorVelocity: real
    /** Every velocity sent with `setTargetVelocity`, oldest first. */
    var commands: seq<real>

    /** The fields as one value. */
    function Snapshot(): Motion.State
      reads this, xFilter, yFilter, zFilter
    {
      Motion.State(terminated, primed, working, prime,
                   Motion.Filters(xFilter[..], yFilter[..], zFilter[..], xCoord, yCoord, zCoord),
                   AngleState(relativeAngle, rotations, absoluteAngle),
                   targetRequest, target, timeout,
                   sensitivity, Motion.Motor(motorVelocity, commands))
    }

    ghost predicate Valid()
      reads this, xFilter, yFilter, zFilter
    {
      xFilter != yFilter && yFilter != zFilter && xFilter != zFilter &&
      Motion.Inv(Snapshot())
    }

    /** The initial values the program assigns before installing its handlers. */
    constructor (atan2: Atan2, trigger0: real, velocity0: real)
      ensures Valid()
      ensures fresh(xFilter) && fresh(yFilter) && fresh(zFilter)
      ensures this.atan2 == atan2
      ensures Snapshot() == Motion.Initial(trigger0, velocity0)
    {
      this.atan2 := atan2;
      terminated := false;
      primed := false;
      working := false;
      prime := FilterDepth;
      xFilter := new real[FilterDepth](_ => 0.0);
      yFilter := new real[FilterDepth](_ => 0.0);
      zFilter := new real[FilterDepth](_ => 0.0);
      xCoord, yCoord, zCoord := 0.0, 0.0, 0.0;
      absoluteAngle := 0.0;
      relativeAngle := 0.0;
      targetRequest := Motion.NoRequest;
      target := Motion.InitialTarget;
      rotations := 0;
      timeout := Motion.None;
      sensitivity := trigger0;
      motorVelocity := velocity0;
      commands := [];
      new;
      assert xFilter[..] == yFilter[..] == zFilter[..] == Motion.ZeroWindow();
    }

    /** `setAcceleratorSensitivity` */
    method SetAcceleratorSensitivity(trigger: real)
      modifies this`sensitivity
      ensures sensitivity == trigger
    {
      sensitivity := trigger;
    }

    /** The motor's `setTargetVelocity` */
    method SetTargetVelocity(v: real)
      modifies this`motorVelocity, this`commands
      ensures motorVelocity == v
      ensures commands == old(commands) + [v]
    {
      motorVelocity := v;
      commands := commands + [v];
    }

    /** `shutDown` */
    method ShutDown()
      requires Valid()
      modifies this
      ensures Valid()
      ensures Snapshot() == Motion.ShutDown(old(Snapshot()))
    {
      Motion.ShutDownPreservesInv(Snapshot());
      if terminated {
        return;
      }
      working := false;
      terminated := true;
    }

    /** `turnTo` */
    method TurnTo(angle: real)
      requires Valid()
      modifies this
      ensures Valid()
      ensures Snapshot() == Motion.TurnTo(old(Snapshot()), angle)
    {
      Motion.TurnToPreservesInv(Snapshot(), angle);
      if terminated {
        return;
      }
      SetAcceleratorSensitivity(Motion.SensitivityFull);
      targetRequest := FMod360(angle);
    }

    /** `onAccelerometer_AccelerationChange`, with the time of delivery as `now`. */
    method OnSample(ax: real, ay: real, az: real, now: int)
      requires Valid()
      modifies this, xFilter, yFilter, zFilter
      ensures Valid()
      ensures Snapshot() == Motion.OnSample(old(Snapshot()), atan2, ax, ay, az, now)
    {
      ghost var s := Snapshot();
      Motion.OnSamplePreservesInv(s, atan2, ax, ay, az, now);
      if terminated {
        return;
      }

      FilterSample(ax, ay, az);
      CountDown();
      if !primed {
        if prime > 0 {
          return;
        }
        Initialize();
      }
      TakeRequest();
      UpdateAngle();
      if !working {
        return;
      }
      Drive(now);
    }

    /** The three axis filters (the first part of the sample handler). */
    method FilterSample(ax: real, ay: real, az: real)
      requires xFilter.Length == FilterDepth && yFilter.Length == FilterDepth && zFilter.Length == FilterDepth
      requires xFilter != yFilter && yFilter != zFilter && xFilter != zFilter
      modifies this, xFilter, yFilter, zFilter
      ensures Snapshot() == Motion.Filtered(old(Snapshot()), ax, ay, az)
    {
      ghost var before := Snapshot();
      ghost var xs, ys, zs := xFilter[..], yFilter[..], zFilter[..];
      xCoord := ProcessFilter(xFilter, ax);
      assert yFilter[..] == ys && zFilter[..] == zs;
      yCoord := ProcessFilter(yFilter, ay);
      assert xFilter[..] == Shift(xs, ax) && zFilter[..] == zs;
      zCoord := ProcessFilter(zFilter, az);
      assert xFilter[..] == Shift(xs, ax) && yFilter[..] == Shift(ys, ay);
    }

    /** The priming countdown. */
    method CountDown()
      modifies this
      ensures Snapshot() == Motion.CountDown(old(Snapshot()))
    {
      if prime > 0 {
        prime := prime - 1;
      }
    }

    /** The end of priming: first heading and rotation count. */
    method Initialize()
      modifies this
      ensures Snapshot() == Motion.Initialize(old(Snapshot()), atan2)
    {
      relativeAngle := CalculateAngle(atan2, xCoord, yCoord);
      if relativeAngle > PrimeWrapLimit {
        rotations := -1;
      }
      SetAcceleratorSensitivity(Motion.SensitivityNone);
      primed := true;
    }

    /** The pending target request (the second part of the sample handler). */
    method TakeRequest()
      modifies this
      ensures Snapshot() == Motion.ConsumeRequest(old(Snapshot()))
    {
      if targetRequest != Motion.NoRequest {
        if target != targetRequest {
          target := targetRequest;
          timeout := Motion.None;
          SetAcceleratorSensitivity(Motion.SensitivityFull);
          working := true;
        }
        targetRequest := Motion.NoRequest;
      }
    }

    /** Heading, rotation count and unwrapped angle (the third part of the sample handler). */
    method UpdateAngle()
      modifies this
      ensures Snapshot() == Motion.Track(old(Snapshot()), atan2)
    {
      var relativeAngleWas := relativeAngle;
      relativeAngle := CalculateAngle(atan2, xCoord, yCoord);
      var rawAngleDelta := relativeAngleWas - relativeAngle;
      if Abs(rawAngleDelta) > WrapThreshold {
        rotations := rotations + (if rawAngleDelta >= 0.0 then 1 else -1);
      }
      absoluteAngle := relativeAngle + (rotations * 360) as real;
    }

    /** Velocity command and settle dwell (the last part of the sample handler, reached only
        while working). */
    method Drive(now: int)
      modifies this
      ensures Snapshot() == Motion.Drive(old(Snapshot()), now)
    {
      var direction := if target < absoluteAngle then 1 else -1;
      var diff := FMin(Abs(target - absoluteAngle), Motion.SpeedClamp);
      assert diff == Motion.Distance(target, absoluteAngle);
      if diff < Motion.Tolerance {
        if timeout.None? {
          // stop and dwell before declaring success
          SetTargetVelocity(0.0);
          timeout := Motion.Some(now + Motion.HalfSecond);
        } else if timeout.value < now {
          // arrived
          SetAcceleratorSensitivity(Motion.SensitivityNone);
          working := false;
        }
      } else {
        timeout := Motion.None;
        var velocity := diff * (Motion.Velocity1 - Motion.Velocity2) / Motion.SpeedClamp + Motion.Velocity2;
        velocity := velocity * direction as real;
        assert velocity == Motion.SeekVelocity(target, absoluteAngle);
        var currentVelocity := motorVelocity;
        if currentVelocity != velocity {
          SetTargetVelocity(velocity);
        }
      }
    }
  }
}
