/** Turning filtered accelerometer coordinates into a heading, and a heading into a continuous
    (unwrapped) absolute angle by counting whole rotations. */
module AngleTracker {
  import opened CMath

  /** `atan2(x, y) * 180 / M_PI`: the library arc tangent in degrees. It is not modelled;
      every operation that needs it takes it as a parameter. */
  type Atan2 = (real, real) -> real

  /** The calibration offset `ERROR` added to every heading. */
  const AngleError: real := 0.0
  /** The shift that moves the arc tangent's range [-180, 180] to [0, 360]. */
  const HalfTurn: real := 180.0
  /** A change of heading larger than this between two samples can only be a wrap past 0/360. */
  const WrapThreshold: real := 300.0
  /** On the first valid heading, one above this counts as one rotation below zero. */
  const PrimeWrapLimit: real := 270.0

  /** `calculateAngle`: the heading of the filtered coordinates. */
  function CalculateAngle(atan2: Atan2, x: real, y: real): (r: real)
    ensures -HalfTurn <= atan2(x, y) <= HalfTurn ==> 0.0 <= r <= FullTurn
  {
    atan2(x, y) + HalfTurn + AngleError
  }

  /** The rotation count after the heading moves from `was` to `now`. */
  function UpdateRotations(was: real, now: real, rotations: int): (r: int)
    ensures r == rotations + 1 <==> Abs(was - now) > WrapThreshold && was - now >= 0.0
    ensures r == rotations - 1 <==> Abs(was - now) > WrapThreshold && was - now < 0.0
    ensures r == rotations <==> Abs(was - now) <= WrapThreshold
  {
    var delta := was - now;
    if Abs(delta) > WrapThreshold then
      rotations + (if delta >= 0.0 then 1 else -1)
    else
      rotations
  }

  /** The unwrapped angle for a heading and a rotation count. */
  function AbsoluteAngle(relative: real, rotations: int): (r: real)
    ensures IsIntegral((r - relative) / FullTurn)
    ensures rotations == 0 ==> r == relative
    ensures rotations > 0 ==> r >= relative + FullTurn
    ensures rotations < 0 ==> r <= relative - FullTurn
  {
    var turns := (rotations * 360) as real;
    assert turns == rotations as real * FullTurn;
    assert turns / FullTurn == rotations as real;
    relative + turns
  }

  /** The heading, the rotation count and the unwrapped angle. */
  datatype AngleState = AngleState(relative: real, rotations: int, absolute: real)

  /** The unwrapped angle agrees with the heading and the rotation count. */
  predicate Unwrapped(a: AngleState)
  {
    a.absolute == AbsoluteAngle(a.relative, a.rotations)
  }

  /** A new heading: count a wrap if there was one, then recompute the unwrapped angle. */
  function Advance(a: AngleState, heading: real): (r: AngleState)
    ensures Unwrapped(r)
    ensures r.relative == heading
    ensures r.rotations == UpdateRotations(a.relative, heading, a.rotations)
  {
    var rotations := UpdateRotations(a.relative, heading, a.rotations);
    AngleState(heading, rotations, AbsoluteAngle(heading, rotations))
  }

  /** With headings in [0, 360], the unwrapped angle never jumps: it moves by at most the wrap
      threshold between two samples, and by less than 60 degrees when a wrap is counted. */
  lemma UnwrapIsContinuous(was: real, now: real, rotations: int)
    requires 0.0 <= was <= FullTurn && 0.0 <= now <= FullTurn
    ensures var r := UpdateRotations(was, now, rotations);
      Abs(AbsoluteAngle(now, r) - AbsoluteAngle(was, rotations)) <= WrapThreshold &&
      (r != rotations ==> Abs(AbsoluteAngle(now, r) - AbsoluteAngle(was, rotations)) < FullTurn - WrapThreshold)
  {
    var r := UpdateRotations(was, now, rotations);
    assert AbsoluteAngle(now, r) - AbsoluteAngle(was, rotations) == (now - was) + ((r - rotations) * 360) as real;
  }

  /** A heading of 359 followed by one of 2 is a wrap forwards past 0: one more rotation. */
  lemma WrapForwardExample(rotations: int)
    ensures UpdateRotations(359.0, 2.0, rotations) == rotations + 1
    ensures AbsoluteAngle(2.0, UpdateRotations(359.0, 2.0, rotations)) == 2.0 + ((rotations + 1) * 360) as real
  {
  }
}
