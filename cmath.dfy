/** The C arithmetic the controller relies on, over mathematical reals:
    `fabs`, the program's own `fmin`, and the library `fmod` with divisor 360
    (the only divisor the program uses). */
module CMath {

  /** One full turn, the divisor of every `fmod` in the program. */
  const FullTurn: real := 360.0

  /** `fabs` */
  function Abs(x: real): (r: real)
    ensures r >= 0.0
    ensures r == x || r == -x
  {
    if x < 0.0 then -x else x
  }

  /** The program's own `fmin`: the first argument when it is strictly smaller, else the second. */
  function FMin(a: real, b: real): (r: real)
    ensures r <= a && r <= b
    ensures r == a || r == b
  {
    if a < b then a else b
  }

  /** `q` is a whole number. */
  predicate IsIntegral(q: real)
  {
    q.Floor as real == q
  }

  /** `fmod(x, 360.0)` as ISO C99 section 7.12.10.2 defines it: `x - n*360` for an integer `n`,
      with the sign of `x` and magnitude below 360 (truncating division, not flooring). */
  function FMod360(x: real): (r: real)
    ensures IsIntegral((x - r) / FullTurn)
    ensures 0.0 <= x ==> 0.0 <= r < FullTurn
    ensures x < 0.0 ==> -FullTurn < r <= 0.0
    ensures -FullTurn < r < FullTurn
  {
    var m := if 0.0 <= x then x else -x;
    var q := m / 360.0;
    var k := q.Floor;
    assert k as real <= q < k as real + 1.0;
    assert 360.0 * q == m;
    var rest := m - 360.0 * k as real;
    assert 0.0 <= rest < 360.0;
    if 0.0 <= x then
      assert (x - rest) / FullTurn == k as real;
      rest
    else
      assert (x - -rest) / FullTurn == (-k) as real;
      -rest
  }

  /** The C99 characterisation determines the result: any `r` that differs from `x` by a whole
      number of turns, has the sign of `x` and magnitude below 360 is `FMod360(x)`. */
  lemma FMod360Unique(x: real, n: int, r: real)
    requires x == FullTurn * n as real + r
    requires 0.0 <= x ==> 0.0 <= r < FullTurn
    requires x < 0.0 ==> -FullTurn < r <= 0.0
    ensures r == FMod360(x)
  {
    var f := FMod360(x);
    var m := ((x - f) / FullTurn).Floor;
    assert x - f == FullTurn * m as real;
    assert f - r == FullTurn * (n - m) as real;
    assert -FullTurn < f - r < FullTurn;
  }

  /** Values taken from the angles a caller may request: the sign of the dividend is kept. */
  lemma FMod360Examples()
    ensures FMod360(400.0) == 40.0
    ensures FMod360(-10.0) == -10.0
    ensures FMod360(-370.0) == -10.0
    ensures FMod360(720.0) == 0.0
    ensures FMod360(-999.0) == -279.0
  {
    FMod360Unique(400.0, 1, 40.0);
    FMod360Unique(-10.0, 0, -10.0);
    FMod360Unique(-370.0, -1, -10.0);
    FMod360Unique(720.0, 2, 0.0);
    FMod360Unique(-999.0, -2, -279.0);
  }
}
