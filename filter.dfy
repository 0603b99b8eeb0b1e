/** The per-axis moving-average filter: a window of the last `FilterDepth` raw values,
    shifted in place on every sample, whose output is the window's sum over `FilterDepth`. */
module MovingAverage {

  const FilterDepth: nat := 5

  /** Sum of a sequence. */
  function Sum(s: seq<real>): real
  {
    if |s| == 0 then 0.0 else s[0] + Sum(s[1..])
  }

  /** The filter output for a window: its sum divided by the constant depth. */
  function Mean(w: seq<real>): real
  {
    Sum(w) / FilterDepth as real
  }

  /** The window after `v` arrives: every value moves one slot towards the front,
      the oldest drops out and `v` takes the last slot. */
  function Shift(w: seq<real>, v: real): (r: seq<real>)
    ensures |r| == |w|
    ensures forall i :: 0 <= i < |w| - 1 ==> r[i] == w[i + 1]
    ensures |w| > 0 ==> r[|w| - 1] == v
  {
    (w + [v])[1..]
  }

  /** Appending one value adds it to the sum. */
  lemma {:induction false} SumSnoc(s: seq<real>, v: real)
    ensures Sum(s + [v]) == Sum(s) + v
  {
    if |s| > 0 {
      assert (s + [v])[1..] == s[1..] + [v];
      SumSnoc(s[1..], v);
    }
  }

  /** Taking out the element at `i` takes its value out of the sum. */
  lemma {:induction false} SumRemove(s: seq<real>, i: nat)
    requires i < |s|
    ensures Sum(s) == Sum(s[..i] + s[i + 1..]) + s[i]
  {
    if i == 0 {
      assert s[..i] + s[i + 1..] == s[1..];
    } else {
      var tail := s[1..];
      SumRemove(tail, i - 1);
      assert s[..i] + s[i + 1..] == [s[0]] + (tail[..i - 1] + tail[i..]);
    }
  }

  /** The sum does not depend on the order of the values. */
  lemma {:induction false} SumPermutation(a: seq<real>, b: seq<real>)
    requires multiset(a) == multiset(b)
    ensures Sum(a) == Sum(b)
  {
    if |a| == 0 {
      assert |b| == |multiset(b)| == 0;
    } else {
      var x := a[0];
      assert x in multiset(b) by { assert a == [x] + a[1..]; }
      var i :| 0 <= i < |b| && b[i] == x;
      var rest := b[..i] + b[i + 1..];
      assert b == b[..i] + [x] + b[i + 1..];
      assert a == [x] + a[1..];
      assert multiset(rest) == multiset(b) - multiset{x};
      assert multiset(a[1..]) == multiset(a) - multiset{x};
      SumPermutation(a[1..], rest);
      SumRemove(b, i);
    }
  }

  /** A window of depth 5 that holds the same values in any order yields the same output. */
  lemma MeanPermutation(a: seq<real>, b: seq<real>)
    requires multiset(a) == multiset(b)
    ensures Mean(a) == Mean(b)
  {
    SumPermutation(a, b);
  }

  /** `processFilter`: shifts `values` in place and returns the mean of the new window,
      accumulating the sum inside the shifting loop as the program does. */
  method ProcessFilter(values: array<real>, value: real) returns (result: real)
    requires values.Length == FilterDepth
    modifies values
    ensures values[..] == Shift(old(values[..]), value)
    ensures result == Mean(Shift(old(values[..]), value))
  {
    ghost var w := values[..];
    result := value;
    for i := 0 to FilterDepth - 1
      invariant forall k :: 0 <= k < i ==> values[k] == w[k + 1]
      invariant forall k :: i <= k < FilterDepth ==> values[k] == w[k]
      invariant result == value + Sum(w[1..i + 1])
    {
      values[i] := values[i + 1];
      assert w[1..i + 2] == w[1..i + 1] + [w[i + 1]];
      SumSnoc(w[1..i + 1], w[i + 1]);
      result := result + values[i];
    }
    assert values[..FilterDepth - 1] == w[1..];
    values[FilterDepth - 1] := value;
    assert values[..] == values[..FilterDepth - 1] + [value];
    assert values[..] == w[1..] + [value];
    assert w[1..FilterDepth] == w[1..];
    SumSnoc(w[1..], value);
    assert result == Sum(values[..]);
    result := result / FilterDepth as real;
  }
}
