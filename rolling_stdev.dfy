/**
 * The trailing-window population standard deviation of bands.js:14-27.
 *
 * The outer loop fills a preallocated array (`Stdev`); the statistics of
 * one window are pure folds (`Sum`, `SquaredDeviations`, `Mean`,
 * `Variance`). `Math.sqrt` is a library routine and is passed in as `sqrt`;
 * `RootNonNegative` and `IsSqrt` say what is assumed of it where a
 * property needs it.
 */
module RollingStdev {

  /** A square root routine never returns a negative number for a non-negative argument. */
  ghost predicate RootNonNegative(sqrt: real -> real)
  {
    forall x :: 0.0 <= x ==> 0.0 <= sqrt(x)
  }

  /** What a square root routine promises on non-negative arguments. */
  ghost predicate IsSqrt(sqrt: real -> real)
  {
    RootNonNegative(sqrt) && forall x :: 0.0 <= x ==> sqrt(x) * sqrt(x) == x
  }

  /** The sum of a window, folded from the left starting at 0 (bands.js:21). */
  function Sum(s: seq<real>): real
  {
    if |s| == 0 then 0.0 else Sum(s[..|s| - 1]) + s[|s| - 1]
  }

  /** The sum of the squared differences from `mean`, folded from the left starting at 0 (bands.js:22). */
  function SquaredDeviations(s: seq<real>, mean: real): (r: real)
    ensures r >= 0.0
  {
    if |s| == 0 then 0.0
    else
      var d := s[|s| - 1] - mean;
      SquaredDeviations(s[..|s| - 1], mean) + d * d
  }

  /** The squared deviations about `mean` vanish when every element equals `mean`. */
  lemma {:induction false} SquaredDeviationsOfConstant(s: seq<real>, mean: real)
    requires forall j :: 0 <= j < |s| ==> s[j] == mean
    ensures SquaredDeviations(s, mean) == 0.0
  {
    if |s| > 0 {
      SquaredDeviationsOfConstant(s[..|s| - 1], mean);
    }
  }

  /** The mean of a window, dividing by the period (bands.js:21). */
  function Mean(window: seq<real>, period: nat): real
    requires period >= 1
  {
    Sum(window) / period as real
  }

  /** The population variance of a window, dividing by the period and not by one less (bands.js:22). */
  function Variance(window: seq<real>, period: nat): (v: real)
    requires period >= 1
    ensures v >= 0.0
  {
    SquaredDeviations(window, Mean(window, period)) / period as real
  }

  /** The `period` elements ending at index `i` (bands.js:20). */
  function Window(data: seq<real>, period: nat, i: int): (w: seq<real>)
    requires 1 <= period && period - 1 <= i < |data|
    ensures |w| == period
    ensures forall j :: 0 <= j < period ==> w[j] == data[i - period + 1 + j]
  {
    data[i - period + 1..i + 1]
  }

  /** The specification of `stdev`: zero during warm-up, the root of the window's variance after. */
  function StdevOf(data: seq<real>, period: nat, sqrt: real -> real): (r: seq<real>)
    requires period >= 1
    ensures |r| == |data|
  {
    seq(|data|, i requires 0 <= i < |data| =>
      if i < period - 1 then 0.0 else sqrt(Variance(Window(data, period, i), period)))
  }

  /** `stdev(data, period)` (bands.js:14-27). */
  method Stdev(data: seq<real>, period: nat, sqrt: real -> real) returns (r: seq<real>)
    requires period >= 1
    ensures |r| == |data|
    ensures forall i :: 0 <= i < |data| && i < period - 1 ==> r[i] == 0.0
    ensures forall i :: period - 1 <= i < |data| ==>
      r[i] == sqrt(Variance(data[i - period + 1..i + 1], period))
    ensures period > |data| ==> forall i :: 0 <= i < |r| ==> r[i] == 0.0
    ensures r == StdevOf(data, period, sqrt)
  {
    var stdevArray := new real[|data|];
    for i := 0 to |data|
      invariant forall j :: 0 <= j < i ==> stdevArray[j] == StdevOf(data, period, sqrt)[j]
    {
      if i < period - 1 {
        stdevArray[i] := 0.0;
      } else {
        var slice := data[i - period + 1..i + 1];
        var mean := Sum(slice) / period as real;
        var variance := SquaredDeviations(slice, mean) / period as real;
        assert slice == Window(data, period, i) && variance == Variance(slice, period);
        stdevArray[i] := sqrt(variance);
      }
    }
    r := stdevArray[..];
    forall i | period - 1 <= i < |data|
      ensures r[i] == sqrt(Variance(data[i - period + 1..i + 1], period))
    {
      assert r[i] == StdevOf(data, period, sqrt)[i];
      assert Window(data, period, i) == data[i - period + 1..i + 1];
    }
  }

  /** With a square root routine, every value of the rolling deviation is non-negative. */
  lemma StdevNonNegative(data: seq<real>, period: nat, sqrt: real -> real)
    requires period >= 1 && RootNonNegative(sqrt)
    ensures forall i :: 0 <= i < |data| ==> StdevOf(data, period, sqrt)[i] >= 0.0
  {
    forall i | period - 1 <= i < |data|
      ensures StdevOf(data, period, sqrt)[i] >= 0.0
    {
      var v := Variance(Window(data, period, i), period);
      assert 0.0 <= sqrt(v);
    }
  }

  /** With an exact square root routine, each full-window value squares back to that window's variance. */
  lemma StdevSquares(data: seq<real>, period: nat, sqrt: real -> real, i: int)
    requires period >= 1 && IsSqrt(sqrt) && period - 1 <= i < |data|
    ensures StdevOf(data, period, sqrt)[i] >= 0.0
    ensures StdevOf(data, period, sqrt)[i] * StdevOf(data, period, sqrt)[i]
            == Variance(Window(data, period, i), period)
  {
    var v := Variance(Window(data, period, i), period);
    var s := sqrt(v);
    assert StdevOf(data, period, sqrt)[i] == s;
    assert 0.0 <= s && s * s == v;
  }

  /** A constant window has no spread: its variance is 0, so the deviation there is `sqrt(0)`. */
  lemma StdevOfConstantWindow(data: seq<real>, period: nat, sqrt: real -> real, i: int)
    requires period >= 1 && period - 1 <= i < |data|
    requires forall j :: i - period + 1 <= j <= i ==> data[j] == data[i]
    ensures Variance(Window(data, period, i), period) == 0.0
    ensures StdevOf(data, period, sqrt)[i] == sqrt(0.0)
  {
    var w := Window(data, period, i);
    assert forall j :: 0 <= j < |w| ==> w[j] == data[i];
    ConstantSum(w, data[i]);
    SquaredDeviationsOfConstant(w, Mean(w, period));
  }

  /** The sum of `n` copies of `c` is `n * c`. */
  lemma {:induction false} ConstantSum(s: seq<real>, c: real)
    requires forall j :: 0 <= j < |s| ==> s[j] == c
    ensures Sum(s) == |s| as real * c
  {
    if |s| > 0 {
      ConstantSum(s[..|s| - 1], c);
    }
  }

  /** The worked example: the window `[1, 2, 3, 4, 5]` has mean 3 and population variance 2. */
  lemma VarianceExample()
    ensures Mean([1.0, 2.0, 3.0, 4.0, 5.0], 5) == 3.0
    ensures Variance([1.0, 2.0, 3.0, 4.0, 5.0], 5) == 2.0
  {
    var s1, s2, s3, s4, s5 := [1.0], [1.0, 2.0], [1.0, 2.0, 3.0], [1.0, 2.0, 3.0, 4.0], [1.0, 2.0, 3.0, 4.0, 5.0];
    assert s1[..0] == [] && s2[..1] == s1 && s3[..2] == s2 && s4[..3] == s3 && s5[..4] == s4;
    assert Sum(s1) == 1.0;
    assert Sum(s2) == 3.0;
    assert Sum(s3) == 6.0;
    assert Sum(s4) == 10.0;
    assert Sum(s5) == 15.0;
    assert SquaredDeviations(s1, 3.0) == 4.0;
    assert SquaredDeviations(s2, 3.0) == 5.0;
    assert SquaredDeviations(s3, 3.0) == 5.0;
    assert SquaredDeviations(s4, 3.0) == 6.0;
    assert SquaredDeviations(s5, 3.0) == 10.0;
  }

  /** So `stdev([1, 2, 3, 4, 5], 5)` is zero at indices 0 to 3 and `sqrt(2)` at index 4. */
  lemma StdevExample(sqrt: real -> real)
    ensures StdevOf([1.0, 2.0, 3.0, 4.0, 5.0], 5, sqrt)[..4] == [0.0, 0.0, 0.0, 0.0]
    ensures StdevOf([1.0, 2.0, 3.0, 4.0, 5.0], 5, sqrt)[4] == sqrt(2.0)
  {
    var s := [1.0, 2.0, 3.0, 4.0, 5.0];
    assert Window(s, 5, 4) == s;
    VarianceExample();
  }
}
