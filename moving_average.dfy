/**
 * The exponential moving average of bands.js:3-11.
 *
 * The source fills a preallocated array in a loop; `Ema` does the same on a
 * Dafny array. `EmaOf` is the specification it is proved against, and the
 * lemmas below tie `EmaOf` to the recurrence the source promises.
 */
module MovingAverage {

  /** The smoothing constant `k = 2 / (period + 1)` (bands.js:4). */
  function Smoothing(period: nat): (k: real)
    ensures 0.0 < k <= 2.0
    ensures period >= 1 ==> k <= 1.0
  {
    2.0 / (period as real + 1.0)
  }

  /** One step of the recurrence: the new input weighted by `k`, the previous average by `1 - k`. */
  function Step(x: real, prev: real, k: real): real
  {
    x * k + prev * (1.0 - k)
  }

  /** The moving average of a non-empty series, defined on its prefixes. */
  function EmaOf(data: seq<real>, period: nat): (r: seq<real>)
    requires |data| >= 1
    ensures |r| == |data|
    ensures r[0] == data[0]
    decreases |data|
  {
    if |data| == 1 then [data[0]]
    else
      var prev := EmaOf(data[..|data| - 1], period);
      prev + [Step(data[|data| - 1], prev[|prev| - 1], Smoothing(period))]
  }

  /**
   * The recurrence as the source states it: same length as the input, seeded
   * with the first input, and each later value one step from the one before.
   */
  predicate IsEma(data: seq<real>, period: nat, out: seq<real>)
  {
    |data| >= 1 && |out| == |data| && out[0] == data[0] &&
    forall i :: 1 <= i < |data| ==> out[i] == Step(data[i], out[i - 1], Smoothing(period))
  }

  /** The average of a prefix is the prefix of the average. */
  lemma {:induction false} EmaPrefix(data: seq<real>, period: nat, j: nat)
    requires 1 <= j <= |data|
    ensures EmaOf(data, period)[..j] == EmaOf(data[..j], period)
    decreases |data|
  {
    if j == |data| {
      assert data[..j] == data;
    } else {
      var init := data[..|data| - 1];
      EmaPrefix(init, period, j);
      assert init[..j] == data[..j];
    }
  }

  /** `EmaOf` satisfies the recurrence. */
  lemma EmaRecurrence(data: seq<real>, period: nat)
    requires |data| >= 1
    ensures IsEma(data, period, EmaOf(data, period))
  {
    var r := EmaOf(data, period);
    forall i | 1 <= i < |data|
      ensures r[i] == Step(data[i], r[i - 1], Smoothing(period))
    {
      EmaPrefix(data, period, i + 1);
      EmaPrefix(data, period, i);
      assert data[..i + 1][..i] == data[..i];
      assert r[..i + 1][i] == r[i];
      assert r[..i][i - 1] == r[i - 1];
    }
  }

  /** One index of the recurrence. */
  lemma EmaStepAt(data: seq<real>, period: nat, i: int)
    requires 1 <= i < |data|
    ensures EmaOf(data, period)[i] == Step(data[i], EmaOf(data, period)[i - 1], Smoothing(period))
  {
    EmaRecurrence(data, period);
  }

  /** Only `EmaOf` satisfies the recurrence. */
  lemma {:induction false} EmaUnique(data: seq<real>, period: nat, out: seq<real>)
    requires IsEma(data, period, out)
    ensures out == EmaOf(data, period)
    decreases |data|
  {
    if |data| > 1 {
      var n := |data|;
      var init, outInit := data[..n - 1], out[..n - 1];
      assert IsEma(init, period, outInit) by {
        forall i | 1 <= i < |init|
          ensures outInit[i] == Step(init[i], outInit[i - 1], Smoothing(period))
        {
          assert out[i] == Step(data[i], out[i - 1], Smoothing(period));
        }
      }
      EmaUnique(init, period, outInit);
      assert out == outInit + [out[n - 1]];
    }
  }

  /** A series is the moving average of `data` exactly when it satisfies the recurrence. */
  lemma EmaCharacterization(data: seq<real>, period: nat, out: seq<real>)
    requires |data| >= 1
    ensures IsEma(data, period, out) <==> out == EmaOf(data, period)
  {
    EmaRecurrence(data, period);
    if IsEma(data, period, out) {
      EmaUnique(data, period, out);
    }
  }

  /** `ema(data, period)` (bands.js:3-11), filling a fresh array from index 1 on. */
  method Ema(data: seq<real>, period: nat) returns (r: seq<real>)
    requires |data| >= 1
    ensures r == EmaOf(data, period)
    ensures IsEma(data, period, r)
  {
    var k := Smoothing(period);
    var emaArray := new real[|data|];
    emaArray[0] := data[0];
    for i := 1 to |data|
      invariant emaArray[..i] == EmaOf(data[..i], period)
    {
      ghost var done := emaArray[..i];
      emaArray[i] := data[i] * k + emaArray[i - 1] * (1.0 - k);
      assert data[..i + 1][..i] == data[..i];
      assert emaArray[i] == Step(data[i], done[i - 1], k);
      assert forall j :: 0 <= j < i ==> emaArray[j] == done[j];
      assert emaArray[..i + 1] == done + [Step(data[i], done[i - 1], k)];
    }
    assert data[..|data|] == data;
    r := emaArray[..];
    EmaRecurrence(data, period);
  }

  /** A series of zeros averages to zeros, whatever the period. */
  lemma {:induction false} EmaOfZeros(data: seq<real>, period: nat)
    requires |data| >= 1
    requires forall j :: 0 <= j < |data| ==> data[j] == 0.0
    ensures forall i :: 0 <= i < |data| ==> EmaOf(data, period)[i] == 0.0
    decreases |data|
  {
    if |data| > 1 {
      var init := data[..|data| - 1];
      EmaOfZeros(init, period);
    }
  }

  /** With `0 <= k <= 1` one step is a convex combination, so it keeps a weighted lower bound. */
  lemma StepDominates(x: real, prevX: real, y: real, prevY: real, c: real, k: real)
    requires 0.0 <= k <= 1.0
    requires x >= c * y && prevX >= c * prevY
    ensures Step(x, prevX, k) >= c * Step(y, prevY, k)
  {
    assert (x - c * y) * k >= 0.0;
    assert (prevX - c * prevY) * (1.0 - k) >= 0.0;
  }

  /**
   * For `period >= 1` the average is monotone: the average of a non-negative
   * series is non-negative, and if `x` is pointwise at least `c` times `y`,
   * so is its average.
   */
  lemma {:induction false} EmaDominates(x: seq<real>, y: seq<real>, c: real, period: nat, i: nat)
    requires period >= 1
    requires |x| == |y| && i < |x|
    requires forall j :: 0 <= j < |x| ==> y[j] >= 0.0 && x[j] >= c * y[j]
    ensures EmaOf(y, period)[i] >= 0.0
    ensures EmaOf(x, period)[i] >= c * EmaOf(y, period)[i]
    decreases i
  {
    if i > 0 {
      EmaDominates(x, y, c, period, i - 1);
      EmaStepAt(x, period, i);
      EmaStepAt(y, period, i);
      var k := Smoothing(period);
      var ex, ey := EmaOf(x, period)[i - 1], EmaOf(y, period)[i - 1];
      StepDominates(x[i], ex, y[i], ey, c, k);
      StepDominates(y[i], ey, y[i], ey, 0.0, k);
    }
  }

  /** The worked example `ema([10, 20, 30], 2)` with `k = 2/3`. */
  lemma EmaExample()
    ensures EmaOf([10.0, 20.0, 30.0], 2) == [10.0, 50.0 / 3.0, 230.0 / 9.0]
  {
    var data := [10.0, 20.0, 30.0];
    assert Smoothing(2) == 2.0 / 3.0;
    assert data[..1] == [10.0];
    assert data[..2] == [10.0, 20.0];
    assert data[..2][..1] == [10.0];
    assert EmaOf([10.0], 2) == [10.0];
    assert EmaOf([10.0, 20.0], 2) == [10.0, 50.0 / 3.0];
  }
}
