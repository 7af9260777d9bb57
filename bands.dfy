/**
 * The band synthesizer `calculateBands` of bands.js:30-66: a chain of
 * index-aligned transforms from bars to four band series.
 *
 * Each stage of the source is one function here. The source divides by the
 * volume-weighted averages at bands.js:46-47 without a guard; the model
 * asks for them to be non-zero (`Defined`) and proves that positive prices
 * with non-negative volumes always meet that demand.
 */
module Bands {
  import opened Wrappers
  import opened MovingAverage
  import opened RollingStdev

  /** Period of the three volume EMAs (bands.js:38-40). */
  const VolumePeriod: nat := 180
  /** Window of the two deviation standard deviations (bands.js:50-51). */
  const DeviationPeriod: nat := 1440
  /** Multipliers of the four band factors (bands.js:54-57). */
  const UpperMultiplier1: real := 2.25
  const UpperMultiplier2: real := 4.25
  const LowerMultiplier1: real := 2.25
  /** Kept at 2.25 as in the source, although symmetry with `UpperMultiplier2` suggests 4.25. */
  const LowerMultiplier2: real := 2.25

  /** One input bar; `time` is opaque and only copied to the output. */
  datatype Bar<T> = Bar(time: T, high: real, low: real, volume: Option<real>)

  /** One point of a band. */
  datatype BandPoint<T> = BandPoint(time: T, value: real)

  /** The result: two upper bands and two lower bands. */
  datatype BandSet<T> = BandSet(t1: seq<BandPoint<T>>, t2: seq<BandPoint<T>>,
                                b1: seq<BandPoint<T>>, b2: seq<BandPoint<T>>)

  /** A bar's volume, where an absent volume counts as 0 (bands.js:33). */
  function VolumeOf<T>(bar: Bar<T>): real
  {
    bar.volume.GetOr(0.0)
  }

  function Highs<T>(bars: seq<Bar<T>>): seq<real>
  {
    seq(|bars|, i requires 0 <= i < |bars| => bars[i].high)
  }

  function Lows<T>(bars: seq<Bar<T>>): seq<real>
  {
    seq(|bars|, i requires 0 <= i < |bars| => bars[i].low)
  }

  function Volumes<T>(bars: seq<Bar<T>>): seq<real>
  {
    seq(|bars|, i requires 0 <= i < |bars| => VolumeOf(bars[i]))
  }

  /** Pointwise products, as `priceVolumeHigh` and `priceVolumeLow` (bands.js:36-37). */
  function Products(xs: seq<real>, ys: seq<real>): seq<real>
    requires |xs| == |ys|
  {
    seq(|xs|, i requires 0 <= i < |xs| => xs[i] * ys[i])
  }

  /** `volumeEma180` (bands.js:38). */
  function VolumeEma<T>(bars: seq<Bar<T>>): seq<real>
    requires |bars| >= 1
  {
    EmaOf(Volumes(bars), VolumePeriod)
  }

  /**
   * A volume-weighted average (bands.js:42-43): the price-volume average
   * divided by the volume average, or the raw price where the volume
   * average is 0.
   */
  function WeightedAverage(pvEma: seq<real>, volEma: seq<real>, fallback: seq<real>): (r: seq<real>)
    requires |pvEma| == |volEma| == |fallback|
    ensures |r| == |fallback|
    ensures forall i :: 0 <= i < |r| && volEma[i] != 0.0 ==> r[i] * volEma[i] == pvEma[i]
    ensures forall i :: 0 <= i < |r| && volEma[i] == 0.0 ==> r[i] == fallback[i]
  {
    seq(|fallback|, i requires 0 <= i < |fallback| =>
      if volEma[i] != 0.0 then pvEma[i] / volEma[i] else fallback[i])
  }

  /** `ma1`, the volume-weighted average of the highs (bands.js:42). */
  function Ma1<T>(bars: seq<Bar<T>>): seq<real>
    requires |bars| >= 1
  {
    WeightedAverage(EmaOf(Products(Highs(bars), Volumes(bars)), VolumePeriod), VolumeEma(bars), Highs(bars))
  }

  /** `ma2`, the volume-weighted average of the lows (bands.js:43). */
  function Ma2<T>(bars: seq<Bar<T>>): seq<real>
    requires |bars| >= 1
  {
    WeightedAverage(EmaOf(Products(Lows(bars), Volumes(bars)), VolumePeriod), VolumeEma(bars), Lows(bars))
  }

  /**
   * The inputs on which the source computes only finite values: at least one
   * bar (bands.js:60 reads `data[0]`), and no volume-weighted average that
   * the deviations at bands.js:46-47 would divide by zero.
   */
  predicate Defined<T>(bars: seq<Bar<T>>)
  {
    |bars| >= 1 &&
    forall i :: 0 <= i < |bars| ==> Ma1(bars)[i] != 0.0 && Ma2(bars)[i] != 0.0
  }

  /** Relative deviations `(price - ma) / ma` (bands.js:46-47). */
  function Deviations(prices: seq<real>, ma: seq<real>): (r: seq<real>)
    requires |prices| == |ma|
    requires forall i :: 0 <= i < |ma| ==> ma[i] != 0.0
    ensures |r| == |prices|
    ensures forall i :: 0 <= i < |r| ==> prices[i] == ma[i] * (1.0 + r[i])
  {
    seq(|prices|, i requires 0 <= i < |prices| => (prices[i] - ma[i]) / ma[i])
  }

  /** `sd10`, the rolling deviation of the highs' relative deviations (bands.js:50). */
  function Sd10<T>(bars: seq<Bar<T>>, sqrt: real -> real): seq<real>
    requires Defined(bars)
  {
    StdevOf(Deviations(Highs(bars), Ma1(bars)), DeviationPeriod, sqrt)
  }

  /** `sd20`, the rolling deviation of the lows' relative deviations (bands.js:51). */
  function Sd20<T>(bars: seq<Bar<T>>, sqrt: real -> real): seq<real>
    requires Defined(bars)
  {
    StdevOf(Deviations(Lows(bars), Ma2(bars)), DeviationPeriod, sqrt)
  }

  /** `1 + sd * multiplier` (bands.js:54-55). */
  function UpperFactor(sd: seq<real>, multiplier: real): seq<real>
  {
    seq(|sd|, i requires 0 <= i < |sd| => 1.0 + sd[i] * multiplier)
  }

  /** `1 - sd * multiplier` (bands.js:56-57). */
  function LowerFactor(sd: seq<real>, multiplier: real): seq<real>
  {
    seq(|sd|, i requires 0 <= i < |sd| => 1.0 - sd[i] * multiplier)
  }

  /** One band: each bar's time with `ma * factor` (bands.js:60-63). */
  function Band<T>(bars: seq<Bar<T>>, ma: seq<real>, factor: seq<real>): seq<BandPoint<T>>
    requires |ma| == |factor| == |bars|
  {
    seq(|bars|, i requires 0 <= i < |bars| => BandPoint(bars[i].time, ma[i] * factor[i]))
  }

  /**
   * `calculateBands(data)` (bands.js:30-66). `sqrt` stands for `Math.sqrt`.
   * Every band has one point per bar, carrying that bar's time, and the two
   * lower bands coincide.
   */
  function CalculateBands<T>(bars: seq<Bar<T>>, sqrt: real -> real): (r: BandSet<T>)
    requires Defined(bars)
    ensures |r.t1| == |r.t2| == |r.b1| == |r.b2| == |bars|
    ensures forall i :: 0 <= i < |bars| ==>
      r.t1[i].time == bars[i].time && r.t2[i].time == bars[i].time &&
      r.b1[i].time == bars[i].time && r.b2[i].time == bars[i].time
    ensures forall i :: 0 <= i < |bars| ==> r.b1[i].value == r.b2[i].value
  {
    var ma1, ma2 := Ma1(bars), Ma2(bars);
    var sd10, sd20 := Sd10(bars, sqrt), Sd20(bars, sqrt);
    BandSet(Band(bars, ma1, UpperFactor(sd10, UpperMultiplier1)),
            Band(bars, ma1, UpperFactor(sd10, UpperMultiplier2)),
            Band(bars, ma2, LowerFactor(sd20, LowerMultiplier1)),
            Band(bars, ma2, LowerFactor(sd20, LowerMultiplier2)))
  }

  /**
   * With no traded volume the volume average is 0 everywhere, so both
   * weighted averages fall back to the raw highs and lows.
   */
  lemma ZeroVolumeFallback<T>(bars: seq<Bar<T>>)
    requires |bars| >= 1
    requires forall i :: 0 <= i < |bars| ==> bars[i].volume == None || bars[i].volume == Some(0.0)
    ensures forall i :: 0 <= i < |bars| ==> VolumeEma(bars)[i] == 0.0
    ensures forall i :: 0 <= i < |bars| ==> Ma1(bars)[i] == bars[i].high && Ma2(bars)[i] == bars[i].low
  {
    EmaOfZeros(Volumes(bars), VolumePeriod);
  }

  /** Where the volume average is not 0, `ma1` and `ma2` are the ratios of the two averages. */
  lemma WeightedAverageRatio<T>(bars: seq<Bar<T>>, i: int)
    requires |bars| >= 1 && 0 <= i < |bars| && VolumeEma(bars)[i] != 0.0
    ensures Ma1(bars)[i] == EmaOf(Products(Highs(bars), Volumes(bars)), VolumePeriod)[i] / VolumeEma(bars)[i]
    ensures Ma2(bars)[i] == EmaOf(Products(Lows(bars), Volumes(bars)), VolumePeriod)[i] / VolumeEma(bars)[i]
  {
  }

  /** The smallest element of a non-empty series. */
  function Min(s: seq<real>): (m: real)
    requires |s| >= 1
    ensures forall j :: 0 <= j < |s| ==> m <= s[j]
    ensures exists j :: 0 <= j < |s| && s[j] == m
  {
    if |s| == 1 then s[0]
    else
      var m := Min(s[1..]);
      assert forall j :: 1 <= j < |s| ==> s[1..][j - 1] == s[j];
      if s[0] <= m then s[0] else m
  }

  /**
   * A weighted average is at least `lo` where its fallback is, and where the
   * price-volume average is at least `lo` times a non-negative volume average.
   */
  lemma WeightedAverageAtLeast(pvEma: seq<real>, volEma: seq<real>, fallback: seq<real>, lo: real, i: int)
    requires |pvEma| == |volEma| == |fallback| && 0 <= i < |fallback|
    requires fallback[i] >= lo && volEma[i] >= 0.0 && pvEma[i] >= lo * volEma[i]
    ensures WeightedAverage(pvEma, volEma, fallback)[i] >= lo
  {
    var r, ev := WeightedAverage(pvEma, volEma, fallback)[i], volEma[i];
    if ev != 0.0 && r < lo {
      assert (lo - r) * ev > 0.0;
    }
  }

  /**
   * A volume-weighted average of positive prices with non-negative volumes
   * is at least the lowest price: the fallback is a price itself, and
   * otherwise the price-volume average dominates the lowest price times the
   * volume average.
   */
  lemma WeightedAverageAtLeastMin(prices: seq<real>, volumes: seq<real>, period: nat, i: int)
    requires period >= 1 && |prices| == |volumes| >= 1 && 0 <= i < |prices|
    requires forall j :: 0 <= j < |prices| ==> prices[j] > 0.0 && volumes[j] >= 0.0
    ensures WeightedAverage(EmaOf(Products(prices, volumes), period), EmaOf(volumes, period), prices)[i]
      >= Min(prices) > 0.0
  {
    var lo := Min(prices);
    assert lo > 0.0 by {
      var j :| 0 <= j < |prices| && prices[j] == lo;
    }
    var epv, ev := EmaOf(Products(prices, volumes), period), EmaOf(volumes, period);
    PriceVolumeEmaAtLeast(prices, volumes, lo, period, i);
    WeightedAverageAtLeast(epv, ev, prices, lo, i);
  }

  /** Prices at least `lo` with non-negative volumes: the price-volume average is at least `lo` times the volume average. */
  lemma PriceVolumeEmaAtLeast(prices: seq<real>, volumes: seq<real>, lo: real, period: nat, i: int)
    requires period >= 1 && |prices| == |volumes| && 0 <= i < |prices|
    requires forall j :: 0 <= j < |prices| ==> prices[j] >= lo && volumes[j] >= 0.0
    ensures EmaOf(volumes, period)[i] >= 0.0
    ensures EmaOf(Products(prices, volumes), period)[i] >= lo * EmaOf(volumes, period)[i]
  {
    ProductsDominate(prices, volumes, lo);
    EmaDominates(Products(prices, volumes), volumes, lo, period, i);
  }

  /** Prices at least `lo` with non-negative volumes give price-volume products at least `lo` times the volume. */
  lemma ProductsDominate(prices: seq<real>, volumes: seq<real>, lo: real)
    requires |prices| == |volumes|
    requires forall j :: 0 <= j < |prices| ==> prices[j] >= lo && volumes[j] >= 0.0
    ensures forall j :: 0 <= j < |prices| ==> Products(prices, volumes)[j] >= lo * volumes[j]
  {
    forall j | 0 <= j < |prices| ensures Products(prices, volumes)[j] >= lo * volumes[j] {
      var p, v := prices[j], volumes[j];
      assert (p - lo) * v >= 0.0;
    }
  }

  /**
   * Positive highs and lows with non-negative (or absent) volumes give
   * positive volume-weighted averages, so the source never divides by zero.
   */
  lemma PositiveMarketDefined<T>(bars: seq<Bar<T>>)
    requires |bars| >= 1
    requires forall i :: 0 <= i < |bars| ==> bars[i].high > 0.0 && bars[i].low > 0.0 && VolumeOf(bars[i]) >= 0.0
    ensures forall i :: 0 <= i < |bars| ==> Ma1(bars)[i] > 0.0 && Ma2(bars)[i] > 0.0
    ensures Defined(bars)
  {
    forall i | 0 <= i < |bars| ensures Ma1(bars)[i] > 0.0 && Ma2(bars)[i] > 0.0 {
      WeightedAverageAtLeastMin(Highs(bars), Volumes(bars), VolumePeriod, i);
      WeightedAverageAtLeastMin(Lows(bars), Volumes(bars), VolumePeriod, i);
    }
  }

  /** An upper band built from a non-negative deviation lies above a non-negative average, the wider one above the narrower. */
  lemma UpperBandsWiden<T>(bars: seq<Bar<T>>, ma: seq<real>, sd: seq<real>, i: int)
    requires |ma| == |sd| == |bars| && 0 <= i < |bars| && sd[i] >= 0.0
    ensures 1.0 <= UpperFactor(sd, UpperMultiplier1)[i] <= UpperFactor(sd, UpperMultiplier2)[i]
    ensures ma[i] >= 0.0 ==>
      ma[i] <= Band(bars, ma, UpperFactor(sd, UpperMultiplier1))[i].value
            <= Band(bars, ma, UpperFactor(sd, UpperMultiplier2))[i].value
  {
    var m, s := ma[i], sd[i];
    if m >= 0.0 {
      assert m * (1.0 + s * 2.25) == m + m * (s * 2.25);
      assert m * (1.0 + s * 4.25) == m * (1.0 + s * 2.25) + m * (s * 2.0);
      assert m * (s * 2.25) >= 0.0;
      assert m * (s * 2.0) >= 0.0;
    }
  }

  /** A lower band built from a non-negative deviation lies below a non-negative average. */
  lemma LowerBandBelow<T>(bars: seq<Bar<T>>, ma: seq<real>, sd: seq<real>, i: int)
    requires |ma| == |sd| == |bars| && 0 <= i < |bars| && sd[i] >= 0.0
    ensures LowerFactor(sd, LowerMultiplier1)[i] <= 1.0
    ensures ma[i] >= 0.0 ==> Band(bars, ma, LowerFactor(sd, LowerMultiplier1))[i].value <= ma[i]
  {
    var m, s := ma[i], sd[i];
    if m >= 0.0 {
      assert m * (1.0 - s * 2.25) == m - m * (s * 2.25);
      assert m * (s * 2.25) >= 0.0;
    }
  }

  /**
   * Ordering of the factors and the bands. The deviations are non-negative,
   * so `1 <= upperFactor1 <= upperFactor2` and `lowerFactor1 <= 1`; where
   * the averages are non-negative, `ma1 <= t1 <= t2` and `b1 <= ma2`.
   */
  lemma BandOrdering<T>(bars: seq<Bar<T>>, sqrt: real -> real, i: int)
    requires Defined(bars) && RootNonNegative(sqrt) && 0 <= i < |bars|
    ensures 1.0 <= UpperFactor(Sd10(bars, sqrt), UpperMultiplier1)[i] <= UpperFactor(Sd10(bars, sqrt), UpperMultiplier2)[i]
    ensures LowerFactor(Sd20(bars, sqrt), LowerMultiplier1)[i] <= 1.0
    ensures Ma1(bars)[i] >= 0.0 ==>
      Ma1(bars)[i] <= CalculateBands(bars, sqrt).t1[i].value <= CalculateBands(bars, sqrt).t2[i].value
    ensures Ma2(bars)[i] >= 0.0 ==> CalculateBands(bars, sqrt).b1[i].value <= Ma2(bars)[i]
  {
    var ma1, ma2, sd10, sd20 := Ma1(bars), Ma2(bars), Sd10(bars, sqrt), Sd20(bars, sqrt);
    StdevNonNegative(Deviations(Highs(bars), ma1), DeviationPeriod, sqrt);
    StdevNonNegative(Deviations(Lows(bars), ma2), DeviationPeriod, sqrt);
    UpperBandsWiden(bars, ma1, sd10, i);
    LowerBandBelow(bars, ma2, sd20, i);
    var r := CalculateBands(bars, sqrt);
    assert r.t1 == Band(bars, ma1, UpperFactor(sd10, UpperMultiplier1));
    assert r.t2 == Band(bars, ma1, UpperFactor(sd10, UpperMultiplier2));
    assert r.b1 == Band(bars, ma2, LowerFactor(sd20, LowerMultiplier1));
  }
}
