# Volatility price bands

A Dafny model of `bands.js`, which turns an ordered list of price bars into four
price-band series. The pipeline has three parts:

- `ema`: an exponential moving average, seeded with the first input, smoothing constant `k = 2 / (period + 1)`;
- `stdev`: a trailing-window population standard deviation, 0 while the window is not yet full;
- `calculateBands`: a volume-weighted average of the highs (`ma1`) and of the lows (`ma2`) built as a
  ratio of 180-bar EMAs, falling back to the raw price where the volume EMA is 0; relative deviations of
  the prices from those averages; their 1440-bar rolling deviation; and four bands
  `t1 = ma1 * (1 + 2.25 sd10)`, `t2 = ma1 * (1 + 4.25 sd10)`, `b1 = b2 = ma2 * (1 - 2.25 sd20)`,
  each point carrying the time of its bar.

Files:

- `wrappers.dfy` (module `Wrappers`): `Option`, for a bar's volume, which may be absent.
- `moving_average.dfy` (module `MovingAverage`): the method `Ema`, which fills a fresh array in a loop as
  the source does, proved equal to the specification function `EmaOf`; lemmas tying `EmaOf` to the
  recurrence in both directions, and its monotonicity.
- `rolling_stdev.dfy` (module `RollingStdev`): the method `Stdev`, which fills a fresh array in a loop,
  proved equal to `StdevOf`; the window statistics as pure functions: `Sum` and `SquaredDeviations`
  are left folds, as the source's `reduce` calls are, and `Mean` and `Variance` divide those folds by
  the period.
- `bands.dfy` (module `Bands`): `calculateBands` as a chain of pure functions, one per stage of the
  source, with the lemmas about the bands.

Numbers are Dafny `real`s, so every recurrence is exact. The bar's `time` is an opaque type parameter.
`Math.sqrt` is a library routine with no counterpart in Dafny: the model takes it as a parameter
`sqrt: real -> real`. `StdevNonNegative` and `BandOrdering` require `RootNonNegative(sqrt)` (it
returns a non-negative number for a non-negative argument); `StdevSquares` requires `IsSqrt(sqrt)`
(also, it squares back to its argument).

The source divides by `ma1` and `ma2` at bands.js:46-47 without a guard. `CalculateBands` requires
`Defined(bars)`: at least one bar, and no zero weighted average. `PositiveMarketDefined` proves that
positive highs and lows with non-negative or absent volumes always meet that demand, because each
weighted average is then at least the lowest price.

On empty input the source produces no usable result: `ema([])` returns a one-element array holding
`undefined` (bands.js:5-6), and `calculateBands([])` then reads `data[0].time` (bands.js:60) and throws.
So `EmaOf`, `Ema` and `CalculateBands` require at least one element.

## Model

| member | source | states |
|---|---|---|
| MovingAverage.Smoothing | bands.js:4 | `k = 2/(period+1)` lies in (0, 2], and in (0, 1] once the period is at least 1 |
| MovingAverage.Step | bands.js:8 | one step of the recurrence, `x*k + prev*(1-k)`; no contract of its own, its properties are `StepDominates` and `EmaRecurrence` |
| MovingAverage.IsEma | bands.js:6-8 | the source's recurrence as a predicate: same length, `out[0] == data[0]`, each later value one `Step` from the one before; no contract of its own, the independent definition `EmaCharacterization` proves `EmaOf` equivalent to |
| MovingAverage.EmaOf | bands.js:3-11 | the average has one value per input and starts with the first input |
| MovingAverage.EmaPrefix | bands.js:7-9 | the average of a prefix is the prefix of the average, so each value depends only on inputs up to its index |
| MovingAverage.EmaRecurrence | bands.js:6-9 | `EmaOf` satisfies the recurrence: `out[0] == data[0]` and `out[i] == data[i]*k + out[i-1]*(1-k)` for `i >= 1` |
| MovingAverage.EmaUnique | bands.js:6-9 | any series satisfying that recurrence is `EmaOf` |
| MovingAverage.EmaCharacterization | bands.js:3-11 | a series is the average of `data` if and only if it satisfies the recurrence |
| MovingAverage.Ema | bands.js:3-11 | the loop over a fresh array returns exactly `EmaOf(data, period)`, which satisfies the recurrence |
| MovingAverage.EmaOfZeros | bands.js:6-8 | an all-zero input averages to all zeros, for any period |
| MovingAverage.StepDominates | bands.js:8 | with `0 <= k <= 1` one recurrence step keeps a lower bound `x >= c*y` |
| MovingAverage.EmaDominates | bands.js:6-9 | for `period >= 1` the average of a non-negative series is non-negative, and `x >= c*y` pointwise carries over to the averages |
| MovingAverage.EmaExample | bands.js:3-11 | `ema([10, 20, 30], 2)` is `[10, 50/3, 230/9]` |
| RollingStdev.Sum | bands.js:21 | the left fold from 0 that sums a window; no contract of its own, `ConstantSum` and `VarianceExample` state its values |
| RollingStdev.Mean | bands.js:21 | the window's sum divided by the period; no contract of its own, `VarianceExample` states a value |
| RollingStdev.SquaredDeviations | bands.js:22 | the fold of squared deviations from the mean is non-negative |
| RollingStdev.SquaredDeviationsOfConstant | bands.js:22 | it is 0 when every element equals the mean |
| RollingStdev.Variance | bands.js:21-22 | the population variance of a window, divided by the period, is non-negative |
| RollingStdev.Window | bands.js:20 | the slice has exactly `period` elements, the ones ending at index `i` |
| RollingStdev.StdevOf | bands.js:14-27 | one value per input; the specification `Stdev` is proved against: 0 below index `period - 1`, `sqrt` of the window's variance from there on |
| RollingStdev.Stdev | bands.js:14-27 | the loop returns one value per input: 0 at every index below `period - 1` (all zeros when the period exceeds the length), and at every later index `sqrt` of the variance of exactly `data[i-period+1..i+1]` |
| RollingStdev.StdevNonNegative | bands.js:23 | with a square root that is non-negative on non-negative arguments, every output is non-negative |
| RollingStdev.StdevSquares | bands.js:20-23 | with an exact square root, each full-window output is non-negative and squares back to the variance of its window |
| RollingStdev.StdevOfConstantWindow | bands.js:19-23 | a constant full window has variance 0, so its output is `sqrt(0)` |
| RollingStdev.VarianceExample | bands.js:21-22 | the window `[1, 2, 3, 4, 5]` has mean 3 and population variance 2 (not 2.5) |
| RollingStdev.StdevExample | bands.js:14-27 | `stdev([1,2,3,4,5], 5)` is 0 at indices 0 to 3 and `sqrt(2)` at index 4 |
| Bands.VolumeOf | bands.js:33 | a bar's volume with an absent volume read as 0; no contract of its own, `ZeroVolumeFallback` uses it |
| Bands.Highs | bands.js:31 | the bars' highs, one per bar; no contract of its own |
| Bands.Lows | bands.js:32 | the bars' lows, one per bar; no contract of its own |
| Bands.Volumes | bands.js:33 | the bars' volumes via `VolumeOf`, one per bar; no contract of its own |
| Bands.Products | bands.js:36-37 | pointwise products of prices and volumes; no contract of its own, `ProductsDominate` bounds it |
| Bands.VolumeEma | bands.js:38 | the 180-period EMA of the volumes; no contract of its own, `PriceVolumeEmaAtLeast` and `ZeroVolumeFallback` state its properties |
| Bands.WeightedAverage | bands.js:42-43 | where the volume average is non-zero the result times it gives back the price-volume average; where it is zero the result is the raw price |
| Bands.WeightedAverageRatio | bands.js:42-43 | where `volumeEma180[i] != 0`, `ma1[i]` and `ma2[i]` are the price-volume EMA divided by the volume EMA |
| Bands.ZeroVolumeFallback | bands.js:33-43 | with every volume absent or 0 the volume EMA is 0 everywhere, `ma1` is the highs and `ma2` the lows |
| Bands.Ma1 | bands.js:39-42 | the weighted average of the highs over the 180-period EMAs; no contract of its own, `WeightedAverageRatio` and `ZeroVolumeFallback` state its values |
| Bands.Ma2 | bands.js:40-43 | the same for the lows; no contract of its own, stated by the same lemmas |
| Bands.Defined | bands.js:46-47 | the predicate `CalculateBands` requires: at least one bar and no zero `ma1[i]` or `ma2[i]`; `PositiveMarketDefined` gives a sufficient condition |
| Bands.Deviations | bands.js:46-47 | one relative deviation per bar, with `price == ma * (1 + p)` |
| Bands.Sd10 | bands.js:50 | the 1440-period rolling deviation of the highs' relative deviations; no contract of its own |
| Bands.Sd20 | bands.js:51 | the same for the lows; no contract of its own |
| Bands.UpperFactor | bands.js:54-55 | `1 + sd[i]*multiplier` pointwise; no contract of its own, `UpperBandsWiden` bounds it |
| Bands.LowerFactor | bands.js:56-57 | `1 - sd[i]*multiplier` pointwise; no contract of its own, `LowerBandBelow` bounds it |
| Bands.Band | bands.js:60-63 | each bar's time paired with `ma[i]*factor[i]`; no contract of its own, `CalculateBands` states its length and times |
| Bands.CalculateBands | bands.js:30-66 | the four bands each have one point per bar, carry that bar's time, and `b1[i].value == b2[i].value` (both lower factors use 2.25) |
| Bands.ProductsDominate | bands.js:36-37 | prices at least `lo` with non-negative volumes give products at least `lo` times the volume |
| Bands.PriceVolumeEmaAtLeast | bands.js:36-40 | then the price-volume EMA is at least `lo` times the volume EMA, which is non-negative |
| Bands.WeightedAverageAtLeast | bands.js:42-43 | a weighted average is at least `lo` when its fallback is and the price-volume average dominates `lo` times a non-negative volume average |
| Bands.WeightedAverageAtLeastMin | bands.js:36-43 | with positive prices and non-negative volumes the weighted average is at least the lowest price, hence positive |
| Bands.PositiveMarketDefined | bands.js:33-47 | positive highs and lows with non-negative or absent volumes make `ma1` and `ma2` positive everywhere, so no division at bands.js:46-47 is by zero |
| Bands.UpperBandsWiden | bands.js:54-55 | for a non-negative deviation `1 <= upperFactor1 <= upperFactor2`, and over a non-negative average `ma <= t1 <= t2` |
| Bands.LowerBandBelow | bands.js:56 | for a non-negative deviation `lowerFactor1 <= 1`, and over a non-negative average `b1 <= ma` |
| Bands.BandOrdering | bands.js:54-63 | on the actual bands: `1 <= upperFactor1[i] <= upperFactor2[i]`, `lowerFactor1[i] <= 1`, `ma1[i] <= t1[i] <= t2[i]` where `ma1[i] >= 0`, and `b1[i] <= ma2[i]` where `ma2[i] >= 0` |

## Left out

- IEEE-754 doubles: rounding, NaN and Infinity are not modelled; values are exact reals. In particular the unguarded divisions by `ma1`/`ma2` (bands.js:46-47) are excluded by the precondition `Defined` instead of producing non-finite values.
- `Math.sqrt` (bands.js:23) is a parameter; the model does not fix a square root function.
- StdevOfConstantWindow: states `sqrt(0)` rather than 0, because the solver settings used here do not derive `s == 0` from `s * s == 0`.
- Empty input: `ema([])` yields a one-element array of `undefined` and `calculateBands([])` throws; the model requires at least one element instead of modelling `undefined`.
- `bar.volume || 0` (bands.js:33): only absent versus present is modelled, as `Option<real>`; other JavaScript falsy values (`NaN`, `false`, `""`) are not.
- `stdev` with period 0 divides 0 by 0 in the source; `Stdev` requires a period of at least 1. Periods are natural numbers, not arbitrary JavaScript numbers.
- `Ema` and `Stdev` fill a fresh array as the source does, and return its contents as a sequence; the identity of the returned array object is not modelled.
- The missing export (bands.js:68) and any charting consumer are packaging, not logic.
