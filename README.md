# Normal-distribution demo: a verified model of its statistics core

The page generates a synthetic normal sample (each value is the sum of
twelve uniform draws minus 6, moved to mean 4 and standard deviation 1),
prints its descriptive statistics, groups it into an interval variation
series (equal-width buckets and their frequencies) and computes three
confidence intervals. This project models that arithmetic in Dafny over
exact reals and proves what the code promises about it.

- `binning.dfy` (module `Binning`): the interval variation series.
  `CalculateIntervalBounds` builds the bucket edges with a loop that adds the
  width to a running edge and then appends the sentinel `max + 1`;
  `CreateVariationSeries` fills a zero array and, for each value, increments
  the first bucket `[bounds[j], bounds[j + 1])` that accepts it and stops
  scanning. Both are methods proved against specification functions
  (`IntervalBounds`, `Tally`). The lemmas prove that the bounds never
  decrease and that the sentinel lies above every value. They prove that a
  value is counted at most once, and exactly once when there is at least one
  bucket. The trailing slot stays 0, and each bucket counts exactly the
  values in its half-open interval.
- `statistics.dfy` (module `Statistics`): sum, minimum, maximum, mean,
  biased variance (divide by n) and corrected variance (divide by n - 1), the
  block that describes the first tenth of the sample, and their properties.
- `variate.dfy` (module `Variate`): the sum-of-twelve-uniforms generator,
  the affine map `sigma * x + m`, the generation loop, and how the map
  moves the mean and scales the variance.
- `intervals.dfy` (module `ConfidenceIntervals`): the three confidence
  intervals, with quantiles and square roots as parameters.
- `wrappers.dfy` (module `Wrappers`): `Option`. `None` stands for the NaN
  that JavaScript produces in the printed statistics, and for "no bucket
  accepts the value" in the bucket scan (`FirstBucket`, `Bucket`).

Exact reals stand in for JavaScript doubles throughout. Nothing about
rounding is claimed; the bucket properties rest only on adding a
non-negative width, which keeps edges in order over the reals.

## Model

| member | source | states |
|---|---|---|
| `Statistics.Sum` | script.js:4 | the left fold `reduce((sum, x) => sum + x, 0)`: 0 for the empty sample, then each value added in order; its bounds are stated by `SumAtLeast`, `SumAtMost` and `SumBelow` |
| `Statistics.SumSqDev` | script.js:5-6 | the fold of `Math.pow(x - c, 2)` over the sample from 0, in order; `SumSqDevNonNegative` states its sign |
| `Statistics.Min` | script.js:68 | `Math.min` over a non-empty sample; `MinIsLeast` states what it returns |
| `Statistics.Max` | script.js:69 | `Math.max` over a non-empty sample; `MaxIsGreatest` states what it returns |
| `Statistics.Mean` | script.js:227 | the sample mean, sum over n, as computed at script.js:4, 18, 35 and 227; `MeanAtLeastMin` and `MeanAtMostMax` bound it |
| `Statistics.BiasedVariance` | script.js:231-232 | squared deviations from the mean over n, as at script.js:5-6 and 36-37; `VarianceOrder` relates it to the corrected one |
| `Statistics.CorrectedVariance` | script.js:238-240 | squared deviations from the mean over n - 1, as at script.js:20-22 |
| `Statistics.MinIsLeast` | script.js:68 | the minimum of a non-empty sample is one of its values and no value is smaller |
| `Statistics.MaxIsGreatest` | script.js:69 | the maximum of a non-empty sample is one of its values and no value is larger |
| `Statistics.MeanAtLeastMin` | script.js:227 | the sample mean (sum / n) is at least the smallest value |
| `Statistics.MeanAtMostMax` | script.js:227 | the sample mean is at most the largest value |
| `Statistics.SumSqDevNonNegative` | script.js:231-232 | the sum of squared deviations is never negative |
| `Statistics.VarianceOrder` | script.js:231-240 | for n >= 2: 0 <= biased variance <= corrected variance, and corrected * (n - 1) == biased * n |
| `Statistics.FiveValueSample` | script.js:227-240 | the sample 1..5 has mean 3, biased variance 2 and corrected variance 2.5 |
| `Statistics.Describe` | script.js:221-240 | the printed statistics: mean and biased variance are NaN (missing) exactly when n = 0 and are otherwise the sample mean and biased variance; the corrected variance is NaN exactly when n = 1, is 0 (JavaScript's -0, the empty sum over -1) when n = 0, and is the corrected variance when n >= 2; the mean lies between min and max; n = 1 gives variance 0; for n >= 2, 0 <= variance <= corrected variance |
| `Statistics.ComparePrefix` | script.js:222 | the comparison sample is the prefix of length floor(n / 10) |
| `Statistics.ShortSampleStatistics` | script.js:222-240 | from 10 to 19 values the comparison sample's corrected variance is NaN; below 10 values its mean and biased variance are NaN and its corrected variance is 0 |
| `Variate.GenerateRandomVariable` | script.js:54-61 | the loop returns the sum of the twelve draws minus 6, which lies in [-6, 6) when every draw lies in [0, 1) |
| `Variate.HalvesGiveZero` | script.js:54-61 | twelve draws of 0.5 give the variate 0 |
| `Variate.Transform` | script.js:63-65 | the affine map `sigma * x + m`; `TransformInverse` and `TransformMonotone` state its properties |
| `Variate.TransformInverse` | script.js:63-65 | for sigma != 0, subtracting m and dividing by sigma undoes `sigma * x + m` |
| `Variate.TransformMonotone` | script.js:63-65 | for sigma > 0 the affine map is strictly increasing |
| `Variate.GenerateSample` | script.js:102-110 | the loop yields numValues raw variates, each the sum of its own twelve draws minus 6, and the sample is their image under the map, in order |
| `Variate.MeanOfTransformed` | script.js:63-65 | the mean of the mapped sample is the map of the mean |
| `Variate.VarianceOfTransformed` | script.js:63-65 | the biased variance of the mapped sample is sigma^2 times the biased variance |
| `Binning.Width` | script.js:70 | the bucket width is non-negative when min <= max, and k widths span max - min |
| `Binning.Edges` | script.js:70-77 | k edges then the sentinel: k + 1 values, the last one hi + 1 and, with k >= 1, the first one lo |
| `Binning.IntervalBounds` | script.js:67-79 | the bounds of a non-empty sample: k + 1 values, the last one max + 1 and, with k >= 1, the first one min |
| `Binning.CalculateIntervalBounds` | script.js:67-79 | the loop returns exactly `IntervalBounds`: numIntervals + 1 bounds, the last one max + 1 and, with at least one bucket, the first one min |
| `Binning.EdgeAt` | script.js:71-77 | bound i is min + i * width for i < k, and bound k is the sentinel max + 1 |
| `Binning.EdgesNonDecreasing` | script.js:70-77 | for min <= max the edges built from a non-negative width never decrease, up to and including the sentinel |
| `Binning.BoundsNonDecreasing` | script.js:67-79 | the bounds of any non-empty sample never decrease |
| `Binning.SentinelAboveSample` | script.js:69-77 | every value of the sample is strictly below the last bound |
| `Binning.SampleWithinBounds` | script.js:67-79 | with at least one bucket every value lies in [bounds[0], bounds[k]) |
| `Binning.NoBuckets` | script.js:67-79 | with numIntervals = 0 the bounds are the sentinel alone |
| `Binning.FirstBucket` | script.js:85-90 | the scan returns the first bucket whose half-open test succeeds, or none when every test fails |
| `Binning.Bucket` | script.js:85-90 | the bucket a value is counted in, scanning from bucket 0: an accepting bucket with no accepting bucket before it, or none exactly when no bucket accepts the value |
| `Binning.FirstMatch` | script.js:85-88 | a bucket whose test succeeds after all earlier tests failed is the one the value is counted in |
| `Binning.BucketOfSorted` | script.js:85-88 | with non-decreasing bounds a value is counted in bucket j exactly when it lies in [bounds[j], bounds[j + 1]) |
| `Binning.FirstBucketFound` | script.js:85-90 | a value in [bounds[from], bounds[last]) is accepted by some bucket |
| `Binning.Tally` | script.js:81-93 | the counts after processing the values in order have one slot per bound |
| `Binning.TallyStep` | script.js:83-90 | one more value adds one to its bucket only, and every other slot keeps its count |
| `Binning.CreateVariationSeries` | script.js:81-93 | the nested loop with `break` returns exactly `Tally`: one slot per bound, a total of at most n, and a trailing slot of 0 |
| `Binning.TallyTotal` | script.js:83-90 | the counts add up to the number of values some bucket accepts |
| `Binning.TallyTotalAtMost` | script.js:83-90 | the counts never add up to more than n |
| `Binning.TallyLastSlotZero` | script.js:82-85 | the trailing slot is never incremented |
| `Binning.AllCovered` | script.js:83-90 | if every value has a bucket, every value is counted |
| `Binning.TallyCountsBucket` | script.js:81-93 | with non-decreasing bounds, slot j holds the number of values in [bounds[j], bounds[j + 1]) |
| `Binning.SingleBoundSeries` | script.js:81-93 | with a single bound the series is [0] and no value is counted |
| `Binning.VariationSeriesExact` | script.js:67-93 | for a non-empty sample and k >= 1 buckets of its own bounds: the counts add up to n, the trailing slot is 0, and each bucket counts exactly the values in its interval |
| `ConfidenceIntervals.AroundMean` | script.js:9-10 | mean ± q * se is centred on the mean, has width 2 * q * se, and contains the mean when q, se >= 0 |
| `ConfidenceIntervals.AroundMeanWidens` | script.js:9-10 | a larger quantile gives an interval containing the smaller one's |
| `ConfidenceIntervals.KnownVarianceInterval` | script.js:2-13 | centred on the mean, containing it for z >= 0, with squared width 4 z^2 times the biased variance over n |
| `ConfidenceIntervals.UnknownVarianceInterval` | script.js:16-28 | centred on the mean, containing it for t >= 0, with squared width 4 t^2 times the corrected variance over n |
| `ConfidenceIntervals.KnownVarianceWidens` | script.js:7-10 | with the same standard error, a larger normal quantile (a higher confidence level) gives a known-variance interval containing the smaller one's |
| `ConfidenceIntervals.UnknownVarianceWidens` | script.js:19-25 | with the same standard error, a larger Student-t quantile gives an unknown-variance interval containing the smaller one's |
| `ConfidenceIntervals.VarianceIntervalAsWritten` | script.js:31-42 | the variance interval as the code computes it: (n - 1) times the biased variance over the upper and the lower chi-squared quantile; `AsWrittenShrinks`, `AsWrittenWidens` and `AsWrittenMissesPivot` state its properties |
| `ConfidenceIntervals.AsWrittenWidens` | script.js:33-39 | quantiles further apart give an interval as written that contains the narrower one |
| `ConfidenceIntervals.AsWrittenShrinks` | script.js:37-39 | the variance interval as written is the pivot interval scaled by (n - 1) / n at both ends |
| `ConfidenceIntervals.AsWrittenMissesPivot` | script.js:31-42 | for 1..5 with quantiles 1 and 10, the variance 9 satisfies the pivot condition but lies outside the interval as written |
| `ConfidenceIntervals.VarianceInterval` | script.js:31-42 | the corrected variance interval: (n - 1) times the corrected variance over the two quantiles; `VarianceIntervalPivot` and `VarianceIntervalWidens` state its properties |
| `ConfidenceIntervals.VarianceIntervalPivot` | script.js:31-42 | the corrected variance interval holds exactly the variances whose pivot (n - 1) S^2 / sigma^2 lies between the two chi-squared quantiles |
| `ConfidenceIntervals.VarianceIntervalWidens` | script.js:31-42 | for the corrected interval, quantiles further apart give a variance interval containing the narrower one |

## Left out

- Page plumbing: clearing and filling tables, `innerHTML` templates, the Chart.js histogram and density plot, and the click listener (script.js:45-52, 112-140, 148-219, 256, 273-280). None of it computes anything.
- `Math.random`: the twelve uniform draws per variate are parameters of `GenerateRandomVariable` and `GenerateSample`.
- `Math.floor(Math.log(numValues))` (script.js:143): the bucket count is a parameter. This floating-point logarithm is 0 for one or two values. `NoBuckets` and `SingleBoundSeries` cover that case.
- `calculateGaussianDensity` and the density-curve loop with its floating step (script.js:95-99, 198-203): they rest on `exp`, `sqrt` and `PI`.
- Square roots and quantiles: `Math.sqrt` and the jStat inverse distribution functions are parameters. A square root `se` of `x` is any `se >= 0` with `se * se == x`. The printed standard deviations (script.js:246, 252) are therefore not separate members.
- `toFixed` rounding of every printed value.
- Floating-point rounding: `currentBound += intervalSize` accumulates rounding in doubles, so the last real edge may differ slightly from `min + (k - 1) * width`. The model is exact.
- `CalculateIntervalBounds`: requires a non-empty sample. For an empty one `Math.min`/`Math.max` return +/-Infinity, which reals cannot represent. The page reaches that whenever the generation loop runs zero times (script.js:102, 105): for a sample size of 0 or less, and for a non-numeric input, where `parseInt` gives NaN and `i < NaN` is false.
- `Min`, `Max`: `Math.min.apply(null, data)` and `Math.max.apply(null, data)` (script.js:68-69) pass every value as a separate argument, so a sample larger than the JavaScript engine's argument limit throws a `RangeError` there. The model has no such limit.
- `KnownVarianceInterval`, `UnknownVarianceInterval`, `VarianceInterval`: require the sample sizes for which the source yields numbers (n >= 1, n >= 2, n >= 2 with positive chi-squared quantiles). Elsewhere it yields NaN.
- `GenerateSample`: `parseInt` of a non-numeric or negative input makes the loop run zero times; the model takes the count as a `nat`, and 0 stands for those inputs.

## Findings

| source | as written | input that shows it | evidently intended | confidence | as-written member | corrected member |
|---|---|---|---|---|---|---|
| script.js:37-39 | the variance interval multiplies the biased variance (divided by n) by n - 1, so both ends are the pivot interval scaled by (n - 1) / n | sample 1, 2, 3, 4, 5 with chi-squared quantiles 1 and 10: the interval as written is [0.8, 8], and the variance 9 falls outside it although its pivot 10 / 9 lies between the quantiles | (n - 1) times the corrected variance, that is the sum of squared deviations, giving [1, 10] | not executed; high, since the pivot (n - 1) S^2 / sigma^2 of the chi-squared interval uses the corrected variance | `ConfidenceIntervals.AsWrittenMissesPivot` | `ConfidenceIntervals.VarianceIntervalPivot` |
