# Peer-group risk scoring for carbon-offset claims

This project models the scoring pipeline `analyzeDataset` of a carbon-credit fraud screening
tool and proves its properties. The pipeline takes a list of project claims and returns one
scored record per claim, in input order:

1. Each claim gets a reduction rate: claimed reduction divided by duration in months.
2. The rates are grouped by project type only. The region is ignored, although a comment in
   the source says "Type and Region".
3. Each group gets its mean and its population standard deviation. A deviation of zero is
   replaced by 1.
4. Each record gets a z-score against its own group, a logistic risk score centred at
   z = 1.5, and an anomaly flag that is set when z > 2, strictly.

Files and modules:

- `types.dfy` (`Types`): the closed `ProjectType` enumeration, the input record `CarbonProject`
  and the output record `AnalysisResult`. The output embeds the input record verbatim and adds
  the six computed fields.
- `numerics.dfy` (`Numerics`): the laws assumed of the square root and the exponential.
- `analytics.dfy` (`Analytics`): the pipeline. The grouping table and the statistics table are
  filled by loops in place, as in the source (`GroupRates`, `ComputeGroupStats`). Each loop is
  proved equal to a specification function (`PeerGroups`, `StatsTable`). The method
  `AnalyzeDataset` composes the steps and is proved equal to the function `Analyze`.
- `properties.dfy` (`AnalyticsProperties`): what the pipeline guarantees, proved about
  `Analyze` and its parts.
- `scenarios.dfy` (`AnalyticsScenarios`): worked groups with concrete rates, including the
  boundary case z = 2 exactly.

Modelling decisions:

- Numbers are `real`. The source uses floating-point numbers.
- `Math.sqrt` and `Math.exp` are functions from outside the model, so they are parameters
  `sqrt` and `exp`. The predicates `IsSqrt` and `IsExp` state what the proofs assume of them:
  - `sqrt` returns the non-negative square root of a non-negative number;
  - `exp` is positive, strictly increasing, and `exp(0) == 1`.
  Only `RiskScore` and the functions that call it need `IsExp`, because they divide by
  `1 + exp(...)`.
- At utils/analytics.ts:8 the source divides by the duration without a guard. A zero duration
  gives a rate of +Infinity or -Infinity for a non-zero claim and NaN for a zero claim; the
  group mean then stops being finite, and `NaN || 1` sets the deviation to 1. A negative
  duration gives a finite negative rate (claim 120 over -12 months gives -10), which the source
  groups and scores like any other. The model enforces the input contract `durationMonths > 0`
  instead: `Analyze` returns `Err(NonPositiveDuration(index, id))` for the first record whose
  duration is not positive, and scores nothing in that case.
- `std || 1` at utils/analytics.ts:25 replaces both 0 and NaN by 1. Over the reals only the
  zero case exists, so `FloorStd` replaces exactly 0.
- `Math.pow(x - mean, 2)` is modelled as `(x - mean) * (x - mean)`.
- `Object.keys(groups)` gives the keys in insertion order. `ComputeGroupStats` takes them in
  any order, and the table it builds is the same for every order.

## Model

| member | source | states |
|---|---|---|
| `Analytics.FirstBadDuration` | utils/analytics.ts:8 | Returns the index of the first record whose duration is not positive, or the length of the input if there is none. Every record before that index has a positive duration. |
| `Analytics.Rate` | utils/analytics.ts:8 | The rate times the duration gives back the claimed reduction. A non-negative claim has a non-negative rate. |
| `Analytics.Normalize` | utils/analytics.ts:6-9 | Gives one rated record per input record, in the same order. Record i keeps input i unchanged, and its rate times input i's duration is input i's claim. |
| `Analytics.PeerGroupsSnoc` | utils/analytics.ts:13-17 | Appending a record to the input appends its rate to its own type's group only. The group is created empty first if the type is new. Every other group is unchanged. |
| `Analytics.RatesOfTypeAbsent` | utils/analytics.ts:15 | A type that no record has gets no rates. |
| `Analytics.GroupRates` | utils/analytics.ts:12-17 | The loop that fills the grouping table in place produces exactly `PeerGroups(rated)`: one entry per type that occurs, holding that type's rates in input order. |
| `Analytics.Square` | utils/analytics.ts:24 | A squared deviation is never negative, and it is zero only when the deviation is zero. |
| `Analytics.SquaredDeviations` | utils/analytics.ts:24 | Gives one squared deviation per rate. Each is non-negative, and each is zero exactly when that rate equals the mean. |
| `Analytics.FloorStd` | utils/analytics.ts:25 | The floored deviation is never zero. It equals the computed deviation whenever that is non-zero. |
| `Analytics.ComputeGroupStats` | utils/analytics.ts:20-26 | The loop over the keys, in any order, produces exactly `StatsTable(groups, sqrt)`. That table has one entry per group, with the group's mean and its floored population deviation. |
| `Analytics.PeerGroupsNonEmpty` | utils/analytics.ts:15-16 | No group in the grouping table is empty, so the divisions by `rates.length` are defined. |
| `Analytics.RatesOfTypePresent` | utils/analytics.ts:15-16 | A type that some record has gets at least one rate. |
| `Analytics.StatsTableCovers` | utils/analytics.ts:20-31 | Every record's type has an entry in the statistics table, so the lookup at scoring time always succeeds, and that entry's deviation is a non-zero divisor. |
| `Analytics.ZScore` | utils/analytics.ts:31 | The z-score times the group deviation is the rate minus the group mean. |
| `Analytics.RiskScore` | utils/analytics.ts:35 | The risk score lies strictly between 0 and 1. |
| `Analytics.ScoreRecord` | utils/analytics.ts:29-45 | The output keeps the input project and its rate and copies the group mean and deviation. Its z-score times the deviation is the rate minus the mean. Its risk is the logistic of its z-score. It is flagged exactly when z > 2. |
| `Analytics.ScoreAll` | utils/analytics.ts:29-46 | Gives one output per rated record. Output i is scored from rated record i against the statistics of that record's own type. |
| `Analytics.DurationsPositive` | utils/analytics.ts:8 | Reference definition of a valid input: every duration is positive. It holds exactly when `FirstBadDuration` finds no bad record. |
| `Analytics.TypesIn` | utils/analytics.ts:14-15 | Reference definition of the grouping keys: the set of project types that occur. Every record's type is in it. |
| `Analytics.RatesOfType` | utils/analytics.ts:13-17 | Reference definition of one group: the rates of the records of type t, in input order. A group is never longer than the input. |
| `Analytics.PeerGroups` | utils/analytics.ts:12-17 | Reference definition of the grouping table: one entry per type that occurs, holding `RatesOfType` for it. Every record's type is a key. |
| `Analytics.Sum` | utils/analytics.ts:23 | Reference definition of the left fold `reduce((a, b) => a + b, 0)`. A sum of non-negative values is non-negative. |
| `Analytics.Mean` | utils/analytics.ts:23 | Reference definition of the group mean. The mean times the group size is the sum of the group. |
| `Analytics.Variance` | utils/analytics.ts:24 | Reference definition of the population variance, divided by n with no Bessel correction. It is never negative, so `sqrt` only sees non-negative numbers, and it times n is the sum of the squared deviations. |
| `Analytics.Stats` | utils/analytics.ts:22-25 | Reference definition of one group's statistics. The mean times the group size is the group's sum, and the deviation is never zero. |
| `Analytics.StatsTable` | utils/analytics.ts:20-26 | Reference definition of the statistics table. It has exactly the keys of the grouping table, and no entry has a zero deviation. |
| `Analytics.IsAnomaly` | utils/analytics.ts:36 | Reference definition of the anomaly flag. A flagged z-score is above 2, and a z-score of exactly 2 is not flagged. |
| `Analytics.Analyze` | utils/analytics.ts:4-47 | Reference definition of the whole pipeline, and `AnalyzeDataset` is proved equal to it. It succeeds exactly when every duration is positive, and then gives one output per input. On failure the error's index is a record whose duration is not positive. |
| `Analytics.AnalyzeDataset` | utils/analytics.ts:4-47 | The imperative pipeline (rates, grouping loop, statistics loop, scoring map) returns exactly what `Analyze` specifies. |
| `Numerics.SqrtZeroIff` | utils/analytics.ts:24-25 | The square root of a non-negative number is zero exactly when the number is zero. |
| `Numerics.SqrtOfSquare` | utils/analytics.ts:24 | The square root of r * r is r for r >= 0. This pins down the deviation in concrete groups. |
| `AnalyticsProperties.RatesOfTypeIsTypeFilter` | utils/analytics.ts:13-17 | Group t lists exactly the rates of the type-t records, in input order, duplicates kept. Its k-th rate is the rate of the k-th type-t record. The positions increase, and every type-t record is among them. |
| `AnalyticsProperties.RatesOfTypeAgree` | utils/analytics.ts:14 | Every group depends only on each record's type and rate. |
| `AnalyticsProperties.PeerGroupsIgnoreRegion` | utils/analytics.ts:14 | Two inputs that agree on type and rate record by record have the same grouping table, whatever their regions. |
| `AnalyticsProperties.SumOfConstant` | utils/analytics.ts:23 | A sum of n equal terms c is n * c. |
| `AnalyticsProperties.SumOfNonNegatives` | utils/analytics.ts:24 | A sum of non-negative terms is non-negative, and it is zero exactly when every term is zero. |
| `AnalyticsProperties.MeanOfConstant` | utils/analytics.ts:23 | The mean of equal values is that value. |
| `AnalyticsProperties.VarianceZeroIff` | utils/analytics.ts:24 | The population variance is zero exactly when all rates in the group are equal. |
| `AnalyticsProperties.StdDevFloor` | utils/analytics.ts:24-25 | The group deviation is positive. It is exactly 1 when the variance is zero. Otherwise its square is the population variance, with no Bessel correction. |
| `AnalyticsProperties.UniformGroupScoresZero` | utils/analytics.ts:23-31 | A group of equal rates has the common rate as its mean and deviation 1, and every member's z-score is 0. |
| `AnalyticsProperties.RiskScoreIncreasing` | utils/analytics.ts:35 | The risk score strictly increases with the z-score. |
| `AnalyticsProperties.RiskScoreAtCentre` | utils/analytics.ts:35 | A z-score of 1.5 gives a risk of exactly 1/2. |
| `AnalyticsProperties.AnomalyRisk` | utils/analytics.ts:35-36 | The flag holds exactly when z > 2, so z == 2 is not flagged. Every flagged record's risk is above the risk at z = 2, which is above 1/2. |
| `AnalyticsProperties.AnalyzeOk` | utils/analytics.ts:4-47 | On an input whose durations are all positive: no group is empty, the statistics table covers every record, and the result is the scoring map over the normalised records. |
| `AnalyticsProperties.AnalyzeRejectsIff` | utils/analytics.ts:8 | The run succeeds exactly when every duration is positive. Otherwise the error gives the index and id of the first record with a non-positive duration. |
| `AnalyticsProperties.AnalyzePreservesRecords` | utils/analytics.ts:6-46 | There is one output per input, in input order, with no sorting or filtering, and the empty input gives the empty output. Output i carries input i unchanged, and its rate is `Rate(input i)`. |
| `AnalyticsProperties.AnalyzeUsesPeerStatistics` | utils/analytics.ts:20-41 | A record's group is non-empty and contains the record's own rate. Its `groupMean` is the mean of the rates of its own type, and its `groupStdDev` is their floored population deviation. |
| `AnalyticsProperties.AnalyzeScores` | utils/analytics.ts:29-44 | Every output has a non-zero deviation and the z-score of its rate against its group. Its risk score is the logistic of that z-score and lies strictly between 0 and 1. It is flagged exactly when z > 2. |
| `AnalyticsProperties.AnalyzeStdDevPositive` | utils/analytics.ts:24-25 | Every output's group deviation is positive. |
| `AnalyticsProperties.AnalyzeUniformGroup` | utils/analytics.ts:23-36 | Suppose all projects of one type have the same rate. Then each of them gets its own rate as the mean, deviation 1, z-score 0, risk 1/(1 + exp(1.5)), and no flag. |
| `AnalyticsProperties.AnalyzeIgnoresRegion` | utils/analytics.ts:11-16 | Two inputs that agree on type, claim and duration record by record get identical computed fields. Region, id, name and credits play no part in the score. |
| `AnalyticsScenarios.SolarScenario` | utils/analytics.ts:20-36 | Rates 100, 100, 100 give mean 100, deviation 1 (floored), z-score 0, risk 1/(1 + exp(1.5)), and no flag. |
| `AnalyticsScenarios.ForestryScenario` | utils/analytics.ts:20-36 | Rates 50, 50, 50, 500 give mean 162.5 and variance 37968.75. The outlier's z-score is the square root of 3, between 1.7 and 1.8, so it is not flagged. |
| `AnalyticsScenarios.BoundaryScenario` | utils/analytics.ts:20-36 | Rates 10, 10, 10, 10, 1000 give mean 208 and deviation exactly 396. The outlier's z-score is exactly 2, and it is not flagged. |
| `AnalyticsScenarios.ClearAnomalyScenario` | utils/analytics.ts:20-36 | Nine rates of 0 and one of 10 give mean 1 and deviation 3. The outlier's z-score is 3, so it is flagged, and its risk exceeds the risk at z = 2, which exceeds 1/2. |

## Left out

- Floating-point behaviour is not modelled: rounding, Infinity and NaN, and the concrete values of `Math.sqrt`, `Math.exp` and `Math.pow`. They appear only through the laws in `Numerics`.
- `AnalyticsProperties.UniformGroupScoresZero`, `AnalyticsProperties.AnalyzeUniformGroup` and `AnalyticsScenarios.SolarScenario` hold over the reals only. In IEEE doubles three equal rates of 0.1 sum to 0.30000000000000004, so the mean is 0.10000000000000002. The deviation is then about 1.39e-17, which `|| 1` does not floor, and every member's z-score is -1 instead of 0.
- `Analytics.RiskScore`: the strict upper bound `< 1` holds over the reals only. In doubles `1 + exp(-(z - 1.5))` rounds to 1 once z is at least about 38.25, and the risk becomes exactly 1. A population z-score is at most the square root of n - 1, so this needs a group of more than about 1460 records.
- Inputs with a non-positive duration are rejected with an error, to enforce `durationMonths > 0`. For a zero duration the source instead produces a rate of +Infinity, -Infinity or NaN and carries it into the group statistics. For a negative duration it produces a finite negative rate and scores it normally; the model does not score such inputs.
- The NaN half of `std || 1` is not modelled. Over the reals only a zero deviation can be floored.
- The React components are not modelled: rendering, navigation and hook state. This includes the per-type flagged and normal counts, the averages over all results, and the risk-sorted anomaly list, all of which are presentation over the pipeline's output.
- Mock data generation is not modelled, because it is driven by `Math.random`.
- The call to the external language-model service is not modelled, because it is foreign I/O with a fixed fallback text.
- The `AppTab` navigation enumeration is not modelled.
- Determinism of `analyzeDataset` gets no lemma of its own. It holds because `Analyze` is a function.
