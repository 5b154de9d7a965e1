# SHG feature engineering, modelled in Dafny

This project models the feature-engineering pipeline of a credit-scoring
service for Self-Help Groups (SHGs), which are microfinance savings circles.
The pipeline takes one raw observation of a group for one reporting period.
The observation is a record in which every field is optional and each absent
field has a default. The pipeline turns it into a flat mapping of seventeen
named numbers. Four feature groups compute the values:

- **financial discipline**: average saving, spread of savings, share of months with a positive saving, missed-EMI rate, average repayment delay;
- **stability**: attendance average and spread, member dropout rate, meeting regularity, leadership changes;
- **growth readiness**: savings growth from first to last month, loan uptake, loan-to-savings exposure, income stability;
- **behavioural safety**: a sudden-savings-jump flag, an attendance-drop flag and a past-default flag.

`build_feature_vector` merges the four results into one dictionary. It starts
from an empty dictionary and updates it once per group.

Layout, one module per file:

- `stats.dfy` (`Stats`): the helpers `safe_mean`, `safe_std` and `clamp`, plus the positive-entry count.
- `observation.dfy` (`Observation`): the raw record, with an `Option` per field.
- `feature_names.dfy` (`FeatureNames`): the seventeen feature keys and their dictionary names. It also holds the four column lists that the training script feeds to the scoring models.
- `financial.dfy`, `stability.dfy`, `growth.dfy`, `behavior.dfy`: one module per feature group. Each is a pure function with lemmas about it.
- `pipeline.dfy` (`Pipeline`): the pure union `FeatureVector`, and the imperative `BuildFeatureVector`, which is proved equal to it.
- `worked_cases.dfy` (`WorkedCases`): worked cases.

Modelling choices:

- Numbers are exact `real`s. Python ints (counts, flags) and floats are both `real`.
- A key that is missing from the raw dictionary is `None`. Each group resolves `None` to the same default that its own lookup uses. The group size is additionally floored at 1.
- Feature keys form a datatype, `Feature`. `Name` gives the dictionary string under which the Python code stores each key. The training script's column lists are copied as string literals, so their agreement with `Name` is proved, not built in.
- `np.std` is the square root of the population variance. Variance is defined exactly. The square root is a foreign numeric routine, so it is a parameter `root` of type `SquareRoot`: any function that maps 0 to 0 and maps non-negative numbers to non-negative numbers. Every result that depends on a spread holds for every such root, including the real one.
- `build_feature_vector` is the one imperative operation. It is a method that updates a map variable four times. Its postcondition equates the result with the pure union of the four groups.
- Every function is deterministic. So calling the pipeline twice on the same observation gives the same vector by construction, and no lemma is needed for that.

Savings 1000, 500 and 2500 are all > 0, so `regular_months` is 3 and the regularity is 100; `WorkedCases.EveryMonthSaved` proves it.

## Model

| member | source | states |
|---|---|---|
| Stats.Mean | BACKEND/APP/CORE/FEATUREENGINEERING.py:7-10 | the mean of an empty sequence is exactly 0.0 |
| Stats.SumWithin | BACKEND/APP/CORE/FEATUREENGINEERING.py:10 | a sum of n entries that all lie in [lo, hi] lies in [n·lo, n·hi] |
| Stats.MeanWithin | BACKEND/APP/CORE/FEATUREENGINEERING.py:10 | the mean of a non-empty sequence lies within any bounds that all entries respect |
| Stats.MeanOfConstant | BACKEND/APP/CORE/FEATUREENGINEERING.py:10 | the mean of a sequence of equal entries is that entry |
| Stats.SquaredDeviation | BACKEND/APP/CORE/FEATUREENGINEERING.py:16 | the sum of squared deviations is never negative |
| Stats.SquaredDeviationOfConstant | BACKEND/APP/CORE/FEATUREENGINEERING.py:16 | entries that all equal c deviate from c by nothing |
| Stats.Variance | BACKEND/APP/CORE/FEATUREENGINEERING.py:16 | the population variance is never negative |
| Stats.Std | BACKEND/APP/CORE/FEATUREENGINEERING.py:13-16 | the standard deviation is exactly 0.0 on an empty sequence and never negative |
| Stats.StdOfConstant | BACKEND/APP/CORE/FEATUREENGINEERING.py:13-16 | a sequence of equal entries has standard deviation 0 |
| Stats.Clamp | BACKEND/APP/CORE/FEATUREENGINEERING.py:19-20 | with lo ≤ hi the result lies in [lo, hi]; the value is unchanged inside the range, becomes hi above it and lo below it; with lo > hi the result is lo |
| Stats.CountPositive | BACKEND/APP/CORE/FEATUREENGINEERING.py:42 | the count of positive entries is at most the length; it equals the length iff every entry is positive, and is 0 iff none is |
| Financial.ComputeFinancialFeatures | BACKEND/APP/CORE/FEATUREENGINEERING.py:27-54 | writes exactly the five financial keys; the savings spread is non-negative; regularity and the EMI miss rate lie in [0, 100] |
| Financial.SavingsRegularityIsShareOfPositiveMonths | BACKEND/APP/CORE/FEATUREENGINEERING.py:42-43 | regularity is 100·(positive months)/max(len, 1) with no clamping needed; it is 100 iff there are entries and all are positive, and 0 iff none is positive |
| Financial.EmiMissRatePerPeriod | BACKEND/APP/CORE/FEATUREENGINEERING.py:45 | the EMI miss rate, over periods = max(len(savings), 1), is 0 when no EMI was missed, 100 when missed ≥ periods, and 100·missed/periods in between |
| Financial.AveragesWithinEntries | BACKEND/APP/CORE/FEATUREENGINEERING.py:39-46 | the average saving and average delay are 0 without data (so is the savings spread), and otherwise lie within any bounds their entries respect |
| Financial.FinancialOfEmptyObservation | BACKEND/APP/CORE/FEATUREENGINEERING.py:35-54 | with every field absent, all five financial features are 0 |
| Stability.ComputeStabilityFeatures | BACKEND/APP/CORE/FEATUREENGINEERING.py:61-88 | writes exactly the five stability keys; the attendance average and dropout rate lie in [0, 100]; the attendance spread is non-negative; meeting frequency and leadership changes are copied unchanged (default 0) |
| Stability.AttendanceAverageIsMean | BACKEND/APP/CORE/FEATUREENGINEERING.py:75-83 | with no attendance data the average and spread are 0; when every entry is a percentage, the clamp changes nothing and the average is the plain mean |
| Stability.DropoutRatePerMember | BACKEND/APP/CORE/FEATUREENGINEERING.py:72-85 | the group size is floored at 1 (it is 1 when absent), so the division is defined; the rate is 0 without dropouts, 100 when dropouts ≥ members, and 100·dropouts/members in between |
| Stability.SteadyAttendanceHasNoSpread | BACKEND/APP/CORE/FEATUREENGINEERING.py:76 | constant attendance has spread 0 |
| Stability.StabilityOfEmptyObservation | BACKEND/APP/CORE/FEATUREENGINEERING.py:71-88 | with every field absent, all five stability features are 0 |
| Growth.ComputeGrowthFeatures | BACKEND/APP/CORE/FEATUREENGINEERING.py:95-122 | (growth_rate is the helper `Growth.GrowthRatio`, lines 107-110; `sum(savings)` is `Stats.Sum`, line 113) writes exactly the four growth keys; growth, loan-to-savings and income stability lie in [0, 100]; loan utilization is 100 iff the loan is positive and 0 iff it is not |
| Growth.SavingsGrowthFirstToLast | BACKEND/APP/CORE/FEATUREENGINEERING.py:107-118 | growth is 0 with fewer than two entries; it is positive iff there are at least two entries and last > first; it is 100 once last − first ≥ max(first, 1); in between it is the unclamped whole-period rate |
| Growth.SavingsGrowthIgnoresMiddle | BACKEND/APP/CORE/FEATUREENGINEERING.py:107-108 | two savings series of length ≥ 2 with the same first and last entries have the same growth rate |
| Growth.LoanToSavingsExposure | BACKEND/APP/CORE/FEATUREENGINEERING.py:113-120 | the loan-to-savings ratio, over max(sum(savings), 1), is 0 without a loan, 100 once the loan reaches that base, and 100·loan/base in between |
| Growth.IncomeStabilityFromSpread | BACKEND/APP/CORE/FEATUREENGINEERING.py:115-121 | income stability is 100 iff the income spread is 0, so it is 100 with no income data; it is 100 − spread for a spread up to 100, and 0 beyond |
| Growth.SteadyIncomeIsFullyStable | BACKEND/APP/CORE/FEATUREENGINEERING.py:115-121 | constant income gives stability 100 |
| Growth.GrowthOfEmptyObservation | BACKEND/APP/CORE/FEATUREENGINEERING.py:103-122 | with every field absent, growth, loan utilization and loan-to-savings are 0 and income stability is 100 |
| Behavior.ComputeBehaviorFeatures | BACKEND/APP/CORE/FEATUREENGINEERING.py:129-148 | writes exactly the three behaviour keys, each a 0/1 flag; the jump flag is 1 iff len ≥ 2 and last > 2·second-to-last; the drop flag is 1 iff len ≥ 2 and last < 0.7·second-to-last; the default flag is 1 iff past_default is true (default false) |
| Behavior.FlagsReadLastTwoEntries | BACKEND/APP/CORE/FEATUREENGINEERING.py:140-141 | whatever history comes before them, the last two entries alone decide the jump and drop flags |
| FeatureNames.FinancialSchema | ML/TRAINMODELS.py:34-40 | the financial model's five column names are distinct and are exactly the names of the financial extractor's keys |
| FeatureNames.StabilitySchema | ML/TRAINMODELS.py:42-48 | the stability model's five column names are distinct and are exactly the names of the stability extractor's keys |
| FeatureNames.GrowthSchema | ML/TRAINMODELS.py:50-55 | the growth model's four column names are distinct and are exactly the names of the growth extractor's keys |
| FeatureNames.BehaviorSchema | ML/TRAINMODELS.py:57-61 | the anomaly detector's three column names are distinct and are exactly the names of the behaviour extractor's keys |
| FeatureNames.ModelSchemas | ML/TRAINMODELS.py:34-61 | all four schemas together are the names of all seventeen keys, and no two features share a dictionary name |
| FeatureNames.NameInjective | BACKEND/APP/CORE/FEATUREENGINEERING.py:155-166 | distinct features are stored under distinct dictionary keys, so no update overwrites another group's value |
| FeatureNames.KeysDisjoint | BACKEND/APP/CORE/FEATUREENGINEERING.py:155-166 | the four groups' key sets are pairwise disjoint |
| FeatureNames.GroupKeyCounts | BACKEND/APP/CORE/FEATUREENGINEERING.py:48-148 | the groups write 5, 5, 4 and 3 keys |
| FeatureNames.SeventeenKeys | BACKEND/APP/CORE/FEATUREENGINEERING.py:155-166 | the merged key set has 17 keys |
| FeatureNames.EveryFeatureWritten | BACKEND/APP/CORE/FEATUREENGINEERING.py:155-166 | every feature key is written by some group, whatever the input |
| Pipeline.FeatureVector | BACKEND/APP/CORE/FEATUREENGINEERING.py:155-166 | the merged vector has exactly the union of the four key sets, and each value is the one its own group computed |
| Pipeline.BuildFeatureVector | BACKEND/APP/CORE/FEATUREENGINEERING.py:155-166 | four successive updates of an empty map give exactly the pure union, with 17 keys |
| Pipeline.MergeReversed | BACKEND/APP/CORE/FEATUREENGINEERING.py:160-164 | updating with maps whose key sets are pairwise disjoint gives the same result in reverse order |
| Pipeline.MergeOrderIrrelevant | BACKEND/APP/CORE/FEATUREENGINEERING.py:160-164 | merging the four groups in the reverse order gives the same feature vector |
| Pipeline.FeatureVectorBounded | BACKEND/APP/CORE/FEATUREENGINEERING.py:48-148 | in the merged vector, every percentage feature lies in [0, 100], every flag is 0 or 1, and both spreads are non-negative, for every input |
| Pipeline.EmptyObservationVector | BACKEND/APP/CORE/FEATUREENGINEERING.py:155-166 | the empty observation yields all seventeen keys, each 0 except INCOME_STABILITY_PROXY, which is 100 |
| WorkedCases.EveryMonthSaved | BACKEND/APP/CORE/FEATUREENGINEERING.py:42-43 | savings 1000, 500, 2500 give regularity 100 |
| WorkedCases.OneMissInThreePeriods | BACKEND/APP/CORE/FEATUREENGINEERING.py:45 | one missed EMI over three savings entries gives a miss rate of 100/3 |
| WorkedCases.GrowthClampedTo100 | BACKEND/APP/CORE/FEATUREENGINEERING.py:107-118 | growth from 1000 to 2500 (150%) is clamped to 100 |
| WorkedCases.AttendanceDrop | BACKEND/APP/CORE/FEATUREENGINEERING.py:141 | attendance 90 then 50 raises the drop flag; 90 then 70 does not |
| WorkedCases.SavingsJump | BACKEND/APP/CORE/FEATUREENGINEERING.py:140 | savings 100 then 250 raise the jump flag; 100 then 150 do not |

## Left out

- Floating-point rounding: all arithmetic is over exact reals, so 0.7·x and divisions are exact. IEEE infinities and NaN are not modelled.
- The square root inside `np.std` is a parameter. Only sqrt(0) = 0 and non-negativity are assumed of it, so no lemma gives a numeric value for a non-zero spread.
- Dynamic typing: a value of the wrong type (a string in a numeric list, a non-list where a list is expected) and Python truthiness on non-boolean `past_default` values are not modelled. The record is typed, and `past_default` is a boolean.
- Keys that are present but hold `None` are not modelled. An absent key is `None` in the model, and a key present in the dictionary always carries a value.
- Synthetic data generation (ML/DATA/SYNTHETIC/GENERATESYNTHETICSHG.py) is random sampling and CSV output, so it is not part of this model.
- Model training (ML/TRAINMODELS.py) is library calls and file I/O, so it is not part of this model. Only its four column lists are used, as constants.
- Key order of the returned dictionary: Python dicts keep insertion order, a Dafny `map` has none. `Pipeline.MergeOrderIrrelevant` states equal contents (the equality Python's `==` on dicts uses), not equal iteration order.
