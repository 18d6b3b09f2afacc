# pyretest: pooled Cohen's kappa and its bootstrap, in Dafny

pyretest estimates the test–retest reliability of a questionnaire of
categorical items. Its core has three parts:

- `pooled_cohen_kappa` scores two response matrices, one row per respondent
  and one column per item. It takes each column's observed agreement and its
  expected chance agreement, averages each over the columns, and gives
  kappa = (mean observed − mean chance) / (1 − mean chance). The columns can be
  unweighted, or weighted linearly or quadratically over the item's declared
  values.
- `sample_questionnaire` draws a response matrix, one weighted choice per item
  and row.
- `bootstrap_confidence_interval` and `bootstrap_sample_size_cohen_kappa` redo
  the sampling and scoring B times. The first gives a percentile interval of
  kappa for two unrelated raters. The second sweeps a grid of sample sizes. At
  each size it measures the power: the fraction of kappas of "reliable" pairs
  (pairs made partly equal) that lie above the one-sided null threshold. It
  then selects the least size whose power reaches beta.

The modules follow that structure:

| module | file | contents |
|---|---|---|
| Results | results.dfy | `Option` and `Result`: the source's `None` and its exceptions |
| Tables | tables.dfy | sums of sequences and tables (`np.sum`, row and column sums, outer products) |
| Counts | counts.dfy | counting in columns (`col == v`, joint counts, matches, `np.unique`) |
| ColumnAgreement | column.dfy | `weight`, `agreement` and `expected_random_agreement` as functions, and their properties |
| ColumnLoops | loops.dfy | the same helpers as the loops they are, each proved equal to its function |
| PooledKappa | pooled.dfy | `pooled_cohen_kappa`: its guards, the column loop, the pooling, and its properties |
| Questionnaire | questionnaire.dfy | `Question` and `sample_questionnaire` |
| Sorting | sorting.dfy | `ndarray.sort` as the unique sorted permutation |
| Builtins | builtins.dfy | `int()` of a float, indexing with negative indices, `range` with a step |
| Bootstrap | bootstrap.dfy | the two bootstrap procedures, as loop methods and as the functions they are proved equal to |

How the model is built:

- **Numbers.** Floats are exact `real`s.
- **Exceptions.** They become `Err` values; the source raises them in the same order.
- **Randomness.** It is a parameter. A `Chooser` gives the answer that draw
  number t of sampler call number `call` picks for a question. Iteration `it`
  of the interval loop draws rater A with call 2·it and rater B with call
  2·it + 1. At grid position g of the search, iteration i is number g·B + i.
- **`make_reliable`.** Its source is not part of this model, so it is a
  parameter `reliable` too.
- **Methods and functions.** Every loop of the source is a method. Each method
  is proved equal to a function that states the whole computation, and the
  properties are lemmas about those functions.

Behaviour of the code that a reader might not expect, and that the model reproduces:

- **Zero rows.** The guard `if n == 0 or ncols == 0: return 0` (pooled_cohen_kappa.py:32-33) can never fire for zero rows: `samples_a[0]` at line 31 raises IndexError first (`EmptySamples`). Only a first row without columns gives 0 (`KappaNoColumns`).
- **Alternative pairs.** The search does not draw a separate pair for the
  alternative condition. It applies `make_reliable` to the same two matrices
  that gave the null kappa (bootstrap.py:88-95).
- **Sampler probabilities.** `random.choices` takes an item's probabilities as relative weights (sample_questionnaire.py:24), and nothing checks that they sum to 1.
- **Degenerate chance agreement.** A mean chance agreement of 1 reaches the division at pooled_cohen_kappa.py:123-124 with a zero denominator.

## Model

| member | source | states |
|---|---|---|
| ColumnAgreement.Weight | pyretest/pooled_kappa/pooled_cohen_kappa.py:44-53 | the weight of a pair of value positions is 1 on the diagonal, 0 off it without weighting, and within [0, 1] for positions in the domain |
| ColumnAgreement.WeightSymmetric | pyretest/pooled_kappa/pooled_cohen_kappa.py:44-53 | weight(i, k) equals weight(k, i) |
| ColumnAgreement.WeightTableFacts | pyretest/pooled_kappa/pooled_cohen_kappa.py:44-53 | the c-by-c weight table has every entry in [0, 1], a diagonal of ones, and is symmetric |
| ColumnAgreement.ObservedBounds | pyretest/pooled_kappa/pooled_cohen_kappa.py:55-72 | a column's observed agreement lies in [0, 1] (for a weighting, when the item's values are distinct) |
| ColumnAgreement.ObservedSelf | pyretest/pooled_kappa/pooled_cohen_kappa.py:55-72 | a column compared with itself has observed agreement 1 (for a weighting, when its answers lie among the item's distinct values) |
| ColumnAgreement.Observed | pyretest/pooled_kappa/pooled_cohen_kappa.py:55-72 | without weighting, the observed agreement `np.mean(a == b)` is a proportion, and it is 1 exactly when the two columns are equal |
| ColumnAgreement.WeightedObservedRows | pyretest/pooled_kappa/pooled_cohen_kappa.py:59-70 | with a weighting over distinct values, the observed agreement is the mean over rows of weight(position of a[r], position of b[r]), a row with an answer outside the values contributing 0 |
| ColumnAgreement.ObservedSwap | pyretest/pooled_kappa/pooled_cohen_kappa.py:55-72 | observed agreement does not depend on which rater is called A |
| ColumnAgreement.JointTableSwap | pyretest/pooled_kappa/pooled_cohen_kappa.py:83-85 | exchanging the raters transposes the joint count table |
| ColumnAgreement.JointTableTotal | pyretest/pooled_kappa/pooled_cohen_kappa.py:83-85 | the joint count table totals at most n, and exactly n when every answer lies in the item's values |
| ColumnAgreement.JointTableMargins | pyretest/pooled_kappa/pooled_cohen_kappa.py:87-89 | the row sums and the column sums of the joint count table each total n when every answer lies in the item's values |
| ColumnAgreement.ChanceBounds | pyretest/pooled_kappa/pooled_cohen_kappa.py:74-108 | a column's chance agreement lies in [0, 1] (for a weighting, when the item's values are distinct) |
| ColumnAgreement.ChanceSwap | pyretest/pooled_kappa/pooled_cohen_kappa.py:74-108 | chance agreement does not depend on which rater is called A |
| ColumnAgreement.WeightedChanceBounds | pyretest/pooled_kappa/pooled_cohen_kappa.py:92-98 | the weighted expected table totals a proportion in [0, 1] |
| ColumnAgreement.Chance | pyretest/pooled_kappa/pooled_cohen_kappa.py:74-108 | without weighting, the sum over the distinct values of the products of the two marginal frequencies equals the number of cross-rater matching pairs over n², whatever the order of the values |
| ColumnAgreement.ChanceTermsSum | pyretest/pooled_kappa/pooled_cohen_kappa.py:103-108 | the appended products of marginal frequencies sum to the dot product of the two raters' value counts over n² |
| ColumnAgreement.KernelCounting | pyretest/pooled_kappa/pooled_cohen_kappa.py:64-70 | summing weight times joint counts over the table equals summing, over rows, the weight at the positions of the two answers |
| ColumnLoops.Agreement | pyretest/pooled_kappa/pooled_cohen_kappa.py:55-72 | the loop over the c-by-c buffer (or the mean of matches) computes the column's observed agreement |
| ColumnLoops.ExpectedRandomAgreement | pyretest/pooled_kappa/pooled_cohen_kappa.py:74-108 | the weighted or unweighted branch computes the column's chance agreement |
| ColumnLoops.UnweightedChance | pyretest/pooled_kappa/pooled_cohen_kappa.py:99-108 | the loop over the unique values, appending products of marginal frequencies, computes the unweighted chance agreement |
| ColumnLoops.JointCounts | pyretest/pooled_kappa/pooled_cohen_kappa.py:80-85 | the filled buffer is a fresh c-by-c (c = len(values)) array holding the joint count table |
| ColumnLoops.WeightedChance | pyretest/pooled_kappa/pooled_cohen_kappa.py:78-98 | joint counts, their row and column sums, and the expected table give the weighted chance agreement |
| ColumnLoops.ExpectedCounts | pyretest/pooled_kappa/pooled_cohen_kappa.py:91-95 | the filled buffer holds weight(i, j) · row_sums[i] · col_sums[j] / n² in every cell |
| Counts.Unique | pyretest/pooled_kappa/pooled_cohen_kappa.py:101 | the values of both columns without repetition: distinct, and holding exactly the values seen |
| PooledKappa.SchemeOf | pyretest/pooled_kappa/pooled_cohen_kappa.py:36-37 | a weight type is valid exactly when it is absent, or is "linear" or "quadratic" with questions given; anything else raises |
| PooledKappa.FirstFault | pyretest/pooled_kappa/pooled_cohen_kappa.py:113-116 | the first column whose question is missing or has exactly one value, every earlier column being scorable |
| PooledKappa.ColumnFault | pyretest/pooled_kappa/pooled_cohen_kappa.py:49-51 | a missing question raises an index error, a single-valued one a division by zero |
| PooledKappa.Pool | pyretest/pooled_kappa/pooled_cohen_kappa.py:118-125 | the pooling fails exactly when the mean chance agreement is 1 |
| PooledKappa.PoolFormula | pyretest/pooled_kappa/pooled_cohen_kappa.py:123-124 | kappa times (1 − mean chance) equals mean observed minus mean chance |
| PooledKappa.ComputePooledCohenKappa | pyretest/pooled_kappa/pooled_cohen_kappa.py:30-125 | the guards in order and then the column loop return the pooled kappa or the exception |
| PooledKappa.PoolColumns | pyretest/pooled_kappa/pooled_cohen_kappa.py:111-125 | filling `accuracies` and `marg_probabilities` column by column, stopping at the first faulty column, then pooling, gives the scored result |
| PooledKappa.ScoreColumn | pyretest/pooled_kappa/pooled_cohen_kappa.py:114-116 | one pass of the column loop yields that column's observed and chance agreement |
| PooledKappa.KappaDefined | pyretest/pooled_kappa/pooled_cohen_kappa.py:30-37 | given a first row with columns, kappa is a number or fails only in its final division exactly when the input is well formed: same shape, rectangular, a valid weighting, and every column scorable |
| PooledKappa.KappaNoColumns | pyretest/pooled_kappa/pooled_cohen_kappa.py:32-33 | a first row without columns gives kappa 0 |
| PooledKappa.KappaSymmetric | pyretest/pooled_kappa/pooled_cohen_kappa.py:1-125 | exchanging the raters leaves the result (number or exception) unchanged once the first-rater-only guards treat both alike |
| PooledKappa.ScoresSwap | pyretest/pooled_kappa/pooled_cohen_kappa.py:111-116 | exchanging the raters leaves the per-column agreement arrays unchanged |
| PooledKappa.KappaSelf | pyretest/pooled_kappa/pooled_cohen_kappa.py:1-125 | a rectangular matrix with columns, scored against itself under a valid weight type (for a weighting, with answers among each item's values), gives kappa 1, or fails only because mean chance agreement is 1 |
| PooledKappa.ScoresSelf | pyretest/pooled_kappa/pooled_cohen_kappa.py:111-116 | a matrix against itself scores observed agreement 1 on every column |
| PooledKappa.ScoresUnit | pyretest/pooled_kappa/pooled_cohen_kappa.py:111-116 | every accuracy and every marginal probability lies in [0, 1] |
| PooledKappa.KappaAtMostOne | pyretest/pooled_kappa/pooled_cohen_kappa.py:118-125 | kappa never exceeds 1 when the values of each weighted item are distinct |
| PooledKappa.Mean | pyretest/pooled_kappa/pooled_cohen_kappa.py:119-121 | `np.mean`: a mean of nonnegative values is nonnegative, and a mean of proportions is a proportion |
| PooledKappa.PooledCohenKappa | pyretest/pooled_kappa/pooled_cohen_kappa.py:30-37 | each guard's exception (IndexError on empty samples, the shape error, the weighting error, ragged rows) is raised exactly when its condition holds and the earlier guards pass, and a first row without columns gives 0 |
| PooledKappa.PoolAtMostOne | pyretest/pooled_kappa/pooled_cohen_kappa.py:123-124 | the pooling of means at most 1 is at most 1 |
| PooledKappa.PoolPerfect | pyretest/pooled_kappa/pooled_cohen_kappa.py:123-124 | a mean observed agreement of 1 pools to 1 |
| Questionnaire.Rows | pyretest/sampler/sample_questionnaire.py:19 | `range(n)` has n elements, none when n is negative |
| Questionnaire.SampleQuestionnaire | pyretest/sampler/sample_questionnaire.py:18-26 | the nested loops return max(n, 0) rows of len(questions) answers, answer j of row i being the chooser's pick for question j at that draw |
| Questionnaire.Sampled | pyretest/sampler/sample_questionnaire.py:18-26 | the rows one sampler call draws, as a value satisfying `Drawn`, the shape and draw order of the nested loops |
| Questionnaire.DrawnInDomain | pyretest/sampler/sample_questionnaire.py:24 | with a chooser that picks among the population it is given, every answer j is one of questions[j].values |
| Questionnaire.SampledOnly | pyretest/sampler/sample_questionnaire.py:18-26 | any rows satisfying `Drawn` are exactly `Sampled`: a sampler call has one possible output |
| Questionnaire.DrawnUnique | pyretest/sampler/sample_questionnaire.py:18-26 | the sampler's output is determined by the random stream: two results of the same call coincide |
| Sorting.Sort | pyretest/pooled_kappa/bootstrap.py:38-39 | the result is sorted and a permutation of the input |
| Sorting.SortedUnique | pyretest/pooled_kappa/bootstrap.py:38-39 | the sorted permutation is unique, so any sorting algorithm gives it |
| Sorting.SumSeqPermutation | pyretest/pooled_kappa/bootstrap.py:42 | reordering does not change a sum, so the mean of the sorted kappas is their mean |
| Builtins.Trunc | pyretest/pooled_kappa/bootstrap.py:40-41 | `int()` of a float drops its fractional part toward zero |
| Builtins.TruncMono | pyretest/pooled_kappa/bootstrap.py:40-41 | truncation is monotone |
| Builtins.Index | pyretest/pooled_kappa/bootstrap.py:40-41 | indexing succeeds exactly for −len ≤ k < len, negative indices counting from the end |
| Builtins.Range | pyretest/pooled_kappa/bootstrap.py:82 | `range(start, stop, step)` fails exactly for a zero step, otherwise has RangeLength elements, element k being start + k·step |
| Builtins.RangeAscending | pyretest/pooled_kappa/bootstrap.py:82 | with a positive step, every element is below stop, one more step reaches stop, and the range is empty exactly when stop ≤ start |
| Builtins.InclusiveRangeLength | pyretest/pooled_kappa/bootstrap.py:82 | `range(start_n, max_n + 1, n_step)` has 1 + ⌊(max_n − start_n) / n_step⌋ elements |
| Builtins.NthMono | pyretest/pooled_kappa/bootstrap.py:82 | later elements of an ascending range are strictly larger |
| Bootstrap.NullKappaDrawn | pyretest/pooled_kappa/bootstrap.py:33-36 | one iteration's null kappa is the kappa of whatever matrices sampler calls 2·it and 2·it + 1 draw |
| Bootstrap.AltKappaDrawn | pyretest/pooled_kappa/bootstrap.py:93-95 | one iteration's alternative kappa is the kappa of `make_reliable` applied to those same two matrices |
| Bootstrap.NullKappas | pyretest/pooled_kappa/bootstrap.py:31-36 | k iterations collect exactly k kappas, or fail with an exception from pooled_cohen_kappa |
| Bootstrap.Trials | pyretest/pooled_kappa/bootstrap.py:85-95 | k iterations collect exactly k null and k alternative kappas, or fail inside pooled_cohen_kappa |
| Bootstrap.Least | pyretest/pooled_kappa/bootstrap.py:42 | the least kappa: one of them, and at most each |
| Bootstrap.Greatest | pyretest/pooled_kappa/bootstrap.py:42 | the greatest kappa: one of them, and at least each |
| Bootstrap.Interval | pyretest/pooled_kappa/bootstrap.py:37-44 | the interval fails only with an out-of-range percentile index |
| Bootstrap.CountAbove | pyretest/pooled_kappa/bootstrap.py:109 | the number of kappas above the threshold is at most their number, all of them exactly when each is above, none exactly when none is |
| Bootstrap.RowOf | pyretest/pooled_kappa/bootstrap.py:97-115 | a row fails only with an out-of-range threshold index; otherwise it records its n and a power in [0, 1] |
| Bootstrap.ConfidenceInterval | pyretest/pooled_kappa/bootstrap.py:26-44 | the procedure fails only inside pooled_cohen_kappa or at a percentile index |
| Bootstrap.RowAt | pyretest/pooled_kappa/bootstrap.py:85-115 | a grid position records its own n and a power in [0, 1], and never fails for a zero step |
| Bootstrap.Gather | pyretest/pooled_kappa/bootstrap.py:83-115 | a run of iterations succeeds exactly when each does, with each one's value in order; otherwise it reports the first exception |
| Bootstrap.RowsAt | pyretest/pooled_kappa/bootstrap.py:83-115 | one result per grid position, that position's row or exception |
| Bootstrap.Sweep | pyretest/pooled_kappa/bootstrap.py:83-115 | the sweep has one row per grid element, row g at n = grid[g] with power in [0, 1] |
| Bootstrap.Select | pyretest/pooled_kappa/bootstrap.py:117-123 | None exactly when no row reaches beta; otherwise the n of a row reaching beta, at most the n of every such row |
| Bootstrap.SampleSize | pyretest/pooled_kappa/bootstrap.py:82-123 | the search fails with ValueError exactly when the step is zero |
| Bootstrap.PercentileMono | pyretest/pooled_kappa/bootstrap.py:40-41 | for B ≥ 1 and 0 ≤ p ≤ q < 1, int(B·p) ≤ int(B·q) and both index one of B values |
| Bootstrap.RanksInRange | pyretest/pooled_kappa/bootstrap.py:40-41 | for B ≥ 1 and 0 < α ≤ 1, 0 ≤ int(B·α/2) ≤ int(B·(1 − α/2)) < B |
| Bootstrap.ThresholdInRange | pyretest/pooled_kappa/bootstrap.py:106 | for B ≥ 1 and 0 < α ≤ 1, 0 ≤ int(B·(1 − α)) < B |
| Bootstrap.MeanBetween | pyretest/pooled_kappa/bootstrap.py:42 | the mean lies between the least and the greatest kappa |
| Bootstrap.Variance | pyretest/pooled_kappa/bootstrap.py:43 | the spread (the square of `np.std`) is never negative |
| Bootstrap.MeanSorted | pyretest/pooled_kappa/bootstrap.py:39-42 | sorting does not change the mean |
| Bootstrap.IntervalSound | pyretest/pooled_kappa/bootstrap.py:37-44 | from B ≥ 1 kappas with 0 < α ≤ 1 the interval is defined, lower ≤ upper, both bounds are collected kappas, min ≤ mean ≤ max, and the spread is non-negative |
| Bootstrap.ConfidenceIntervalSound | pyretest/pooled_kappa/bootstrap.py:26-44 | for B ≥ 1 and 0 < α ≤ 1 the procedure fails exactly when pooled_cohen_kappa raises; otherwise it has collected exactly B kappas and its interval is sound for them |
| Bootstrap.CountAboveMono | pyretest/pooled_kappa/bootstrap.py:109 | a larger threshold never counts more kappas above it |
| Bootstrap.Power | pyretest/pooled_kappa/bootstrap.py:109 | `np.mean(kappas > threshold)` lies in [0, 1]; it is 1 exactly when every alternative kappa is above the threshold, 0 exactly when none is |
| Bootstrap.PowerMono | pyretest/pooled_kappa/bootstrap.py:109 | raising the threshold never raises the power |
| Bootstrap.RowOfDefined | pyretest/pooled_kappa/bootstrap.py:97-115 | from B ≥ 1 null and alternative kappas with 0 < α ≤ 1 a row is defined, its threshold is one of the null kappas, and its mean null kappa lies between their least and greatest |
| Bootstrap.RowAtFailsInKappa | pyretest/pooled_kappa/bootstrap.py:85-115 | for B ≥ 1 and 0 < α ≤ 1 a grid position fails only inside pooled_cohen_kappa |
| Bootstrap.SweepFailsInKappa | pyretest/pooled_kappa/bootstrap.py:83-115 | for B ≥ 1 and 0 < α ≤ 1 the sweep fails only inside pooled_cohen_kappa |
| Bootstrap.SampleSizeErrors | pyretest/pooled_kappa/bootstrap.py:49-123 | for B ≥ 1 and 0 < α ≤ 1 the search raises only for a zero step or inside pooled_cohen_kappa |
| Bootstrap.GridRows | pyretest/pooled_kappa/bootstrap.py:82 | rows that follow the grid number 1 + ⌊(max_n − start_n)/n_step⌋, row k is at start_n + k·n_step ≤ max_n, and they strictly increase |
| Bootstrap.SweepGrid | pyretest/pooled_kappa/bootstrap.py:82-115 | a successful search records 1 + ⌊(max_n − start_n)/n_step⌋ rows, row k at n = start_n + k·n_step ≤ max_n, strictly increasing, each with power in [0, 1] |
| Bootstrap.SelectedSize | pyretest/pooled_kappa/bootstrap.py:117-123 | the selected sample size is None exactly when no row's power reaches beta, otherwise the least n among the rows that do |
| Bootstrap.SampledKappaDefined | pyretest/pooled_kappa/bootstrap.py:33-36 | with n > 0, at least one question, a valid weight type and no single-valued weighted item, a sampled pair passes every guard: the kappa is a number unless mean chance agreement is 1 |
| Bootstrap.SampledKappaEmpty | pyretest/pooled_kappa/bootstrap.py:33-36 | with n ≤ 0 the sampled matrices are empty and pooled_cohen_kappa raises an index error |
| Bootstrap.NullKappasAtMostOne | pyretest/pooled_kappa/bootstrap.py:31-36 | every collected kappa is at most 1 when the values of each weighted item are distinct |
| Bootstrap.NullKappasStop | pyretest/pooled_kappa/bootstrap.py:32-36 | the first exception ends the loop: every longer run reports it |
| Bootstrap.TrialsStop | pyretest/pooled_kappa/bootstrap.py:87-95 | the first exception ends the loop of trials: every longer run reports it |
| Bootstrap.GatherStop | pyretest/pooled_kappa/bootstrap.py:83-115 | once a prefix of the iterations has raised, the whole run reports that exception |
| Bootstrap.GatherStep | pyretest/pooled_kappa/bootstrap.py:83-115 | one more iteration appends its value or reports its exception |
| Bootstrap.BootstrapConfidenceInterval | pyretest/pooled_kappa/bootstrap.py:26-44 | the method returns what ConfidenceInterval states |
| Bootstrap.CollectKappas | pyretest/pooled_kappa/bootstrap.py:31-36 | the loop appends one kappa per iteration and returns NullKappas of B iterations |
| Bootstrap.SampledKappa | pyretest/pooled_kappa/bootstrap.py:33-36 | one iteration's two sampler calls and their kappa give the iteration's null kappa |
| Bootstrap.SampleA | pyretest/pooled_kappa/bootstrap.py:33-34 | the two sampler calls return the rows of calls 2·it and 2·it + 1 |
| Bootstrap.Trial | pyretest/pooled_kappa/bootstrap.py:88-95 | one iteration of the search gives its null kappa and, when that succeeds, its alternative kappa |
| Bootstrap.RunTrials | pyretest/pooled_kappa/bootstrap.py:85-95 | the B iterations at one sample size return the Trials of B iterations |
| Bootstrap.SweepRowAt | pyretest/pooled_kappa/bootstrap.py:85-115 | one pass of the grid loop returns that grid position's row or exception |
| Bootstrap.RunSweep | pyretest/pooled_kappa/bootstrap.py:83-115 | the grid loop returns the sweep, stopping at the first exception |
| Bootstrap.BootstrapSampleSize | pyretest/pooled_kappa/bootstrap.py:49-123 | the method returns what SampleSize states |

## Left out

- Random seeding (`random.seed`, the `seed` parameters): the random stream is the `Chooser` parameter, so seeding has nothing to act on.
- `random.choices` itself: the chooser is arbitrary, so the item probabilities play no part. Its errors (no values, weights of the wrong length, zero total weight) are not modelled. `ChooserSound` is what a well-behaved chooser guarantees.
- `make_reliable`: its source is not part of this model. It is the parameter `reliable`, a function of the two matrices, the reliability and the iteration number.
- Floating point: all arithmetic is exact. `int(n_bootstrap * alpha / 2)` is computed on the exact rational, so float rounding just below an integer is not reproduced.
- NaN and infinity: the only float division that can reach zero is the pooling's 1 − mean chance. The model makes it the error `DegenerateChance`, where numpy returns nan or ±inf with a warning.
- Bootstrap.ConfidenceInterval, Bootstrap.ConfidenceIntervalSound, Bootstrap.SampleSize, Bootstrap.SampleSizeErrors, Bootstrap.RowAtFailsInKappa, Bootstrap.SweepFailsInKappa, Bootstrap.BootstrapConfidenceInterval, Bootstrap.BootstrapSampleSize: when a sampled pair has mean chance agreement 1 (for instance n = 1 and both raters giving the same answer), the source goes on with a nan or infinite kappa. It sorts it into the interval or the sweep row and returns a result with nan entries. The model instead aborts the whole run with `KappaFailed(DegenerateChance)`, so these members' "fails only inside pooled_cohen_kappa" includes this case, which the source does not raise.
- Bootstrap.Interval: the fourth field of `CIInfo` is the population variance, the square of `np.std`. A square root is not available on Dafny's reals.
- Bootstrap.Variance: states only that the spread is non-negative, because the model has the variance and not the standard deviation.
- Counts.Unique: `np.unique` returns the values sorted, but the model keeps them in order of first occurrence. The only consumer is a sum, and the contract of `ColumnAgreement.Chance` shows that the sum does not depend on the order.
- Sorting.Sort: `ndarray.sort()` works in place, but the model sorts values. The sorted permutation is unique (SortedUnique), so the result is the same.
- `tqdm` and pandas: the progress bar is omitted. The DataFrame `power_by_n` is a sequence of five-field rows, and the filtered minimum of column `n` is `Select`.
- Python types and defaults: duck typing and default argument values are omitted; every argument is explicit. `ncols` is read from the first row, and rows of other lengths raise (`Ragged`), as `np.array` does with ragged input.
- The statistical claims about the bootstrap (for example, that kappa is near 0 for independent uniform samples) are not modelled. They are statements about probability distributions over random draws, which the model does not compute.
