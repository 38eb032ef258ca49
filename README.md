# sandbox-bench: a verified model of the benchmark core

`benchmark.py` measures sandbox startup times for three providers (Morph,
Modal, Runloop). Its `SandboxBenchmark` class works in four steps:

1. It runs each selected provider for `batches` sequential batches of
   `concurrent` sandbox lifecycles and collects the elapsed times.
2. It keeps the providers that produced samples.
3. It prints a rank-aligned "All Iterations" table, a summary table and a
   comparison against the fastest provider.
4. It saves a JSON snapshot of the configuration, the raw times and the
   statistics.

This project models that core in Dafny and proves what each step promises.

- `sorting.dfy` (`Sorting`): `sorted(times)` and `sorted(times, reverse=True)`.
  Each is an insertion sort proved to be a permutation that is ordered. It is
  also proved to be the only such permutation, so it agrees with Python's
  `sorted`.
- `stats.dfy` (`Stats`): `calculate_stats`, the mean, median, min, max,
  standard deviation, p95 and p99 of a sample list, with bounds,
  index-range, permutation-invariance and worked-example lemmas.
- `orchestrator.dfy` (`Orchestrator`): the batch loops of `benchmark_morph`,
  `benchmark_modal` and `benchmark_runloop`. An adapter invocation is a
  value `Elapsed(seconds)` or `Raised`. `asyncio.gather` without
  `return_exceptions` is `Gather`. The loops are a method (`RunBatches`)
  proved against the function `Accumulate`.
- `report.dfy` (`Report`): the results dict, the filter, the
  iteration table, the summary rows, the per-provider listing printed by
  `display_provider_results`, the stable sort by mean and the comparison
  lines. It also holds the snapshot datatypes.
- `benchmark.dfy` (`Benchmark`): the `SandboxBenchmark` class. Its
  `results` field is the mutable dict. `RunBenchmarks` is `run_benchmarks`.
  It is proved against the functions `Collect` (the three provider
  assignments) and `Conclude` (everything after the filter).

Python dicts are insertion-ordered association lists `seq<(string, V)>`.
Dict assignment is `Report.Put`. Samples are `real`.

### A failed lifecycle aborts the whole run

The system's stated design asks that one failed sandbox lifecycle drop
only its own sample, with every outcome captured separately. The code does
not do that, and this model follows the code. `asyncio.gather(*tasks)`
(benchmark.py:95, 154, 229) is called without `return_exceptions`, and
nothing in `run_benchmarks` catches an exception. So the first exception
leaves `run_benchmarks`. The batch's other results are lost. Providers
already stored in `self.results` stay there. No table and no snapshot is
produced.

In the model:
- `Orchestrator.Gather` returns `None` when any task raised.
- `Orchestrator.Accumulate` then stays `None`.
- `Benchmark.SandboxBenchmark.RunBenchmarks` returns `AdapterFailed`, with
  `results` as it was when the exception escaped.

A missing `RUNLOOP_API_KEY` is different. It is handled in the code
(benchmark.py:211-214): Runloop contributes an empty list, which the
filter drops.

## Model

| member | source | states |
|---|---|---|
| Sorting.SortAsc | benchmark.py:276 | `sorted(times)` is a permutation of the samples, of the same length, in ascending order |
| Sorting.InsertAscending | benchmark.py:276 | inserting a sample into an ascending list keeps it ascending |
| Sorting.SortDesc | benchmark.py:247 | `sorted(times, reverse=True)` is a permutation of the samples, of the same length, in descending order |
| Sorting.ReverseMultiset | benchmark.py:247 | reversing a list keeps its elements |
| Sorting.AscendingUnique | benchmark.py:276 | two ascending lists with the same elements are equal |
| Sorting.SortAscUnique | benchmark.py:276 | every ascending permutation of the samples is `SortAsc` of them, so the model agrees with Python's sort |
| Sorting.SortDescUnique | benchmark.py:247 | every descending permutation of the samples is `SortDesc` of them |
| Sorting.SortAscPermutation | benchmark.py:276 | lists with the same elements sort to the same list |
| Stats.CalculateStats | benchmark.py:263-287 | empty input gives the all-zero statistics; with at most one sample the `std_dev` field is 0; that field is never negative |
| Stats.MinOf | benchmark.py:282 | `min(times)` is a sample and no sample is smaller |
| Stats.MaxOf | benchmark.py:283 | `max(times)` is a sample and no sample is larger |
| Stats.StatsExtremes | benchmark.py:282-283 | for non-empty input, `min` and `max` are samples and every sample lies between them |
| Stats.StatsCentralBounds | benchmark.py:280-283 | for non-empty input, min <= median <= max and min <= mean <= max |
| Stats.SumBounds | benchmark.py:280 | n samples within [lo, hi] sum to between n*lo and n*hi |
| Stats.Mean | benchmark.py:280 | `statistics.mean`: the mean times the number of samples is their sum |
| Stats.MeanBounds | benchmark.py:280 | the mean lies between the smallest and the largest sample |
| Stats.Median | benchmark.py:281 | `statistics.median` is the middle of the sorted samples, and it lies between min and max |
| Stats.Middle | benchmark.py:281 | of a sorted list, the middle element (odd length) or the average of the two middle ones (even length); it lies between the first and the last element |
| Stats.PercentileIndexBounds | benchmark.py:285-286 | for n > 0 the indices floor(n*0.95) <= floor(n*0.99) both lie in [0, n) |
| Stats.StatsPercentiles | benchmark.py:276-286 | p95 and p99 are samples, and min <= p95 <= p99 <= max |
| Stats.SortedEnds | benchmark.py:276 | the ascending list starts with `min` and ends with `max` |
| Stats.SortDescEnds | benchmark.py:365-370 | the descending list starts with `max` (the cold start) and ends with `min` (the best run) |
| Stats.SquaredDeviationsNonNegative | benchmark.py:284 | the sum of squared deviations is never negative |
| Stats.Variance | benchmark.py:284 | the square of `statistics.stdev`, the squared deviations from the mean over n - 1, is never negative |
| Stats.SumSortAsc | benchmark.py:276 | sorting keeps the sum |
| Stats.SquaredDeviationsSortAsc | benchmark.py:284 | sorting keeps the sum of squared deviations |
| Stats.MeanPermutation | benchmark.py:280 | the mean depends only on which samples there are, not on their order |
| Stats.VariancePermutation | benchmark.py:284 | so does the variance |
| Stats.StatsPermutationInvariant | benchmark.py:263-287 | all seven statistics depend only on the multiset of samples, so the order of batches and tasks does not matter |
| Stats.StatsMeanPositive | benchmark.py:280 | positive samples have a positive mean |
| Stats.ScenarioTwoBatches | benchmark.py:263-287 | samples 1..6 give mean 3.5, median 3.5 (the even-length average), min 1, max 6, p95 6 and p99 6 |
| Orchestrator.Gather | benchmark.py:95 | gather succeeds exactly when every task completed; it then holds one result per task, in task order |
| Orchestrator.Accumulate | benchmark.py:85-101 | the value of `times` after the first b batches, or none once a batch raised; its properties are stated by the Accumulate lemmas below |
| Orchestrator.AccumulateStaysAborted | benchmark.py:95-101 | once a batch raised, no later batch brings the run back |
| Orchestrator.AccumulateSucceedsIff | benchmark.py:85-101 | the batch loop completes exactly when every one of the batches*concurrent invocations completed |
| Orchestrator.AccumulateLength | benchmark.py:85-101 | a completed loop yields exactly batches*concurrent samples |
| Orchestrator.AccumulateAt | benchmark.py:85-101 | sample number k*concurrent+i is the time of task i of batch k, so `times` is the batches' results concatenated in order |
| Orchestrator.AccumulateSamples | benchmark.py:85-101 | every sample is the time of one of the invocations |
| Orchestrator.RunBatches | benchmark.py:85-101 | the nested batch/task loops (also at 144-160 and 219-235) compute `Accumulate` |
| Orchestrator.ProviderRun | benchmark.py:200-239 | what `benchmark_<provider>` returns: no samples for a Runloop without a key, the batch loop otherwise; its shape is stated by `ProviderRunShape` and `ProviderRunSamples` |
| Orchestrator.BenchmarkProvider | benchmark.py:200-239 | a provider run: Runloop without a key gives no samples, any other run is the batch loop |
| Orchestrator.ProviderRunShape | benchmark.py:211-235 | a provider run raises exactly when some invocation raised (and it is not a keyless Runloop); it is empty exactly for a keyless Runloop or no planned task; otherwise it has batches*concurrent samples |
| Orchestrator.ProviderRunSamples | benchmark.py:219-235 | every sample of a provider run is the time of one of its invocations |
| Orchestrator.ScenarioTwoBatchesCollected | benchmark.py:85-101 | two batches of three tasks timed 1..3 and 4..6 give `times == [1, 2, 3, 4, 5, 6]` |
| Report.Put | benchmark.py:304-309 | `d[key] = v`: the value of an existing key is replaced in place, a new key is appended; its properties are stated by `PutSemantics` |
| Report.PutSemantics | benchmark.py:304-309 | `d[key] = v` keeps the keys distinct and in order, appends a new key last, stores `v` under `key` and keeps every other item |
| Report.FilterNonEmpty | benchmark.py:312 | the filter keeps exactly the items whose sample list is non-empty, unchanged |
| Report.FilterAppend | benchmark.py:312 | filtering a concatenation filters each part |
| Report.FilterPosition | benchmark.py:312 | a kept item sits right after the kept items that preceded it |
| Report.FilterKeepsOrder | benchmark.py:312 | two kept items keep their relative order |
| Report.FilterKeepsAbsent | benchmark.py:312 | the filter adds no key |
| Report.FilterDistinct | benchmark.py:312 | the filtered dict is still a dict (distinct keys) |
| Report.SortResults | benchmark.py:330-332 | the loop filling `sorted_results` computes `SortedResults` |
| Report.IterationTable | benchmark.py:335-348 | the rows of the "All Iterations" table, one per planned run; its cells are stated by `TableCells`, `TableRanks`, `TableColdStart` and `TableFull` |
| Report.TableRow | benchmark.py:337-347 | row i: for every provider column, its i-th slowest sample or "-" |
| Report.BuildTable | benchmark.py:335-348 | the nested row/column loops compute the iteration table |
| Report.TableCells | benchmark.py:335-348 | the table has `total_runs` rows of one cell per provider; cell (i, p) is p's i-th slowest sample, or "-" past the end of p's list |
| Report.TableRanks | benchmark.py:335-348 | down a column the samples never get slower, and a "-" is never followed by a sample |
| Report.TableColdStart | benchmark.py:339-343 | row 0 holds each provider's `max`, its cold start |
| Report.TableFull | benchmark.py:335-348 | when every provider has `total_runs` samples no cell is "-", and the last row holds each provider's `min` |
| Report.SummaryRowOf | benchmark.py:365-373 | one row of the summary table: Cold Start, Best, Mean and Median of a provider, related to `calculate_stats` by `SummaryAgreesWithStats` |
| Report.Summarize | benchmark.py:362-373 | the loop filling `stats` and the summary table computes `StatsOf` and `SummaryOf` |
| Report.SummaryAgreesWithStats | benchmark.py:365-372 | a summary row's Cold Start and Best are the provider's `max` and `min`, or "-" for no samples; its mean and median are those of `calculate_stats` |
| Report.ProviderListing | benchmark.py:241-261 | `display_provider_results`: "No results" for no samples, else the ranked samples with cold start, mean, median and best, as stated by `ListingAgreesWithStats` |
| Report.ListingAgreesWithStats | benchmark.py:241-261 | the per-provider listing exists exactly when there are samples; it ranks them slowest first, and its cold start, best, mean and median agree with `calculate_stats` |
| Report.InsertByMean | benchmark.py:381 | stable insertion by mean keeps the elements |
| Report.SortByMean | benchmark.py:381 | `sorted(stats.items(), key=mean)` is a permutation of the items |
| Report.InsertByMeanAscending | benchmark.py:381 | insertion keeps the list ascending by mean |
| Report.SortByMeanAscending | benchmark.py:381 | the sorted items are ascending by mean |
| Report.FirstMinIndex | benchmark.py:381-382 | the first position holding the smallest mean |
| Report.SortByMeanHead | benchmark.py:381-382 | because the sort is stable, the baseline is the first provider, in dict order, with the smallest mean |
| Report.InsertByMeanWithMean | benchmark.py:381 | inserting an entry puts it before every entry with the same mean and keeps their order |
| Report.SortByMeanStable | benchmark.py:381 | the sort is stable: for every mean, the providers that share it come out in their dict order |
| Report.KeysInsertByMean | benchmark.py:381 | insertion keeps the multiset of provider names |
| Report.KeysSortByMean | benchmark.py:381 | sorting keeps the multiset of provider names |
| Report.LineOf | benchmark.py:384-387 | one comparison line: factor mean/base and percent (mean - base)/base*100, related by `FactorAlgebra` |
| Report.Compare | benchmark.py:378-389 | the comparison section: skipped, a zero division, or the baseline with one line per other provider, as stated by `CompareBaseline`, `CompareCoversAll` and `CompareFactors` |
| Report.ComparePerformance | benchmark.py:378-389 | the comparison loop computes `Compare`, raising on the first division when the baseline mean is 0 |
| Report.CompareBaseline | benchmark.py:378-382 | the comparison is skipped exactly when at most one provider is left; it divides by zero exactly when the smallest mean is 0; otherwise its baseline is the first provider with the smallest mean and it has one line per other provider |
| Report.CompareCoversAll | benchmark.py:381-384 | the baseline and the lines name every provider exactly once |
| Report.LinesFactors | benchmark.py:384-387 | against a positive baseline that no mean undercuts, every factor is >= 1, percent == (factor - 1)*100 >= 0, and factors grow down the list |
| Report.FactorAlgebra | benchmark.py:385-387 | (mean - base)/base*100 equals (mean/base - 1)*100, and mean/base >= 1 when base <= mean |
| Report.CompareFactors | benchmark.py:384-387 | with positive means nothing divides by zero, every factor is >= 1, percent == (factor - 1)*100 >= 0, and the lines come in ascending order of factor |
| Report.ScenarioComparison | benchmark.py:378-389 | means 1.0 (A) and 2.5 (B) give baseline A and "B is 2.50x slower (150.0% more time)" |
| Benchmark.SandboxBenchmark.constructor | benchmark.py:37-40 | a new benchmark (defaults 50 concurrent, 2 batches) starts with an empty results dict, which is a dict (`Valid`) |
| Benchmark.SandboxBenchmark.RunProvider | benchmark.py:304-309 | one `if "<name>" in providers: self.results["<Name>"] = ...` step |
| Benchmark.SandboxBenchmark.Present | benchmark.py:319-406 | the table, summary, comparison and snapshot of a non-empty filtered dict compute `Conclude` |
| Benchmark.SandboxBenchmark.RunBenchmarks | benchmark.py:289-406 | `results` stays a dict (`Valid`); an escaped exception leaves `results` as it was then; otherwise `results` becomes the filtered dict and the outcome is `Conclude` of it |
| Benchmark.Step | benchmark.py:304-309 | one `if "<name>" in providers: self.results["<Name>"] = ...` step on the dict and the abort flag; stated by `StepDistinct` and `StepAppends` |
| Benchmark.Collect | benchmark.py:300-309 | the three provider steps in the order Morph, Modal, Runloop; stated by `CollectAborted` and `FreshCollection` |
| Benchmark.StepDistinct | benchmark.py:304-309 | a provider step keeps the dict's keys distinct |
| Benchmark.CollectAborted | benchmark.py:304-309 | the run aborts exactly when some selected provider's run raises, and the dict stays a dict |
| Benchmark.StepAppends | benchmark.py:304-309 | a step for a provider not yet in the dict appends that provider's item |
| Benchmark.FreshCollection | benchmark.py:304-309 | on a fresh object the completed dict holds one item per selected provider, in the order Morph, Modal, Runloop |
| Benchmark.Conclude | benchmark.py:312-406 | everything after the filter: no results, a zero division after the two tables, or the report with its snapshot; stated by `ConcludeOutcome` and `ReportAgreesWithSnapshot` |
| Benchmark.ConcludeOutcome | benchmark.py:312-406 | "no benchmarks completed" exactly when nothing is left after the filter; a division by zero exactly when two or more providers are left and the smallest mean is 0, after a full iteration table and summary were produced; otherwise `raw_times` is the filtered dict, `statistics` is `calculate_stats` of each of its items, columns and `statistics` are keyed by the same providers in the same order, `total_runs == concurrent*batches`, and the table has that many rows |
| Benchmark.ReportAgreesWithSnapshot | benchmark.py:362-406 | in a report each provider's saved statistics are those of its saved raw times, and its Cold Start and Best are their `max` and `min` |
| Benchmark.PositiveSamplesReported | benchmark.py:378-389 | with positive samples a non-empty filtered dict is always reported |
| Benchmark.CleanNotAborted | benchmark.py:304-309 | when no invocation raises the run does not abort |
| Benchmark.CleanItemFilter | benchmark.py:211-235 | on a clean run a provider survives the filter exactly when it is selected and is not a keyless Runloop, with concurrent*batches positive samples |
| Benchmark.CleanRun | benchmark.py:289-406 | on a fresh object where every invocation takes a positive time and a task is planned, the run completes; nothing is left only when every selected provider is a keyless Runloop; otherwise it is reported and every provider has exactly concurrent*batches samples, so no table cell is "-" |

## Left out

- The adapters `run_single_morph_sandbox`, `run_single_modal_sandbox` and `run_single_runloop_sandbox`, and the SDK setup (client, snapshot, app, imports). They are calls into provider SDKs. Each invocation is a given value `Elapsed(seconds)` or `Raised`.
- Setup failures before any task exists: the SDK imports, `MorphCloudClient()` and `snapshots.acreate` (benchmark.py:67-81), `App.lookup` (benchmark.py:141) and the Runloop imports (benchmark.py:204-205), which run before the key check at benchmark.py:211. The model can express an abort only as a raised task, so it cannot express a setup abort when `concurrent * batches == 0`, nor for a Runloop without a key.
- `asyncio` concurrency and `time.perf_counter`. A batch is the list of its tasks' outcomes in task order. Tasks still running after a sibling raised are not modelled.
- Console output: `rich` tables, colours, the `:.3f`/`:.2f`/`:.1f` formatting, the "Run i" labels, the per-sandbox lines of each batch (benchmark.py:97-99) and the "No results" message. Table cells are `Time(seconds)` or `Dash`. The per-provider listing and the comparison lines are values, not printed text.
- JSON writing, the `datetime` timestamp and the file name (benchmark.py:391-409). The snapshot is the `output_data` dict without `timestamp`.
- `main` and `argparse`. `concurrent` and `batches` are `nat`. In Python, negative values make every `range` empty. Every provider then yields no samples and the run ends with "no results", exactly as with 0.
- `os.getenv("RUNLOOP_API_KEY")`: this is the boolean parameter `hasRunloopKey`.
- Stats.CalculateStats: the `variance` field holds the square of `std_dev` (the sample variance with denominator n-1), because the square root of `statistics.stdev` is not modelled.
- Stats.CalculateStats: arithmetic is exact over `real`, not IEEE doubles. The percentile index `int(n*0.95)` is the integer floor (n*95)/100, the value that expression intends.
- Report.ComparePerformance: the printed factor and percent are exact reals. Python's float division can round them.
