/**
 * `SandboxBenchmark.run_benchmarks`: run the selected providers in the fixed
 * order Morph, Modal, Runloop, store each one's samples in the results dict,
 * drop the providers without samples, and shape what is printed and saved.
 */
module Benchmark {
  import opened Wrappers
  import opened Stats
  import opened Orchestrator
  import opened Report

  const DEFAULT_CONCURRENT: nat := 50
  const DEFAULT_BATCHES: nat := 2
  const DEFAULT_PROVIDERS: seq<string> := ["morph", "modal", "runloop"]
  const PYTHON_VERSION: string := "3.13"

  /**
   * How a run ends: an adapter exception escaped, the comparison divided by
   * a zero baseline mean after the iteration and summary tables were
   * printed, no provider produced samples, or the report was printed and
   * saved.
   */
  datatype RunResult =
    | AdapterFailed
    | DivisionByZero(columns: seq<string>, table: seq<seq<Cell>>, summary: seq<SummaryRow>)
    | NoResults
    | Reported(report: Report)

  /** The results dict after the provider runs, and whether an exception escaped. */
  datatype Collection = Collection(results: seq<Entry>, aborted: bool)

  /** `providers`, or every provider when none is given. */
  function Selected(providers: Option<seq<string>>): seq<string> {
    if providers.None? then DEFAULT_PROVIDERS else providers.value
  }

  /** `if "<choice>" in providers: self.results["<Label>"] = await self.benchmark_<choice>()`. */
  function Step(c: Collection, p: Provider, selected: seq<string>, adapters: Provider -> Adapter,
                hasRunloopKey: bool, concurrent: nat, batches: nat): Collection
  {
    if c.aborted || Choice(p) !in selected then c
    else match ProviderRun(p, adapters(p), hasRunloopKey, concurrent, batches)
      case None => Collection(c.results, true)
      case Some(times) => Collection(Put(c.results, Label(p), times), false)
  }

  function Collect(results: seq<Entry>, selected: seq<string>, adapters: Provider -> Adapter,
                   hasRunloopKey: bool, concurrent: nat, batches: nat): Collection
  {
    var c0 := Collection(results, false);
    var c1 := Step(c0, Morph, selected, adapters, hasRunloopKey, concurrent, batches);
    var c2 := Step(c1, Modal, selected, adapters, hasRunloopKey, concurrent, batches);
    Step(c2, Runloop, selected, adapters, hasRunloopKey, concurrent, batches)
  }

  /** `self.concurrent * self.batches`, the planned runs per provider. */
  function TotalRuns(concurrent: nat, batches: nat): nat {
    concurrent * batches
  }

  /** Everything after the filter, on the filtered results. */
  function Conclude(concurrent: nat, batches: nat, results: seq<Entry>): RunResult {
    if results == [] then NoResults
    else
      var totalRuns := TotalRuns(concurrent, batches);
      var columns := Keys(results);
      var table := IterationTable(SortedResults(results), totalRuns);
      var summary := SummaryOf(results);
      var stats := StatsOf(results);
      var comparison := Compare(stats);
      if comparison.ZeroBaseline? then DivisionByZero(columns, table, summary)
      else
        var config := Config(concurrent, batches, totalRuns, PYTHON_VERSION, VM_CONFIG);
        Reported(Report(
          columns,
          table,
          summary,
          comparison,
          Snapshot(config, results, stats)))
  }

  class SandboxBenchmark {
    const concurrent: nat
    const batches: nat
    var results: seq<Entry>

    /** `results` is a dict: no provider name twice. */
    ghost predicate Valid()
      reads this
    {
      DistinctKeys(results)
    }

    constructor (concurrent: nat := DEFAULT_CONCURRENT, batches: nat := DEFAULT_BATCHES)
      ensures this.concurrent == concurrent && this.batches == batches
      ensures results == []
      ensures Valid()
    {
      this.concurrent := concurrent;
      this.batches := batches;
      results := [];
    }

    /**
     * `run_benchmarks`. An exception of an adapter leaves the dict as it was
     * when the exception escaped; otherwise the dict ends up filtered and
     * the outcome is that of the filtered results.
     */
    method RunBenchmarks(providers: Option<seq<string>>, adapters: Provider -> Adapter, hasRunloopKey: bool)
      returns (r: RunResult)
      requires Valid()
      modifies this
      ensures Valid()
      ensures var c := Collect(old(results), Selected(providers), adapters, hasRunloopKey, concurrent, batches);
        (c.aborted ==> results == c.results && r == AdapterFailed) &&
        (!c.aborted ==> results == FilterNonEmpty(c.results) && r == Conclude(concurrent, batches, results))
    {
      var selected := if providers.None? then DEFAULT_PROVIDERS else providers.value;
      ghost var c := Collect(results, selected, adapters, hasRunloopKey, concurrent, batches);
      CollectAborted(results, selected, adapters, hasRunloopKey, concurrent, batches);
      FilterDistinct(c.results);
      var ok := RunProvider(Morph, selected, adapters, hasRunloopKey);
      if !ok {
        return AdapterFailed;
      }
      ok := RunProvider(Modal, selected, adapters, hasRunloopKey);
      if !ok {
        return AdapterFailed;
      }
      ok := RunProvider(Runloop, selected, adapters, hasRunloopKey);
      if !ok {
        return AdapterFailed;
      }
      results := FilterNonEmpty(results);
      if results == [] {
        return NoResults;
      }
      r := Present(results);
    }

    /**
     * `if "<choice>" in providers: self.results["<Label>"] = await
     * self.benchmark_<choice>()`; `ok` is false when the run raised.
     */
    method RunProvider(p: Provider, selected: seq<string>, adapters: Provider -> Adapter, hasRunloopKey: bool)
      returns (ok: bool)
      modifies this
      ensures Collection(results, !ok) ==
        Step(Collection(old(results), false), p, selected, adapters, hasRunloopKey, concurrent, batches)
    {
      ok := true;
      if Choice(p) in selected {
        var times := BenchmarkProvider(p, adapters(p), hasRunloopKey, concurrent, batches);
        if times.None? {
          return false;
        }
        results := Put(results, Label(p), times.value);
      }
    }

    /** The tables, the comparison and the snapshot for a non-empty filtered dict. */
    method Present(results: seq<Entry>) returns (r: RunResult)
      requires results != []
      ensures r == Conclude(concurrent, batches, results)
    {
      var columns := Keys(results);
      var sorted := SortResults(results);
      var totalRuns := TotalRuns(concurrent, batches);
      var table := BuildTable(sorted, totalRuns);
      var stats, summary := Summarize(results);
      var comparison := ComparePerformance(stats);
      if comparison.ZeroBaseline? {
        return DivisionByZero(columns, table, summary);
      }
      var config := Config(concurrent, batches, totalRuns, PYTHON_VERSION, VM_CONFIG);
      r := Reported(Report(columns, table, summary, comparison, Snapshot(config, results, stats)));
    }
  }

  /**
   * The run aborts exactly when some selected provider's run raises; a
   * dict that was a dict before stays one.
   */
  lemma CollectAborted(results: seq<Entry>, selected: seq<string>, adapters: Provider -> Adapter,
                       hasRunloopKey: bool, concurrent: nat, batches: nat)
    requires DistinctKeys(results)
    ensures var c := Collect(results, selected, adapters, hasRunloopKey, concurrent, batches);
      (c.aborted <==> (exists p: Provider :: (Choice(p) in selected &&
        ProviderRun(p, adapters(p), hasRunloopKey, concurrent, batches).None?))) &&
      DistinctKeys(c.results)
  {
    var c0 := Collection(results, false);
    var c1 := Step(c0, Morph, selected, adapters, hasRunloopKey, concurrent, batches);
    var c2 := Step(c1, Modal, selected, adapters, hasRunloopKey, concurrent, batches);
    StepDistinct(c0, Morph, selected, adapters, hasRunloopKey, concurrent, batches);
    StepDistinct(c1, Modal, selected, adapters, hasRunloopKey, concurrent, batches);
    StepDistinct(c2, Runloop, selected, adapters, hasRunloopKey, concurrent, batches);
  }

  lemma StepDistinct(c: Collection, p: Provider, selected: seq<string>, adapters: Provider -> Adapter,
                     hasRunloopKey: bool, concurrent: nat, batches: nat)
    requires DistinctKeys(c.results)
    ensures DistinctKeys(Step(c, p, selected, adapters, hasRunloopKey, concurrent, batches).results)
  {
    if !c.aborted && Choice(p) in selected {
      var r := ProviderRun(p, adapters(p), hasRunloopKey, concurrent, batches);
      if r.Some? {
        PutSemantics(c.results, Label(p), r.value);
      }
    }
  }

  /** The dict item a provider contributes to a fresh, completed run. */
  function Item(p: Provider, selected: seq<string>, adapters: Provider -> Adapter,
                hasRunloopKey: bool, concurrent: nat, batches: nat): seq<Entry>
  {
    if Choice(p) !in selected then []
    else match ProviderRun(p, adapters(p), hasRunloopKey, concurrent, batches)
      case None => []
      case Some(times) => [(Label(p), times)]
  }

  /**
   * On a fresh object, a completed run's dict holds one item per selected
   * provider, in the order Morph, Modal, Runloop, each with that
   * provider's samples.
   */
  lemma FreshCollection(selected: seq<string>, adapters: Provider -> Adapter,
                        hasRunloopKey: bool, concurrent: nat, batches: nat)
    ensures var c := Collect([], selected, adapters, hasRunloopKey, concurrent, batches);
      !c.aborted ==> (c.results ==
        Item(Morph, selected, adapters, hasRunloopKey, concurrent, batches) +
        Item(Modal, selected, adapters, hasRunloopKey, concurrent, batches) +
        Item(Runloop, selected, adapters, hasRunloopKey, concurrent, batches))
  {
    var c0 := Collection([], false);
    var c1 := Step(c0, Morph, selected, adapters, hasRunloopKey, concurrent, batches);
    var c2 := Step(c1, Modal, selected, adapters, hasRunloopKey, concurrent, batches);
    var i1 := Item(Morph, selected, adapters, hasRunloopKey, concurrent, batches);
    var i2 := Item(Modal, selected, adapters, hasRunloopKey, concurrent, batches);
    StepAppends(c0, Morph, selected, adapters, hasRunloopKey, concurrent, batches);
    if !c1.aborted {
      assert "Modal" !in Keys(i1);
      StepAppends(c1, Modal, selected, adapters, hasRunloopKey, concurrent, batches);
      if !c2.aborted {
        assert Keys(i1 + i2) == Keys(i1) + Keys(i2);
        assert "Runloop" !in Keys(i1 + i2);
        StepAppends(c2, Runloop, selected, adapters, hasRunloopKey, concurrent, batches);
      }
    }
  }

  /** A step for a provider whose name is not yet a key appends that provider's item. */
  lemma StepAppends(c: Collection, p: Provider, selected: seq<string>, adapters: Provider -> Adapter,
                    hasRunloopKey: bool, concurrent: nat, batches: nat)
    requires !c.aborted && Label(p) !in Keys(c.results)
    ensures var next := Step(c, p, selected, adapters, hasRunloopKey, concurrent, batches);
      !next.aborted ==> next.results == c.results + Item(p, selected, adapters, hasRunloopKey, concurrent, batches)
  {
  }

  /**
   * The outcome after the filter: "No benchmarks completed" exactly when no
   * provider is left; a ZeroDivisionError exactly when two or more are left
   * and the smallest mean is 0; otherwise the report, whose columns, saved
   * raw times and saved statistics are keyed by the same providers in the
   * same order, and whose table has one row per planned run.
   */
  lemma ConcludeOutcome(concurrent: nat, batches: nat, results: seq<Entry>)
    ensures Conclude(concurrent, batches, results) == NoResults <==> results == []
    ensures Conclude(concurrent, batches, results).DivisionByZero? <==>
      |results| > 1 && StatsOf(results)[FirstMinIndex(StatsOf(results))].1.mean == 0.0
    ensures Conclude(concurrent, batches, results).DivisionByZero? ==>
      var z := Conclude(concurrent, batches, results);
      z.columns == Keys(results) &&
      |z.table| == concurrent * batches &&
      |z.summary| == |results|
    ensures Conclude(concurrent, batches, results).Reported? ==>
      var rep := Conclude(concurrent, batches, results).report;
      rep.columns == Keys(results) &&
      rep.snapshot.rawTimes == results &&
      rep.snapshot.statistics == StatsOf(results) &&
      Keys(rep.snapshot.statistics) == rep.columns &&
      rep.snapshot.config.totalRuns == concurrent * batches &&
      |rep.table| == concurrent * batches &&
      |rep.summary| == |results|
  {
    if results != [] {
      CompareBaseline(StatsOf(results));
      assert Keys(StatsOf(results)) == Keys(results);
    }
  }

  /**
   * In a report, each provider's cold start and best are the `max` and `min`
   * of its saved statistics, and its statistics are those of its saved raw
   * times.
   */
  lemma ReportAgreesWithSnapshot(concurrent: nat, batches: nat, results: seq<Entry>, k: nat)
    requires Conclude(concurrent, batches, results).Reported?
    requires k < |results| && results[k].1 != []
    ensures var rep := Conclude(concurrent, batches, results).report;
      rep.snapshot.statistics[k].1 == CalculateStats(rep.snapshot.rawTimes[k].1) &&
      rep.summary[k].coldStart == Time(rep.snapshot.statistics[k].1.max) &&
      rep.summary[k].best == Time(rep.snapshot.statistics[k].1.min)
  {
    SummaryAgreesWithStats(results[k]);
  }

  /**
   * With positive samples the comparison never divides by zero, so a run
   * over a non-empty filtered dict is reported.
   */
  lemma PositiveSamplesReported(concurrent: nat, batches: nat, results: seq<Entry>)
    requires results != []
    requires forall k, x :: 0 <= k < |results| && x in results[k].1 ==> x > 0.0
    requires forall k :: 0 <= k < |results| ==> results[k].1 != []
    ensures Conclude(concurrent, batches, results).Reported?
  {
    var stats := StatsOf(results);
    forall k | 0 <= k < |stats| ensures stats[k].1.mean > 0.0 {
      StatsMeanPositive(results[k].1);
    }
    CompareFactors(stats);
  }

  /**
   * When every invocation of every provider completes in a positive time
   * and at least one task is planned, a fresh run does not abort, and it is
   * reported unless only a keyless Runloop was selected; every provider
   * left then has exactly `concurrent * batches` samples, so the table has
   * no "-" cell.
   */
  lemma CleanRun(selected: seq<string>, adapters: Provider -> Adapter,
                 hasRunloopKey: bool, concurrent: nat, batches: nat)
    requires forall p: Provider, k: nat, i: nat :: adapters(p)(k, i).Elapsed? && adapters(p)(k, i).seconds > 0.0
    requires concurrent * batches > 0
    ensures var c := Collect([], selected, adapters, hasRunloopKey, concurrent, batches);
      !c.aborted &&
      var results := FilterNonEmpty(c.results);
      (results == [] <==> forall p: Provider :: Choice(p) in selected ==> p == Runloop && !hasRunloopKey) &&
      (results != [] ==> Conclude(concurrent, batches, results).Reported?) &&
      forall k :: 0 <= k < |results| ==> |results[k].1| == concurrent * batches
  {
    var c := Collect([], selected, adapters, hasRunloopKey, concurrent, batches);
    var i1 := Item(Morph, selected, adapters, hasRunloopKey, concurrent, batches);
    var i2 := Item(Modal, selected, adapters, hasRunloopKey, concurrent, batches);
    var i3 := Item(Runloop, selected, adapters, hasRunloopKey, concurrent, batches);
    CleanNotAborted(selected, adapters, hasRunloopKey, concurrent, batches);
    FreshCollection(selected, adapters, hasRunloopKey, concurrent, batches);
    FilterAppend(i1 + i2, i3);
    FilterAppend(i1, i2);
    var f1, f2, f3 := FilterNonEmpty(i1), FilterNonEmpty(i2), FilterNonEmpty(i3);
    var results := FilterNonEmpty(c.results);
    assert results == f1 + f2 + f3;
    CleanItemFilter(Morph, selected, adapters, hasRunloopKey, concurrent, batches);
    CleanItemFilter(Modal, selected, adapters, hasRunloopKey, concurrent, batches);
    CleanItemFilter(Runloop, selected, adapters, hasRunloopKey, concurrent, batches);
    forall k | 0 <= k < |results|
      ensures |results[k].1| == concurrent * batches
      ensures results[k].1 != [] && forall x :: x in results[k].1 ==> x > 0.0
    {
      assert results[k] in f1 || results[k] in f2 || results[k] in f3;
    }
    if results != [] {
      PositiveSamplesReported(concurrent, batches, results);
    }
  }

  lemma CleanNotAborted(selected: seq<string>, adapters: Provider -> Adapter,
                        hasRunloopKey: bool, concurrent: nat, batches: nat)
    requires forall p: Provider, k: nat, i: nat :: adapters(p)(k, i).Elapsed?
    ensures !Collect([], selected, adapters, hasRunloopKey, concurrent, batches).aborted
  {
    forall p: Provider ensures ProviderRun(p, adapters(p), hasRunloopKey, concurrent, batches).Some? {
      ProviderRunShape(p, adapters(p), hasRunloopKey, concurrent, batches);
    }
    CollectAborted([], selected, adapters, hasRunloopKey, concurrent, batches);
  }

  /**
   * On a clean run a provider keeps an item after the filter exactly when it
   * is selected and is not a keyless Runloop; that item has
   * `concurrent * batches` positive samples.
   */
  lemma CleanItemFilter(p: Provider, selected: seq<string>, adapters: Provider -> Adapter,
                        hasRunloopKey: bool, concurrent: nat, batches: nat)
    requires forall p: Provider, k: nat, i: nat :: adapters(p)(k, i).Elapsed? && adapters(p)(k, i).seconds > 0.0
    requires concurrent * batches > 0
    ensures var f := FilterNonEmpty(Item(p, selected, adapters, hasRunloopKey, concurrent, batches));
      (f == [] <==> (Choice(p) in selected ==> p == Runloop && !hasRunloopKey)) &&
      forall e :: e in f ==> |e.1| == concurrent * batches && e.1 != [] && forall x :: x in e.1 ==> x > 0.0
  {
    ProviderRunShape(p, adapters(p), hasRunloopKey, concurrent, batches);
    var r := ProviderRun(p, adapters(p), hasRunloopKey, concurrent, batches);
    if Choice(p) in selected {
      forall x | x in r.value ensures x > 0.0 {
        ProviderRunSamples(p, adapters(p), hasRunloopKey, concurrent, batches, x);
      }
    }
  }
}
