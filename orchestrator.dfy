/**
 * The batch loops of `benchmark_morph`, `benchmark_modal` and
 * `benchmark_runloop`: `batches` sequential rounds, each creating
 * `concurrent` adapter tasks and awaiting them with `asyncio.gather`.
 */
module Orchestrator {
  import opened Wrappers

  /** What one awaited sandbox task yields: its elapsed seconds, or an exception. */
  datatype Outcome = Elapsed(seconds: real) | Raised

  /**
   * One provider's adapter as seen by the orchestrator: the outcome of
   * invocation `i` of batch `k`. The SDK calls and the clock behind it are
   * not modelled.
   */
  type Adapter = (nat, nat) -> Outcome

  datatype Provider = Morph | Modal | Runloop

  /** The key under which a provider's samples are stored and reported. */
  function Label(p: Provider): string {
    match p
    case Morph => "Morph"
    case Modal => "Modal"
    case Runloop => "Runloop"
  }

  /** The provider's name on the command line. */
  function Choice(p: Provider): string {
    match p
    case Morph => "morph"
    case Modal => "modal"
    case Runloop => "runloop"
  }

  /**
   * `asyncio.gather(*tasks)` without `return_exceptions`: the results in task
   * order, or the exception of a failed task, which discards every result.
   */
  function Gather(tasks: seq<Outcome>): (r: Option<seq<real>>)
    ensures r.Some? <==> forall i :: 0 <= i < |tasks| ==> tasks[i].Elapsed?
    ensures r.Some? ==> |r.value| == |tasks|
    ensures r.Some? ==> forall i :: 0 <= i < |tasks| ==> r.value[i] == tasks[i].seconds
  {
    if tasks == [] then Some([])
    else if tasks[0].Raised? then None
    else
      match Gather(tasks[1..])
      case None => None
      case Some(rest) => Some([tasks[0].seconds] + rest)
  }

  /** The tasks created for batch `k`, in creation order. */
  function Batch(adapter: Adapter, k: nat, concurrent: nat): seq<Outcome> {
    seq(concurrent, i requires 0 <= i < concurrent => adapter(k, i))
  }

  /** What `times` holds after the first `b` batches, or None once one raised. */
  function Accumulate(adapter: Adapter, concurrent: nat, b: nat): Option<seq<real>> {
    if b == 0 then Some([])
    else
      match Accumulate(adapter, concurrent, b - 1)
      case None => None
      case Some(times) =>
        match Gather(Batch(adapter, b - 1, concurrent))
        case None => None
        case Some(batchTimes) => Some(times + batchTimes)
  }

  /** Once a batch raised, no later batch brings the run back. */
  lemma {:induction false} AccumulateStaysAborted(adapter: Adapter, concurrent: nat, k: nat, b: nat)
    requires k <= b && Accumulate(adapter, concurrent, k).None?
    ensures Accumulate(adapter, concurrent, b).None?
  {
    if k < b {
      AccumulateStaysAborted(adapter, concurrent, k, b - 1);
    }
  }

  /** The run completes exactly when no invocation of any batch raised. */
  lemma {:induction false} AccumulateSucceedsIff(adapter: Adapter, concurrent: nat, b: nat)
    ensures Accumulate(adapter, concurrent, b).Some? <==>
      forall k: nat, i: nat :: k < b && i < concurrent ==> adapter(k, i).Elapsed?
  {
    if b > 0 {
      AccumulateSucceedsIff(adapter, concurrent, b - 1);
      var tasks := Batch(adapter, b - 1, concurrent);
      if Accumulate(adapter, concurrent, b - 1).None? {
        var k: nat, i: nat :| k < b - 1 && i < concurrent && adapter(k, i).Raised?;
      } else if Gather(tasks).None? {
        var j :| 0 <= j < concurrent && tasks[j].Raised?;
        assert adapter(b - 1, j).Raised?;
      } else {
        forall k: nat, i: nat | k < b && i < concurrent ensures adapter(k, i).Elapsed? {
          if k == b - 1 {
            assert tasks[i] == adapter(k, i);
          }
        }
      }
    }
  }

  /** A completed run of `b` batches holds `b * concurrent` samples. */
  lemma {:induction false} AccumulateLength(adapter: Adapter, concurrent: nat, b: nat)
    requires Accumulate(adapter, concurrent, b).Some?
    ensures |Accumulate(adapter, concurrent, b).value| == b * concurrent
  {
    if b > 0 {
      AccumulateLength(adapter, concurrent, b - 1);
      assert (b - 1) * concurrent + concurrent == b * concurrent;
    }
  }

  /**
   * In a completed run, sample `k * concurrent + i` is the result of
   * invocation `i` of batch `k`: `times` is the in-order concatenation of
   * the batch results.
   */
  lemma {:induction false} AccumulateAt(adapter: Adapter, concurrent: nat, b: nat, k: nat, i: nat)
    requires Accumulate(adapter, concurrent, b).Some?
    requires k < b && i < concurrent
    ensures k * concurrent + i < |Accumulate(adapter, concurrent, b).value|
    ensures adapter(k, i) == Elapsed(Accumulate(adapter, concurrent, b).value[k * concurrent + i])
  {
    var prev := Accumulate(adapter, concurrent, b - 1).value;
    var tasks := Batch(adapter, b - 1, concurrent);
    var g := Gather(tasks).value;
    var times := Accumulate(adapter, concurrent, b).value;
    assert times == prev + g;
    var j := k * concurrent + i;
    if k < b - 1 {
      AccumulateAt(adapter, concurrent, b - 1, k, i);
      assert times[j] == prev[j];
    } else {
      AccumulateLength(adapter, concurrent, b - 1);
      assert j == |prev| + i;
      assert times[j] == g[i];
      assert tasks[i] == adapter(k, i);
    }
  }

  /** The `for batch_num in range(batches)` loop with its inner task-creation loop. */
  method RunBatches(adapter: Adapter, concurrent: nat, batches: nat) returns (r: Option<seq<real>>)
    ensures r == Accumulate(adapter, concurrent, batches)
  {
    var times: seq<real> := [];
    var batchNum := 0;
    while batchNum < batches
      invariant 0 <= batchNum <= batches
      invariant Accumulate(adapter, concurrent, batchNum) == Some(times)
    {
      var tasks: seq<Outcome> := [];
      var i := 0;
      while i < concurrent
        invariant 0 <= i <= concurrent
        invariant |tasks| == i
        invariant forall j :: 0 <= j < i ==> tasks[j] == adapter(batchNum, j)
      {
        tasks := tasks + [adapter(batchNum, i)];
        i := i + 1;
      }
      assert tasks == Batch(adapter, batchNum, concurrent);
      var batchTimes := Gather(tasks);
      if batchTimes.None? {
        AccumulateStaysAborted(adapter, concurrent, batchNum + 1, batches);
        return None;
      }
      times := times + batchTimes.value;
      batchNum := batchNum + 1;
    }
    r := Some(times);
  }

  /**
   * What `benchmark_<provider>` returns: Runloop without an API key returns
   * no samples before creating any task; otherwise the batch loop runs.
   */
  function ProviderRun(p: Provider, adapter: Adapter, hasRunloopKey: bool, concurrent: nat, batches: nat): Option<seq<real>> {
    if p == Runloop && !hasRunloopKey then Some([])
    else Accumulate(adapter, concurrent, batches)
  }

  /** `benchmark_morph`, `benchmark_modal` and `benchmark_runloop`. */
  method BenchmarkProvider(p: Provider, adapter: Adapter, hasRunloopKey: bool, concurrent: nat, batches: nat)
    returns (times: Option<seq<real>>)
    ensures times == ProviderRun(p, adapter, hasRunloopKey, concurrent, batches)
  {
    if p == Runloop && !hasRunloopKey {
      return Some([]);
    }
    times := RunBatches(adapter, concurrent, batches);
  }

  /** Every sample of a completed run is the result of one of its invocations. */
  lemma {:induction false} AccumulateSamples(adapter: Adapter, concurrent: nat, b: nat, x: real)
    requires Accumulate(adapter, concurrent, b).Some?
    requires x in Accumulate(adapter, concurrent, b).value
    ensures exists k: nat, i: nat :: k < b && i < concurrent && adapter(k, i) == Elapsed(x)
  {
    var prev := Accumulate(adapter, concurrent, b - 1).value;
    var tasks := Batch(adapter, b - 1, concurrent);
    var g := Gather(tasks).value;
    assert Accumulate(adapter, concurrent, b).value == prev + g;
    if x in prev {
      AccumulateSamples(adapter, concurrent, b - 1, x);
      var k: nat, i: nat :| k < b - 1 && i < concurrent && adapter(k, i) == Elapsed(x);
      assert k < b;
    } else {
      var i :| 0 <= i < |g| && g[i] == x;
      assert tasks[i] == adapter(b - 1, i);
    }
  }

  /**
   * A provider run either raises, or returns no samples (Runloop without a
   * key, or no task at all), or returns exactly `batches * concurrent`
   * samples.
   */
  lemma ProviderRunShape(p: Provider, adapter: Adapter, hasRunloopKey: bool, concurrent: nat, batches: nat)
    ensures var r := ProviderRun(p, adapter, hasRunloopKey, concurrent, batches);
      r.None? <==>
        (!(p == Runloop && !hasRunloopKey) &&
         exists k: nat, i: nat :: k < batches && i < concurrent && adapter(k, i).Raised?)
    ensures var r := ProviderRun(p, adapter, hasRunloopKey, concurrent, batches);
      r.Some? ==>
        (r.value == [] <==> (p == Runloop && !hasRunloopKey) || batches * concurrent == 0)
    ensures var r := ProviderRun(p, adapter, hasRunloopKey, concurrent, batches);
      r.Some? && r.value != [] ==> |r.value| == batches * concurrent
  {
    AccumulateSucceedsIff(adapter, concurrent, batches);
    if !(p == Runloop && !hasRunloopKey) && Accumulate(adapter, concurrent, batches).Some? {
      AccumulateLength(adapter, concurrent, batches);
    }
  }

  /** The samples of a completed provider run are values its adapter produced. */
  lemma ProviderRunSamples(p: Provider, adapter: Adapter, hasRunloopKey: bool, concurrent: nat, batches: nat, x: real)
    requires ProviderRun(p, adapter, hasRunloopKey, concurrent, batches).Some?
    requires x in ProviderRun(p, adapter, hasRunloopKey, concurrent, batches).value
    ensures exists k: nat, i: nat :: k < batches && i < concurrent && adapter(k, i) == Elapsed(x)
  {
    AccumulateSamples(adapter, concurrent, batches, x);
  }

  /**
   * Three concurrent invocations in each of two batches, returning 1, 2, 3
   * and then 4, 5, 6 seconds, give the samples 1, 2, 3, 4, 5, 6 in order.
   */
  lemma ScenarioTwoBatchesCollected(adapter: Adapter)
    requires adapter(0, 0) == Elapsed(1.0) && adapter(0, 1) == Elapsed(2.0) && adapter(0, 2) == Elapsed(3.0)
    requires adapter(1, 0) == Elapsed(4.0) && adapter(1, 1) == Elapsed(5.0) && adapter(1, 2) == Elapsed(6.0)
    ensures Accumulate(adapter, 3, 2) == Some([1.0, 2.0, 3.0, 4.0, 5.0, 6.0])
  {
    AccumulateSucceedsIff(adapter, 3, 2);
    forall k: nat, i: nat | k < 2 && i < 3 ensures adapter(k, i).Elapsed? {
      assert k == 0 || k == 1;
      assert i == 0 || i == 1 || i == 2;
    }
    AccumulateLength(adapter, 3, 2);
    AccumulateAt(adapter, 3, 2, 0, 0);
    AccumulateAt(adapter, 3, 2, 0, 1);
    AccumulateAt(adapter, 3, 2, 0, 2);
    AccumulateAt(adapter, 3, 2, 1, 0);
    AccumulateAt(adapter, 3, 2, 1, 1);
    AccumulateAt(adapter, 3, 2, 1, 2);
    var t := Accumulate(adapter, 3, 2).value;
    assert t == [1.0, 2.0, 3.0, 4.0, 5.0, 6.0];
  }
}
