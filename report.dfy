/**
 * The report shaping of `display_provider_results` and `run_benchmarks`:
 * the insertion-ordered results dict, the filter that drops providers
 * without samples, the rank-aligned iteration table, the summary rows, the
 * pairwise comparison against the fastest provider and the saved snapshot.
 */
module Report {
  import opened Wrappers
  import opened Sorting
  import opened Stats

  /** One item of an insertion-ordered dict from provider name to samples. */
  type Entry = (string, seq<real>)

  /** One item of the `stats` dict. */
  type StatsEntry = (string, Statistics)

  /** The dict's keys, in insertion order. */
  function Keys<V>(entries: seq<(string, V)>): (r: seq<string>)
    ensures |r| == |entries|
    ensures forall k :: 0 <= k < |entries| ==> r[k] == entries[k].0
  {
    seq(|entries|, k requires 0 <= k < |entries| => entries[k].0)
  }

  lemma KeysCons<V>(x: (string, V), t: seq<(string, V)>)
    ensures Keys([x] + t) == [x.0] + Keys(t)
  {
  }

  lemma KeysTail<V>(s: seq<(string, V)>)
    requires s != []
    ensures Keys(s) == [s[0].0] + Keys(s[1..])
  {
  }

  /** What makes an association list a dict: no key twice. */
  ghost predicate DistinctKeys<V>(entries: seq<(string, V)>) {
    forall i, j :: 0 <= i < j < |entries| ==> entries[i].0 != entries[j].0
  }

  /** `d[key] = v`: replaces the value of an existing key in place, appends a new key. */
  function Put(entries: seq<Entry>, key: string, v: seq<real>): seq<Entry> {
    if key in Keys(entries) then
      seq(|entries|, k requires 0 <= k < |entries| => if entries[k].0 == key then (key, v) else entries[k])
    else entries + [(key, v)]
  }

  /**
   * Dict assignment keeps the keys distinct and in their order, a new key
   * going last; afterwards the key maps to the new value and every other
   * item is still there.
   */
  lemma PutSemantics(entries: seq<Entry>, key: string, v: seq<real>)
    requires DistinctKeys(entries)
    ensures DistinctKeys(Put(entries, key, v))
    ensures Keys(Put(entries, key, v)) == if key in Keys(entries) then Keys(entries) else Keys(entries) + [key]
    ensures (key, v) in Put(entries, key, v)
    ensures forall e :: e in entries && e.0 != key ==> e in Put(entries, key, v)
  {
    var r := Put(entries, key, v);
    if key in Keys(entries) {
      var i :| 0 <= i < |entries| && Keys(entries)[i] == key;
      assert r[i] == (key, v);
      forall k | 0 <= k < |entries| ensures r[k].0 == entries[k].0 {
      }
      assert Keys(r) == Keys(entries);
      forall e | e in entries && e.0 != key ensures e in r {
        var k :| 0 <= k < |entries| && entries[k] == e;
        assert r[k] == e;
      }
    } else {
      assert r[|entries|] == (key, v);
      assert Keys(r) == Keys(entries) + [key];
      forall i, j | 0 <= i < j < |r| ensures r[i].0 != r[j].0 {
        if j == |entries| {
          assert Keys(entries)[i] == r[i].0;
        }
      }
    }
  }

  /** `{k: v for k, v in self.results.items() if v}`. */
  function FilterNonEmpty(entries: seq<Entry>): (r: seq<Entry>)
    ensures forall e :: e in r <==> e in entries && e.1 != []
    ensures |r| <= |entries|
  {
    if entries == [] then []
    else
      assert entries == [entries[0]] + entries[1..];
      if entries[0].1 != [] then [entries[0]] + FilterNonEmpty(entries[1..])
      else FilterNonEmpty(entries[1..])
  }

  lemma {:induction false} FilterAppend(a: seq<Entry>, b: seq<Entry>)
    ensures FilterNonEmpty(a + b) == FilterNonEmpty(a) + FilterNonEmpty(b)
  {
    if a != [] {
      var ab := a + b;
      assert ab[0] == a[0] && ab[1..] == a[1..] + b;
      FilterAppend(a[1..], b);
      if a[0].1 != [] {
        assert FilterNonEmpty(ab) == [a[0]] + FilterNonEmpty(a[1..] + b);
      } else {
        assert FilterNonEmpty(ab) == FilterNonEmpty(a[1..] + b);
      }
    } else {
      assert a + b == b;
    }
  }

  /**
   * Filtering keeps the relative order: two kept providers appear in the
   * result in the order they had, at the positions given by the number of
   * kept providers before them.
   */
  lemma FilterKeepsOrder(entries: seq<Entry>, i: nat, j: nat)
    requires i < j < |entries|
    requires entries[i].1 != [] && entries[j].1 != []
    ensures var r := FilterNonEmpty(entries);
      var p, q := |FilterNonEmpty(entries[..i])|, |FilterNonEmpty(entries[..j])|;
      p < q < |r| && r[p] == entries[i] && r[q] == entries[j]
  {
    FilterPosition(entries, i);
    FilterPosition(entries, j);
    FilterCountGrows(entries, i, j);
  }

  lemma FilterCountGrows(entries: seq<Entry>, i: nat, j: nat)
    requires i < j <= |entries| && entries[i].1 != []
    ensures |FilterNonEmpty(entries[..i])| < |FilterNonEmpty(entries[..j])|
  {
    var mid := entries[i..j];
    assert entries[..j] == entries[..i] + mid;
    FilterAppend(entries[..i], mid);
    assert mid[0] == entries[i];
    assert FilterNonEmpty(mid) == [mid[0]] + FilterNonEmpty(mid[1..]);
  }

  lemma FilterPosition(entries: seq<Entry>, i: nat)
    requires i < |entries| && entries[i].1 != []
    ensures var p := |FilterNonEmpty(entries[..i])|;
      p < |FilterNonEmpty(entries)| && FilterNonEmpty(entries)[p] == entries[i]
  {
    assert entries == entries[..i] + ([entries[i]] + entries[i + 1..]);
    FilterAppend(entries[..i], [entries[i]] + entries[i + 1..]);
  }

  lemma {:induction false} FilterDistinct(entries: seq<Entry>)
    requires DistinctKeys(entries)
    ensures DistinctKeys(FilterNonEmpty(entries))
  {
    if entries != [] {
      var tail := entries[1..];
      assert DistinctKeys(tail);
      FilterDistinct(tail);
      if entries[0].1 != [] {
        DistinctHead(entries);
        FilterKeepsAbsent(tail, entries[0].0);
        DistinctCons(entries[0], FilterNonEmpty(tail));
        assert FilterNonEmpty(entries) == [entries[0]] + FilterNonEmpty(tail);
      }
    }
  }

  lemma DistinctHead<V>(s: seq<(string, V)>)
    requires s != [] && DistinctKeys(s)
    ensures s[0].0 !in Keys(s[1..])
  {
  }

  lemma DistinctCons<V>(x: (string, V), t: seq<(string, V)>)
    requires DistinctKeys(t) && x.0 !in Keys(t)
    ensures DistinctKeys([x] + t)
  {
    var r := [x] + t;
    forall i, j | 0 <= i < j < |r| ensures r[i].0 != r[j].0 {
      if i == 0 {
        assert Keys(t)[j - 1] == r[j].0;
      }
    }
  }

  /** Filtering adds no key. */
  lemma {:induction false} FilterKeepsAbsent(entries: seq<Entry>, key: string)
    requires key !in Keys(entries)
    ensures key !in Keys(FilterNonEmpty(entries))
  {
    if entries != [] {
      KeysTail(entries);
      FilterKeepsAbsent(entries[1..], key);
      if entries[0].1 != [] {
        KeysCons(entries[0], FilterNonEmpty(entries[1..]));
      }
    }
  }

  /** A cell of the iteration table: a sample, or "-" past the end of a column. */
  datatype Cell = Time(seconds: real) | Dash

  function CellAt(column: seq<real>, i: nat): Cell {
    if i < |column| then Time(column[i]) else Dash
  }

  /** `sorted_results`: each provider's samples slowest first, in dict order. */
  function SortedResults(results: seq<Entry>): (r: seq<seq<real>>)
    ensures |r| == |results|
  {
    seq(|results|, p requires 0 <= p < |results| => SortDesc(results[p].1))
  }

  /** The loop filling `sorted_results`. */
  method SortResults(results: seq<Entry>) returns (sorted: seq<seq<real>>)
    ensures sorted == SortedResults(results)
  {
    sorted := [];
    var p := 0;
    while p < |results|
      invariant 0 <= p <= |results|
      invariant sorted == SortedResults(results)[..p]
    {
      SliceStep(SortedResults(results), p);
      sorted := sorted + [SortDesc(results[p].1)];
      p := p + 1;
    }
    assert SortedResults(results)[..p] == SortedResults(results);
  }

  /** The rows of the "All Iterations" table: row `i` holds every column's `i`-th cell. */
  function IterationTable(sorted: seq<seq<real>>, totalRuns: nat): seq<seq<Cell>> {
    seq(totalRuns, i requires 0 <= i < totalRuns => TableRow(sorted, i))
  }

  function TableRow(sorted: seq<seq<real>>, i: nat): seq<Cell> {
    seq(|sorted|, p requires 0 <= p < |sorted| => CellAt(sorted[p], i))
  }

  /** The nested `for i in range(total_runs)` / `for provider in ...` loops. */
  method BuildTable(sorted: seq<seq<real>>, totalRuns: nat) returns (rows: seq<seq<Cell>>)
    ensures rows == IterationTable(sorted, totalRuns)
  {
    rows := [];
    var i := 0;
    while i < totalRuns
      invariant 0 <= i <= totalRuns
      invariant rows == IterationTable(sorted, totalRuns)[..i]
    {
      var row: seq<Cell> := [];
      var p := 0;
      while p < |sorted|
        invariant 0 <= p <= |sorted|
        invariant row == TableRow(sorted, i)[..p]
      {
        if i < |sorted[p]| {
          row := row + [Time(sorted[p][i])];
        } else {
          row := row + [Dash];
        }
        p := p + 1;
      }
      assert row == TableRow(sorted, i);
      rows := rows + [row];
      i := i + 1;
    }
  }

  /**
   * Row `i`, column `p` of the table is the `i`-th slowest sample of
   * provider `p`, or "-" once that provider has no `i`-th sample.
   */
  lemma TableCells(results: seq<Entry>, totalRuns: nat, i: nat, p: nat)
    requires i < totalRuns && p < |results|
    ensures var rows := IterationTable(SortedResults(results), totalRuns);
      |rows| == totalRuns && |rows[i]| == |results| &&
      (i < |results[p].1| ==> rows[i][p] == Time(SortDesc(results[p].1)[i])) &&
      (i >= |results[p].1| ==> rows[i][p] == Dash)
  {
  }

  /**
   * The table has `totalRuns` rows of one cell per provider; going down a
   * column the samples never get slower; row 0 holds each provider's cold
   * start, its `max`.
   */
  lemma TableRanks(results: seq<Entry>, totalRuns: nat, p: nat, i: nat, j: nat)
    requires p < |results| && i < j < totalRuns
    ensures var rows := IterationTable(SortedResults(results), totalRuns);
      |rows| == totalRuns && |rows[i]| == |results| &&
      (rows[j][p].Time? ==> rows[i][p].Time? && rows[i][p].seconds >= rows[j][p].seconds)
  {
  }

  lemma TableColdStart(results: seq<Entry>, totalRuns: nat, p: nat)
    requires p < |results| && 0 < totalRuns && results[p].1 != []
    ensures IterationTable(SortedResults(results), totalRuns)[0][p] == Time(CalculateStats(results[p].1).max)
  {
    SortDescEnds(results[p].1);
  }

  /**
   * When every provider has exactly `totalRuns` samples, no cell is "-":
   * column `p` lists all of `p`'s samples, slowest first, and its last row
   * is `p`'s best run.
   */
  lemma TableFull(results: seq<Entry>, totalRuns: nat)
    requires forall p :: 0 <= p < |results| ==> |results[p].1| == totalRuns
    ensures var rows := IterationTable(SortedResults(results), totalRuns);
      forall i, p :: 0 <= i < totalRuns && 0 <= p < |results| ==> rows[i][p] == Time(SortDesc(results[p].1)[i])
    ensures var rows := IterationTable(SortedResults(results), totalRuns);
      forall p :: 0 <= p < |results| && totalRuns > 0 ==>
        rows[totalRuns - 1][p] == Time(CalculateStats(results[p].1).min)
  {
    forall p | 0 <= p < |results| && totalRuns > 0 {
      SortDescEnds(results[p].1);
    }
  }

  /** A row of the summary table; "-" stands for a provider without samples. */
  datatype SummaryRow = SummaryRow(provider: string, coldStart: Cell, best: Cell, mean: real, median: real)

  function SummaryRowOf(e: Entry): SummaryRow {
    var sorted := SortDesc(e.1);
    var s := CalculateStats(e.1);
    SummaryRow(
      e.0,
      if sorted != [] then Time(sorted[0]) else Dash,
      if sorted != [] then Time(sorted[|sorted| - 1]) else Dash,
      s.mean,
      s.median)
  }

  /** The `stats` dict, keyed like the results. */
  function StatsOf(results: seq<Entry>): (r: seq<StatsEntry>)
    ensures |r| == |results|
  {
    seq(|results|, k requires 0 <= k < |results| => StatsEntryOf(results[k]))
  }

  function StatsEntryOf(e: Entry): StatsEntry {
    (e.0, CalculateStats(e.1))
  }

  function SummaryOf(results: seq<Entry>): (r: seq<SummaryRow>)
    ensures |r| == |results|
  {
    seq(|results|, k requires 0 <= k < |results| => SummaryRowOf(results[k]))
  }

  /** The loop filling `stats` and the summary table. */
  method Summarize(results: seq<Entry>) returns (stats: seq<StatsEntry>, summary: seq<SummaryRow>)
    ensures stats == StatsOf(results)
    ensures summary == SummaryOf(results)
  {
    stats, summary := [], [];
    var k := 0;
    while k < |results|
      invariant 0 <= k <= |results|
      invariant stats == StatsOf(results)[..k]
      invariant summary == SummaryOf(results)[..k]
    {
      SliceStep(StatsOf(results), k);
      SliceStep(SummaryOf(results), k);
      stats := stats + [StatsEntryOf(results[k])];
      summary := summary + [SummaryRowOf(results[k])];
      k := k + 1;
    }
    assert StatsOf(results)[..k] == StatsOf(results);
    assert SummaryOf(results)[..k] == SummaryOf(results);
  }

  lemma SliceStep<T>(s: seq<T>, k: nat)
    requires k < |s|
    ensures s[..k + 1] == s[..k] + [s[k]]
  {
  }

  /**
   * The summary's "Cold Start" is the provider's `max` and "Best" its `min`;
   * for a provider without samples both read "-".
   */
  lemma SummaryAgreesWithStats(e: Entry)
    ensures var row, s := SummaryRowOf(e), CalculateStats(e.1);
      row.provider == e.0 && row.mean == s.mean && row.median == s.median &&
      (e.1 != [] ==> row.coldStart == Time(s.max) && row.best == Time(s.min)) &&
      (e.1 == [] ==> row.coldStart == Dash && row.best == Dash)
  {
    if e.1 != [] {
      SortDescEnds(e.1);
    }
  }

  /** What `display_provider_results` prints for a provider with samples. */
  datatype Listing = Listing(provider: string, ranked: seq<real>, coldStart: real, mean: real, median: real, best: real)

  /** `display_provider_results`: None stands for "No results". */
  function ProviderListing(provider: string, times: seq<real>): Option<Listing> {
    if times == [] then None
    else
      var sorted := SortDesc(times);
      Some(Listing(provider, sorted, sorted[0], Mean(times), Median(times), sorted[|sorted| - 1]))
  }

  /**
   * The per-provider listing exists exactly when there are samples; it ranks
   * them slowest first, and its cold start, best, mean and median are those
   * of `calculate_stats`.
   */
  lemma ListingAgreesWithStats(provider: string, times: seq<real>)
    ensures ProviderListing(provider, times).Some? <==> times != []
    ensures times != [] ==>
      var l, s := ProviderListing(provider, times).value, CalculateStats(times);
      Descending(l.ranked) && multiset(l.ranked) == multiset(times) &&
      l.coldStart == s.max && l.best == s.min && l.mean == s.mean && l.median == s.median
  {
    if times != [] {
      SortDescEnds(times);
    }
  }

  /** Stable insertion by mean: `x` goes before the first entry whose mean is not smaller. */
  function InsertByMean(x: StatsEntry, t: seq<StatsEntry>): (r: seq<StatsEntry>)
    ensures multiset(r) == multiset{x} + multiset(t)
    ensures |r| == |t| + 1
  {
    if t == [] || x.1.mean <= t[0].1.mean then [x] + t
    else
      assert t == [t[0]] + t[1..];
      [t[0]] + InsertByMean(x, t[1..])
  }

  /** `sorted(stats.items(), key=lambda x: x[1]["mean"])`, a stable sort. */
  function SortByMean(s: seq<StatsEntry>): (r: seq<StatsEntry>)
    ensures multiset(r) == multiset(s)
    ensures |r| == |s|
  {
    if s == [] then []
    else
      assert s == [s[0]] + s[1..];
      InsertByMean(s[0], SortByMean(s[1..]))
  }

  ghost predicate AscendingByMean(s: seq<StatsEntry>) {
    forall i, j :: 0 <= i < j < |s| ==> s[i].1.mean <= s[j].1.mean
  }

  lemma {:induction false} InsertByMeanAscending(x: StatsEntry, t: seq<StatsEntry>)
    requires AscendingByMean(t)
    ensures AscendingByMean(InsertByMean(x, t))
  {
    if t != [] && x.1.mean > t[0].1.mean {
      var rest := InsertByMean(x, t[1..]);
      InsertByMeanAscending(x, t[1..]);
      forall j | 0 <= j < |rest| ensures t[0].1.mean <= rest[j].1.mean {
        assert rest[j] in multiset(rest);
        if rest[j] != x {
          assert rest[j] in multiset(t[1..]);
          var k :| 0 <= k < |t[1..]| && t[1..][k] == rest[j];
          assert t[k + 1] == rest[j];
        }
      }
      assert InsertByMean(x, t) == [t[0]] + rest;
    }
  }

  lemma {:induction false} SortByMeanAscending(s: seq<StatsEntry>)
    ensures AscendingByMean(SortByMean(s))
  {
    if s != [] {
      SortByMeanAscending(s[1..]);
      InsertByMeanAscending(s[0], SortByMean(s[1..]));
    }
  }

  /** The index of the first entry with the smallest mean. */
  function FirstMinIndex(s: seq<StatsEntry>): (r: nat)
    requires s != []
    ensures r < |s|
    ensures forall j :: 0 <= j < |s| ==> s[r].1.mean <= s[j].1.mean
    ensures forall j :: 0 <= j < r ==> s[j].1.mean > s[r].1.mean
  {
    if |s| == 1 then 0
    else
      var k := FirstMinIndex(s[1..]) + 1;
      if s[0].1.mean <= s[k].1.mean then 0 else k
  }

  /**
   * Because the sort is stable, the baseline is the first provider, in dict
   * order, among those with the smallest mean.
   */
  lemma {:induction false} SortByMeanHead(s: seq<StatsEntry>)
    requires s != []
    ensures SortByMean(s)[0] == s[FirstMinIndex(s)]
  {
    if |s| > 1 {
      SortByMeanHead(s[1..]);
      var t := SortByMean(s[1..]);
      assert t[0] == s[FirstMinIndex(s[1..]) + 1];
    }
  }

  /** The entries whose mean is `m`, in their order. */
  function WithMean(s: seq<StatsEntry>, m: real): (r: seq<StatsEntry>)
    ensures forall e :: e in r <==> e in s && e.1.mean == m
  {
    if s == [] then []
    else
      assert s == [s[0]] + s[1..];
      (if s[0].1.mean == m then [s[0]] else []) + WithMean(s[1..], m)
  }

  /** Insertion passes over smaller means only, so no entry of mean `x`'s goes before `x`. */
  lemma {:induction false} InsertByMeanWithMean(x: StatsEntry, t: seq<StatsEntry>, m: real)
    ensures WithMean(InsertByMean(x, t), m) == (if x.1.mean == m then [x] else []) + WithMean(t, m)
  {
    if t == [] || x.1.mean <= t[0].1.mean {
      var r := [x] + t;
      assert r[0] == x && r[1..] == t;
    } else {
      var rest := t[1..];
      var ins := InsertByMean(x, rest);
      InsertByMeanWithMean(x, rest, m);
      var r := [t[0]] + ins;
      assert r[0] == t[0] && r[1..] == ins;
      assert t == [t[0]] + rest;
      if x.1.mean == m {
        assert WithMean(r, m) == WithMean(ins, m) == [x] + WithMean(rest, m);
        assert WithMean(t, m) == WithMean(rest, m);
      } else {
        assert WithMean(ins, m) == WithMean(rest, m);
      }
    }
  }

  /**
   * The sort is stable: for every mean, the providers sharing it come out
   * in the order they have in the dict.
   */
  lemma {:induction false} SortByMeanStable(s: seq<StatsEntry>, m: real)
    ensures WithMean(SortByMean(s), m) == WithMean(s, m)
  {
    if s != [] {
      SortByMeanStable(s[1..], m);
      InsertByMeanWithMean(s[0], SortByMean(s[1..]), m);
    }
  }

  /** One line of the performance comparison. */
  datatype Line = Line(provider: string, factor: real, percent: real)

  /**
   * The comparison section: not shown for fewer than two providers;
   * `ZeroBaseline` stands for the ZeroDivisionError raised when the fastest
   * mean is 0.
   */
  datatype Comparison = Skipped | Ranked(baseline: string, lines: seq<Line>) | ZeroBaseline

  function LineOf(e: StatsEntry, baseMean: real): Line
    requires baseMean != 0.0
  {
    var diff := e.1.mean - baseMean;
    Line(e.0, e.1.mean / baseMean, (diff / baseMean) * 100.0)
  }

  /** The lines for the providers after the baseline, in ranked order. */
  function Lines(rest: seq<StatsEntry>, baseMean: real): (r: seq<Line>)
    requires baseMean != 0.0
    ensures |r| == |rest|
  {
    seq(|rest|, k requires 0 <= k < |rest| => LineOf(rest[k], baseMean))
  }

  function Providers(lines: seq<Line>): (r: seq<string>)
    ensures |r| == |lines|
  {
    seq(|lines|, k requires 0 <= k < |lines| => lines[k].provider)
  }

  function Compare(stats: seq<StatsEntry>): Comparison {
    if |stats| <= 1 then Skipped
    else
      var ranked := SortByMean(stats);
      var base := ranked[0];
      if base.1.mean == 0.0 then ZeroBaseline
      else Ranked(base.0, Lines(ranked[1..], base.1.mean))
  }

  /**
   * The loop over `providers_sorted[1:]`; its first division raises when the
   * baseline mean is 0.
   */
  method ComparePerformance(stats: seq<StatsEntry>) returns (c: Comparison)
    ensures c == Compare(stats)
  {
    if |stats| <= 1 {
      return Skipped;
    }
    var ranked := SortByMean(stats);
    var base := ranked[0];
    var lines: seq<Line> := [];
    var k := 1;
    while k < |ranked|
      invariant 1 <= k <= |ranked|
      invariant base.1.mean == 0.0 ==> k == 1
      invariant base.1.mean != 0.0 ==> lines == Lines(ranked[1..k], base.1.mean)
    {
      if base.1.mean == 0.0 {
        return ZeroBaseline;
      }
      assert ranked[1..k + 1] == ranked[1..k] + [ranked[k]];
      lines := lines + [LineOf(ranked[k], base.1.mean)];
      k := k + 1;
    }
    assert ranked[1..k] == ranked[1..];
    return Ranked(base.0, lines);
  }

  /**
   * The comparison is shown exactly when at least two providers remain, and
   * its baseline is the first provider, in dict order, with the smallest mean.
   */
  lemma CompareBaseline(stats: seq<StatsEntry>)
    ensures Compare(stats).Skipped? <==> |stats| <= 1
    ensures Compare(stats).ZeroBaseline? <==> |stats| > 1 && stats[FirstMinIndex(stats)].1.mean == 0.0
    ensures Compare(stats).Ranked? ==>
      Compare(stats).baseline == stats[FirstMinIndex(stats)].0 &&
      |Compare(stats).lines| == |stats| - 1
  {
    if |stats| > 1 {
      SortByMeanHead(stats);
    }
  }

  /** Every provider appears exactly once: as the baseline or on one line. */
  lemma CompareCoversAll(stats: seq<StatsEntry>)
    ensures Compare(stats).Ranked? ==>
      multiset([Compare(stats).baseline] + Providers(Compare(stats).lines)) == multiset(Keys(stats))
  {
    if Compare(stats).Ranked? {
      var ranked := SortByMean(stats);
      var c := Compare(stats);
      assert [c.baseline] + Providers(c.lines) == Keys(ranked);
      KeysSortByMean(stats);
    }
  }

  lemma {:induction false} KeysInsertByMean(x: StatsEntry, t: seq<StatsEntry>)
    ensures multiset(Keys(InsertByMean(x, t))) == multiset{x.0} + multiset(Keys(t))
  {
    if t == [] || x.1.mean <= t[0].1.mean {
      KeysCons(x, t);
    } else {
      var rest := InsertByMean(x, t[1..]);
      assert InsertByMean(x, t) == [t[0]] + rest;
      KeysInsertByMean(x, t[1..]);
      KeysTail(t);
      KeysCons(t[0], rest);
    }
  }

  lemma {:induction false} KeysSortByMean(s: seq<StatsEntry>)
    ensures multiset(Keys(SortByMean(s))) == multiset(Keys(s))
  {
    if s != [] {
      KeysSortByMean(s[1..]);
      KeysInsertByMean(s[0], SortByMean(s[1..]));
      KeysTail(s);
    }
  }

  /**
   * With positive means (positive samples), nothing divides by zero, the
   * lines come in ascending order of factor, and every reported provider is
   * `factor` >= 1 times slower, with `percent == (factor - 1) * 100` >= 0.
   */
  lemma CompareFactors(stats: seq<StatsEntry>)
    requires forall k :: 0 <= k < |stats| ==> stats[k].1.mean > 0.0
    ensures !Compare(stats).ZeroBaseline?
    ensures Compare(stats).Ranked? ==> forall k :: 0 <= k < |Compare(stats).lines| ==>
      var l := Compare(stats).lines[k];
      l.factor >= 1.0 && l.percent == (l.factor - 1.0) * 100.0 && l.percent >= 0.0
    ensures Compare(stats).Ranked? ==> forall k :: 0 < k < |Compare(stats).lines| ==>
      Compare(stats).lines[k - 1].factor <= Compare(stats).lines[k].factor
  {
    if |stats| > 1 {
      var ranked := SortByMean(stats);
      SortByMeanAscending(stats);
      assert ranked[0] in multiset(stats);
      var i :| 0 <= i < |stats| && stats[i] == ranked[0];
      var m := ranked[0].1.mean;
      assert m > 0.0;
      var rest := ranked[1..];
      forall k | 0 <= k < |rest| ensures m <= rest[k].1.mean {
        assert ranked[k + 1] == rest[k];
      }
      LinesFactors(rest, m);
    }
  }

  lemma LinesFactors(rest: seq<StatsEntry>, m: real)
    requires m > 0.0
    requires AscendingByMean(rest)
    requires forall k :: 0 <= k < |rest| ==> m <= rest[k].1.mean
    ensures forall k :: 0 <= k < |rest| ==>
      var l := Lines(rest, m)[k];
      l.factor >= 1.0 && l.percent == (l.factor - 1.0) * 100.0 && l.percent >= 0.0
    ensures forall k :: 0 < k < |rest| ==> Lines(rest, m)[k - 1].factor <= Lines(rest, m)[k].factor
  {
    var lines := Lines(rest, m);
    forall k | 0 <= k < |rest|
      ensures lines[k].factor >= 1.0 && lines[k].percent == (lines[k].factor - 1.0) * 100.0
      ensures lines[k].percent >= 0.0
    {
      FactorAlgebra(rest[k].1.mean, m);
    }
    forall k | 0 < k < |rest| ensures lines[k - 1].factor <= lines[k].factor {
      DivideMonotone(rest[k - 1].1.mean, rest[k].1.mean, m);
    }
  }

  lemma DivideMonotone(a: real, b: real, m: real)
    requires a <= b && m > 0.0
    ensures a / m <= b / m
  {
  }

  lemma FactorAlgebra(x: real, m: real)
    requires 0.0 < m <= x
    ensures x / m >= 1.0
    ensures ((x - m) / m) * 100.0 == (x / m - 1.0) * 100.0
  {
    var f, d := x / m, (x - m) / m;
    assert f * m == x;
    assert d * m == x - m;
    assert (d - (f - 1.0)) * m == 0.0;
    ProductZero(d - (f - 1.0), m);
  }

  lemma ProductZero(a: real, m: real)
    requires a * m == 0.0 && m != 0.0
    ensures a == 0.0
  {
  }

  /**
   * Provider A with mean 1.0 s and provider B with mean 2.5 s: B is reported
   * 2.5 times slower, taking 150 % more time than the baseline A.
   */
  lemma ScenarioComparison(a: Statistics, b: Statistics)
    requires a.mean == 1.0 && b.mean == 2.5
    ensures Compare([("A", a), ("B", b)]) == Ranked("A", [Line("B", 2.5, 150.0)])
  {
    var stats := [("A", a), ("B", b)];
    assert stats[1..] == [("B", b)];
    assert SortByMean([("B", b)]) == [("B", b)];
    assert SortByMean(stats) == InsertByMean(("A", a), [("B", b)]) == stats;
    assert LineOf(("B", b), 1.0) == Line("B", 2.5, 150.0);
    assert Lines([("B", b)], 1.0) == [Line("B", 2.5, 150.0)];
  }

  /** The hardware every sandbox is asked for: 1 vCPU, 2048 MB of memory, 2 GB of disk. */
  datatype VmConfig = VmConfig(vcpus: nat, memoryMb: nat, diskGb: nat)

  const VM_CONFIG := VmConfig(1, 2048, 2)

  datatype Config = Config(concurrent: nat, batches: nat, totalRuns: nat, pythonVersion: string, vmConfig: VmConfig)

  /** `output_data` without its timestamp. */
  datatype Snapshot = Snapshot(config: Config, rawTimes: seq<Entry>, statistics: seq<StatsEntry>)

  /** The printed and saved outcome of a run with at least one provider left. */
  datatype Report = Report(
    columns: seq<string>,
    table: seq<seq<Cell>>,
    summary: seq<SummaryRow>,
    comparison: Comparison,
    snapshot: Snapshot)
}
