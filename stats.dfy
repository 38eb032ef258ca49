/**
 * The statistics engine: `SandboxBenchmark.calculate_stats`, together with the
 * helpers of Python's `statistics` module it relies on (`mean`, `median`,
 * `stdev`) and the builtins `min`, `max` and `sorted`.
 */
module Stats {
  import opened Sorting

  /**
   * The seven figures of one provider. `variance` is the square of `std_dev`:
   * the snapshot's `std_dev` is its square root, which is not computed here.
   */
  datatype Statistics = Statistics(
    mean: real,
    median: real,
    min: real,
    max: real,
    variance: real,
    p95: real,
    p99: real)

  /** The value returned for an empty list of samples. */
  const Zero := Statistics(0.0, 0.0, 0.0, 0.0, 0.0, 0.0, 0.0)

  function Sum(s: seq<real>): real {
    if s == [] then 0.0 else s[0] + Sum(s[1..])
  }

  /** `statistics.mean`. */
  function Mean(s: seq<real>): (r: real)
    requires s != []
    ensures r * |s| as real == Sum(s)
  {
    Sum(s) / |s| as real
  }

  /** `min(xs)`. */
  function MinOf(s: seq<real>): (m: real)
    requires s != []
    ensures m in s
    ensures forall x :: x in s ==> m <= x
  {
    if |s| == 1 then s[0]
    else
      assert s == [s[0]] + s[1..];
      var m := MinOf(s[1..]);
      if s[0] <= m then s[0] else m
  }

  /** `max(xs)`. */
  function MaxOf(s: seq<real>): (m: real)
    requires s != []
    ensures m in s
    ensures forall x :: x in s ==> x <= m
  {
    if |s| == 1 then s[0]
    else
      assert s == [s[0]] + s[1..];
      var m := MaxOf(s[1..]);
      if s[0] >= m then s[0] else m
  }

  /** `statistics.median`: the middle sample, or the average of the two middle ones. */
  function Median(s: seq<real>): (r: real)
    requires s != []
    ensures MinOf(s) <= r <= MaxOf(s)
  {
    SortedEnds(s);
    Middle(SortAsc(s))
  }

  /** The middle of an ordered list of odd length, the mean of its two middle elements otherwise. */
  function Middle(t: seq<real>): (r: real)
    requires t != []
    ensures Ascending(t) ==> t[0] <= r <= t[|t| - 1]
  {
    var n := |t|;
    if n % 2 == 1 then t[n / 2] else (t[n / 2 - 1] + t[n / 2]) / 2.0
  }

  function Square(x: real): real {
    x * x
  }

  function SquaredDeviations(s: seq<real>, m: real): real {
    if s == [] then 0.0 else Square(s[0] - m) + SquaredDeviations(s[1..], m)
  }

  /** The square of `statistics.stdev`: squared deviations over n - 1. */
  function Variance(s: seq<real>): (r: real)
    requires |s| > 1
    ensures r >= 0.0
  {
    SquaredDeviationsNonNegative(s, Mean(s));
    SquaredDeviations(s, Mean(s)) / (|s| - 1) as real
  }

  /** `int(n * q / 100)` for a percentage `q`: the floor of `n * q / 100`. */
  function PercentileIndex(n: nat, q: nat): nat {
    (n * q) / 100
  }

  /** `calculate_stats(times)`. */
  function CalculateStats(times: seq<real>): (r: Statistics)
    ensures times == [] ==> r == Zero
    ensures |times| <= 1 ==> r.variance == 0.0
    ensures r.variance >= 0.0
  {
    if times == [] then Zero
    else
      var sorted := SortAsc(times);
      var n := |sorted|;
      Statistics(
        Mean(times),
        Median(times),
        MinOf(times),
        MaxOf(times),
        if |times| > 1 then Variance(times) else 0.0,
        if n > 0 then sorted[PercentileIndex(n, 95)] else 0.0,
        if n > 0 then sorted[PercentileIndex(n, 99)] else 0.0)
  }

  /** `min` and `max` are samples, and every sample lies between them. */
  lemma StatsExtremes(times: seq<real>)
    requires times != []
    ensures var r := CalculateStats(times);
      r.min in times && r.max in times && forall x :: x in times ==> r.min <= x <= r.max
  {
  }

  /** Mean and median lie between `min` and `max`. */
  lemma StatsCentralBounds(times: seq<real>)
    requires times != []
    ensures var r := CalculateStats(times);
      r.min <= r.median <= r.max && r.min <= r.mean <= r.max
  {
    MeanBounds(times);
  }

  /** p95 and p99 are actual samples, ordered between `min` and `max`. */
  lemma StatsPercentiles(times: seq<real>)
    requires times != []
    ensures var r := CalculateStats(times);
      r.p95 in times && r.p99 in times && r.min <= r.p95 <= r.p99 <= r.max
  {
    var t := SortAsc(times);
    var n := |t|;
    var i, j := PercentileIndex(n, 95), PercentileIndex(n, 99);
    PercentileIndexBounds(n);
    SortedEnds(times);
    AscendingPair(t, 0, i);
    AscendingPair(t, i, j);
    AscendingPair(t, j, n - 1);
    assert t[i] in multiset(times) && t[j] in multiset(times);
  }

  /** The ends of the ascending list are `min` and `max`. */
  lemma SortedEnds(s: seq<real>)
    requires s != []
    ensures SortAsc(s)[0] == MinOf(s)
    ensures SortAsc(s)[|s| - 1] == MaxOf(s)
  {
    SortedFirstIsMin(s);
    SortedLastIsMax(s);
  }

  /**
   * The descending list starts with `max` (the cold start) and ends with
   * `min` (the best run).
   */
  lemma SortDescEnds(s: seq<real>)
    requires s != []
    ensures SortDesc(s)[0] == MaxOf(s)
    ensures SortDesc(s)[|s| - 1] == MinOf(s)
  {
    SortDescFirstIsMax(s);
    SortDescLastIsMin(s);
  }

  lemma SortDescFirstIsMax(s: seq<real>)
    requires s != []
    ensures SortDesc(s)[0] == MaxOf(s)
  {
    var a := SortAsc(s);
    assert SortDesc(s) == Reverse(a);
    assert Reverse(a)[0] == a[|s| - 1];
    SortedLastIsMax(s);
  }

  lemma SortDescLastIsMin(s: seq<real>)
    requires s != []
    ensures SortDesc(s)[|s| - 1] == MinOf(s)
  {
    var a := SortAsc(s);
    assert SortDesc(s) == Reverse(a);
    assert Reverse(a)[|s| - 1] == a[0];
    SortedFirstIsMin(s);
  }

  lemma SortedFirstIsMin(s: seq<real>)
    requires s != []
    ensures SortAsc(s)[0] == MinOf(s)
  {
    var t := SortAsc(s);
    var lo := MinOf(s);
    assert lo in multiset(t);
    var k :| 0 <= k < |t| && t[k] == lo;
    assert t[0] <= t[k];
    assert t[0] in multiset(s);
    assert t[0] in s;
  }

  lemma SortedLastIsMax(s: seq<real>)
    requires s != []
    ensures SortAsc(s)[|s| - 1] == MaxOf(s)
  {
    var t := SortAsc(s);
    var n := |s| - 1;
    var hi := MaxOf(s);
    assert hi in multiset(t);
    var k :| 0 <= k < |t| && t[k] == hi;
    AscendingPair(t, k, n);
    assert t[n] in multiset(s);
    assert t[n] in s;
  }



  lemma {:induction false} SumBounds(s: seq<real>, lo: real, hi: real)
    requires forall x :: x in s ==> lo <= x <= hi
    ensures |s| as real * lo <= Sum(s) <= |s| as real * hi
  {
    if s != [] {
      assert s == [s[0]] + s[1..];
      assert s[0] in s;
      forall x | x in s[1..] ensures lo <= x <= hi {
        assert x in s;
      }
      SumBounds(s[1..], lo, hi);
      var m := |s[1..]| as real;
      assert |s| as real * lo == m * lo + lo;
      assert |s| as real * hi == m * hi + hi;
    }
  }

  lemma DivideBounds(a: real, n: real, lo: real, hi: real)
    requires n > 0.0 && n * lo <= a <= n * hi
    ensures lo <= a / n <= hi
  {
  }

  /** The mean lies between the smallest and the largest sample. */
  lemma MeanBounds(s: seq<real>)
    requires s != []
    ensures MinOf(s) <= Mean(s) <= MaxOf(s)
  {
    SumBounds(s, MinOf(s), MaxOf(s));
    DivideBounds(Sum(s), |s| as real, MinOf(s), MaxOf(s));
  }

  /** A set of positive samples has a positive mean. */
  lemma StatsMeanPositive(times: seq<real>)
    requires times != []
    requires forall x :: x in times ==> x > 0.0
    ensures CalculateStats(times).mean > 0.0
  {
    MeanBounds(times);
  }

  /** For n > 0 both percentile indices select a sample, p95 no later than p99. */
  lemma PercentileIndexBounds(n: nat)
    requires n > 0
    ensures PercentileIndex(n, 95) <= PercentileIndex(n, 99) < n
  {
    assert n * 95 <= n * 99 < n * 100;
  }

  lemma {:induction false} SquaredDeviationsNonNegative(s: seq<real>, m: real)
    ensures SquaredDeviations(s, m) >= 0.0
  {
    if s != [] {
      SquaredDeviationsNonNegative(s[1..], m);
      var d := s[0] - m;
      assert Square(d) >= 0.0 by {
        if d < 0.0 { assert (-d) * (-d) == d * d; }
      }
    }
  }

  lemma {:induction false} SumInsert(x: real, t: seq<real>)
    ensures Sum(Insert(x, t)) == x + Sum(t)
  {
    if t != [] && x > t[0] {
      SumInsert(x, t[1..]);
    }
  }

  lemma {:induction false} SumSortAsc(s: seq<real>)
    ensures Sum(SortAsc(s)) == Sum(s)
  {
    if s != [] {
      SumSortAsc(s[1..]);
      SumInsert(s[0], SortAsc(s[1..]));
    }
  }

  lemma {:induction false} SquaredDeviationsInsert(x: real, t: seq<real>, m: real)
    ensures SquaredDeviations(Insert(x, t), m) == Square(x - m) + SquaredDeviations(t, m)
  {
    if t != [] && x > t[0] {
      SquaredDeviationsInsert(x, t[1..], m);
    }
  }

  lemma {:induction false} SquaredDeviationsSortAsc(s: seq<real>, m: real)
    ensures SquaredDeviations(SortAsc(s), m) == SquaredDeviations(s, m)
  {
    if s != [] {
      var t := SortAsc(s[1..]);
      assert SortAsc(s) == Insert(s[0], t);
      SquaredDeviationsSortAsc(s[1..], m);
      SquaredDeviationsInsert(s[0], t, m);
    }
  }

  lemma MeanPermutation(a: seq<real>, b: seq<real>)
    requires a != [] && multiset(a) == multiset(b)
    ensures b != [] && Mean(a) == Mean(b)
  {
    assert |a| == |multiset(a)| == |multiset(b)| == |b|;
    SortAscPermutation(a, b);
    SumSortAsc(a);
    SumSortAsc(b);
  }

  lemma VariancePermutation(a: seq<real>, b: seq<real>)
    requires |a| > 1 && multiset(a) == multiset(b)
    ensures |b| > 1 && Variance(a) == Variance(b)
  {
    assert |a| == |multiset(a)| == |multiset(b)| == |b|;
    MeanPermutation(a, b);
    SortAscPermutation(a, b);
    SquaredDeviationsSortAsc(a, Mean(a));
    SquaredDeviationsSortAsc(b, Mean(a));
  }

  /**
   * `calculate_stats` depends only on which samples there are, not on the
   * order in which the concurrent invocations completed.
   */
  lemma StatsPermutationInvariant(a: seq<real>, b: seq<real>)
    requires multiset(a) == multiset(b)
    ensures CalculateStats(a) == CalculateStats(b)
  {
    assert |a| == |multiset(a)| == |multiset(b)| == |b|;
    if a != [] {
      SortAscPermutation(a, b);
      MeanPermutation(a, b);
      SortedEnds(a);
      SortedEnds(b);
      var va := if |a| > 1 then Variance(a) else 0.0;
      var vb := if |b| > 1 then Variance(b) else 0.0;
      if |a| > 1 {
        VariancePermutation(a, b);
      }
      assert va == vb;
      assert Median(a) == Median(b);
    }
  }

  /**
   * Three invocations in each of two batches returning 1, 2, 3 and then
   * 4, 5, 6 seconds give mean 3.5, median 3.5, min 1 and max 6.
   */
  lemma ScenarioTwoBatches(s: seq<real>)
    requires |s| == 6
    requires s[0] == 1.0 && s[1] == 2.0 && s[2] == 3.0
    requires s[3] == 4.0 && s[4] == 5.0 && s[5] == 6.0
    ensures var r := CalculateStats(s);
      r.mean == 3.5 && r.median == 3.5 && r.min == 1.0 && r.max == 6.0
      && r.p95 == 6.0 && r.p99 == 6.0
  {
    assert SortAsc(s) == s by {
      assert Ascending(s);
      SortAscUnique(s, s);
    }
    assert Mean(s) == 3.5 by {
      assert Sum(s[5..]) == 6.0;
      assert Sum(s[4..]) == 11.0;
      assert Sum(s[3..]) == 15.0;
      assert Sum(s[2..]) == 18.0;
      assert Sum(s[1..]) == 20.0;
    }
    assert Median(s) == 3.5 by {
      assert Middle(s) == 3.5;
    }
    assert MinOf(s) == 1.0 && MaxOf(s) == 6.0 by {
      SortedEnds(s);
    }
    assert PercentileIndex(6, 95) == 5 && PercentileIndex(6, 99) == 5;
  }
}
