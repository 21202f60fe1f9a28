/** The latency statistics of `scripts/benchmark_common.py`: nearest-rank
    percentiles, throughput with a zero-duration guard, and the record
    that `calculate_metrics` builds from one run's raw data. */
module Stats {
  import opened Runtime
  import opened Sorting

  /** `BenchmarkResult`, the flat record every runner hands back. Latencies
      are in milliseconds; rounding to 3 or 2 decimals is not modelled. */
  datatype BenchmarkResult = BenchmarkResult(
    system: string,
    scenario: string,
    jobsCount: int,
    durationSeconds: real,
    throughputPerSecond: real,
    latencyP50Ms: real,
    latencyP95Ms: real,
    latencyP99Ms: real,
    latencyAvgMs: real,
    latencyMinMs: real,
    latencyMaxMs: real,
    errors: int,
    timestamp: string)

  // ---------------------------------------------------------------------
  // min, max, sum and mean of a non-empty list (Python's `min`, `max`,
  // `statistics.mean`, which all raise on an empty list)

  function MinOf(s: seq<real>): (m: real)
    requires s != []
    ensures m in s
    ensures forall i :: 0 <= i < |s| ==> m <= s[i]
  {
    if |s| == 1 then s[0]
    else
      var rest := MinOf(s[1..]);
      if s[0] <= rest then s[0] else rest
  }

  function MaxOf(s: seq<real>): (m: real)
    requires s != []
    ensures m in s
    ensures forall i :: 0 <= i < |s| ==> s[i] <= m
  {
    if |s| == 1 then s[0]
    else
      var rest := MaxOf(s[1..]);
      if s[0] >= rest then s[0] else rest
  }

  function Sum(s: seq<real>): real {
    if s == [] then 0.0 else s[0] + Sum(s[1..])
  }

  function Mean(s: seq<real>): real
    requires s != []
  {
    Sum(s) / |s| as real
  }

  lemma {:induction false} SumBounds(s: seq<real>, lo: real, hi: real)
    requires forall i :: 0 <= i < |s| ==> lo <= s[i] <= hi
    ensures |s| as real * lo <= Sum(s) <= |s| as real * hi
  {
    if s != [] {
      SumBounds(s[1..], lo, hi);
    }
  }

  lemma DivideBounds(x: real, n: real, lo: real, hi: real)
    requires n > 0.0 && n * lo <= x <= n * hi
    ensures lo <= x / n <= hi
  {
  }

  /** The mean lies between the smallest and the largest latency. */
  lemma MeanBounds(s: seq<real>)
    requires s != []
    ensures MinOf(s) <= Mean(s) <= MaxOf(s)
  {
    MeanWithin(s, MinOf(s), MaxOf(s));
  }

  lemma MeanWithin(s: seq<real>, lo: real, hi: real)
    requires s != []
    requires forall i :: 0 <= i < |s| ==> lo <= s[i] <= hi
    ensures lo <= Mean(s) <= hi
  {
    SumBounds(s, lo, hi);
    DivideBounds(Sum(s), |s| as real, lo, hi);
  }

  lemma {:induction false} SumConcat(a: seq<real>, b: seq<real>)
    ensures Sum(a + b) == Sum(a) + Sum(b)
  {
    if a != [] {
      assert (a + b)[1..] == a[1..] + b;
      SumConcat(a[1..], b);
    } else {
      assert a + b == b;
    }
  }

  /** The sum does not depend on the order of the list. */
  lemma {:induction false} SumPermutationInvariant(a: seq<real>, b: seq<real>)
    requires multiset(a) == multiset(b)
    ensures Sum(a) == Sum(b)
  {
    if a == [] {
      assert |b| == 0 by { assert |multiset(b)| == |b|; }
    } else {
      assert a[0] in multiset(b);
      var j :| 0 <= j < |b| && b[j] == a[0];
      var rest := b[..j] + b[j + 1..];
      assert b == b[..j] + [b[j]] + b[j + 1..];
      SumConcat(b[..j] + [b[j]], b[j + 1..]);
      SumConcat(b[..j], [b[j]]);
      SumConcat(b[..j], b[j + 1..]);
      assert Sum(b) == b[j] + Sum(rest);
      assert multiset(b) == multiset(b[..j]) + multiset{b[j]} + multiset(b[j + 1..]);
      assert multiset(rest) == multiset(b[..j]) + multiset(b[j + 1..]);
      assert multiset(rest) == multiset(b) - multiset{a[0]};
      assert a == [a[0]] + a[1..];
      assert multiset(a[1..]) == multiset(a) - multiset{a[0]};
      SumPermutationInvariant(a[1..], rest);
    }
  }

  lemma MinMaxPermutationInvariant(a: seq<real>, b: seq<real>)
    requires a != [] && multiset(a) == multiset(b)
    ensures b != [] && MinOf(a) == MinOf(b) && MaxOf(a) == MaxOf(b)
  {
    assert a[0] in multiset(b);
    assert MinOf(a) in multiset(b) && MinOf(b) in multiset(a);
    assert MaxOf(a) in multiset(b) && MaxOf(b) in multiset(a);
  }

  // ---------------------------------------------------------------------
  // seconds to milliseconds

  /** `[l * 1000 for l in latencies]` */
  function ToMs(s: seq<real>): (r: seq<real>)
    ensures |r| == |s|
  {
    seq(|s|, i requires 0 <= i < |s| => s[i] * 1000.0)
  }

  /** The ms list keeps its length, scales each element, and stays ascending
      when the input was. */
  lemma ToMsScales(s: seq<real>)
    ensures |ToMs(s)| == |s|
    ensures forall i :: 0 <= i < |s| ==> ToMs(s)[i] == 1000.0 * s[i]
    ensures IsSorted(s) ==> IsSorted(ToMs(s))
  {
  }

  lemma {:induction false} ToMsCount(s: seq<real>, v: real)
    ensures multiset(ToMs(s))[v] == multiset(s)[v / 1000.0]
  {
    if s != [] {
      assert ToMs(s) == [s[0] * 1000.0] + ToMs(s[1..]);
      assert s == [s[0]] + s[1..];
      ToMsCount(s[1..], v);
      assert (s[0] * 1000.0 == v) == (s[0] == v / 1000.0);
    }
  }

  lemma ToMsPermutation(a: seq<real>, b: seq<real>)
    requires multiset(a) == multiset(b)
    ensures multiset(ToMs(a)) == multiset(ToMs(b))
  {
    forall v ensures multiset(ToMs(a))[v] == multiset(ToMs(b))[v] {
      ToMsCount(a, v);
      ToMsCount(b, v);
    }
  }

  /** Scaling and sorting commute: sorting the ms list is scaling the sorted list. */
  lemma SortToMs(s: seq<real>)
    ensures Sort(ToMs(s)) == ToMs(Sort(s))
  {
    ToMsScales(Sort(s));
    ToMsPermutation(Sort(s), s);
    SortedUnique(Sort(ToMs(s)), ToMs(Sort(s)));
  }

  lemma {:induction false} ToMsMin(s: seq<real>)
    requires s != []
    ensures MinOf(ToMs(s)) == 1000.0 * MinOf(s)
  {
    if |s| > 1 {
      assert ToMs(s)[1..] == ToMs(s[1..]);
      ToMsMin(s[1..]);
    }
  }

  lemma {:induction false} ToMsMax(s: seq<real>)
    requires s != []
    ensures MaxOf(ToMs(s)) == 1000.0 * MaxOf(s)
  {
    if |s| > 1 {
      assert ToMs(s)[1..] == ToMs(s[1..]);
      ToMsMax(s[1..]);
    }
  }

  lemma ToMsMean(s: seq<real>)
    requires s != []
    ensures Mean(ToMs(s)) == 1000.0 * Mean(s)
  {
    SumScales(s);
  }

  lemma {:induction false} SumScales(s: seq<real>)
    ensures Sum(ToMs(s)) == 1000.0 * Sum(s)
  {
    if s != [] {
      assert ToMs(s)[1..] == ToMs(s[1..]);
      SumScales(s[1..]);
    }
  }

  // ---------------------------------------------------------------------
  // calculate_percentile

  /** `int(n * p / 100)`, the unclamped nearest rank of `calculate_percentile`. */
  function Rank(n: nat, p: real): (k: int)
    ensures p >= 0.0 ==> k >= 0
    ensures p >= -100.0 ==> k >= -(n as int)
    ensures p >= 100.0 ==> k >= n
    ensures p == 0.0 ==> k == 0
  {
    var x := n as real * p / 100.0;
    assert p >= 0.0 ==> x >= 0.0 by { NonNegativeProduct(n as real, p); }
    assert p >= -100.0 ==> x >= -(n as real) by { NonNegativeProduct(n as real, p + 100.0); }
    assert p >= 100.0 ==> x >= n as real by { NonNegativeProduct(n as real, p - 100.0); }
    Trunc(x)
  }

  lemma NonNegativeProduct(a: real, b: real)
    requires a >= 0.0
    ensures b >= 0.0 ==> a * b >= 0.0
  {
  }

  /** For a non-negative percentile the rank grows with the percentile. */
  lemma RankMonotone(n: nat, p: real, q: real)
    requires 0.0 <= p <= q
    ensures Rank(n, p) <= Rank(n, q)
  {
    var x, y := n as real * p / 100.0, n as real * q / 100.0;
    NonNegativeProduct(n as real, p);
    NonNegativeProduct(n as real, q - p);
    assert 0.0 <= x <= y;
  }

  /** `calculate_percentile`: nearest rank taken from a sorted copy and
      clamped to the last index. A float `p` is modelled as a real;
      Python's truncation and negative indexing are kept, so a percentile
      below -100 can fail with an IndexError. */
  function Percentile(latencies: seq<real>, p: real): (r: Result<real>)
    ensures latencies == [] ==> r == Ok(0.0)
    ensures p >= -100.0 ==> r.Ok?
    ensures latencies != [] && r.Ok? ==> r.value in latencies
  {
    if latencies == [] then Ok(0.0)
    else
      var sorted := Sort(latencies);
      assert forall x :: x in sorted <==> x in multiset(latencies);
      Index(sorted, Min(Rank(|sorted|, p), |sorted| - 1))
  }

  /** For a non-negative percentile the clamped rank is an index of the
      sorted copy, and the result is the element there. */
  lemma PercentileRank(latencies: seq<real>, p: real)
    requires latencies != [] && p >= 0.0
    ensures 0 <= Min(Rank(|latencies|, p), |latencies| - 1) < |latencies|
    ensures Percentile(latencies, p) == Ok(Sort(latencies)[Min(Rank(|latencies|, p), |latencies| - 1)])
  {
  }

  /** A larger percentile never picks a smaller latency. */
  lemma PercentileMonotone(latencies: seq<real>, p: real, q: real)
    requires 0.0 <= p <= q
    ensures Percentile(latencies, p).value <= Percentile(latencies, q).value
  {
    if latencies != [] {
      RankMonotone(|latencies|, p, q);
      PercentileRank(latencies, p);
      PercentileRank(latencies, q);
    }
  }

  /** Every percentile lies between the minimum and the maximum. */
  lemma PercentileWithinRange(latencies: seq<real>, p: real)
    requires latencies != [] && p >= -100.0
    ensures MinOf(latencies) <= Percentile(latencies, p).value <= MaxOf(latencies)
  {
    var v := Percentile(latencies, p).value;
    var k :| 0 <= k < |latencies| && latencies[k] == v;
  }

  /** The 0th percentile is the minimum. */
  lemma PercentileZeroIsMin(latencies: seq<real>)
    requires latencies != []
    ensures Percentile(latencies, 0.0) == Ok(MinOf(latencies))
  {
    var s := Sort(latencies);
    PercentileRank(latencies, 0.0);
    assert Rank(|latencies|, 0.0) == 0;
    assert Percentile(latencies, 0.0) == Ok(s[0]);
    var m := MinOf(latencies);
    SortMembers(latencies, m);
    SortMembers(latencies, s[0]);
    var k :| 0 <= k < |s| && s[k] == m;
    assert s[0] <= m;
    var j :| 0 <= j < |latencies| && latencies[j] == s[0];
    assert m <= s[0];
  }

  /** The 100th percentile, and any above it, is the maximum. */
  lemma PercentileFullIsMax(latencies: seq<real>, p: real)
    requires latencies != [] && p >= 100.0
    ensures Percentile(latencies, p) == Ok(MaxOf(latencies))
  {
    var s := Sort(latencies);
    var n := |s|;
    PercentileRank(latencies, p);
    assert Min(Rank(n, p), n - 1) == n - 1;
    assert Percentile(latencies, p) == Ok(s[n - 1]);
    var m := MaxOf(latencies);
    SortMembers(latencies, m);
    SortMembers(latencies, s[n - 1]);
    var k :| 0 <= k < n && s[k] == m;
    assert m <= s[n - 1];
    var j :| 0 <= j < |latencies| && latencies[j] == s[n - 1];
    assert s[n - 1] <= m;
  }

  lemma SortMembers(s: seq<real>, x: real)
    ensures x in Sort(s) <==> x in s
  {
    assert x in multiset(Sort(s)) <==> x in multiset(s);
  }

  /** `calculate_percentile` does not depend on the order of its input. */
  lemma PercentilePermutationInvariant(a: seq<real>, b: seq<real>, p: real)
    requires multiset(a) == multiset(b)
    ensures Percentile(a, p) == Percentile(b, p)
  {
    assert |a| == |b| by { assert |multiset(a)| == |a| && |multiset(b)| == |b|; }
    SortPermutationInvariant(a, b);
  }

  // ---------------------------------------------------------------------
  // calculate_metrics

  /** `jobs_count / duration if duration > 0 else 0` */
  function Throughput(jobsCount: int, duration: real): (r: real)
    ensures duration > 0.0 ==> r * duration == jobsCount as real
    ensures duration > 0.0 && jobsCount >= 0 ==> r >= 0.0
    ensures duration <= 0.0 ==> r == 0.0
  {
    if duration > 0.0 then jobsCount as real / duration else 0.0
  }

  /** `calculate_metrics`: the clock readings and the timestamp are inputs. */
  function CalculateMetrics(
    system: string, scenario: string, jobsCount: int,
    startTime: real, endTime: real, latencies: seq<real>, errors: int,
    timestamp: string): (r: BenchmarkResult)
    ensures r.system == system && r.scenario == scenario
    ensures r.jobsCount == jobsCount && r.errors == errors && r.timestamp == timestamp
    ensures r.durationSeconds == endTime - startTime
    ensures r.throughputPerSecond == Throughput(jobsCount, endTime - startTime)
    ensures latencies == [] ==>
      r.latencyP50Ms == r.latencyP95Ms == r.latencyP99Ms == 0.0 &&
      r.latencyAvgMs == r.latencyMinMs == r.latencyMaxMs == 0.0
  {
    var duration := endTime - startTime;
    var ms := ToMs(latencies);
    BenchmarkResult(
      system, scenario, jobsCount, duration, Throughput(jobsCount, duration),
      Percentile(ms, 50.0).value,
      Percentile(ms, 95.0).value,
      Percentile(ms, 99.0).value,
      if ms != [] then Mean(ms) else 0.0,
      if ms != [] then MinOf(ms) else 0.0,
      if ms != [] then MaxOf(ms) else 0.0,
      errors, timestamp)
  }

  /** On a non-empty run: min <= p50 <= p95 <= p99 <= max and min <= avg <= max,
      all in milliseconds of the measured seconds. */
  lemma MetricsOrdered(
    system: string, scenario: string, jobsCount: int,
    startTime: real, endTime: real, latencies: seq<real>, errors: int,
    timestamp: string)
    requires latencies != []
    ensures var r := CalculateMetrics(system, scenario, jobsCount, startTime, endTime, latencies, errors, timestamp);
      && r.latencyMinMs == 1000.0 * MinOf(latencies)
      && r.latencyMaxMs == 1000.0 * MaxOf(latencies)
      && r.latencyMinMs <= r.latencyP50Ms <= r.latencyP95Ms <= r.latencyP99Ms <= r.latencyMaxMs
      && r.latencyMinMs <= r.latencyAvgMs <= r.latencyMaxMs
  {
    var ms := ToMs(latencies);
    ToMsMin(latencies);
    ToMsMax(latencies);
    PercentileWithinRange(ms, 50.0);
    PercentileWithinRange(ms, 99.0);
    PercentileMonotone(ms, 50.0, 95.0);
    PercentileMonotone(ms, 95.0, 99.0);
    MeanBounds(ms);
  }

  /** Aggregation is order-independent: any permutation of the latencies
      gives the same record. */
  lemma MetricsPermutationInvariant(
    system: string, scenario: string, jobsCount: int,
    startTime: real, endTime: real, a: seq<real>, b: seq<real>, errors: int,
    timestamp: string)
    requires multiset(a) == multiset(b)
    ensures CalculateMetrics(system, scenario, jobsCount, startTime, endTime, a, errors, timestamp)
         == CalculateMetrics(system, scenario, jobsCount, startTime, endTime, b, errors, timestamp)
  {
    assert |a| == |b| by { assert |multiset(a)| == |a| && |multiset(b)| == |b|; }
    ToMsPermutation(a, b);
    var ma, mb := ToMs(a), ToMs(b);
    PercentilePermutationInvariant(ma, mb, 50.0);
    PercentilePermutationInvariant(ma, mb, 95.0);
    PercentilePermutationInvariant(ma, mb, 99.0);
    if a != [] {
      MinMaxPermutationInvariant(ma, mb);
      SumPermutationInvariant(ma, mb);
    }
  }
}
