/** The percentile picks that the runner scripts make inline on their own
    sorted lists (`int(n * 0.50)`, `int(n * 0.95)`, and `int(n * 0.99)`
    clamped to `n - 1`), and their agreement with `calculate_percentile`. */
module Ranks {
  import opened Runtime
  import opened Sorting
  import Stats

  /** `int(n * pct / 100)` for a whole percentage; the source writes
      `int(n * 0.95)` on floats, modelled here as exact integer arithmetic. */
  function RankIndex(n: nat, pct: nat): (k: nat)
    ensures k * 100 <= n * pct < (k + 1) * 100
    ensures pct < 100 && n >= 1 ==> k < n
  {
    n * pct / 100
  }

  datatype Percentiles = Percentiles(p50: real, p95: real, p99: real)

  /** The three picks, in the order the result record evaluates them:
      p50 and p95 unclamped, p99 clamped to the last index. An empty list
      fails on the p50 pick. */
  function Pick(sorted: seq<real>): (r: Result<Percentiles>)
    ensures r.Ok? <==> sorted != []
    ensures r.Err? ==> r.fault == IndexError
    ensures r.Ok? ==> r.value.p50 in sorted && r.value.p95 in sorted && r.value.p99 in sorted
    ensures r.Ok? && IsSorted(sorted) ==> r.value.p50 <= r.value.p95 <= r.value.p99
  {
    var n := |sorted|;
    var i50, i95, i99 := RankIndex(n, 50), RankIndex(n, 95), Min(RankIndex(n, 99), n - 1);
    assert n >= 1 ==> i50 <= i95 <= i99;
    match Index(sorted, i50)
    case Err(f) => Err(f)
    case Ok(p50) =>
      match Index(sorted, i95)
      case Err(f) => Err(f)
      case Ok(p95) =>
        match Index(sorted, i99)
        case Err(f) => Err(f)
        case Ok(p99) => Ok(Percentiles(p50, p95, p99))
  }

  /** The float rank of `calculate_percentile` at a whole percentage is the
      integer rank the scripts use. */
  lemma RankAgrees(n: nat, pct: nat)
    ensures Stats.Rank(n, pct as real) == RankIndex(n, pct)
  {
    var k := RankIndex(n, pct);
    var m := (n * pct) as real;
    var x := n as real * pct as real / 100.0;
    assert m == n as real * pct as real;
    assert x == m / 100.0;
    assert k as real * 100.0 <= m < (k + 1) as real * 100.0;
    assert k as real <= x < k as real + 1.0;
  }

  /** On a non-empty sorted list the scripts' inline picks are exactly
      `calculate_percentile` at 50, 95 and 99. */
  lemma PickAgreesWithPercentile(sorted: seq<real>)
    requires sorted != [] && IsSorted(sorted)
    ensures Pick(sorted) == Ok(Percentiles(
      Stats.Percentile(sorted, 50.0).value,
      Stats.Percentile(sorted, 95.0).value,
      Stats.Percentile(sorted, 99.0).value))
  {
    var n := |sorted|;
    SortOfSorted(sorted);
    RankAgrees(n, 50);
    RankAgrees(n, 95);
    RankAgrees(n, 99);
    Stats.PercentileRank(sorted, 50.0);
    Stats.PercentileRank(sorted, 95.0);
    Stats.PercentileRank(sorted, 99.0);
  }
}
