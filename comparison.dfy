/** `generate_comparison` of `scripts/run_all_benchmarks.py`: the list of
    results is kept as it is, and a summary groups each result's
    throughput and p99 latency under the key `scenario_jobscount` and then
    under its system. The results are the records of
    `scripts/benchmark_common.py`; the `generated_at` clock text is an input. */
module Comparison {
  import opened Runtime
  import Stats

  /** `{"throughput": ..., "latency_p99": ...}` */
  datatype SystemSummary = SystemSummary(throughput: real, latencyP99: real)

  type Summary = map<string, map<string, SystemSummary>>

  /** The comparison dictionary. */
  datatype Report = Report(generatedAt: string, benchmarks: seq<Stats.BenchmarkResult>, summary: Summary)

  /** `f"{result['scenario']}_{result['jobs_count']}"` */
  function SummaryKey(r: Stats.BenchmarkResult): string {
    r.scenario + "_" + IntToString(r.jobsCount)
  }

  function Entry(r: Stats.BenchmarkResult): SystemSummary {
    SystemSummary(r.throughputPerSecond, r.latencyP99Ms)
  }

  /** The position of the last `_` of `s`, or -1. */
  function LastSeparator(s: string): (p: int)
    ensures -1 <= p < |s|
    ensures p >= 0 ==> s[p] == '_'
  {
    if s == [] then -1
    else if s[|s| - 1] == '_' then |s| - 1
    else LastSeparator(s[..|s| - 1])
  }

  /** In `s + "_" + t` with no `_` in `t`, the last `_` is the one after `s`. */
  lemma {:induction false} LastSeparatorOfKey(s: string, t: string)
    requires forall k :: 0 <= k < |t| ==> t[k] != '_'
    ensures LastSeparator(s + "_" + t) == |s|
  {
    if t != [] {
      var init := t[..|t| - 1];
      assert (s + "_" + t)[..|s + "_" + t| - 1] == s + "_" + init;
      LastSeparatorOfKey(s, init);
    }
  }

  /** Two results share a key exactly when they share scenario and job
      count: the decimal text of a count holds no `_`, so the last `_`
      of a key separates its two parts. */
  lemma SummaryKeyInjective(a: Stats.BenchmarkResult, b: Stats.BenchmarkResult)
    ensures SummaryKey(a) == SummaryKey(b) <==> a.scenario == b.scenario && a.jobsCount == b.jobsCount
  {
    if SummaryKey(a) == SummaryKey(b) {
      var ta, tb := IntToString(a.jobsCount), IntToString(b.jobsCount);
      var key := SummaryKey(a);
      LastSeparatorOfKey(a.scenario, ta);
      LastSeparatorOfKey(b.scenario, tb);
      assert a.scenario == key[..|a.scenario|] == b.scenario;
      assert ta == key[|a.scenario| + 1..] == tb;
      IntToStringRoundTrip(a.jobsCount);
      IntToStringRoundTrip(b.jobsCount);
    }
  }

  /** The summary after the first results: each result writes its entry
      under its key and system, creating the key's group on first use. */
  function Grouped(results: seq<Stats.BenchmarkResult>): (summary: Summary)
    ensures forall key :: key in summary ==> summary[key] != map[]
  {
    if results == [] then map[]
    else
      var s := Grouped(results[..|results| - 1]);
      var r := results[|results| - 1];
      var key := SummaryKey(r);
      var group := if key in s then s[key] else map[];
      var g := group[r.system := Entry(r)];
      assert r.system in g;
      s[key := g]
  }

  /** The keys of the results, in order. */
  function Keys(results: seq<Stats.BenchmarkResult>): (keys: seq<string>)
    ensures |keys| == |results|
    ensures forall i :: 0 <= i < |results| ==> keys[i] == SummaryKey(results[i])
  {
    seq(|results|, i requires 0 <= i < |results| => SummaryKey(results[i]))
  }

  /** The key and system pairs the results write, in order. */
  function Slots(results: seq<Stats.BenchmarkResult>): (slots: seq<(string, string)>)
    ensures |slots| == |results|
    ensures forall i :: 0 <= i < |results| ==> slots[i] == (SummaryKey(results[i]), results[i].system)
  {
    seq(|results|, i requires 0 <= i < |results| => (SummaryKey(results[i]), results[i].system))
  }

  lemma KeysSnoc(results: seq<Stats.BenchmarkResult>)
    requires results != []
    ensures Keys(results) == Keys(results[..|results| - 1]) + [SummaryKey(results[|results| - 1])]
  {
    var init := results[..|results| - 1];
    forall i | 0 <= i < |init| ensures Keys(results)[i] == Keys(init)[i] {
      assert results[i] == init[i];
    }
  }

  lemma SlotsSnoc(results: seq<Stats.BenchmarkResult>)
    requires results != []
    ensures Slots(results) == Slots(results[..|results| - 1]) + [(SummaryKey(results[|results| - 1]), results[|results| - 1].system)]
  {
    var init := results[..|results| - 1];
    forall i | 0 <= i < |init| ensures Slots(results)[i] == Slots(init)[i] {
      assert results[i] == init[i];
    }
  }

  /** A key is in the summary exactly when some result has that key. */
  lemma {:induction false} GroupedKeys(results: seq<Stats.BenchmarkResult>, key: string)
    ensures key in Grouped(results) <==> key in Keys(results)
  {
    if results != [] {
      GroupedKeys(results[..|results| - 1], key);
      KeysSnoc(results);
    }
  }

  /** Under each key sit exactly the systems of the results with that key. */
  lemma {:induction false} GroupedSystems(results: seq<Stats.BenchmarkResult>, key: string, system: string)
    requires key in Grouped(results)
    ensures system in Grouped(results)[key] <==> (key, system) in Slots(results)
  {
    var init := results[..|results| - 1];
    var last := results[|results| - 1];
    SlotsSnoc(results);
    if key == SummaryKey(last) && system == last.system {
    } else {
      GroupedStep(results, key, system);
      if key in Grouped(init) {
        GroupedSystems(init, key, system);
      } else {
        GroupedKeys(init, key);
        assert (key, system) !in Slots(init);
      }
    }
  }

  /** The last result touches only its own key and system. */
  lemma {:induction false} GroupedStep(results: seq<Stats.BenchmarkResult>, key: string, system: string)
    requires results != [] && key in Grouped(results)
    requires key != SummaryKey(results[|results| - 1]) || system != results[|results| - 1].system
    ensures system in Grouped(results)[key] <==>
      (key in Grouped(results[..|results| - 1]) && system in Grouped(results[..|results| - 1])[key])
  {
  }

  /** A result's entry survives unless a later result with the same key
      and system overwrites it: the last write wins. */
  lemma {:induction false} LastWriteWins(results: seq<Stats.BenchmarkResult>, i: nat)
    requires i < |results|
    requires forall j :: i < j < |results| ==>
      SummaryKey(results[j]) != SummaryKey(results[i]) || results[j].system != results[i].system
    ensures SummaryKey(results[i]) in Grouped(results)
    ensures results[i].system in Grouped(results)[SummaryKey(results[i])]
    ensures Grouped(results)[SummaryKey(results[i])][results[i].system] == Entry(results[i])
  {
    if i < |results| - 1 {
      var init := results[..|results| - 1];
      assert init[i] == results[i];
      LastWriteWins(init, i);
    }
  }

  /** One pass of the loop of `generate_comparison`: create the result's
      group on first use of its key, then write its entry under its system. */
  method AddResult(summary: Summary, results: seq<Stats.BenchmarkResult>, result: Stats.BenchmarkResult)
    returns (summary': Summary)
    requires summary == Grouped(results)
    ensures summary' == Grouped(results + [result])
  {
    assert (results + [result])[..|results|] == results;
    var key := SummaryKey(result);
    summary' := summary;
    if key !in summary' {
      summary' := summary'[key := map[]];
    }
    summary' := summary'[key := summary'[key][result.system := SystemSummary(result.throughputPerSecond, result.latencyP99Ms)]];
  }

  /** `generate_comparison`. */
  method GenerateComparison(allResults: seq<Stats.BenchmarkResult>, generatedAt: string) returns (c: Report)
    ensures c.generatedAt == generatedAt
    ensures c.benchmarks == allResults
    ensures c.summary == Grouped(allResults)
  {
    var summary: Summary := map[];
    for i := 0 to |allResults|
      invariant summary == Grouped(allResults[..i])
    {
      assert allResults[..i + 1] == allResults[..i] + [allResults[i]];
      summary := AddResult(summary, allResults[..i], allResults[i]);
    }
    assert allResults[..|allResults|] == allResults;
    c := Report(generatedAt, allResults, summary);
  }
}
