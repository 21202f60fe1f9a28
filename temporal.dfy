/** `scripts/benchmark_temporal.py`: workflows are started one per job,
    the `(latency, success)` pairs `asyncio.gather` returns are split into
    the latencies of the successful starts and a failure count, and the
    sorted latencies are indexed at p50, p95 and p99, with an all-zero
    result when no workflow started. The Temporal client, the semaphore
    and the clock are not modelled: the outcome of every start is an
    input, in job order, as `gather` returns them. */
module Temporal {
  import opened Runtime
  import opened Sorting
  import Ranks

  /** `TemporalBenchmarkResult`; its defaults are all zero, system "temporal". */
  datatype TemporalResult = TemporalResult(
    system: string,
    jobCount: int,
    totalTimeSeconds: real,
    throughputPerSecond: real,
    latencyP50Ms: real,
    latencyP95Ms: real,
    latencyP99Ms: real,
    errors: int)

  /** The pair `submit_workflow` returns: ms taken and whether the start succeeded. */
  datatype WorkflowOutcome = WorkflowOutcome(latencyMs: real, success: bool)

  /** `submit_workflow`. `start` and `end` are the `perf_counter` readings
      around `start_workflow`; `startFails` whether it raised. A failed
      start is reported with latency 0.0 instead of its elapsed time. */
  function SubmitWorkflow(start: real, end: real, startFails: bool): (o: WorkflowOutcome)
    ensures o.success <==> !startFails
    ensures o.success ==> o.latencyMs == (end - start) * 1000.0
    ensures !o.success ==> o.latencyMs == 0.0
  {
    if startFails then WorkflowOutcome(0.0, false) else WorkflowOutcome((end - start) * 1000.0, true)
  }

  /** The number of warmup submissions, `min(100, job_count // 10)`: a
      tenth of the jobs, rounded down, and never more than 100. */
  function WarmupCount(jobCount: nat): (w: nat)
    ensures w <= 100 && w * 10 <= jobCount
    ensures w == 100 || jobCount < (w + 1) * 10
  {
    Min(100, jobCount / 10)
  }

  // ---------------------------------------------------------------------
  // collecting the results

  /** The latencies of the successful starts, in job order. */
  function Successes(results: seq<WorkflowOutcome>): (lat: seq<real>)
    ensures |lat| <= |results|
  {
    if results == [] then []
    else
      var last := results[|results| - 1];
      Successes(results[..|results| - 1]) + (if last.success then [last.latencyMs] else [])
  }

  /** The number of failed starts. */
  function CountFailures(results: seq<WorkflowOutcome>): (c: nat)
    ensures c <= |results|
  {
    if results == [] then 0
    else CountFailures(results[..|results| - 1]) + (if results[|results| - 1].success then 0 else 1)
  }

  /** Every result goes to exactly one place: `len(latencies) + errors == job_count`. */
  lemma {:induction false} ResultsPartition(results: seq<WorkflowOutcome>)
    ensures |Successes(results)| + CountFailures(results) == |results|
  {
    if results != [] {
      ResultsPartition(results[..|results| - 1]);
    }
  }

  /** Each collected latency is the latency of a successful start, so the
      0.0 of a failed start never enters the list. */
  lemma {:induction false} SuccessesFromSuccesses(results: seq<WorkflowOutcome>, k: nat)
    requires k < |Successes(results)|
    ensures exists i :: 0 <= i < |results| && results[i].success && Successes(results)[k] == results[i].latencyMs
  {
    var init := results[..|results| - 1];
    var last := results[|results| - 1];
    if k < |Successes(init)| {
      SuccessesFromSuccesses(init, k);
      var i :| 0 <= i < |init| && init[i].success && Successes(init)[k] == init[i].latencyMs;
      assert results[i] == init[i];
    } else {
      assert results[|results| - 1] == last;
    }
  }

  /** No successful start gives no latencies, and then every job is an error. */
  lemma {:induction false} NoSuccesses(results: seq<WorkflowOutcome>)
    ensures Successes(results) == [] <==> forall i :: 0 <= i < |results| ==> !results[i].success
    ensures Successes(results) == [] ==> CountFailures(results) == |results|
  {
    ResultsPartition(results);
    if results != [] {
      var init := results[..|results| - 1];
      NoSuccesses(init);
      assert forall i :: 0 <= i < |init| ==> init[i] == results[i];
    }
  }

  /** The collection loop of `run_benchmark`. */
  method CollectResults(results: seq<WorkflowOutcome>) returns (latencies: seq<real>, errors: nat)
    ensures latencies == Successes(results)
    ensures errors == CountFailures(results)
  {
    latencies, errors := [], 0;
    for i := 0 to |results|
      invariant latencies == Successes(results[..i])
      invariant errors == CountFailures(results[..i])
    {
      assert results[..i + 1][..i] == results[..i];
      var o := results[i];
      if o.success {
        latencies := latencies + [o.latencyMs];
      } else {
        errors := errors + 1;
      }
    }
    assert results[..|results|] == results;
  }

  // ---------------------------------------------------------------------
  // run_benchmark

  /** `run_benchmark`. `results` are the outcomes in job order; `totalTime`
      is the elapsed time of the whole run. With no successful start the
      default record carries only the job count and the errors; otherwise
      the throughput fails on a zero duration. */
  method RunBenchmark(jobCount: nat, results: seq<WorkflowOutcome>, totalTime: real)
    returns (r: Result<TemporalResult>)
    requires |results| == jobCount
    ensures Successes(results) == [] ==>
      r == Ok(TemporalResult("temporal", jobCount, 0.0, 0.0, 0.0, 0.0, 0.0, CountFailures(results)))
    ensures Successes(results) != [] && totalTime == 0.0 ==> r == Err(ZeroDivisionError)
    ensures Successes(results) != [] && totalTime != 0.0 ==>
      var picks := Ranks.Pick(Sort(Successes(results)));
      picks.Ok? && r.Ok? &&
      r.value == TemporalResult("temporal", jobCount, totalTime, jobCount as real / totalTime,
        picks.value.p50, picks.value.p95, picks.value.p99, CountFailures(results))
    ensures r.Ok? ==> 0 <= r.value.errors <= jobCount
    ensures r.Ok? ==> r.value.latencyP50Ms <= r.value.latencyP95Ms <= r.value.latencyP99Ms
  {
    var latencies, errors := CollectResults(results);
    if latencies != [] {
      latencies := Sort(latencies);
      if totalTime == 0.0 {
        return Err(ZeroDivisionError);
      }
      var picks := Ranks.Pick(latencies);
      r := Ok(TemporalResult("temporal", jobCount, totalTime, jobCount as real / totalTime,
        picks.value.p50, picks.value.p95, picks.value.p99, errors));
    } else {
      r := Ok(TemporalResult("temporal", jobCount, 0.0, 0.0, 0.0, 0.0, 0.0, errors));
    }
  }
}
