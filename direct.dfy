/** `scripts/benchmark_runqy_direct.py`: every job is submitted on its own
    pipeline (`submit_task_direct`), the `(latency, error)` pairs are folded
    in completion order into a latency list and an error count, and the
    sorted list, scaled to ms, is indexed at p50, p95 and p99. The thread
    pool is not modelled: the completion order is an input, any order of
    the submitted jobs, and the result is shown not to depend on it. */
module Direct {
  import opened Runtime
  import opened Sorting
  import opened Asynq
  import Stats
  import Ranks

  const QueueName: string := "benchmark.default"

  /** The runner's own `BenchmarkResult` record. */
  datatype DirectResult = DirectResult(
    system: string,
    jobCount: int,
    totalTimeSeconds: real,
    throughputPerSecond: real,
    latencyP50Ms: real,
    latencyP95Ms: real,
    latencyP99Ms: real,
    errors: int)

  /** The pair `submit_task_direct` returns: seconds taken, and `None` or
      the text of the exception it caught. */
  datatype Outcome = Outcome(latency: real, error: Option<string>)

  // ---------------------------------------------------------------------
  // submit_task_direct

  /** `submit_task_direct`. `start` and `end` are the `perf_counter`
      readings around the submission, `fault` the message of the exception
      the pipeline raised, if any. The function is total: a failure comes
      back as an outcome, never as an exception. The commands are the ones
      queued on the job's pipeline. */
  function SubmitTaskDirect(taskId: string, jobId: int, queue: string, timestamp: real, now: real,
                            start: real, end: real, fault: Option<string>): (res: (Outcome, seq<Command>))
    ensures res.0.latency == end - start
    ensures res.0.error.None? <==> fault.None?
    ensures fault.Some? ==> res.0.error == fault
    ensures |res.1| == 3
    ensures res.1[0] == LPush(PendingKey(queue), CreateAsynqTask(taskId, queue, JobPayload(jobId, "simple", timestamp), now))
    ensures res.1[1].HSet? && res.1[1].key == TaskKey(taskId) && res.1[1].meta.state == "pending"
    ensures res.1[2] == SAdd(QueuesKey, queue)
  {
    var cmds := EnqueueCommands(taskId, queue, JobPayload(jobId, "simple", timestamp), now) + [SAdd(QueuesKey, queue)];
    (Outcome(end - start, fault), cmds)
  }

  /** The three commands of one job write three different keys, and the
      pending key names the job's own queue. */
  lemma SubmitKeys(taskId: string, jobId: int, queue: string, timestamp: real, now: real,
                   start: real, end: real, fault: Option<string>)
    ensures var cmds := SubmitTaskDirect(taskId, jobId, queue, timestamp, now, start, end, fault).1;
      QueueOfPendingKey(cmds[0].key) == Some(queue)
      && cmds[0].key != cmds[1].key && cmds[0].key != cmds[2].key && cmds[1].key != cmds[2].key
  {
    PendingKeyRoundTrip(queue, PendingKey(queue));
    KeysDistinct(queue, taskId);
  }

  // ---------------------------------------------------------------------
  // collecting the outcomes

  /** One latency per outcome, in completion order. */
  function Latencies(outcomes: seq<Outcome>): (lat: seq<real>)
    ensures |lat| == |outcomes|
  {
    if outcomes == [] then [] else [outcomes[0].latency] + Latencies(outcomes[1..])
  }

  lemma {:induction false} LatenciesAt(outcomes: seq<Outcome>, i: nat)
    requires i < |outcomes|
    ensures Latencies(outcomes)[i] == outcomes[i].latency
  {
    if i > 0 {
      LatenciesAt(outcomes[1..], i - 1);
    }
  }

  /** An outcome is a failure when it carries an error message. */
  predicate Failed(o: Outcome) {
    o.error.Some?
  }

  /** Python truthiness of the `error` value: `None` and the empty string
      are false. */
  predicate Truthy(e: Option<string>) {
    e.Some? && e.value != ""
  }

  /** Whether an outcome adds an error: with `emptyCounts` every failure
      (`error is not None`), without it only a failure whose text is not
      empty (`if error:`). */
  predicate Counted(o: Outcome, emptyCounts: bool) {
    if emptyCounts then Failed(o) else Truthy(o.error)
  }

  /** The number of outcomes that add an error. */
  function Count(outcomes: seq<Outcome>, emptyCounts: bool): (c: nat)
    ensures c <= |outcomes|
  {
    if outcomes == [] then 0
    else (if Counted(outcomes[0], emptyCounts) then 1 else 0) + Count(outcomes[1..], emptyCounts)
  }

  /** The number of failed outcomes. */
  function CountFailed(outcomes: seq<Outcome>): (c: nat)
    ensures c <= |outcomes|
  {
    Count(outcomes, true)
  }

  /** The errors that `if error: errors += 1` counts. */
  function CountTruthy(outcomes: seq<Outcome>): (c: nat)
    ensures c <= |outcomes|
  {
    Count(outcomes, false)
  }

  lemma {:induction false} CountConcat(a: seq<Outcome>, b: seq<Outcome>, emptyCounts: bool)
    ensures Count(a + b, emptyCounts) == Count(a, emptyCounts) + Count(b, emptyCounts)
  {
    if a == [] {
      assert a + b == b;
    } else {
      assert (a + b)[1..] == a[1..] + b;
      CountConcat(a[1..], b, emptyCounts);
    }
  }

  /** No failure counts zero errors, all failures count every outcome,
      and a single outcome counts one exactly when it failed. */
  lemma {:induction false} CountFailedExtremes(outcomes: seq<Outcome>)
    ensures (forall i :: 0 <= i < |outcomes| ==> !Failed(outcomes[i])) <==> CountFailed(outcomes) == 0
    ensures (forall i :: 0 <= i < |outcomes| ==> Failed(outcomes[i])) <==> CountFailed(outcomes) == |outcomes|
  {
    if outcomes != [] {
      CountFailedExtremes(outcomes[1..]);
      assert forall i :: 1 <= i < |outcomes| ==> outcomes[i] == outcomes[1..][i - 1];
    }
  }

  lemma {:induction false} LatenciesConcat(a: seq<Outcome>, b: seq<Outcome>)
    ensures Latencies(a + b) == Latencies(a) + Latencies(b)
  {
    if a == [] {
      assert a + b == b;
    } else {
      assert (a + b)[1..] == a[1..] + b;
      LatenciesConcat(a[1..], b);
    }
  }

  lemma SplitAt(b: seq<Outcome>, j: nat)
    requires j < |b|
    ensures b == b[..j] + [b[j]] + b[j + 1..]
  {
  }

  /** Taking out the element at `j` leaves the rest of the multiset and of
      the error count. */
  lemma RemoveAt(b: seq<Outcome>, j: nat, emptyCounts: bool)
    requires j < |b|
    ensures multiset(b[..j] + b[j + 1..]) == multiset(b) - multiset{b[j]}
    ensures Count(b, emptyCounts) == Count(b[..j] + b[j + 1..], emptyCounts) + (if Counted(b[j], emptyCounts) then 1 else 0)
  {
    SplitAt(b, j);
    assert multiset(b) == multiset(b[..j]) + multiset{b[j]} + multiset(b[j + 1..]);
    CountConcat(b[..j] + [b[j]], b[j + 1..], emptyCounts);
    CountConcat(b[..j], [b[j]], emptyCounts);
    CountConcat(b[..j], b[j + 1..], emptyCounts);
  }

  /** ... and of the latencies. */
  lemma LatenciesRemoveAt(b: seq<Outcome>, j: nat)
    requires j < |b|
    ensures multiset(Latencies(b)) == multiset(Latencies(b[..j] + b[j + 1..])) + multiset{b[j].latency}
  {
    SplitAt(b, j);
    LatenciesConcat(b[..j] + [b[j]], b[j + 1..]);
    LatenciesConcat(b[..j], [b[j]]);
    LatenciesConcat(b[..j], b[j + 1..]);
    assert Latencies([b[j]]) == [b[j].latency];
  }

  /** Neither error count depends on the order the outcomes completed in. */
  lemma {:induction false} CountPermutation(a: seq<Outcome>, b: seq<Outcome>, emptyCounts: bool)
    requires multiset(a) == multiset(b)
    ensures Count(a, emptyCounts) == Count(b, emptyCounts)
  {
    if a == [] {
      assert |b| == 0 by { assert |multiset(b)| == |b|; }
    } else {
      assert a[0] in multiset(b);
      var j :| 0 <= j < |b| && b[j] == a[0];
      RemoveAt(b, j, emptyCounts);
      MultisetTail(a);
      CountPermutation(a[1..], b[..j] + b[j + 1..], emptyCounts);
    }
  }

  /** Neither does the multiset of latencies. */
  lemma {:induction false} LatenciesPermutation(a: seq<Outcome>, b: seq<Outcome>)
    requires multiset(a) == multiset(b)
    ensures multiset(Latencies(a)) == multiset(Latencies(b))
  {
    if a == [] {
      assert |b| == 0 by { assert |multiset(b)| == |b|; }
    } else {
      assert a[0] in multiset(b);
      var j :| 0 <= j < |b| && b[j] == a[0];
      RemoveAt(b, j, true);
      LatenciesRemoveAt(b, j);
      MultisetTail(a);
      LatenciesPermutation(a[1..], b[..j] + b[j + 1..]);
    }
  }

  /** The collection loop of `benchmark_runqy_direct`: each completed job
      appends its latency, failed or not, and an error whose text is not
      empty adds one error. */
  method CollectOutcomes(completed: seq<Outcome>) returns (latencies: seq<real>, errors: nat)
    ensures latencies == Latencies(completed)
    ensures errors == CountTruthy(completed)
    ensures errors <= CountFailed(completed)
    ensures (forall i :: 0 <= i < |completed| ==> completed[i].error != Some("")) ==> errors == CountFailed(completed)
  {
    TruthyUndercounts(completed);
    latencies, errors := [], 0;
    for i := 0 to |completed|
      invariant latencies == Latencies(completed[..i])
      invariant errors == CountTruthy(completed[..i])
    {
      var o := completed[i];
      assert completed[..i + 1] == completed[..i] + [o];
      CountConcat(completed[..i], [o], false);
      LatenciesConcat(completed[..i], [o]);
      latencies := latencies + [o.latency];
      if Truthy(o.error) {
        errors := errors + 1;
      }
    }
    assert completed[..|completed|] == completed;
  }

  // ---------------------------------------------------------------------
  // benchmark_runqy_direct

  /** The ms latency list that is indexed: sorted, then scaled. */
  function SortedMs(completed: seq<Outcome>): (ms: seq<real>)
    ensures |ms| == |completed|
    ensures IsSorted(ms)
  {
    Stats.ToMsScales(Sort(Latencies(completed)));
    Stats.ToMs(Sort(Latencies(completed)))
  }

  /** Every value of the indexed list is the latency of one of the jobs, in ms. */
  lemma SortedMsFromOutcomes(completed: seq<Outcome>, v: real)
    requires v in SortedMs(completed)
    ensures exists i :: 0 <= i < |completed| && v == completed[i].latency * 1000.0
  {
    var s := Sort(Latencies(completed));
    var k :| 0 <= k < |s| && SortedMs(completed)[k] == v;
    assert s[k] in multiset(s);
    var i :| 0 <= i < |completed| && Latencies(completed)[i] == s[k];
    LatenciesAt(completed, i);
  }

  /** The indexed list and the error count depend only on which outcomes
      completed, not on when. */
  lemma SortedMsPermutation(a: seq<Outcome>, b: seq<Outcome>)
    requires multiset(a) == multiset(b)
    ensures SortedMs(a) == SortedMs(b) && CountTruthy(a) == CountTruthy(b)
  {
    CountPermutation(a, b, false);
    LatenciesPermutation(a, b);
    SortPermutationInvariant(Latencies(a), Latencies(b));
  }

  /** `benchmark_runqy_direct`. `completed` are the outcomes in the order
      `as_completed` yields them, one per submitted job; `totalTime` is
      `end_time - start_time`. The result record fails on its throughput
      (zero duration) before it fails on its p50 pick (no jobs). */
  method BenchmarkRunqyDirect(jobsCount: nat, completed: seq<Outcome>, totalTime: real)
    returns (r: Result<DirectResult>)
    requires |completed| == jobsCount
    ensures totalTime == 0.0 ==> r == Err(ZeroDivisionError)
    ensures totalTime != 0.0 && jobsCount == 0 ==> r == Err(IndexError)
    ensures totalTime != 0.0 && jobsCount >= 1 ==>
      var picks := Ranks.Pick(SortedMs(completed));
      picks.Ok? && r.Ok? &&
      r.value == DirectResult("runqy", jobsCount, totalTime, jobsCount as real / totalTime,
        picks.value.p50, picks.value.p95, picks.value.p99, CountTruthy(completed))
    ensures r.Ok? ==> 0 <= r.value.errors <= r.value.jobCount
    ensures r.Ok? ==> r.value.latencyP50Ms <= r.value.latencyP95Ms <= r.value.latencyP99Ms
    ensures r.Ok? ==>
      (r.value.latencyP50Ms in SortedMs(completed) && r.value.latencyP95Ms in SortedMs(completed)
       && r.value.latencyP99Ms in SortedMs(completed))
  {
    var latencies, errors := CollectOutcomes(completed);
    latencies := Sort(latencies);
    var latenciesMs := Stats.ToMs(latencies);
    if totalTime == 0.0 {
      return Err(ZeroDivisionError);
    }
    var throughput := jobsCount as real / totalTime;
    var picks := Ranks.Pick(latenciesMs);
    if picks.Err? {
      return Err(picks.fault);
    }
    r := Ok(DirectResult("runqy", jobsCount, totalTime, throughput,
      picks.value.p50, picks.value.p95, picks.value.p99, errors));
  }

  // ---------------------------------------------------------------------
  // the error test as written, against every failure

  /** The truthiness test never overcounts, and it undercounts exactly when
      some exception had an empty message. */
  lemma {:induction false} TruthyUndercounts(outcomes: seq<Outcome>)
    ensures CountTruthy(outcomes) <= CountFailed(outcomes)
    ensures CountTruthy(outcomes) == CountFailed(outcomes)
        <==> forall i :: 0 <= i < |outcomes| ==> outcomes[i].error != Some("")
  {
    if outcomes != [] {
      TruthyUndercounts(outcomes[1..]);
      assert forall i :: 1 <= i < |outcomes| ==> outcomes[i] == outcomes[1..][i - 1];
    }
  }

  /** A job whose exception has an empty text (`str(e) == ""`) failed but
      is not counted as an error. */
  lemma EmptyMessageNotCounted()
    ensures var completed := [Outcome(0.001, Some(""))];
      CountTruthy(completed) == 0 && CountFailed(completed) == 1
  {
    var completed := [Outcome(0.001, Some(""))];
    assert completed[1..] == [];
  }
}
