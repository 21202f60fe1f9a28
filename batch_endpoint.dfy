/** `scripts/benchmark_batch_endpoint.py`: the jobs are pre-generated,
    cut into slices of `batch_size`, and each slice is handed to a
    simulation of the batch endpoint, which queues two commands per job it
    accepts on one pipeline, registers the queue and executes the
    pipeline. The uuid of each job, whether its preparation raised, the
    outcome of each `execute()` and the clock readings are inputs. */
module BatchEndpoint {
  import opened Runtime
  import opened Batches
  import opened Asynq

  const QueueName: string := "benchmark.default"
  const DefaultBatchSize: nat := 100

  /** The runner's own `BenchmarkResult` record. */
  datatype BatchResult = BatchResult(
    system: string,
    jobCount: int,
    totalTimeSeconds: real,
    throughputPerSecond: real,
    batchSize: int,
    optimization: string)

  /** What happened to one job inside the endpoint: the uuid it was given,
      and the text of the exception its preparation raised, if any. */
  datatype JobRun = JobRun(taskId: string, fault: Option<string>)

  /** The dictionary `simulate_batch_endpoint` returns. */
  datatype Response = Response(enqueued: int, failed: int, taskIds: seq<string>, processingTimeMs: real)

  /** What happened to one request: its jobs, whether `pipe.execute()`
      raised, the endpoint's own processing time and the time the caller
      measured around it, both in seconds. */
  datatype RequestRun = RequestRun(runs: seq<JobRun>, executeFails: bool,
                                   processingSeconds: real, requestSeconds: real)

  // ---------------------------------------------------------------------
  // simulate_batch_endpoint

  /** The task ids of the accepted jobs, in order. */
  function AcceptedIds(runs: seq<JobRun>): (ids: seq<string>)
    ensures |ids| <= |runs|
  {
    if runs == [] then []
    else
      var last := runs[|runs| - 1];
      AcceptedIds(runs[..|runs| - 1]) + (if last.fault.None? then [last.taskId] else [])
  }

  /** The error texts of the rejected jobs, in order. */
  function Messages(runs: seq<JobRun>): (msgs: seq<string>)
    ensures |msgs| <= |runs|
  {
    if runs == [] then []
    else
      var last := runs[|runs| - 1];
      Messages(runs[..|runs| - 1]) + (if last.fault.Some? then [last.fault.value] else [])
  }

  /** The commands queued for the accepted jobs, in order. */
  function QueuedCommands(jobs: seq<Payload>, runs: seq<JobRun>, queue: string, now: real): (cmds: seq<Command>)
    requires |jobs| == |runs|
    ensures |cmds| == 2 * |AcceptedIds(runs)|
  {
    if runs == [] then []
    else
      var n := |runs| - 1;
      QueuedCommands(jobs[..n], runs[..n], queue, now)
        + (if runs[n].fault.None? then EnqueueCommands(runs[n].taskId, queue, jobs[n], now) else [])
  }

  /** Each job lands in exactly one of the two lists. */
  lemma {:induction false} AcceptedPlusFailed(runs: seq<JobRun>)
    ensures |AcceptedIds(runs)| + |Messages(runs)| == |runs|
    ensures (forall i :: 0 <= i < |runs| ==> runs[i].fault.None?) ==> AcceptedIds(runs) == seq(|runs|, i requires 0 <= i < |runs| => runs[i].taskId)
  {
    if runs != [] {
      var init := runs[..|runs| - 1];
      AcceptedPlusFailed(init);
      assert forall i :: 0 <= i < |init| ==> init[i] == runs[i];
    }
  }

  /** `simulate_batch_endpoint` on one slice of jobs. `pipe` is what was
      queued on the pipeline when it was executed. A failing `execute()`
      is not caught: it aborts the whole benchmark. */
  method SimulateBatchEndpoint(jobs: seq<Payload>, queue: string, runs: seq<JobRun>, executeFails: bool,
                               processingSeconds: real, now: real)
    returns (r: Result<Response>, pipe: seq<Command>)
    requires |runs| == |jobs|
    ensures pipe == QueuedCommands(jobs, runs, queue, now) + [SAdd(QueuesKey, queue)]
    ensures executeFails <==> r.Err?
    ensures r.Err? ==> r.fault == RedisError
    ensures r.Ok? ==> r.value == Response(|AcceptedIds(runs)|, |Messages(runs)|, AcceptedIds(runs), processingSeconds * 1000.0)
    ensures r.Ok? ==> r.value.enqueued + r.value.failed == |jobs| && |r.value.taskIds| == r.value.enqueued
  {
    pipe := [];
    var taskIds: seq<string> := [];
    var errors: seq<string> := [];
    for i := 0 to |jobs|
      invariant pipe == QueuedCommands(jobs[..i], runs[..i], queue, now)
      invariant taskIds == AcceptedIds(runs[..i])
      invariant errors == Messages(runs[..i])
    {
      assert runs[..i + 1][..i] == runs[..i] && jobs[..i + 1][..i] == jobs[..i];
      var run := runs[i];
      if run.fault.None? {
        pipe := pipe + EnqueueCommands(run.taskId, queue, jobs[i], now);
        taskIds := taskIds + [run.taskId];
      } else {
        errors := errors + [run.fault.value];
      }
    }
    assert runs[..|runs|] == runs && jobs[..|jobs|] == jobs;
    pipe := pipe + [SAdd(QueuesKey, queue)];
    if executeFails {
      return Err(RedisError), pipe;
    }
    AcceptedPlusFailed(runs);
    r := Ok(Response(|taskIds|, |errors|, taskIds, processingSeconds * 1000.0));
  }

  // ---------------------------------------------------------------------
  // benchmark_batch_endpoint

  /** `[{"id": i, "scenario": "simple", "ts": ts} for i in range(total_jobs)]`;
      `ts` is one clock reading for all jobs. */
  function PregenerateJobs(totalJobs: nat, ts: real): (jobs: seq<Payload>)
    ensures |jobs| == totalJobs
    ensures forall i :: 0 <= i < totalJobs ==> jobs[i].BatchJob? && jobs[i].id == i
  {
    seq(totalJobs, i => BatchJob(i, "simple", ts))
  }

  /** The number of requests sent: one per slice `jobs[i:i + batch_size]`,
      counting a partial last slice. This is also the count the banner
      evidently means to print. */
  function RequestCount(totalJobs: nat, batchSize: nat): (k: nat)
    requires batchSize >= 1
    ensures k * batchSize >= totalJobs
    ensures k >= 1 ==> (k - 1) * batchSize < totalJobs
  {
    NumBatches(totalJobs, batchSize)
  }

  /** The slices cover the jobs in order, each non-empty and at most
      `batch_size` long, and there are `RequestCount` of them. */
  lemma SlicesCoverJobs(jobs: seq<Payload>, b: nat, i: nat)
    requires b >= 1 && i < RequestCount(|jobs|, b)
    ensures Joined(jobs, b, RequestCount(|jobs|, b)) == jobs
    ensures 1 <= |Window(jobs, i, b)| <= b
    ensures Window(jobs, i, b) == jobs[i * b..Min(i * b + b, |jobs|)]
  {
    JoinedIsAll(jobs, b);
  }

  /** The requests are well formed: request `i` has one job run per job of slice `i`. */
  predicate Matches(requests: seq<RequestRun>, n: nat, b: nat)
    requires b >= 1
  {
    |requests| == NumBatches(n, b) &&
    forall i :: 0 <= i < |requests| ==> |requests[i].runs| == Size(i, b, n)
  }

  /** The jobs accepted by the first `k` requests. */
  function TotalAccepted(requests: seq<RequestRun>, k: nat): nat
    requires k <= |requests|
  {
    if k == 0 then 0 else TotalAccepted(requests, k - 1) + |AcceptedIds(requests[k - 1].runs)|
  }

  /** `total_enqueued` never exceeds the jobs sent so far. */
  lemma {:induction false} TotalAcceptedBound(requests: seq<RequestRun>, n: nat, b: nat, k: nat)
    requires b >= 1 && Matches(requests, n, b) && k <= |requests|
    ensures TotalAccepted(requests, k) <= Min(k * b, n)
  {
    if k > 0 {
      TotalAcceptedBound(requests, n, b, k - 1);
      RangeCount(k - 1, b, n);
      StartStep(k - 1, b);
      assert Start(k - 1, b) == Min((k - 1) * b, n);
    }
  }

  /** Some request among the first `k` had its `execute()` fail. */
  predicate AnyExecuteFails(requests: seq<RequestRun>, k: nat)
    requires k <= |requests|
  {
    exists i :: 0 <= i < k && requests[i].executeFails
  }

  /** The pipelines of the first `k` requests, in the order they are sent. */
  function RequestPipelines(requests: seq<RequestRun>, jobs: seq<Payload>, b: nat, k: nat, now: real): (ps: seq<seq<Command>>)
    requires b >= 1 && Matches(requests, |jobs|, b) && k <= |requests|
    ensures |ps| == k
  {
    if k == 0 then []
    else
      RequestPipelines(requests, jobs, b, k - 1, now)
        + [QueuedCommands(Window(jobs, k - 1, b), requests[k - 1].runs, QueueName, now) + [SAdd(QueuesKey, QueueName)]]
  }

  /** The request times of the given requests, in order. */
  function RequestTimes(requests: seq<RequestRun>): (ts: seq<real>)
    ensures |ts| == |requests|
    ensures forall j :: 0 <= j < |requests| ==> ts[j] == requests[j].requestSeconds
  {
    seq(|requests|, j requires 0 <= j < |requests| => requests[j].requestSeconds)
  }

  /** One more request extends every accumulator by that request alone. */
  lemma RequestStep(requests: seq<RequestRun>, k: nat)
    requires k < |requests|
    ensures AnyExecuteFails(requests, k + 1) <==> AnyExecuteFails(requests, k) || requests[k].executeFails
    ensures RequestTimes(requests[..k + 1]) == RequestTimes(requests[..k]) + [requests[k].requestSeconds]
    ensures TotalAccepted(requests, k + 1) == TotalAccepted(requests, k) + |AcceptedIds(requests[k].runs)|
  {
    assert RequestTimes(requests[..k + 1]) == RequestTimes(requests[..k]) + [requests[k].requestSeconds];
    if requests[k].executeFails {
      assert AnyExecuteFails(requests, k + 1);
    }
  }

  /** The number of requests sent when the first `k` are attempted: all
      `k` when no `execute()` among them fails, else those up to and
      including the first that fails. */
  function Sent(requests: seq<RequestRun>, k: nat): (m: nat)
    requires k <= |requests|
    ensures m <= k
    ensures !AnyExecuteFails(requests, k) ==> m == k
    ensures AnyExecuteFails(requests, k) ==>
      1 <= m && requests[m - 1].executeFails && !AnyExecuteFails(requests, m - 1)
  {
    if k == 0 then 0
    else
      RequestStep(requests, k - 1);
      if AnyExecuteFails(requests, k - 1) then Sent(requests, k - 1) else k
  }

  /** Once request `f` fails, no later request is sent. */
  lemma {:induction false} SentStops(requests: seq<RequestRun>, f: nat, m: nat)
    requires f < m <= |requests|
    requires requests[f].executeFails && !AnyExecuteFails(requests, f)
    ensures Sent(requests, m) == f + 1
  {
    if m > f + 1 {
      SentStops(requests, f, m - 1);
      assert AnyExecuteFails(requests, m - 1) by { assert f < m - 1; }
    } else {
      RequestStep(requests, f);
    }
  }

  /** One pass of the request loop for slice `k`: call the endpoint on
      `jobs[k * b:k * b + b]`, whose pipeline is executed either way; a
      failing `execute()` propagates before anything is recorded, otherwise
      the request time and the accepted jobs are recorded. */
  method SendRequest(jobs: seq<Payload>, b: nat, requests: seq<RequestRun>, k: nat, now: real,
                     requestTimes: seq<real>, totalEnqueued: nat, pipelines: seq<seq<Command>>)
    returns (failed: bool, requestTimes': seq<real>, totalEnqueued': nat, pipelines': seq<seq<Command>>)
    requires b >= 1 && Matches(requests, |jobs|, b) && k < |requests|
    requires requestTimes == RequestTimes(requests[..k])
    requires totalEnqueued == TotalAccepted(requests, k)
    requires pipelines == RequestPipelines(requests, jobs, b, k, now)
    ensures failed <==> requests[k].executeFails
    ensures pipelines' == RequestPipelines(requests, jobs, b, k + 1, now)
    ensures failed ==> requestTimes' == requestTimes && totalEnqueued' == totalEnqueued
    ensures !failed ==> requestTimes' == RequestTimes(requests[..k + 1])
    ensures !failed ==> totalEnqueued' == TotalAccepted(requests, k + 1)
  {
    RequestStep(requests, k);
    var batch := Window(jobs, k, b);
    var req := requests[k];
    var result, pipe := SimulateBatchEndpoint(batch, QueueName, req.runs, req.executeFails, req.processingSeconds, now);
    pipelines' := pipelines + [pipe];
    if result.Err? {
      return true, requestTimes, totalEnqueued, pipelines';
    }
    failed := false;
    requestTimes' := requestTimes + [req.requestSeconds];
    totalEnqueued' := totalEnqueued + result.value.enqueued;
  }

  /** The request loop of `benchmark_batch_endpoint`: slice `jobs[i:i + batch_size]`
      for each `i` in `range(0, total_jobs, batch_size)`, that is `i = k * batch_size`
      for each `k < RequestCount`, hand it to the endpoint, record the request
      time and add up the accepted jobs. `failed` says the loop was cut short
      by a failing `execute()`; the pipelines are those sent up to it. */
  method SendRequests(jobs: seq<Payload>, batchSize: nat, requests: seq<RequestRun>, now: real)
    returns (failed: bool, requestTimes: seq<real>, totalEnqueued: nat, pipelines: seq<seq<Command>>)
    requires batchSize >= 1 && Matches(requests, |jobs|, batchSize)
    ensures failed <==> AnyExecuteFails(requests, |requests|)
    ensures pipelines == RequestPipelines(requests, jobs, batchSize, Sent(requests, |requests|), now)
    ensures failed ==>
      var m := Sent(requests, |requests|);
      requestTimes == RequestTimes(requests[..m - 1]) && totalEnqueued == TotalAccepted(requests, m - 1)
    ensures !failed ==> requestTimes == RequestTimes(requests)
    ensures !failed ==> totalEnqueued == TotalAccepted(requests, |requests|)
  {
    failed, requestTimes, totalEnqueued, pipelines := false, [], 0, [];
    for k := 0 to |requests|
      invariant !AnyExecuteFails(requests, k)
      invariant requestTimes == RequestTimes(requests[..k])
      invariant totalEnqueued == TotalAccepted(requests, k)
      invariant pipelines == RequestPipelines(requests, jobs, batchSize, k, now)
    {
      RequestStep(requests, k);
      failed, requestTimes, totalEnqueued, pipelines :=
        SendRequest(jobs, batchSize, requests, k, now, requestTimes, totalEnqueued, pipelines);
      if failed {
        SentStops(requests, k, |requests|);
        assert AnyExecuteFails(requests, |requests|) by { assert 0 <= k < |requests| && requests[k].executeFails; }
        return;
      }
    }
    assert requests[..|requests|] == requests;
  }

  /** `benchmark_batch_endpoint`. `totalTime` is `end_time - start_time`.
      A zero batch size already fails on the printed `total_jobs // batch_size`;
      a failed `execute()` aborts the loop; the average request time needs
      at least one request, and the throughput a non-zero duration. */
  method BenchmarkBatchEndpoint(totalJobs: nat, batchSize: nat, ts: real, now: real,
                                requests: seq<RequestRun>, totalTime: real)
    returns (r: Result<BatchResult>, requestTimes: seq<real>, totalEnqueued: nat, pipelines: seq<seq<Command>>)
    requires batchSize >= 1 ==> Matches(requests, totalJobs, batchSize)
    ensures batchSize == 0 ==> r == Err(ZeroDivisionError) && pipelines == []
    ensures batchSize >= 1 && AnyExecuteFails(requests, |requests|) ==> r == Err(RedisError)
    ensures batchSize >= 1 ==>
      pipelines == RequestPipelines(requests, PregenerateJobs(totalJobs, ts), batchSize, Sent(requests, |requests|), now)
    ensures batchSize >= 1 && !AnyExecuteFails(requests, |requests|) ==>
      |requestTimes| == RequestCount(totalJobs, batchSize)
      && (forall i :: 0 <= i < |requests| ==> requestTimes[i] == requests[i].requestSeconds)
      && totalEnqueued == TotalAccepted(requests, |requests|) <= totalJobs
      && pipelines == RequestPipelines(requests, PregenerateJobs(totalJobs, ts), batchSize, |requests|, now)
    ensures batchSize >= 1 && !AnyExecuteFails(requests, |requests|) && totalJobs == 0 ==> r == Err(ZeroDivisionError)
    ensures batchSize >= 1 && !AnyExecuteFails(requests, |requests|) && totalJobs >= 1 && totalTime == 0.0 ==>
      r == Err(ZeroDivisionError)
    ensures batchSize >= 1 && !AnyExecuteFails(requests, |requests|) && totalJobs >= 1 && totalTime != 0.0 ==>
      r == Ok(BatchResult("runqy", totalJobs, totalTime, totalJobs as real / totalTime, batchSize, "batch_endpoint"))
  {
    requestTimes, totalEnqueued, pipelines := [], 0, [];
    if batchSize == 0 {
      return Err(ZeroDivisionError), requestTimes, totalEnqueued, pipelines;
    }
    var jobs := PregenerateJobs(totalJobs, ts);
    var failed;
    failed, requestTimes, totalEnqueued, pipelines := SendRequests(jobs, batchSize, requests, now);
    if failed {
      return Err(RedisError), requestTimes, totalEnqueued, pipelines;
    }
    TotalAcceptedBound(requests, totalJobs, batchSize, |requests|);
    if |requestTimes| == 0 {
      return Err(ZeroDivisionError), requestTimes, totalEnqueued, pipelines;
    }
    if totalTime == 0.0 {
      return Err(ZeroDivisionError), requestTimes, totalEnqueued, pipelines;
    }
    r := Ok(BatchResult("runqy", totalJobs, totalTime, totalJobs as real / totalTime, batchSize, "batch_endpoint"));
  }

  // ---------------------------------------------------------------------
  // the printed request count as written

  /** The request count the banner prints, `total_jobs // batch_size`. */
  function PrintedRequestCount(totalJobs: nat, batchSize: nat): (c: nat)
    requires batchSize >= 1
    ensures c * batchSize <= totalJobs < (c + 1) * batchSize
  {
    totalJobs / batchSize
  }

  /** The banner never overstates the requests, and it understates them
      exactly when the last slice is partial. */
  lemma PrintedUndercounts(totalJobs: nat, batchSize: nat)
    requires batchSize >= 1
    ensures PrintedRequestCount(totalJobs, batchSize) <= RequestCount(totalJobs, batchSize)
    ensures PrintedRequestCount(totalJobs, batchSize) == RequestCount(totalJobs, batchSize)
        <==> totalJobs % batchSize == 0
  {
    var q, m := totalJobs / batchSize, totalJobs % batchSize;
    var k := RequestCount(totalJobs, batchSize);
    assert totalJobs == q * batchSize + m;
    StartStep(q, batchSize);
    if m == 0 {
      MulOrder(k, q, batchSize);
      if k >= 1 { MulOrder(k - 1, q, batchSize); }
      assert k == q;
    } else {
      MulOrder(q, k, batchSize);
      MulOrder(k - 1, q + 1, batchSize);
      assert k == q + 1;
    }
  }

  /** 250 jobs in slices of 100 take 3 requests; the banner says 2. */
  lemma PrintedCountExample()
    ensures PrintedRequestCount(250, 100) == 2 && RequestCount(250, 100) == 3
  {
  }
}
