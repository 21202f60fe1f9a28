/** `benchmark_pipelined` of `scripts/benchmark_runqy_pipelined.py`: jobs are
    cut into batches, each batch is sent as one Redis pipeline, a failed
    `execute()` counts the whole batch as errors, and each batch's latency
    is spread evenly over its jobs before the percentiles are taken.
    The uuid of each job, the outcome and duration of each `execute()`,
    and the clock readings are inputs. */
module Pipelined {
  import opened Runtime
  import opened Sorting
  import opened Batches
  import opened Asynq
  import Stats
  import Ranks

  const QueueName: string := "benchmark.default"
  const DefaultBatchSize: nat := 100

  /** The runner's own `BenchmarkResult` record. */
  datatype PipelinedResult = PipelinedResult(
    system: string,
    jobCount: int,
    totalTimeSeconds: real,
    throughputPerSecond: real,
    latencyP50Ms: real,
    latencyP95Ms: real,
    latencyP99Ms: real,
    errors: int,
    optimization: string)

  /** What Redis and the clock did for one batch: whether `pipe.execute()`
      raised, and the `perf_counter` seconds the batch took. */
  datatype BatchRun = BatchRun(executeFails: bool, elapsedSeconds: real)

  // ---------------------------------------------------------------------
  // the batch loop

  /** The commands the inner loop queues for jobs `lo..hi-1`. */
  function JobsCommands(taskIds: seq<string>, lo: nat, hi: nat, timestamp: real, now: real): (cmds: seq<Command>)
    requires lo <= hi <= |taskIds|
    ensures |cmds| == 2 * (hi - lo)
    decreases hi
  {
    if lo == hi then []
    else
      JobsCommands(taskIds, lo, hi - 1, timestamp, now)
        + EnqueueCommands(taskIds[hi - 1], QueueName, JobPayload(hi - 1, "simple", timestamp), now)
  }

  /** Adjacent ranges of jobs queue adjacent runs of commands. */
  lemma {:induction false} JobsCommandsSplit(taskIds: seq<string>, lo: nat, mid: nat, hi: nat, timestamp: real, now: real)
    requires lo <= mid <= hi <= |taskIds|
    ensures JobsCommands(taskIds, lo, mid, timestamp, now) + JobsCommands(taskIds, mid, hi, timestamp, now)
         == JobsCommands(taskIds, lo, hi, timestamp, now)
    decreases hi
  {
    if mid < hi {
      JobsCommandsSplit(taskIds, lo, mid, hi - 1, timestamp, now);
    }
  }

  /** Job `j`'s two commands sit at offset `2 * (j - lo)`: a push of its
      task onto the pending list and the metadata under its task key. */
  lemma {:induction false} JobsCommandsAt(taskIds: seq<string>, lo: nat, hi: nat, j: nat, timestamp: real, now: real)
    requires lo <= j < hi <= |taskIds|
    ensures var cmds := JobsCommands(taskIds, lo, hi, timestamp, now);
      cmds[2 * (j - lo)] == LPush(PendingKey(QueueName),
        CreateAsynqTask(taskIds[j], QueueName, JobPayload(j, "simple", timestamp), now))
      && cmds[2 * (j - lo) + 1].HSet? && cmds[2 * (j - lo) + 1].key == TaskKey(taskIds[j])
    decreases hi
  {
    if j < hi - 1 {
      JobsCommandsAt(taskIds, lo, hi - 1, j, timestamp, now);
    }
  }

  /** The pipeline of batch `i`. */
  function BatchCommands(taskIds: seq<string>, b: nat, i: nat, timestamp: real, now: real): (cmds: seq<Command>)
    requires b >= 1 && i < NumBatches(|taskIds|, b)
    ensures |cmds| == 2 * Size(i, b, |taskIds|)
  {
    WindowShape(i, b, |taskIds|);
    JobsCommands(taskIds, Start(i, b), End(i, b, |taskIds|), timestamp, now)
  }

  /** All the commands of a list of pipelines, in the order they are sent. */
  function Flatten<T>(ss: seq<seq<T>>): seq<T> {
    if ss == [] then [] else Flatten(ss[..|ss| - 1]) + ss[|ss| - 1]
  }

  lemma FlattenSnoc<T>(ss: seq<seq<T>>, s: seq<T>)
    ensures Flatten(ss + [s]) == Flatten(ss) + s
  {
    assert (ss + [s])[..|ss|] == ss;
  }

  /** The errors the first `k` batches add up: a batch whose `execute()`
      raised counts all of its jobs. */
  function FailedJobs(runs: seq<BatchRun>, n: nat, b: nat, k: nat): nat
    requires b >= 1 && k <= NumBatches(n, b) && k <= |runs|
  {
    if k == 0 then 0
    else FailedJobs(runs, n, b, k - 1) + (if runs[k - 1].executeFails then Size(k - 1, b, n) else 0)
  }

  /** Errors never exceed the jobs sent so far; they are zero when every
      batch succeeds and every job when every batch fails. */
  lemma {:induction false} FailedJobsBound(runs: seq<BatchRun>, n: nat, b: nat, k: nat)
    requires b >= 1 && k <= NumBatches(n, b) && k <= |runs|
    ensures FailedJobs(runs, n, b, k) <= Min(k * b, n)
    ensures (forall i :: 0 <= i < k ==> !runs[i].executeFails) ==> FailedJobs(runs, n, b, k) == 0
    ensures (forall i :: 0 <= i < k ==> runs[i].executeFails) ==> FailedJobs(runs, n, b, k) == Min(k * b, n)
  {
    if k > 0 {
      FailedJobsBound(runs, n, b, k - 1);
      RangeCount(k - 1, b, n);
      assert (k - 1) * b + b == k * b;
      assert Start(k - 1, b) == Min((k - 1) * b, n);
    }
  }

  /** The per-batch latencies in ms, as the batch loop records them. */
  function Latencies(runs: seq<BatchRun>): (lat: seq<real>)
    ensures |lat| == |runs|
    ensures forall i :: 0 <= i < |runs| ==> lat[i] == runs[i].elapsedSeconds * 1000.0
  {
    seq(|runs|, i requires 0 <= i < |runs| => runs[i].elapsedSeconds * 1000.0)
  }

  /** Timing one more batch appends its latency. */
  lemma LatenciesSnoc(runs: seq<BatchRun>, k: nat)
    requires k < |runs|
    ensures Latencies(runs[..k + 1]) == Latencies(runs[..k]) + [runs[k].elapsedSeconds * 1000.0]
  {
    assert Latencies(runs[..k + 1]) == Latencies(runs[..k]) + [runs[k].elapsedSeconds * 1000.0];
  }

  /** The inner loop of `benchmark_pipelined`: queue the two commands of
      each job `batch_start..batch_end-1` on a fresh pipeline. */
  method QueueBatch(taskIds: seq<string>, batchStart: nat, batchEnd: nat, timestamp: real, now: real)
    returns (pipe: seq<Command>)
    requires batchStart <= batchEnd <= |taskIds|
    ensures pipe == JobsCommands(taskIds, batchStart, batchEnd, timestamp, now)
  {
    pipe := [];
    var jobId := batchStart;
    while jobId < batchEnd
      invariant batchStart <= jobId <= batchEnd
      invariant pipe == JobsCommands(taskIds, batchStart, jobId, timestamp, now)
    {
      var payload := JobPayload(jobId, "simple", timestamp);
      pipe := pipe + EnqueueCommands(taskIds[jobId], QueueName, payload, now);
      jobId := jobId + 1;
    }
  }

  /** The pipelines of the first `k` batches, in the order they are sent. */
  function AllBatches(taskIds: seq<string>, b: nat, k: nat, timestamp: real, now: real): (ps: seq<seq<Command>>)
    requires b >= 1 && k <= NumBatches(|taskIds|, b)
    ensures |ps| == k
  {
    if k == 0 then [] else AllBatches(taskIds, b, k - 1, timestamp, now) + [BatchCommands(taskIds, b, k - 1, timestamp, now)]
  }

  /** Pipeline `i` holds exactly the commands of batch `i`. */
  lemma {:induction false} AllBatchesAt(taskIds: seq<string>, b: nat, k: nat, i: nat, timestamp: real, now: real)
    requires b >= 1 && k <= NumBatches(|taskIds|, b) && i < k
    ensures AllBatches(taskIds, b, k, timestamp, now)[i] == BatchCommands(taskIds, b, i, timestamp, now)
  {
    if i < k - 1 {
      AllBatchesAt(taskIds, b, k - 1, i, timestamp, now);
    }
  }

  /** Sent one after another, the first `k` pipelines queue the commands of
      the first `min(k * b, n)` jobs, each once and in id order. */
  lemma {:induction false} AllBatchesCoverJobs(taskIds: seq<string>, b: nat, k: nat, timestamp: real, now: real)
    requires b >= 1 && k <= NumBatches(|taskIds|, b)
    ensures Flatten(AllBatches(taskIds, b, k, timestamp, now))
         == JobsCommands(taskIds, 0, Min(k * b, |taskIds|), timestamp, now)
  {
    if k > 0 {
      var n := |taskIds|;
      var prev := AllBatches(taskIds, b, k - 1, timestamp, now);
      var last := BatchCommands(taskIds, b, k - 1, timestamp, now);
      RangeCount(k - 1, b, n);
      WindowShape(k - 1, b, n);
      var lo, hi := Start(k - 1, b), End(k - 1, b, n);
      assert lo == Min((k - 1) * b, n);
      assert hi == Min(k * b, n) by { StartStep(k - 1, b); }
      AllBatchesCoverJobs(taskIds, b, k - 1, timestamp, now);
      assert Flatten(prev) == JobsCommands(taskIds, 0, lo, timestamp, now);
      assert last == JobsCommands(taskIds, lo, hi, timestamp, now);
      assert AllBatches(taskIds, b, k, timestamp, now) == prev + [last];
      FlattenSnoc(prev, last);
      JobsCommandsSplit(taskIds, 0, lo, hi, timestamp, now);
    }
  }

  /** One more batch: window `k` starts at `k * b`, and its failure, its
      latency and its pipeline extend what the first `k` batches left. */
  lemma BatchStep(taskIds: seq<string>, runs: seq<BatchRun>, b: nat, k: nat, timestamp: real, now: real)
    requires b >= 1 && k < NumBatches(|taskIds|, b) && k < |runs|
    ensures Start(k + 1, b) == Start(k, b) + b
    ensures End(k, b, |taskIds|) == Min(Start(k, b) + b, |taskIds|)
    ensures FailedJobs(runs, |taskIds|, b, k + 1) == FailedJobs(runs, |taskIds|, b, k)
      + (if runs[k].executeFails then End(k, b, |taskIds|) - Start(k, b) else 0)
    ensures AllBatches(taskIds, b, k + 1, timestamp, now) == AllBatches(taskIds, b, k, timestamp, now)
      + [BatchCommands(taskIds, b, k, timestamp, now)]
  {
    StartStep(k, b);
  }

  /** One pass of the outer loop for batch `k`: queue the window's jobs
      on a fresh pipeline, execute it, add the whole window to `errors`
      when `execute()` raised, and record the batch's latency. */
  method SendBatch(taskIds: seq<string>, runs: seq<BatchRun>, b: nat, k: nat, timestamp: real, now: real,
                   errors: nat, batchLatencies: seq<real>, pipelines: seq<seq<Command>>)
    returns (errors': nat, batchLatencies': seq<real>, pipelines': seq<seq<Command>>)
    requires b >= 1 && k < |runs| == NumBatches(|taskIds|, b)
    requires errors == FailedJobs(runs, |taskIds|, b, k)
    requires batchLatencies == Latencies(runs[..k])
    requires pipelines == AllBatches(taskIds, b, k, timestamp, now)
    ensures errors' == FailedJobs(runs, |taskIds|, b, k + 1)
    ensures batchLatencies' == Latencies(runs[..k + 1])
    ensures pipelines' == AllBatches(taskIds, b, k + 1, timestamp, now)
  {
    BatchStep(taskIds, runs, b, k, timestamp, now);
    LatenciesSnoc(runs, k);
    WindowShape(k, b, |taskIds|);
    var batchStart := Start(k, b);
    var batchEnd := Min(batchStart + b, |taskIds|);
    var pipe := QueueBatch(taskIds, batchStart, batchEnd, timestamp, now);
    errors' := errors;
    if runs[k].executeFails {
      errors' := errors' + (batchEnd - batchStart);
    }
    batchLatencies' := batchLatencies + [runs[k].elapsedSeconds * 1000.0];
    pipelines' := pipelines + [pipe];
  }

  /** The nested loops of `benchmark_pipelined`: one pipeline per window
      `[batch_start, min(batch_start + batch_size, jobs_count))`, its job
      ids in order, one latency per batch whether or not it failed, and a
      failed batch's size added to `errors`. */
  method RunBatches(jobsCount: nat, batchSize: nat, taskIds: seq<string>, runs: seq<BatchRun>,
                    timestamp: real, now: real)
    returns (errors: nat, batchLatencies: seq<real>, pipelines: seq<seq<Command>>)
    requires batchSize >= 1
    requires |taskIds| == jobsCount && |runs| == NumBatches(jobsCount, batchSize)
    ensures errors == FailedJobs(runs, jobsCount, batchSize, |runs|)
    ensures batchLatencies == Latencies(runs)
    ensures pipelines == AllBatches(taskIds, batchSize, |runs|, timestamp, now)
  {
    var n, b := jobsCount, batchSize;
    errors, batchLatencies, pipelines := 0, [], [];
    // `range(0, n, b)` yields `k * b` for each `k < NumBatches(n, b)` (Batches.RangeCount)
    for k := 0 to |runs|
      invariant errors == FailedJobs(runs, n, b, k)
      invariant batchLatencies == Latencies(runs[..k])
      invariant pipelines == AllBatches(taskIds, b, k, timestamp, now)
    {
      errors, batchLatencies, pipelines := SendBatch(taskIds, runs, b, k, timestamp, now, errors, batchLatencies, pipelines);
    }
    assert runs[..|runs|] == runs;
  }

  // ---------------------------------------------------------------------
  // per-job latency attribution

  /** `[x] * k` */
  function Repeat(x: real, k: nat): (r: seq<real>)
    ensures |r| == k
    ensures forall i :: 0 <= i < k ==> r[i] == x
  {
    seq(k, _ => x)
  }

  lemma {:induction false} SumRepeat(x: real, k: nat)
    ensures Stats.Sum(Repeat(x, k)) == k as real * x
  {
    if k > 0 {
      assert Repeat(x, k)[1..] == Repeat(x, k - 1);
      SumRepeat(x, k - 1);
    }
  }

  /** Each job's share of batch `i`'s latency. */
  function Share(batchLatencies: seq<real>, n: nat, b: nat, i: nat): (share: real)
    requires b >= 1 && i < NumBatches(n, b) && i < |batchLatencies|
    ensures share * Size(i, b, n) as real == batchLatencies[i]
  {
    batchLatencies[i] / Size(i, b, n) as real
  }

  /** The per-job list after the first `k` batches: each batch extends it
      with its share, once per job. */
  function Attributed(batchLatencies: seq<real>, n: nat, b: nat, k: nat): (a: seq<real>)
    requires b >= 1 && k <= NumBatches(n, b) && k <= |batchLatencies|
  {
    if k == 0 then []
    else Attributed(batchLatencies, n, b, k - 1) + Repeat(Share(batchLatencies, n, b, k - 1), Size(k - 1, b, n))
  }

  /** After `k` batches the per-job list covers the first `min(k * b, n)` jobs. */
  lemma {:induction false} AttributedLength(batchLatencies: seq<real>, n: nat, b: nat, k: nat)
    requires b >= 1 && k <= NumBatches(n, b) && k <= |batchLatencies|
    ensures |Attributed(batchLatencies, n, b, k)| == Min(k * b, n)
  {
    if k > 0 {
      AttributedLength(batchLatencies, n, b, k - 1);
      RangeCount(k - 1, b, n);
      assert (k - 1) * b + b == k * b;
    }
  }

  /** Job `j` carries the share of its own batch, number `j / b`. */
  lemma {:induction false} AttributedAt(batchLatencies: seq<real>, n: nat, b: nat, k: nat, j: nat)
    requires b >= 1 && k <= NumBatches(n, b) && k <= |batchLatencies|
    requires j < Min(k * b, n)
    ensures j / b < k && |Attributed(batchLatencies, n, b, k)| == Min(k * b, n)
    ensures Attributed(batchLatencies, n, b, k)[j] == Share(batchLatencies, n, b, j / b)
  {
    AttributedLength(batchLatencies, n, b, k);
    AttributedLength(batchLatencies, n, b, k - 1);
    RangeCount(k - 1, b, n);
    WindowOf(j, k - 1, b, n);
    if j < Start(k - 1, b) {
      AttributedAt(batchLatencies, n, b, k - 1, j);
    } else {
      assert (k - 1) * b + b == k * b;
    }
  }

  /** Batch `i`'s slice of the per-job list is its share, repeated once per job. */
  lemma BatchSlice(batchLatencies: seq<real>, n: nat, b: nat, i: nat)
    requires b >= 1 && |batchLatencies| == NumBatches(n, b) && i < |batchLatencies|
    ensures var a := Attributed(batchLatencies, n, b, |batchLatencies|);
      |a| == n && a[Start(i, b)..End(i, b, n)] == Repeat(Share(batchLatencies, n, b, i), Size(i, b, n))
  {
    var k := |batchLatencies|;
    var a := Attributed(batchLatencies, n, b, k);
    AttributedLength(batchLatencies, n, b, k);
    var lo, size, share := Start(i, b), Size(i, b, n), Share(batchLatencies, n, b, i);
    var w := a[lo..lo + size];
    forall t | 0 <= t < size ensures w[t] == share {
      InBatch(batchLatencies, n, b, i, t);
    }
    assert w == Repeat(share, size);
  }

  lemma InBatch(batchLatencies: seq<real>, n: nat, b: nat, i: nat, t: nat)
    requires b >= 1 && |batchLatencies| == NumBatches(n, b) && i < |batchLatencies|
    requires t < Size(i, b, n)
    ensures var a := Attributed(batchLatencies, n, b, |batchLatencies|);
      Start(i, b) + t < |a| && a[Start(i, b) + t] == Share(batchLatencies, n, b, i)
  {
    var j := Start(i, b) + t;
    WindowOf(j, i, b, n);
    AttributedAt(batchLatencies, n, b, |batchLatencies|, j);
  }

  /** The attributed latencies of one batch sum back to that batch's latency. */
  lemma BatchShareSums(batchLatencies: seq<real>, n: nat, b: nat, i: nat)
    requires b >= 1 && |batchLatencies| == NumBatches(n, b) && i < |batchLatencies|
    ensures var a := Attributed(batchLatencies, n, b, |batchLatencies|);
      |a| == n && Stats.Sum(a[Start(i, b)..End(i, b, n)]) == batchLatencies[i]
  {
    BatchSlice(batchLatencies, n, b, i);
    var a := Attributed(batchLatencies, n, b, |batchLatencies|);
    SharesSumBack(a[Start(i, b)..End(i, b, n)], batchLatencies[i], Size(i, b, n));
  }

  /** `s` equal shares of `x` add up to `x` again. */
  lemma SharesSumBack(w: seq<real>, x: real, s: nat)
    requires s >= 1 && w == Repeat(x / s as real, s)
    ensures Stats.Sum(w) == x
  {
    SumRepeat(x / s as real, s);
    assert s as real * (x / s as real) == x;
  }

  /** The second loop of `benchmark_pipelined`: the batch bounds are
      recomputed as `i * batch_size`, and each batch extends the list with
      its latency divided by its size, once per job. */
  method AttributeLatencies(batchLatencies: seq<real>, jobsCount: nat, batchSize: nat)
    returns (perJob: seq<real>)
    requires batchSize >= 1 && |batchLatencies| == NumBatches(jobsCount, batchSize)
    ensures perJob == Attributed(batchLatencies, jobsCount, batchSize, |batchLatencies|)
    ensures |perJob| == jobsCount
  {
    perJob := [];
    var i := 0;
    while i < |batchLatencies|
      invariant 0 <= i <= |batchLatencies|
      invariant perJob == Attributed(batchLatencies, jobsCount, batchSize, i)
    {
      var batchStart := i * batchSize;
      var batchEnd := Min(batchStart + batchSize, jobsCount);
      WindowShape(i, batchSize, jobsCount);
      var jobsInBatch := batchEnd - batchStart;
      var perJobShare := batchLatencies[i] / jobsInBatch as real;
      perJob := perJob + Repeat(perJobShare, jobsInBatch);
      i := i + 1;
    }
    AttributedLength(batchLatencies, jobsCount, batchSize, i);
  }

  // ---------------------------------------------------------------------
  // benchmark_pipelined

  /** `benchmark_pipelined`. `totalTime` is `end_time - start_time`.
      `rounds` are the round trips to Redis: the queue registration, then
      one pipeline per batch. `registerFails` says the registration, which
      no `try` guards, raised. A zero batch size stops `range()` before any
      batch is sent; otherwise the result record fails on its throughput
      (zero duration) or on its p50 pick (no jobs). */
  method BenchmarkPipelined(jobsCount: nat, batchSize: nat, taskIds: seq<string>, runs: seq<BatchRun>,
                            timestamp: real, now: real, totalTime: real, registerFails: bool)
    returns (r: Result<PipelinedResult>, rounds: seq<seq<Command>>)
    requires |taskIds| == jobsCount
    requires batchSize >= 1 ==> |runs| == NumBatches(jobsCount, batchSize)
    ensures |rounds| >= 1 && rounds[0] == [SAdd(QueuesKey, QueueName)]
    ensures registerFails ==> r == Err(RedisError) && |rounds| == 1
    ensures !registerFails && batchSize == 0 ==> r == Err(ValueError) && |rounds| == 1
    ensures !registerFails && batchSize >= 1 ==> rounds[1..] == AllBatches(taskIds, batchSize, |runs|, timestamp, now)
    ensures !registerFails && batchSize >= 1 ==> Flatten(rounds[1..]) == JobsCommands(taskIds, 0, jobsCount, timestamp, now)
    ensures !registerFails && batchSize >= 1 && totalTime == 0.0 ==> r == Err(ZeroDivisionError)
    ensures !registerFails && batchSize >= 1 && totalTime != 0.0 && jobsCount == 0 ==> r == Err(IndexError)
    ensures !registerFails && batchSize >= 1 && totalTime != 0.0 && jobsCount >= 1 ==>
      var picks := Ranks.Pick(Sort(Attributed(Latencies(runs), jobsCount, batchSize, |runs|)));
      picks.Ok? && r.Ok? &&
      r.value == PipelinedResult("runqy", jobsCount, totalTime, jobsCount as real / totalTime,
        picks.value.p50, picks.value.p95, picks.value.p99,
        FailedJobs(runs, jobsCount, batchSize, |runs|), "pipelined")
    ensures r.Ok? ==> 0 <= r.value.errors <= r.value.jobCount
    ensures r.Ok? ==> r.value.latencyP50Ms <= r.value.latencyP95Ms <= r.value.latencyP99Ms
  {
    rounds := [[SAdd(QueuesKey, QueueName)]];
    if registerFails {
      return Err(RedisError), rounds;
    }
    if batchSize == 0 {
      return Err(ValueError), rounds;
    }
    var errors, batchLatencies, pipelines := RunBatches(jobsCount, batchSize, taskIds, runs, timestamp, now);
    AllBatchesCoverJobs(taskIds, batchSize, |runs|, timestamp, now);
    assert ([[SAdd(QueuesKey, QueueName)]] + pipelines)[1..] == pipelines;
    rounds := rounds + pipelines;
    FailedJobsBound(runs, jobsCount, batchSize, |runs|);
    assert Min(|runs| * batchSize, jobsCount) == jobsCount;

    var perJobLatencies := AttributeLatencies(batchLatencies, jobsCount, batchSize);
    perJobLatencies := Sort(perJobLatencies);

    if totalTime == 0.0 {
      return Err(ZeroDivisionError), rounds;
    }
    var throughput := jobsCount as real / totalTime;
    var picks := Ranks.Pick(perJobLatencies);
    if picks.Err? {
      return Err(picks.fault), rounds;
    }
    r := Ok(PipelinedResult("runqy", jobsCount, totalTime, throughput,
      picks.value.p50, picks.value.p95, picks.value.p99, errors, "pipelined"));
  }
}
