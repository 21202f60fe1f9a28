# Benchmark harness core, modelled in Dafny

The repository compares task queues (runqy over Redis, Temporal, Celery) by
submitting jobs and measuring throughput and latency. Most of its code is
client plumbing. This project models the sequential logic between those calls:

- nearest-rank percentiles and the metrics record of `scripts/benchmark_common.py`;
- the batch loop, error accounting and per-job latency attribution of the
  pipelined runqy benchmark;
- the outcome collection and p50/p95/p99 picking of the direct runqy and
  Temporal benchmarks;
- the enqueued/failed accounting and request slicing of the batch endpoint
  benchmark;
- the asynq key and task-record layout these benchmarks write to Redis;
- the summary grouping of `generate_comparison`.

A Redis, HTTP or Temporal call becomes an input. So does every clock
reading, uuid and exception. A Python crash in the modelled code (`ValueError`, `ZeroDivisionError`,
`IndexError`, an uncaught Redis error) is an `Err` of a `Result`, never a
precondition. The Redis commands a pipeline would send are returned as
values (`LPush`, `HSet`, `SAdd`), so that what a run writes can be stated.

Modules:

- `Runtime`: faults, `Result`/`Option`, Python `int()` truncation, list
  indexing, `str(int)`.
- `Sorting`: `sorted` as a function, and uniqueness of the sorted permutation.
- `Stats`: `scripts/benchmark_common.py`.
- `Ranks`: the scripts' inline `int(n * 0.95)` indices, and their agreement
  with `calculate_percentile`.
- `Batches`: the window arithmetic shared by the pipelined and batch-endpoint
  benchmarks.
- `Asynq`: the key strings, the task record and the queued commands.
- `Pipelined`, `Direct`, `Temporal`, `BatchEndpoint`: the four benchmark
  scripts.
- `Comparison`: `scripts/run_all_benchmarks.py`.

Where a script mutates lists in a loop, the model is a method with the same
loop. Each such method is proved equal to a recursive specification
function. The properties are lemmas about those functions.

The direct benchmark appends the latency of every outcome,
failed ones included, and then counts errors separately (lines 138-142 of
`scripts/benchmark_runqy_direct.py`). The model therefore keeps failed
latencies in the percentile list. It also counts errors the way line 141
does, by the truthiness of the message, and sets the count of every failure
beside it (see "## Findings").

## Model

| member | source | states |
|---|---|---|
| Runtime.Trunc | scripts/benchmark_runqy_pipelined.py:68 | `int()` of a float truncates toward zero: the result is the integer within 1 of `x` on the side of zero |
| Runtime.Index | scripts/benchmark_common.py:39 | Python indexing succeeds exactly for `-len <= i < len`; a result is a member of the list; a non-negative index is the element itself; anything else is an `IndexError` |
| Runtime.IntToString | scripts/run_all_benchmarks.py:116 | `str()` of an int is non-empty and made of digits and `-` only |
| Runtime.IntToStringRoundTrip | scripts/benchmark_runqy_pipelined.py:125 | the decimal text of an int parses back to the same int, and only its first character can be `-` |
| Sorting.Sort | scripts/benchmark_common.py:37 | `sorted` returns an ascending permutation of its input of the same length |
| Sorting.SortedUnique | scripts/benchmark_common.py:37 | two ascending sequences with the same elements are equal |
| Sorting.SortPermutationInvariant | scripts/benchmark_common.py:37 | the sorted copy depends only on the multiset of the input, not on its order |
| Sorting.SortOfSorted | scripts/benchmark_runqy_direct.py:148 | sorting an already sorted list leaves it unchanged |
| Stats.MinOf | scripts/benchmark_common.py:68 | `min` of a non-empty list is a member and below every element |
| Stats.MaxOf | scripts/benchmark_common.py:69 | `max` of a non-empty list is a member and above every element |
| Stats.Sum | scripts/benchmark_common.py:67 | the sum `statistics.mean` divides; its properties are `SumConcat`, `SumBounds`, `SumPermutationInvariant` and `SumScales` (no contract of its own) |
| Stats.Mean | scripts/benchmark_common.py:67 | `statistics.mean` of a non-empty list, the sum over the count; bounded by `MeanBounds`, scaled by `ToMsMean` (no contract of its own) |
| Stats.SumBounds | scripts/benchmark_common.py:67 | a sum of `n` values in `[lo, hi]` lies in `[n*lo, n*hi]` |
| Stats.MeanBounds | scripts/benchmark_common.py:67-69 | the mean of a non-empty list lies between its min and its max |
| Stats.MeanWithin | scripts/benchmark_common.py:67-69 | the mean of a non-empty list bounded by `lo` and `hi` lies between them |
| Stats.SumConcat | scripts/benchmark_common.py:67 | the sum of a concatenation is the sum of the sums |
| Stats.SumPermutationInvariant | scripts/benchmark_common.py:67 | the sum does not depend on the order of the values |
| Stats.MinMaxPermutationInvariant | scripts/benchmark_common.py:68-69 | min and max do not depend on the order of the values |
| Stats.ToMs | scripts/benchmark_common.py:56 | the millisecond list has the same length as the input |
| Stats.ToMsScales | scripts/benchmark_common.py:56 | each millisecond value is 1000 times the matching input, and a sorted input stays sorted |
| Stats.ToMsCount | scripts/benchmark_common.py:56 | a value occurs in the ms list as often as its thousandth occurs in the input |
| Stats.ToMsPermutation | scripts/benchmark_common.py:56 | inputs with the same elements give ms lists with the same elements |
| Stats.SortToMs | scripts/benchmark_runqy_direct.py:148-149 | sorting then scaling gives the same list as scaling then sorting |
| Stats.ToMsMin | scripts/benchmark_common.py:56-68 | the min of the ms list is 1000 times the min of the input |
| Stats.ToMsMax | scripts/benchmark_common.py:56-69 | the max of the ms list is 1000 times the max of the input |
| Stats.SumScales | scripts/benchmark_common.py:56-67 | the sum of the ms list is 1000 times the sum of the input |
| Stats.ToMsMean | scripts/benchmark_common.py:56-67 | the mean of the ms list is 1000 times the mean of the input |
| Stats.Rank | scripts/benchmark_common.py:38 | the rank `int(n*p/100)` is 0 at p = 0, non-negative for p >= 0, at least `n` for p >= 100, and at least `-n` for p >= -100 |
| Stats.RankMonotone | scripts/benchmark_common.py:38 | the rank grows with the percentile |
| Stats.Percentile | scripts/benchmark_common.py:33-39 | the empty list gives 0.0; for p >= -100 no index error occurs; a result on a non-empty list is a member of it |
| Stats.PercentileRank | scripts/benchmark_common.py:37-39 | for p >= 0 the clamped index lies in bounds and the result is that element of the sorted copy |
| Stats.PercentileMonotone | scripts/benchmark_common.py:37-39 | a higher percentile never gives a smaller value |
| Stats.PercentileWithinRange | scripts/benchmark_common.py:37-39 | every percentile lies between the list's min and max |
| Stats.PercentileZeroIsMin | scripts/benchmark_common.py:37-39 | the 0th percentile is the minimum |
| Stats.PercentileFullIsMax | scripts/benchmark_common.py:37-39 | a percentile of 100 or more is the maximum, by the clamp to the last index |
| Stats.PercentilePermutationInvariant | scripts/benchmark_common.py:37 | the percentile does not depend on the input order |
| Stats.Throughput | scripts/benchmark_common.py:52-53 | with positive duration, throughput times duration is the job count, and it is non-negative for non-negative counts; otherwise it is 0 |
| Stats.CalculateMetrics | scripts/benchmark_common.py:41-72 | system, scenario, job count, errors and timestamp pass through; duration is end minus start; throughput is guarded; an empty list gives zero for all six latency fields |
| Stats.MetricsOrdered | scripts/benchmark_common.py:58-69 | on a non-empty list, min and max are 1000 times the input's min and max, and min <= p50 <= p95 <= p99 <= max and min <= avg <= max |
| Stats.MetricsPermutationInvariant | scripts/benchmark_common.py:56-69 | the metrics record does not depend on the order of the latencies |
| Ranks.RankIndex | scripts/benchmark_runqy_pipelined.py:153-155 | `int(n * pct/100)` is the floor of `n*pct/100`, and below `n` when pct < 100 and n >= 1 |
| Ranks.Pick | scripts/benchmark_runqy_pipelined.py:153-164 | picking p50/p95/p99 (p99 clamped to `n-1`) succeeds exactly on a non-empty list, fails with `IndexError` otherwise, returns members, and on a sorted list returns p50 <= p95 <= p99 |
| Ranks.RankAgrees | scripts/benchmark_runqy_direct.py:151-153 | the inline integer index equals the rank of `calculate_percentile` |
| Ranks.PickAgreesWithPercentile | scripts/benchmark_temporal.py:104-114 | on a sorted non-empty list the inline picks equal `calculate_percentile` at 50, 95 and 99 |
| Batches.NumBatches | scripts/benchmark_runqy_pipelined.py:102 | the number of iterations of `range(0, n, b)` is the ceiling of `n/b`, and zero exactly when `n` is zero |
| Batches.Start | scripts/benchmark_runqy_pipelined.py:102 | batch `i` starts at `i * b`, the `i`-th value of `range(0, n, b)` (`RangeCount`); its window facts are `WindowShape`, `WindowsChain` and `WindowOf` (no contract of its own) |
| Batches.End | scripts/benchmark_runqy_pipelined.py:103 | batch `i` ends at `min(start + b, n)`; that each window is non-empty and inside `0..n` is `WindowShape` (no contract of its own) |
| Batches.WindowShape | scripts/benchmark_runqy_pipelined.py:102-103 | every window `[i*b, min(i*b+b, n))` is non-empty, inside `0..n` and at most `b` long |
| Batches.Size | scripts/benchmark_runqy_pipelined.py:145-147 | the recomputed `jobs_in_batch` is between 1 and `b` and spans from the window start to the window end |
| Batches.WindowsChain | scripts/benchmark_runqy_pipelined.py:102-103 | each window ends where the next begins, so the windows are disjoint and in order |
| Batches.LastWindowEnds | scripts/benchmark_runqy_pipelined.py:103 | the last window ends at `n`, so the windows cover every job |
| Batches.WindowOf | scripts/benchmark_runqy_pipelined.py:110 | every job `j` lies in window `j / b` and in no other |
| Batches.RangeCount | scripts/benchmark_runqy_pipelined.py:102 | the loop runs again after `k` windows exactly when `k < NumBatches` |
| Batches.Window | scripts/benchmark_batch_endpoint.py:131 | every slice `jobs[i:i+b]` the loop takes is non-empty and at most `b` long |
| Batches.JoinedIsPrefix | scripts/benchmark_batch_endpoint.py:130-131 | the first `k` slices concatenate to the first `min(k*b, n)` jobs |
| Batches.JoinedIsAll | scripts/benchmark_batch_endpoint.py:130-131 | all the slices concatenate back to the job list |
| Asynq.PendingKey | scripts/benchmark_runqy_pipelined.py:84 | the pending key wraps the queue name in 16 fixed characters |
| Asynq.TaskKey | scripts/benchmark_runqy_pipelined.py:122 | the task key prefixes the id with 8 fixed characters |
| Asynq.PendingKeyRoundTrip | scripts/benchmark_runqy_direct.py:91 | the queue name can be read back from a pending key, and only a pending key yields it |
| Asynq.TaskKeyInjective | scripts/benchmark_runqy_pipelined.py:122 | distinct task ids give distinct task keys |
| Asynq.KeysDistinct | scripts/benchmark_runqy_direct.py:91-103 | the pending key, the task key and `asynq:queues` never coincide |
| Asynq.CreateAsynqTask | scripts/benchmark_runqy_pipelined.py:57-70 | the task record has type `task:` + queue, the queue, the id and payload, retry 3, timeout 30 and a deadline 3600 seconds after the truncated clock |
| Asynq.EnqueueCommands | scripts/benchmark_runqy_pipelined.py:121-126 | each job queues an LPUSH of its task on the pending key, then an HSET of pending metadata on its task key |
| Asynq.CreatedReadsBack | scripts/benchmark_runqy_pipelined.py:125 | the `created` field is decimal text that parses back to the truncated clock |
| Pipelined.JobsCommands | scripts/benchmark_runqy_pipelined.py:110-126 | each job of a range adds two commands |
| Pipelined.JobsCommandsSplit | scripts/benchmark_runqy_pipelined.py:110-126 | the commands of adjacent job ranges concatenate to the commands of their union |
| Pipelined.JobsCommandsAt | scripts/benchmark_runqy_pipelined.py:118-126 | job `j` contributes an LPUSH of its own task on the pending key, then an HSET on its own task key |
| Pipelined.BatchCommands | scripts/benchmark_runqy_pipelined.py:108-126 | a batch's pipeline holds two commands per job of its window |
| Pipelined.FlattenSnoc | scripts/benchmark_runqy_pipelined.py:102-130 | sending one more pipeline appends its commands to everything sent |
| Pipelined.FailedJobsBound | scripts/benchmark_runqy_pipelined.py:129-133 | errors never exceed the jobs sent so far; they are 0 when no batch fails and every job sent when every batch fails |
| Pipelined.FailedJobs | scripts/benchmark_runqy_pipelined.py:129-132 | each batch whose `execute()` raised adds its window size to `errors`; bounded by `FailedJobsBound` (no contract of its own) |
| Pipelined.Latencies | scripts/benchmark_runqy_pipelined.py:135-136 | one latency per batch, success or failure, each the batch's elapsed time in ms |
| Pipelined.LatenciesSnoc | scripts/benchmark_runqy_pipelined.py:135-136 | batch `k` adds its elapsed time in ms after the latencies of the batches before it |
| Pipelined.QueueBatch | scripts/benchmark_runqy_pipelined.py:108-126 | the inner loop queues exactly the two commands of every job of the window, in job order |
| Pipelined.AllBatches | scripts/benchmark_runqy_pipelined.py:102-130 | there is one pipeline per batch |
| Pipelined.AllBatchesAt | scripts/benchmark_runqy_pipelined.py:102-130 | pipeline `i` is the pipeline of window `i` |
| Pipelined.AllBatchesCoverJobs | scripts/benchmark_runqy_pipelined.py:102-130 | the pipelines of the first `k` batches send the commands of jobs `0..min(k*b, n)` in order |
| Pipelined.BatchStep | scripts/benchmark_runqy_pipelined.py:102-136 | batch `k` starts `b` after batch `k-1`, ends at `min(start+b, n)`, adds its window size to the failures only when its execute fails, and appends its own pipeline |
| Pipelined.SendBatch | scripts/benchmark_runqy_pipelined.py:104-136 | one pass of the batch loop takes the failures, latencies and pipelines of the first `k` batches to those of the first `k+1` |
| Pipelined.RunBatches | scripts/benchmark_runqy_pipelined.py:102-136 | the batch loop's error count, batch latencies and pipelines are the failed jobs, one latency per batch, and one pipeline per window |
| Pipelined.Repeat | scripts/benchmark_runqy_pipelined.py:149 | `[x] * k` has `k` copies of `x` |
| Pipelined.SumRepeat | scripts/benchmark_runqy_pipelined.py:149 | `k` copies of `x` sum to `k*x` |
| Pipelined.Share | scripts/benchmark_runqy_pipelined.py:143-147 | a job's share of batch `i` times the batch's size gives back the batch latency |
| Pipelined.Attributed | scripts/benchmark_runqy_pipelined.py:141-149 | each batch extends the per-job list with its share, once per job of the window; its length is `AttributedLength`, its entries `AttributedAt` (no contract of its own) |
| Pipelined.AttributedLength | scripts/benchmark_runqy_pipelined.py:143-149 | after `k` batches the per-job list has `min(k*b, n)` entries |
| Pipelined.AttributedAt | scripts/benchmark_runqy_pipelined.py:143-149 | the per-job entry of job `j` is the share of batch `j / b` |
| Pipelined.BatchSlice | scripts/benchmark_runqy_pipelined.py:145-149 | the per-job entries of a batch's window are its share repeated once per member |
| Pipelined.InBatch | scripts/benchmark_runqy_pipelined.py:145-149 | each member of a batch gets the batch's share |
| Pipelined.BatchShareSums | scripts/benchmark_runqy_pipelined.py:147-149 | the per-job entries of a batch sum to that batch's latency |
| Pipelined.SharesSumBack | scripts/benchmark_runqy_pipelined.py:148-149 | `s` copies of `x / s` sum back to `x` |
| Pipelined.AttributeLatencies | scripts/benchmark_runqy_pipelined.py:143-149 | the attribution loop builds the specified per-job list, with exactly `jobs_count` entries |
| Pipelined.BenchmarkPipelined | scripts/benchmark_runqy_pipelined.py:73-167 | registers the queue first, and a registration that raises is a Redis error with nothing else sent; step 0 is a `ValueError` with nothing sent; the pipelines send every job's commands once, in order; zero time is a `ZeroDivisionError` and zero jobs an `IndexError`; otherwise the record holds the picks of the sorted per-job list, errors <= job count, and p50 <= p95 <= p99 |
| Direct.SubmitTaskDirect | scripts/benchmark_runqy_direct.py:76-110 | always returns a pair: the elapsed time, and no error exactly when nothing raised, else the message; the pipeline is LPUSH on the pending key, HSET pending on the task key, SADD of the queue |
| Direct.SubmitKeys | scripts/benchmark_runqy_direct.py:91-103 | the LPUSH key names the queue, and the three keys are distinct |
| Direct.Latencies | scripts/benchmark_runqy_direct.py:138-140 | one latency per completed job |
| Direct.LatenciesAt | scripts/benchmark_runqy_direct.py:139-140 | the latency at position `i` is the latency of the `i`th completed outcome |
| Direct.Truthy | scripts/benchmark_runqy_direct.py:141 | `if error:` holds exactly for a message that is present and not empty (no contract of its own) |
| Direct.Count | scripts/benchmark_runqy_direct.py:141-142 | the outcomes that add an error, all failures or only those with a non-empty message, never exceed the job count |
| Direct.CountFailed | scripts/benchmark_runqy_direct.py:141-142 | the count every failure would give (`error is not None`), never above the number of jobs |
| Direct.CountConcat | scripts/benchmark_runqy_direct.py:138-142 | either error count of two runs of outcomes is the sum of their counts |
| Direct.CountFailedExtremes | scripts/benchmark_runqy_direct.py:141-142 | the count is 0 exactly when no outcome failed, and the job count exactly when all failed |
| Direct.LatenciesConcat | scripts/benchmark_runqy_direct.py:138-140 | the latencies of two runs of outcomes concatenate |
| Direct.CountPermutation | scripts/benchmark_runqy_direct.py:138 | neither error count depends on the completion order |
| Direct.LatenciesPermutation | scripts/benchmark_runqy_direct.py:138 | the collected latencies are the same multiset in any completion order |
| Direct.CollectOutcomes | scripts/benchmark_runqy_direct.py:138-142 | the collection loop yields one latency per outcome and the number of truthy error messages, which is at most the failures and equal to them when no message is empty |
| Direct.SortedMs | scripts/benchmark_runqy_direct.py:148-149 | sorting then scaling gives an ascending ms list of the job count's length |
| Direct.SortedMsFromOutcomes | scripts/benchmark_runqy_direct.py:148-149 | every ms value is 1000 times some outcome's latency |
| Direct.SortedMsPermutation | scripts/benchmark_runqy_direct.py:138-149 | the sorted ms list and the error count as written are the same in any completion order |
| Direct.BenchmarkRunqyDirect | scripts/benchmark_runqy_direct.py:113-164 | zero time is a `ZeroDivisionError`, zero jobs an `IndexError`; otherwise the record holds the picks of the sorted ms list, which are members of it with p50 <= p95 <= p99, and the truthy error count, at most the job count |
| Direct.CountTruthy | scripts/benchmark_runqy_direct.py:141-142 | the count `if error:` computes never exceeds the number of jobs |
| Direct.TruthyUndercounts | scripts/benchmark_runqy_direct.py:141 | the count as written never exceeds the failures, and equals them exactly when no error message is empty |
| Direct.EmptyMessageNotCounted | scripts/benchmark_runqy_direct.py:141 | one failure whose exception has an empty message is counted 0 times as written, 1 time as intended |
| Temporal.SubmitWorkflow | scripts/benchmark_temporal.py:39-53 | success exactly when the start did not raise; a success carries the elapsed ms, a failure 0.0 |
| Temporal.WarmupCount | scripts/benchmark_temporal.py:75 | the warmup is a tenth of the jobs rounded down, capped at 100 |
| Temporal.Successes | scripts/benchmark_temporal.py:95-97 | never more latencies than results |
| Temporal.CountFailures | scripts/benchmark_temporal.py:98-99 | never more errors than results |
| Temporal.ResultsPartition | scripts/benchmark_temporal.py:95-99 | `len(latencies) + errors == job_count` |
| Temporal.SuccessesFromSuccesses | scripts/benchmark_temporal.py:51-53 | every collected latency is that of a successful start, so a failure's 0.0 never enters |
| Temporal.NoSuccesses | scripts/benchmark_temporal.py:95-99 | no latencies exactly when every start failed, and then every job is an error |
| Temporal.CollectResults | scripts/benchmark_temporal.py:95-99 | the collection loop yields the specified latencies and error count |
| Temporal.RunBenchmark | scripts/benchmark_temporal.py:92-118 | no successes gives the zero record with the job count and errors; otherwise zero time is a `ZeroDivisionError`, else the picks of the sorted successes with p50 <= p95 <= p99 and errors <= job count |
| BatchEndpoint.AcceptedIds | scripts/benchmark_batch_endpoint.py:76-90 | never more task ids than jobs |
| BatchEndpoint.Messages | scripts/benchmark_batch_endpoint.py:91-92 | never more error messages than jobs |
| BatchEndpoint.QueuedCommands | scripts/benchmark_batch_endpoint.py:83-88 | two commands per accepted job |
| BatchEndpoint.AcceptedPlusFailed | scripts/benchmark_batch_endpoint.py:76-92 | each job lands in exactly one of `task_ids` and `errors`; with no exception the ids are the jobs' ids in order |
| BatchEndpoint.SimulateBatchEndpoint | scripts/benchmark_batch_endpoint.py:56-107 | sends the accepted jobs' commands then SADD; a failed execute raises a Redis error; otherwise `enqueued + failed == len(jobs)` and `len(task_ids) == enqueued` |
| BatchEndpoint.PregenerateJobs | scripts/benchmark_batch_endpoint.py:122 | the jobs carry ids `0..total_jobs-1` in order |
| BatchEndpoint.RequestCount | scripts/benchmark_batch_endpoint.py:130 | the number of requests is the ceiling of `total_jobs / batch_size` |
| BatchEndpoint.RequestTimes | scripts/benchmark_batch_endpoint.py:135-137 | one request time per request, each its elapsed time |
| BatchEndpoint.RequestStep | scripts/benchmark_batch_endpoint.py:130-138 | request `k` extends the failure flag, the request times and the accepted total of the requests before it by its own |
| BatchEndpoint.Sent | scripts/benchmark_batch_endpoint.py:130-134 | the requests sent are all of them when no execute fails, else those up to and including the first failing one |
| BatchEndpoint.SentStops | scripts/benchmark_batch_endpoint.py:130-134 | once a request fails, no later request is sent |
| BatchEndpoint.SendRequest | scripts/benchmark_batch_endpoint.py:130-138 | one pass fails exactly when its execute fails; either way slice `k`'s pipeline is sent; on failure nothing is recorded, otherwise the times and the accepted total advance by request `k` |
| BatchEndpoint.SlicesCoverJobs | scripts/benchmark_batch_endpoint.py:130-131 | the slices concatenate back to the jobs, each non-empty and at most `batch_size` long |
| BatchEndpoint.TotalAcceptedBound | scripts/benchmark_batch_endpoint.py:126-138 | the accepted total after `k` requests is at most the jobs they carried |
| BatchEndpoint.TotalAccepted | scripts/benchmark_batch_endpoint.py:126-138 | `total_enqueued` after `k` requests, the sum of their accepted jobs; bounded by `TotalAcceptedBound` (no contract of its own) |
| BatchEndpoint.RequestPipelines | scripts/benchmark_batch_endpoint.py:130-134 | one pipeline per request sent |
| BatchEndpoint.SendRequests | scripts/benchmark_batch_endpoint.py:130-138 | the request loop fails exactly when some execute fails; the pipelines are those of the requests sent, up to the first failure; the request times and accepted total are those of the requests that succeeded |
| BatchEndpoint.BenchmarkBatchEndpoint | scripts/benchmark_batch_endpoint.py:110-152 | step 0 fails at the printed division; a Redis error propagates after the pipelines of the requests sent; otherwise `len(request_times)` is the request count and `total_enqueued <= total_jobs`; zero jobs fail at the average and zero time at the throughput |
| BatchEndpoint.PrintedRequestCount | scripts/benchmark_batch_endpoint.py:119 | the banner's count is the floor of `total_jobs / batch_size` |
| BatchEndpoint.PrintedUndercounts | scripts/benchmark_batch_endpoint.py:119 | the printed count never exceeds the requests sent, and equals it exactly when the division is exact |
| BatchEndpoint.PrintedCountExample | scripts/benchmark_batch_endpoint.py:119 | 250 jobs in batches of 100 print 2 requests but send 3 |
| Comparison.SummaryKey | scripts/run_all_benchmarks.py:116 | the key `scenario_jobscount`; it determines scenario and count back (`SummaryKeyInjective`) (no contract of its own) |
| Comparison.LastSeparator | scripts/run_all_benchmarks.py:116 | the last `_` position is in range and holds `_` |
| Comparison.LastSeparatorOfKey | scripts/run_all_benchmarks.py:116 | in a key the last `_` is the one after the scenario, since a count's text holds none |
| Comparison.SummaryKeyInjective | scripts/run_all_benchmarks.py:116 | two results share a summary key exactly when they share scenario and job count |
| Comparison.Keys | scripts/run_all_benchmarks.py:116 | the `i`-th key is the summary key of the `i`-th result, one per result |
| Comparison.Slots | scripts/run_all_benchmarks.py:116-119 | the `i`-th slot is the key and system the `i`-th result writes, one per result |
| Comparison.KeysSnoc | scripts/run_all_benchmarks.py:115-116 | one more result adds its key at the end of the keys |
| Comparison.SlotsSnoc | scripts/run_all_benchmarks.py:115-119 | one more result adds its key and system at the end of the slots |
| Comparison.Grouped | scripts/run_all_benchmarks.py:114-122 | the summary after the first results; every group in it holds at least one system |
| Comparison.Entry | scripts/run_all_benchmarks.py:119-122 | an entry holds the result's throughput and p99 latency; where it lands is `LastWriteWins` (no contract of its own) |
| Comparison.GroupedKeys | scripts/run_all_benchmarks.py:115-118 | a key is in the summary exactly when it is the key of some result |
| Comparison.GroupedSystems | scripts/run_all_benchmarks.py:117-119 | a system is under a key exactly when some result has that key and that system |
| Comparison.LastWriteWins | scripts/run_all_benchmarks.py:119-122 | a result's throughput and p99 sit under its key and system unless a later result with the same key and system overwrites them |
| Comparison.AddResult | scripts/run_all_benchmarks.py:116-122 | one pass of the grouping loop takes the summary of the results before it to the summary with it |
| Comparison.GenerateComparison | scripts/run_all_benchmarks.py:106-124 | `benchmarks` is the input unchanged and in order, and the loop builds the specified summary |

## Left out

- Redis, HTTP, Temporal and Celery calls are not modelled. Whether a pipeline execute, a start or a submission raised is an input. So is every elapsed time.
- msgpack encoding is not modelled. Payloads and task records are Dafny records.
- uuids are inputs: a sequence of task ids for the pipelined run, ids inside the per-job runs elsewhere.
- The `concurrency` argument, its invalid values (`ThreadPoolExecutor(max_workers=0)` raises `ValueError`, `asyncio.Semaphore(0)` blocks every submission) and the Temporal `Client.connect` are not modelled.
- Thread-pool and asyncio concurrency are not modelled. The completed outcomes are an input in any order. `Direct.CountPermutation`, `Direct.LatenciesPermutation` and `Direct.SortedMsPermutation` show that the result does not depend on that order.
- Float rounding is not modelled. Latencies are exact reals, and `round(..., 3)` in `calculate_metrics` is left out.
- `int(n * 0.95)` is modelled as the exact integer `n*95/100`. The float product can round below an integer, which this does not capture.
- Each of the repeated `time.time()` readings within one run is one clock input, `now`. The per-job `ts` readings of the pre-generated jobs in `benchmark_batch_endpoint` are one input, `ts`.
- Benchmark timestamps and `generated_at` are inputs, not clocks.
- Printing is left out, including the banner, the batch summary with its average per batch, `avg_request_time` (only printed once it is computed) and the requests per second.
- `Stats.Percentile`'s negative percentiles follow Python's negative indexing, but no script uses them.
- A job count or batch size is a `nat`. Python's `range` with a negative count or step is not modelled.
- `benchmark_bulk_insert` (pipelined script), `check_redis` (direct script), `compare_single_vs_batch` (batch endpoint script) and the `main` functions are not part of this model. They are Redis calls and printed side-by-side runs of the modelled functions.
- `run_runqy_benchmark`, `run_celery_benchmark` and `run_bullmq_benchmark` in `scripts/run_all_benchmarks.py` run subprocesses and read their JSON output, so they are not modelled.
- `save_results`, `print_results`, `run_command`, `check_prerequisites` and argparse handling are file, terminal and subprocess I/O.
- `scripts/benchmark_runqy.py`, `scripts/benchmark_celery.py`, `scripts/test_batch_endpoint.py`, the worker and task definitions are not part of this model. They are client loops already covered by the direct collection and `calculate_metrics`.
- An exception in the middle of building a job in `simulate_batch_endpoint` can leave that job's LPUSH queued without its HSET. The model assumes a failing job queues nothing.
- `Direct.SubmitTaskDirect` returns the job's three commands even when the fault came before they were queued, in `create_asynq_task` or before `pipe.lpush` (lines 87-101 of `scripts/benchmark_runqy_direct.py`). It says nothing about which of them were queued or what Redis kept.
- `BatchEndpoint.SimulateBatchEndpoint` returns the commands it would send even when the execute fails, and says nothing about what Redis kept from them.
- The comparison's JSON shape is a record with a nested map. Key order is not modelled.

## Findings

| source | as written | input that shows it | evidently intended | confidence | as-written member | corrected member |
|---|---|---|---|---|---|---|
| scripts/benchmark_runqy_direct.py:141 | `if error:` tests the message for truthiness, so an exception whose text is empty is not counted as an error | one job whose pipeline raises an exception with an empty message: errors is 0 | count every outcome whose error is not `None` | not executed | Direct.EmptyMessageNotCounted | Direct.CountFailed |
| scripts/benchmark_batch_endpoint.py:119 | the banner prints `total_jobs // batch_size` requests, but the loop sends one more when the division is not exact | 250 jobs with batch size 100: prints 2, sends 3 | print the ceiling, the number of slices | not executed | BatchEndpoint.PrintedCountExample | BatchEndpoint.RequestCount |
