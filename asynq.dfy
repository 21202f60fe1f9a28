/** The asynq layout that the direct, pipelined and batch-endpoint runners
    write into Redis: the key names, the task record handed to msgpack, the
    task metadata hash, and the three Redis commands they queue. The
    msgpack byte encoding itself is not modelled: a task is its record. */
module Asynq {
  import opened Runtime

  /** The set of known queues, `asynq:queues`. */
  const QueuesKey: string := "asynq:queues"

  /** `f"asynq:{{{queue}}}:pending"`, the list a queue's pending tasks are pushed onto. */
  function PendingKey(queue: string): (k: string)
    ensures |k| == |queue| + 16
  {
    "asynq:{" + queue + "}:pending"
  }

  /** `f"asynq:t:{task_id}"`, the hash holding one task's metadata. */
  function TaskKey(taskId: string): (k: string)
    ensures |k| == |taskId| + 8
  {
    "asynq:t:" + taskId
  }

  /** Reads the queue name back out of a pending-list key. */
  function QueueOfPendingKey(key: string): (q: Option<string>)
    ensures q.Some? ==> |key| >= 16
  {
    if |key| >= 16 && key[..7] == "asynq:{" && key[|key| - 9..] == "}:pending"
    then Some(key[7..|key| - 9])
    else None
  }

  /** The pending key names its queue, and only keys of that form parse. */
  lemma PendingKeyRoundTrip(queue: string, key: string)
    ensures QueueOfPendingKey(PendingKey(queue)) == Some(queue)
    ensures QueueOfPendingKey(key) == Some(queue) ==> key == PendingKey(queue)
  {
    var k := PendingKey(queue);
    assert k[..7] == "asynq:{" && k[|k| - 9..] == "}:pending" && k[7..|k| - 9] == queue;
    if QueueOfPendingKey(key) == Some(queue) {
      assert key == key[..7] + key[7..|key| - 9] + key[|key| - 9..];
    }
  }

  /** Different task ids get different metadata hashes. */
  lemma TaskKeyInjective(a: string, b: string)
    requires TaskKey(a) == TaskKey(b)
    ensures a == b
  {
    assert a == TaskKey(a)[8..] && b == TaskKey(b)[8..];
  }

  /** The three kinds of key never collide: they differ at their seventh
      character (`{`, `t`, `q`). */
  lemma KeysDistinct(queue: string, taskId: string)
    ensures PendingKey(queue) != TaskKey(taskId)
    ensures PendingKey(queue) != QueuesKey
    ensures TaskKey(taskId) != QueuesKey
  {
    assert PendingKey(queue)[6] == '{';
    assert TaskKey(taskId)[6] == 't';
    assert QueuesKey[6] == 'q';
  }

  /** The job payloads the runners pack: `{"id", "scenario", "timestamp"}`
      for the direct and pipelined runners, `{"id", "scenario", "ts"}` for
      the pre-generated jobs of the batch endpoint. */
  datatype Payload =
    | JobPayload(id: int, scenario: string, timestamp: real)
    | BatchJob(id: int, scenario: string, ts: real)

  /** The task dictionary of `create_asynq_task`. */
  datatype AsynqTask = AsynqTask(
    typeName: string,
    payload: Payload,
    id: string,
    queue: string,
    retry: int,
    timeout: int,
    deadline: int)

  const MaxRetry: int := 3
  const TimeoutSeconds: int := 30
  const DeadlineSeconds: int := 3600

  /** `create_asynq_task`; `now` is the `time.time()` reading. */
  function CreateAsynqTask(taskId: string, queue: string, payload: Payload, now: real): (t: AsynqTask)
    ensures t.typeName == "task:" + queue && t.queue == queue
    ensures t.id == taskId && t.payload == payload
    ensures t.retry == MaxRetry && t.timeout == TimeoutSeconds
    ensures t.deadline == Trunc(now) + DeadlineSeconds
  {
    AsynqTask("task:" + queue, payload, taskId, queue, 3, 30, Trunc(now) + 3600)
  }

  /** The hash written next to each task: `{"queue", "state": "pending", "created"}`. */
  datatype TaskMeta = TaskMeta(queue: string, state: string, created: string)

  datatype Command =
    | LPush(key: string, task: AsynqTask)
    | HSet(key: string, meta: TaskMeta)
    | SAdd(key: string, member: string)

  /** The two commands queued per job: push the task onto the queue's
      pending list and record its metadata under its own key. */
  function EnqueueCommands(taskId: string, queue: string, payload: Payload, now: real): (cmds: seq<Command>)
    ensures |cmds| == 2
    ensures cmds[0].LPush? && cmds[0].key == PendingKey(queue) && cmds[0].task.id == taskId
    ensures cmds[1].HSet? && cmds[1].key == TaskKey(taskId) && cmds[1].meta.queue == queue
    ensures cmds[1].meta.state == "pending"
  {
    [ LPush(PendingKey(queue), CreateAsynqTask(taskId, queue, payload, now)),
      HSet(TaskKey(taskId), TaskMeta(queue, "pending", IntToString(Trunc(now)))) ]
  }

  /** The `created` field is the decimal text of the whole-second clock reading. */
  lemma CreatedReadsBack(taskId: string, queue: string, payload: Payload, now: real)
    ensures var meta := EnqueueCommands(taskId, queue, payload, now)[1].meta;
      (forall k :: 0 <= k < |meta.created| ==> IsDigit(meta.created[k]) || meta.created[k] == '-')
      && (forall k :: 1 <= k < |meta.created| ==> IsDigit(meta.created[k]))
      && |meta.created| >= 1
      && ParseInt(meta.created) == Trunc(now)
  {
    IntToStringRoundTrip(Trunc(now));
  }
}
