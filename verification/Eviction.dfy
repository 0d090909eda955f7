/** The age limit of tasks against the longest a stream may wait. */
module Eviction {
  import opened Prelude
  import opened Tasks
  import opened Streaming

  /** When the stream last started to wait before chunk `i`. */
  function Before(startedAt: Time, chunks: seq<Time>, i: nat): Time
    requires i <= |chunks|
  {
    if i == 0 then startedAt else chunks[i - 1]
  }

  predicate IsWithin(last: Time, at: Time, startedAt: Time, taskTimeout: Time, streamMax: Time) {
    last <= at <= Deadline(startedAt, last, taskTimeout, streamMax)
  }

  /** Chunks arrived at these times, each while the stream was waiting for it. */
  ghost predicate Arrived(startedAt: Time, chunks: seq<Time>, taskTimeout: Time, streamMax: Time) {
    forall i :: 0 <= i < |chunks| ==>
      IsWithin(Before(startedAt, chunks, i), chunks[i], startedAt, taskTimeout, streamMax)
  }

  /** At `now` a stream that got its chunks at `chunks` is still within its deadline. */
  ghost predicate IsWaiting(startedAt: Time, chunks: seq<Time>, now: Time, taskTimeout: Time,
                            streamMax: Time) {
    && Arrived(startedAt, chunks, taskTimeout, streamMax)
    && IsWithin(Before(startedAt, chunks, |chunks|), now, startedAt, taskTimeout, streamMax)
  }

  /** A chunk that arrives while the stream waits gives it TASK_TIMEOUT more. */
  lemma OneMoreChunk(startedAt: Time, chunks: seq<Time>, at: Time, now: Time, taskTimeout: Time,
                     streamMax: Time)
    requires IsWaiting(startedAt, chunks, at, taskTimeout, streamMax)
    requires IsWithin(at, now, startedAt, taskTimeout, streamMax)
    ensures IsWaiting(startedAt, chunks + [at], now, taskTimeout, streamMax)
  {
    var longer := chunks + [at];
    forall i | 0 <= i < |longer|
      ensures IsWithin(Before(startedAt, longer, i), longer[i], startedAt, taskTimeout, streamMax)
    {
      assert Before(startedAt, longer, i) == Before(startedAt, chunks, i);
      if i < |chunks| {
        assert longer[i] == chunks[i];
      }
    }
  }

  /** Enough chunks keep a stream waiting until any moment before its hard deadline. */
  lemma {:induction false} CanWaitUntil(startedAt: Time, now: Time, taskTimeout: Time, streamMax: Time,
                                        steps: nat)
    returns (chunks: seq<Time>)
    requires taskTimeout > 0.0 && startedAt <= now <= startedAt + streamMax
    requires now <= startedAt + (steps as real + 1.0) * taskTimeout
    ensures IsWaiting(startedAt, chunks, now, taskTimeout, streamMax)
    decreases steps
  {
    if now <= startedAt + taskTimeout {
      chunks := [];
    } else {
      var before := now - taskTimeout;
      var earlier := CanWaitUntil(startedAt, before, taskTimeout, streamMax, steps - 1);
      OneMoreChunk(startedAt, earlier, before, now, taskTimeout, streamMax);
      chunks := earlier + [before];
    }
  }

  /** Whatever the chunk pattern and whichever tasks are created meanwhile, `id` stays tracked as
      long as its stream waits. */
  ghost predicate NeverEvictedWaiting(createdAt: Time, startedAt: Time, taskTimeout: Time,
                                      streamMax: Time) {
    forall tr: Tracker, id, other: TaskId, node: NodeId, conn: Conn, chunks, now ::
      tr.maxAge == Some(streamMax + taskTimeout) && id in tr.tasks
      && tr.tasks[id].createdAt == createdAt
      && IsWaiting(startedAt, chunks, now, taskTimeout, streamMax) ==>
        id in tr.Create(other, node, conn, now).tasks
  }

  /** The backstop never takes a task whose stream still waits, exactly when the stream's body
      started within TASK_TIMEOUT of the task's creation. */
  lemma EvictionIsSafe(createdAt: Time, startedAt: Time, taskTimeout: Time, streamMax: Time)
    requires taskTimeout > 0.0 && streamMax > 0.0 && createdAt <= startedAt
    ensures NeverEvictedWaiting(createdAt, startedAt, taskTimeout, streamMax)
            <==> startedAt - createdAt <= taskTimeout
  {
    if startedAt - createdAt > taskTimeout {
      var now := startedAt + streamMax;
      var ratio := streamMax / taskTimeout;
      var steps := ratio.Floor;
      ScaleReal(ratio, steps as real + 1.0, taskTimeout);
      var chunks := CanWaitUntil(startedAt, now, taskTimeout, streamMax, steps);
      var task := NewTask("node", 0, createdAt);
      var tr := Tracker(map["a" := task], Some(streamMax + taskTimeout), None);
      assert "a" !in tr.Create("b", "node", 0, now).tasks;
    }
  }
}
