/** tasks.py: in-flight task tracking between requests and node connections. */
module Tasks {
  import opened Prelude

  /** What a node reports for a finished task; `completed` is status == 'completed'. */
  datatype Payload = Payload(completed: bool, result: string)

  datatype Fault = NodeDisconnected | ResultTooLarge

  datatype Event = Chunk(delta: string) | Result(payload: Payload) | Error(fault: Fault)

  /** The value of a pending task: `taken` was already dequeued, `events` still waits. */
  datatype Task = Task(nodeId: NodeId, conn: Conn, taken: seq<Event>, events: seq<Event>,
                       createdAt: Time, finishedAt: Option<Time>, streamedBytes: nat)
  {
    /** Every event ever put on the task's queue. */
    function Log(): seq<Event> {
      taken + events
    }
  }

  function NewTask(nodeId: NodeId, conn: Conn, now: Time): Task {
    Task(nodeId, conn, [], [], now, None, 0)
  }

  predicate TooLarge(size: nat, maxBytes: Option<int>) {
    maxBytes.Some? && size > maxBytes.value
  }

  function Put(t: Task, e: Event): Task {
    t.(events := t.events + [e])
  }

  function Failed(t: Task, fault: Fault, now: Time): Task {
    Put(t.(finishedAt := Some(now)), Error(fault))
  }

  function TakeChunk(t: Task, delta: string, now: Time, maxBytes: Option<int>): Task {
    if t.finishedAt.Some? then t
    else
      var t := t.(streamedBytes := t.streamedBytes + Utf8Len(delta));
      if TooLarge(t.streamedBytes, maxBytes) then Failed(t, ResultTooLarge, now)
      else Put(t, Chunk(delta))
  }

  function TakeResult(t: Task, payload: Payload, now: Time, maxBytes: Option<int>): Task {
    if t.finishedAt.Some? then t
    else if TooLarge(Utf8Len(payload.result), maxBytes) then Failed(t, ResultTooLarge, now)
    else Put(t.(finishedAt := Some(now)), Result(payload))
  }

  function Disconnect(t: Task, conn: Conn, now: Time): Task {
    if t.conn == conn && t.finishedAt.None? then Failed(t, NodeDisconnected, now) else t
  }

  /** One dequeue from a queue that is not empty. */
  function Dequeue(t: Task): Task
    requires t.events != []
  {
    t.(taken := t.taken + [t.events[0]], events := t.events[1..])
  }

  /** The value of the tracker; every operation is a function of it. */
  datatype Tracker = Tracker(tasks: map<TaskId, Task>, maxAge: Option<Time>, maxBytes: Option<int>)
  {
    predicate Expired(id: TaskId, now: Time)
      requires id in tasks
    {
      maxAge.Some? && now - tasks[id].createdAt > maxAge.value
    }

    function Evict(now: Time): Tracker {
      this.(tasks := map id | id in tasks && !Expired(id, now) :: tasks[id])
    }

    function Create(id: TaskId, nodeId: NodeId, conn: Conn, now: Time): Tracker {
      var t := Evict(now);
      t.(tasks := t.tasks[id := NewTask(nodeId, conn, now)])
    }

    function Pop(id: TaskId): Tracker {
      this.(tasks := tasks - {id})
    }

    predicate Owned(id: TaskId, conn: Conn) {
      id in tasks && tasks[id].conn == conn
    }

    function AddChunk(id: TaskId, conn: Conn, delta: string, now: Time): Tracker {
      if Owned(id, conn) then this.(tasks := tasks[id := TakeChunk(tasks[id], delta, now, maxBytes)])
      else this
    }

    function Resolve(id: TaskId, conn: Conn, payload: Payload, now: Time): Tracker {
      if Owned(id, conn) then this.(tasks := tasks[id := TakeResult(tasks[id], payload, now, maxBytes)])
      else this
    }

    function FailConnection(conn: Conn, now: Time): Tracker {
      this.(tasks := map id | id in tasks :: Disconnect(tasks[id], conn, now))
    }

    function Next(id: TaskId): Tracker {
      if id in tasks && tasks[id].events != [] then this.(tasks := tasks[id := Dequeue(tasks[id])])
      else this
    }
  }

  /* ---- The event log of a task, over any sequence of calls ---- */

  datatype Op =
    | OpCreate(id: TaskId, nodeId: NodeId, conn: Conn, now: Time)
    | OpPop(id: TaskId)
    | OpChunk(id: TaskId, conn: Conn, delta: string, now: Time)
    | OpResult(id: TaskId, conn: Conn, payload: Payload, now: Time)
    | OpFail(conn: Conn, now: Time)
    | OpNext(id: TaskId)

  function Apply(tr: Tracker, op: Op): Tracker {
    match op
    case OpCreate(id, nodeId, conn, now) => tr.Create(id, nodeId, conn, now)
    case OpPop(id) => tr.Pop(id)
    case OpChunk(id, conn, delta, now) => tr.AddChunk(id, conn, delta, now)
    case OpResult(id, conn, payload, now) => tr.Resolve(id, conn, payload, now)
    case OpFail(conn, now) => tr.FailConnection(conn, now)
    case OpNext(id) => tr.Next(id)
  }

  function ApplyAll(tr: Tracker, ops: seq<Op>): Tracker
    decreases |ops|
  {
    if ops == [] then tr else ApplyAll(Apply(tr, ops[0]), ops[1..])
  }

  /** The texts of the chunks in a log, in order. */
  function ChunkTexts(log: seq<Event>): seq<string> {
    if log == [] then []
    else if log[0].Chunk? then [log[0].delta] + ChunkTexts(log[1..])
    else ChunkTexts(log[1..])
  }

  lemma {:induction false} ChunkTextsAppend(a: seq<Event>, b: seq<Event>)
    ensures ChunkTexts(a + b) == ChunkTexts(a) + ChunkTexts(b)
  {
    if a == [] {
      assert a + b == b;
    } else {
      assert (a + b)[1..] == a[1..] + b;
      ChunkTextsAppend(a[1..], b);
    }
  }

  /** Chunks, then at most one terminal event; what was accepted stays within `maxBytes`. */
  ghost predicate LogShape(log: seq<Event>, maxBytes: Option<int>) {
    && (forall i :: 0 <= i < |log| - 1 ==> log[i].Chunk?)
    && (ChunkTexts(log) != [] ==> !TooLarge(Utf8Len(Concat(ChunkTexts(log))), maxBytes))
    && (log != [] && log[|log| - 1].Result? ==>
          !TooLarge(Utf8Len(log[|log| - 1].payload.result), maxBytes))
  }

  /** The log has its shape, and the terminal event is there exactly when the task is finished. */
  ghost predicate LogOk(t: Task, maxBytes: Option<int>) {
    var log := t.Log();
    && LogShape(log, maxBytes)
    && (t.finishedAt.Some? <==> log != [] && !log[|log| - 1].Chunk?)
    && (t.finishedAt.None? ==> t.streamedBytes == Utf8Len(Concat(ChunkTexts(log))))
  }

  ghost predicate LogsOk(tr: Tracker) {
    forall id :: id in tr.tasks ==> LogOk(tr.tasks[id], tr.maxBytes)
  }

  lemma PutKeepsLogOk(t: Task, u: Task, e: Event, maxBytes: Option<int>)
    requires LogOk(t, maxBytes) && t.finishedAt.None?
    requires u.Log() == t.Log() + [e]
    requires u.finishedAt.Some? <==> !e.Chunk?
    requires e.Chunk? ==>
               && u.streamedBytes == t.streamedBytes + Utf8Len(e.delta)
               && !TooLarge(u.streamedBytes, maxBytes)
    requires e.Result? ==> !TooLarge(Utf8Len(e.payload.result), maxBytes)
    ensures LogOk(u, maxBytes)
  {
    ChunkTextsAppend(t.Log(), [e]);
    if e.Chunk? {
      assert ChunkTexts([e]) == [e.delta];
      ConcatAppend(ChunkTexts(t.Log()), [e.delta]);
      assert Concat([e.delta]) == e.delta;
      Utf8LenConcat(Concat(ChunkTexts(t.Log())), e.delta);
    } else {
      assert ChunkTexts([e]) == [];
      assert ChunkTexts(u.Log()) == ChunkTexts(t.Log());
    }
  }

  lemma ChunkKeepsLogOk(t: Task, delta: string, now: Time, maxBytes: Option<int>)
    requires LogOk(t, maxBytes)
    ensures LogOk(TakeChunk(t, delta, now, maxBytes), maxBytes)
  {
    if t.finishedAt.None? {
      var size := t.streamedBytes + Utf8Len(delta);
      var e := if TooLarge(size, maxBytes) then Error(ResultTooLarge) else Chunk(delta);
      assert (t.taken + t.events) + [e] == t.taken + (t.events + [e]);
      PutKeepsLogOk(t, TakeChunk(t, delta, now, maxBytes), e, maxBytes);
    }
  }

  lemma ResultKeepsLogOk(t: Task, payload: Payload, now: Time, maxBytes: Option<int>)
    requires LogOk(t, maxBytes)
    ensures LogOk(TakeResult(t, payload, now, maxBytes), maxBytes)
  {
    if t.finishedAt.None? {
      var e := if TooLarge(Utf8Len(payload.result), maxBytes) then Error(ResultTooLarge)
               else Result(payload);
      assert (t.taken + t.events) + [e] == t.taken + (t.events + [e]);
      PutKeepsLogOk(t, TakeResult(t, payload, now, maxBytes), e, maxBytes);
    }
  }

  lemma DisconnectKeepsLogOk(t: Task, conn: Conn, now: Time, maxBytes: Option<int>)
    requires LogOk(t, maxBytes)
    ensures LogOk(Disconnect(t, conn, now), maxBytes)
  {
    if t.finishedAt.None? && t.conn == conn {
      var e := Error(NodeDisconnected);
      assert (t.taken + t.events) + [e] == t.taken + (t.events + [e]);
      PutKeepsLogOk(t, Disconnect(t, conn, now), e, maxBytes);
    }
  }

  lemma DequeueKeepsLogOk(t: Task, maxBytes: Option<int>)
    requires LogOk(t, maxBytes) && t.events != []
    ensures Dequeue(t).Log() == t.Log() && LogOk(Dequeue(t), maxBytes)
  {
    assert (t.taken + [t.events[0]]) + t.events[1..] == t.Log();
  }

  lemma UpdateKeepsLogsOk(tr: Tracker, id: TaskId, t: Task)
    requires LogsOk(tr) && LogOk(t, tr.maxBytes)
    ensures LogsOk(tr.(tasks := tr.tasks[id := t]))
  {
  }

  lemma AddChunkKeepsLogsOk(tr: Tracker, id: TaskId, conn: Conn, delta: string, now: Time)
    requires LogsOk(tr)
    ensures LogsOk(tr.AddChunk(id, conn, delta, now))
  {
    if tr.Owned(id, conn) {
      ChunkKeepsLogOk(tr.tasks[id], delta, now, tr.maxBytes);
      UpdateKeepsLogsOk(tr, id, TakeChunk(tr.tasks[id], delta, now, tr.maxBytes));
    }
  }

  lemma ResolveKeepsLogsOk(tr: Tracker, id: TaskId, conn: Conn, payload: Payload, now: Time)
    requires LogsOk(tr)
    ensures LogsOk(tr.Resolve(id, conn, payload, now))
  {
    if tr.Owned(id, conn) {
      ResultKeepsLogOk(tr.tasks[id], payload, now, tr.maxBytes);
      UpdateKeepsLogsOk(tr, id, TakeResult(tr.tasks[id], payload, now, tr.maxBytes));
    }
  }

  lemma NextKeepsLogsOk(tr: Tracker, id: TaskId)
    requires LogsOk(tr)
    ensures LogsOk(tr.Next(id))
  {
    if id in tr.tasks && tr.tasks[id].events != [] {
      DequeueKeepsLogOk(tr.tasks[id], tr.maxBytes);
      UpdateKeepsLogsOk(tr, id, Dequeue(tr.tasks[id]));
    }
  }

  lemma FailConnectionKeepsLogsOk(tr: Tracker, conn: Conn, now: Time)
    requires LogsOk(tr)
    ensures LogsOk(tr.FailConnection(conn, now))
  {
    forall id | id in tr.tasks
      ensures LogOk(Disconnect(tr.tasks[id], conn, now), tr.maxBytes)
    {
      DisconnectKeepsLogOk(tr.tasks[id], conn, now, tr.maxBytes);
    }
  }

  lemma CreateKeepsLogsOk(tr: Tracker, id: TaskId, nodeId: NodeId, conn: Conn, now: Time)
    requires LogsOk(tr)
    ensures LogsOk(tr.Create(id, nodeId, conn, now))
  {
  }

  lemma ApplyKeepsLogsOk(tr: Tracker, op: Op)
    requires LogsOk(tr)
    ensures LogsOk(Apply(tr, op)) && Apply(tr, op).maxBytes == tr.maxBytes
  {
    match op
    case OpCreate(id, nodeId, conn, now) => CreateKeepsLogsOk(tr, id, nodeId, conn, now);
    case OpPop(_) =>
    case OpChunk(id, conn, delta, now) => AddChunkKeepsLogsOk(tr, id, conn, delta, now);
    case OpResult(id, conn, payload, now) => ResolveKeepsLogsOk(tr, id, conn, payload, now);
    case OpFail(conn, now) => FailConnectionKeepsLogsOk(tr, conn, now);
    case OpNext(id) => NextKeepsLogsOk(tr, id);
  }

  /** Over any sequence of calls, every tracked task's event log is well formed and bounded. */
  lemma {:induction false} EventLogs(tr: Tracker, ops: seq<Op>)
    requires LogsOk(tr)
    ensures LogsOk(ApplyAll(tr, ops)) && ApplyAll(tr, ops).maxBytes == tr.maxBytes
    decreases |ops|
  {
    if ops != [] {
      ApplyKeepsLogsOk(tr, ops[0]);
      EventLogs(Apply(tr, ops[0]), ops[1..]);
    }
  }

  /* ---- What each message does, in full ---- */

  /** The other tasks are as they were, and so is everything about this one but its log and its end. */
  ghost predicate OnlyLogged(before: Tracker, after: Tracker, id: TaskId)
    requires id in before.tasks && id in after.tasks
  {
    && after.maxAge == before.maxAge && after.maxBytes == before.maxBytes
    && after.tasks.Keys == before.tasks.Keys
    && (forall i :: i in before.tasks && i != id ==> after.tasks[i] == before.tasks[i])
    && after.tasks[id].nodeId == before.tasks[id].nodeId
    && after.tasks[id].conn == before.tasks[id].conn
    && after.tasks[id].createdAt == before.tasks[id].createdAt
  }

  /** An unfinished task's result is queued as it came, whatever its status, unless it is too large. */
  lemma ResolveExactly(tr: Tracker, id: TaskId, conn: Conn, payload: Payload, now: Time)
    requires id in tr.tasks && tr.tasks[id].conn == conn && tr.tasks[id].finishedAt.None?
    ensures var after := tr.Resolve(id, conn, payload, now);
            && id in after.tasks && OnlyLogged(tr, after, id)
            && after.tasks[id].finishedAt == Some(now)
            && after.tasks[id].Log()
               == tr.tasks[id].Log()
                  + [if tr.maxBytes.None? || Utf8Len(payload.result) <= tr.maxBytes.value
                     then Result(payload) else Error(ResultTooLarge)]
  {
    var t := tr.tasks[id];
    assert forall e :: (t.taken + t.events) + [e] == t.taken + (t.events + [e]);
  }

  /** An unfinished task's chunk is queued, and leaves it unfinished, as long as the bytes of all its
      chunks are within the limit. */
  lemma AddChunkExactly(tr: Tracker, id: TaskId, conn: Conn, delta: string, now: Time)
    requires id in tr.tasks && tr.tasks[id].conn == conn && tr.tasks[id].finishedAt.None?
    requires LogOk(tr.tasks[id], tr.maxBytes)
    ensures var after := tr.AddChunk(id, conn, delta, now);
            var bytes := Utf8Len(Concat(ChunkTexts(tr.tasks[id].Log()) + [delta]));
            && id in after.tasks && OnlyLogged(tr, after, id)
            && (if tr.maxBytes.None? || bytes <= tr.maxBytes.value then
                  after.tasks[id].Log() == tr.tasks[id].Log() + [Chunk(delta)]
                  && after.tasks[id].finishedAt == None
                else
                  after.tasks[id].Log() == tr.tasks[id].Log() + [Error(ResultTooLarge)]
                  && after.tasks[id].finishedAt == Some(now))
  {
    var t, texts := tr.tasks[id], ChunkTexts(tr.tasks[id].Log());
    ConcatAppend(texts, [delta]);
    assert Concat([delta]) == delta;
    Utf8LenConcat(Concat(texts), delta);
    assert forall e :: (t.taken + t.events) + [e] == t.taken + (t.events + [e]);
  }

  /** The end of a connection adds the disconnect to its unfinished tasks and leaves the others alone. */
  lemma FailConnectionExactly(tr: Tracker, conn: Conn, now: Time, id: TaskId)
    requires id in tr.tasks
    ensures var after := tr.FailConnection(conn, now);
            && after.tasks.Keys == tr.tasks.Keys
            && if tr.tasks[id].conn == conn && tr.tasks[id].finishedAt.None? then
                 && after.tasks[id].Log() == tr.tasks[id].Log() + [Error(NodeDisconnected)]
                 && after.tasks[id].finishedAt == Some(now)
               else after.tasks[id] == tr.tasks[id]
  {
    var t := tr.tasks[id];
    assert forall e :: (t.taken + t.events) + [e] == t.taken + (t.events + [e]);
  }

  /** Tracking a task: it starts unfinished, on its connection and with an empty log; of the other tasks
      exactly those stay that are no older than the limit, as they were. */
  lemma CreateExactly(tr: Tracker, id: TaskId, nodeId: NodeId, conn: Conn, now: Time, other: TaskId)
    ensures var after := tr.Create(id, nodeId, conn, now);
            && id in after.tasks && after.tasks[id].Log() == [] && after.tasks[id].finishedAt == None
            && after.tasks[id].nodeId == nodeId && after.tasks[id].conn == conn
            && after.tasks[id].createdAt == now && after.tasks[id].streamedBytes == 0
            && after.maxAge == tr.maxAge && after.maxBytes == tr.maxBytes
            && (other != id ==>
                  Get(after.tasks, other)
                  == if other in tr.tasks
                        && (tr.maxAge.None? || now - tr.tasks[other].createdAt <= tr.maxAge.value)
                     then Some(tr.tasks[other]) else None)
  {
  }

  /** Releasing a task forgets it alone; its holder's next event is the oldest not yet taken. */
  lemma ReleaseAndNextExactly(tr: Tracker, id: TaskId, other: TaskId)
    ensures Get(tr.Pop(id).tasks, other) == if other == id then None else Get(tr.tasks, other)
    ensures id in tr.tasks && tr.tasks[id].events != [] ==>
              && id in tr.Next(id).tasks && OnlyLogged(tr, tr.Next(id), id)
              && tr.Next(id).tasks[id].Log() == tr.tasks[id].Log()
              && tr.Next(id).tasks[id].taken == tr.tasks[id].taken + [tr.tasks[id].events[0]]
              && tr.Next(id).tasks[id].finishedAt == tr.tasks[id].finishedAt
  {
    if id in tr.tasks && tr.tasks[id].events != [] {
      var t := tr.tasks[id];
      assert t.taken + [t.events[0]] + t.events[1..] == t.taken + t.events;
    }
  }

  /** Messages about finished or unknown tasks, or from other connections, change nothing. */
  lemma OtherMessagesDoNothing(tr: Tracker, id: TaskId, conn: Conn, delta: string, payload: Payload,
                               now: Time)
    requires id !in tr.tasks || tr.tasks[id].conn != conn || tr.tasks[id].finishedAt.Some?
    ensures tr.AddChunk(id, conn, delta, now) == tr && tr.Resolve(id, conn, payload, now) == tr
  {
    if id in tr.tasks {
      assert tr.tasks[id := tr.tasks[id]] == tr.tasks;
    }
  }

  /* ---- What the coroutine that holds a task sees of it ---- */

  lemma {:induction false} ApplyAllConcat(tr: Tracker, a: seq<Op>, b: seq<Op>)
    ensures ApplyAll(tr, a + b) == ApplyAll(ApplyAll(tr, a), b)
    decreases |a|
  {
    if a == [] {
      assert a + b == b;
    } else {
      assert (a + b)[1..] == a[1..] + b;
      ApplyAllConcat(Apply(tr, a[0]), a[1..], b);
    }
  }

  /** Nobody else creates a task under one of our ids (they are fresh UUIDs). */
  ghost predicate Foreign(ops: seq<Op>, own: set<TaskId>) {
    forall op :: op in ops && op.OpCreate? ==> op.id !in own
  }

  /** Every event put on the latest task of `id` over these calls, also when it is no longer tracked. */
  function LastLog(tr: Tracker, ops: seq<Op>, id: TaskId): seq<Event>
    decreases |ops|
  {
    var after := ApplyAll(tr, ops);
    if id in after.tasks then after.tasks[id].Log()
    else if ops == [] then []
    else LastLog(tr, ops[..|ops| - 1], id)
  }

  lemma OneMoreOp(tr: Tracker, ops: seq<Op>, op: Op, id: TaskId)
    requires op.OpCreate? ==> op.id != id
    ensures LastLog(tr, ops, id) <= LastLog(tr, ops + [op], id)
  {
    var before := ApplyAll(tr, ops);
    ApplyAllConcat(tr, ops, [op]);
    assert ApplyAll(before, [op]) == Apply(before, op);
    assert (ops + [op])[..|ops|] == ops;
    var after := Apply(before, op);
    if id in after.tasks {
      LogGrows(before, op, id);
    }
  }

  /** A call adds events to a task or leaves its log alone. */
  lemma LogGrows(tr: Tracker, op: Op, id: TaskId)
    requires op.OpCreate? ==> op.id != id
    requires id in Apply(tr, op).tasks
    ensures id in tr.tasks && tr.tasks[id].Log() <= Apply(tr, op).tasks[id].Log()
  {
  }

  lemma {:induction false} LastLogGrows(tr: Tracker, past: seq<Op>, ops: seq<Op>, id: TaskId)
    requires Foreign(ops, {id})
    ensures LastLog(tr, past, id) <= LastLog(tr, past + ops, id)
    decreases |ops|
  {
    if ops == [] {
      assert past + ops == past;
    } else {
      var init, last := ops[..|ops| - 1], ops[|ops| - 1];
      assert last in ops;
      LastLogGrows(tr, past, init, id);
      OneMoreOp(tr, past + init, last, id);
      assert past + ops == (past + init) + [last];
    }
  }

  /** What a task's holder sees is well formed and bounded, too. */
  lemma {:induction false} LastLogOk(tr: Tracker, ops: seq<Op>, id: TaskId)
    requires LogsOk(tr)
    ensures LogShape(LastLog(tr, ops, id), tr.maxBytes)
    decreases |ops|
  {
    EventLogs(tr, ops);
    if id !in ApplyAll(tr, ops).tasks && ops != [] {
      LastLogOk(tr, ops[..|ops| - 1], id);
    }
  }

  /* ---- Only the task's own connection matters to it ---- */

  /** May `op` concern task `id`, which was assigned on `conn`? */
  predicate Concerns(op: Op, id: TaskId, conn: Conn) {
    match op
    case OpCreate(_, _, _, _) => true
    case OpPop(i) => i == id
    case OpChunk(i, c, _, _) => i == id && c == conn
    case OpResult(i, c, _, _) => i == id && c == conn
    case OpFail(c, _) => c == conn
    case OpNext(i) => i == id
  }

  function OnlyConcerning(ops: seq<Op>, id: TaskId, conn: Conn): seq<Op> {
    if ops == [] then []
    else (if Concerns(ops[0], id, conn) then [ops[0]] else []) + OnlyConcerning(ops[1..], id, conn)
  }

  /** `a` and `b` hold the same for `id`, which is on `conn` if it is tracked at all. */
  ghost predicate Agree(a: Tracker, b: Tracker, id: TaskId, conn: Conn) {
    && a.maxAge == b.maxAge && a.maxBytes == b.maxBytes
    && Get(a.tasks, id) == Get(b.tasks, id)
    && (id in a.tasks ==> a.tasks[id].conn == conn)
  }

  /** A node can only answer tasks it was given: dropping every message about other tasks, every
      message on other connections and the end of every other connection leaves the task's
      event queue, finish time and byte count exactly as they were. */
  lemma {:induction false} OnlyOwnConnectionCounts(a: Tracker, b: Tracker, ops: seq<Op>, id: TaskId,
                                                   conn: Conn)
    requires Agree(a, b, id, conn)
    requires forall op :: op in ops && op.OpCreate? ==> op.id != id
    ensures Agree(ApplyAll(a, ops), ApplyAll(b, OnlyConcerning(ops, id, conn)), id, conn)
    decreases |ops|
  {
    if ops != [] {
      var op, kept := ops[0], OnlyConcerning(ops[1..], id, conn);
      assert op in ops;
      var a' := Apply(a, op);
      if Concerns(op, id, conn) {
        var b' := Apply(b, op);
        assert Agree(a', b', id, conn);
        OnlyOwnConnectionCounts(a', b', ops[1..], id, conn);
        assert ([op] + kept)[1..] == kept;
      } else {
        assert Agree(a', b, id, conn);
        OnlyOwnConnectionCounts(a', b, ops[1..], id, conn);
        assert [] + kept == kept;
      }
    }
  }

  /* ---- The tracker as the program keeps it: a dictionary of task objects ---- */

  class PendingTask {
    const taskId: TaskId
    const nodeId: NodeId
    const conn: Conn
    const createdAt: Time
    var events: seq<Event>
    var finishedAt: Option<Time>
    var streamedBytes: nat
    ghost var taken: seq<Event>

    constructor (taskId: TaskId, nodeId: NodeId, conn: Conn, now: Time)
      ensures this.taskId == taskId && View() == NewTask(nodeId, conn, now)
    {
      this.taskId, this.nodeId, this.conn, this.createdAt := taskId, nodeId, conn, now;
      events, finishedAt, streamedBytes, taken := [], None, 0, [];
    }

    ghost function View(): Task
      reads this
    {
      Task(nodeId, conn, taken, events, createdAt, finishedAt, streamedBytes)
    }

    method Fail(fault: Fault, now: Time)
      modifies this
      ensures View() == Failed(old(View()), fault, now)
    {
      finishedAt := Some(now);
      events := events + [Error(fault)];
    }

    /** task.events.get() when an event is there. */
    method Next() returns (e: Event)
      requires events != []
      modifies this
      ensures e == old(events[0]) && View() == Dequeue(old(View()))
    {
      e := events[0];
      events := events[1..];
      taken := taken + [e];
    }
  }

  /** The values of tracked task objects. */
  ghost function ViewOf(tasks: map<TaskId, PendingTask>): map<TaskId, Task>
    reads tasks.Values
  {
    map id | id in tasks :: tasks[id].View()
  }

  lemma ViewPut(tasks: map<TaskId, PendingTask>, id: TaskId, task: PendingTask)
    ensures ViewOf(tasks[id := task]) == ViewOf(tasks)[id := task.View()]
  {
    var after := tasks[id := task];
    assert forall i :: i in after ==> after[i] == if i == id then task else tasks[i];
  }

  class TaskTracker {
    var tasks: map<TaskId, PendingTask>
    const maxAge: Option<Time>
    const maxBytes: Option<int>

    constructor (maxAge: Option<Time>, maxBytes: Option<int>)
      ensures Valid() && View() == Tracker(map[], maxAge, maxBytes)
    {
      this.maxAge, this.maxBytes := maxAge, maxBytes;
      tasks := map[];
    }

    /** No task object is tracked under two ids. */
    ghost predicate Valid()
      reads this
    {
      forall i, j :: i in tasks && j in tasks && tasks[i] == tasks[j] ==> i == j
    }

    ghost function View(): Tracker
      reads this, tasks.Values
    {
      Tracker(ViewOf(tasks), maxAge, maxBytes)
    }

    method EvictExpired(now: Time)
      requires Valid()
      modifies this
      ensures Valid() && View() == old(View()).Evict(now)
      ensures tasks.Values <= old(tasks.Values)
    {
      if maxAge.None? {
        assert View().tasks == View().Evict(now).tasks;
        return;
      }
      var expired := set id | id in tasks && now - tasks[id].createdAt > maxAge.value;
      var before := tasks;
      var left := expired;
      while left != {}
        invariant left <= expired
        invariant tasks == before - (expired - left)
      {
        var id :| id in left;
        tasks := tasks - {id};
        left := left - {id};
        assert before - (expired - left) == tasks;
      }
      assert tasks.Values <= before.Values;
      assert View().tasks == old(View()).Evict(now).tasks;
    }

    method Create(id: TaskId, nodeId: NodeId, conn: Conn, now: Time) returns (task: PendingTask)
      requires Valid()
      modifies this
      ensures Valid() && View() == old(View()).Create(id, nodeId, conn, now)
      ensures fresh(task) && id in tasks && tasks[id] == task
    {
      task := new PendingTask(id, nodeId, conn, now);
      EvictExpired(now);
      assert task !in tasks.Values;
      ViewPut(tasks, id, task);
      tasks := tasks[id := task];
    }

    method Pop(id: TaskId) returns (task: Option<PendingTask>)
      requires Valid()
      modifies this
      ensures Valid() && View() == old(View()).Pop(id)
      ensures task == old(Get(tasks, id))
    {
      task := Get(tasks, id);
      tasks := tasks - {id};
    }

    method AddChunk(id: TaskId, conn: Conn, delta: string, now: Time)
      requires Valid()
      modifies tasks.Values
      ensures Valid() && View() == old(View()).AddChunk(id, conn, delta, now)
    {
      ghost var before := View().tasks;
      if id in tasks && tasks[id].conn == conn && tasks[id].finishedAt.None? {
        var task := tasks[id];
        task.streamedBytes := task.streamedBytes + Utf8Len(delta);
        if TooLarge(task.streamedBytes, maxBytes) {
          task.Fail(ResultTooLarge, now);
        } else {
          task.events := task.events + [Chunk(delta)];
        }
        assert task.View() == TakeChunk(before[id], delta, now, maxBytes);
        assert View().tasks == before[id := task.View()];
      } else {
        assert View().tasks == before;
        assert id in before && before[id].conn == conn ==> before[id := before[id]] == before;
      }
    }

    method Resolve(id: TaskId, conn: Conn, payload: Payload, now: Time)
      requires Valid()
      modifies tasks.Values
      ensures Valid() && View() == old(View()).Resolve(id, conn, payload, now)
    {
      ghost var after := View().Resolve(id, conn, payload, now);
      if id in tasks && tasks[id].conn == conn && tasks[id].finishedAt.None? {
        var task := tasks[id];
        if TooLarge(Utf8Len(payload.result), maxBytes) {
          task.Fail(ResultTooLarge, now);
        } else {
          task.finishedAt := Some(now);
          task.events := task.events + [Result(payload)];
        }
      }
      assert View().tasks == after.tasks;
    }

    method FailConnection(conn: Conn, now: Time)
      requires Valid()
      modifies tasks.Values
      ensures Valid() && View() == old(View()).FailConnection(conn, now)
    {
      var left := tasks.Keys;
      while left != {}
        invariant left <= tasks.Keys
        invariant forall id :: id in left ==> tasks[id].View() == old(tasks[id].View())
        invariant forall id :: id in tasks.Keys - left ==>
                    tasks[id].View() == Disconnect(old(tasks[id].View()), conn, now)
      {
        var id :| id in left;
        left := left - {id};
        var task := tasks[id];
        if task.conn == conn && task.finishedAt.None? {
          task.Fail(NodeDisconnected, now);
        }
      }
      assert View().tasks == old(View()).FailConnection(conn, now).tasks;
    }
  }
}
