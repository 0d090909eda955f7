/** sdk/node.py: the node's end of a task, and streaming from handler to consumer. */
module NodeStream {
  import opened Prelude
  import opened Tasks
  import opened Streaming

  /** What a handler does with a task: it may be missing, return its answer at once, or yield
      pieces and then end normally or raise. */
  datatype Handling =
    | Missing(taskType: string)
    | Whole(text: string)
    | Pieces(pieces: seq<string>)
    | Raises(pieces: seq<string>, error: string)

  function NonEmpty(pieces: seq<string>): seq<string> {
    if pieces == [] then []
    else NonEmpty(pieces[..|pieces| - 1])
         + (if pieces[|pieces| - 1] != "" then [pieces[|pieces| - 1]] else [])
  }

  lemma NextPiece(pieces: seq<string>, k: nat)
    requires k < |pieces|
    ensures Concat(pieces[..k + 1]) == Concat(pieces[..k]) + pieces[k]
    ensures NonEmpty(pieces[..k + 1])
            == NonEmpty(pieces[..k]) + (if pieces[k] != "" then [pieces[k]] else [])
  {
    assert pieces[..k + 1] == pieces[..k] + [pieces[k]];
    assert pieces[..k + 1][..k] == pieces[..k];
    ConcatAppend(pieces[..k], [pieces[k]]);
    assert Concat([pieces[k]]) == pieces[k];
  }

  /** The loop of _run_handler: every piece is kept, and those with text are sent when streaming. */
  method Emit(pieces: seq<string>, stream: bool) returns (kept: string, sent: seq<string>)
    ensures kept == Concat(pieces)
    ensures sent == if stream then NonEmpty(pieces) else []
  {
    kept, sent := "", [];
    var k := 0;
    while k < |pieces|
      invariant k <= |pieces|
      invariant kept == Concat(pieces[..k])
      invariant sent == if stream then NonEmpty(pieces[..k]) else []
    {
      NextPiece(pieces, k);
      kept := kept + pieces[k];
      if stream && pieces[k] != "" {
        sent := sent + [pieces[k]];
      }
      k := k + 1;
    }
    assert pieces[..k] == pieces;
  }

  /** How many of the first `k` pieces have text. */
  lemma {:induction false} NonEmptyCount(pieces: seq<string>, k: nat)
    requires k <= |pieces|
    ensures |NonEmpty(pieces[..k])| == |set i | 0 <= i < k && pieces[i] != ""|
  {
    var texts := set i | 0 <= i < k && pieces[i] != "";
    if k == 0 {
      assert texts == {};
    } else {
      NonEmptyCount(pieces, k - 1);
      assert pieces[..k][..k - 1] == pieces[..k - 1];
      var before := set i | 0 <= i < k - 1 && pieces[i] != "";
      assert texts == before + if pieces[k - 1] != "" then {k - 1} else {};
    }
  }

  lemma {:induction false} NonEmptyPrefix(pieces: seq<string>, k: nat)
    requires k <= |pieces|
    ensures NonEmpty(pieces[..k]) <= NonEmpty(pieces)
    decreases |pieces|
  {
    if k < |pieces| {
      assert pieces[..|pieces| - 1][..k] == pieces[..k];
      NonEmptyPrefix(pieces[..|pieces| - 1], k);
    } else {
      assert pieces[..k] == pieces;
    }
  }

  /** Each piece with text is sent, alone and in its turn: after as many messages as there are pieces
      with text before it. */
  lemma SentOneByOne(pieces: seq<string>, k: nat)
    requires k < |pieces| && pieces[k] != ""
    ensures |NonEmpty(pieces)| == |set i | 0 <= i < |pieces| && pieces[i] != ""|
    ensures var turn := |set i | 0 <= i < k && pieces[i] != ""|;
            turn < |NonEmpty(pieces)| && NonEmpty(pieces)[turn] == pieces[k]
  {
    NonEmptyCount(pieces, k);
    NonEmptyCount(pieces, |pieces|);
    NonEmptyPrefix(pieces, k + 1);
    assert pieces[..|pieces|] == pieces && pieces[..k + 1][..k] == pieces[..k];
  }

  /** What a node sends for a task: its result message, failed for a handler that is missing or raises,
      after one chunk message for each piece with text when it streams. */
  ghost predicate Handled(handling: Handling, stream: bool, sent: seq<string>, final: Payload) {
    match handling
    case Missing(taskType) =>
      sent == [] && final == Payload(false, "No handler registered for task type: " + taskType)
    case Whole(text) => sent == [] && final == Payload(true, text)
    case Pieces(pieces) =>
      final == Payload(true, Concat(pieces)) && sent == if stream then NonEmpty(pieces) else []
    case Raises(pieces, error) =>
      final == Payload(false, error) && sent == if stream then NonEmpty(pieces) else []
  }

  /** _handle_task: the chunk messages and the final result message a node sends. */
  method HandleTask(handling: Handling, stream: bool) returns (sent: seq<string>, final: Payload)
    ensures Handled(handling, stream, sent, final)
  {
    match handling
    case Missing(taskType) =>
      return [], Payload(false, "No handler registered for task type: " + taskType);
    case Whole(text) =>
      return [], Payload(true, text);
    case Pieces(pieces) =>
      var text;
      text, sent := Emit(pieces, stream);
      final := Payload(true, text);
    case Raises(pieces, error) =>
      var kept;
      kept, sent := Emit(pieces, stream);
      final := Payload(false, error);
  }

  lemma {:induction false} SkippingEmptiesKeepsText(pieces: seq<string>)
    ensures Concat(NonEmpty(pieces)) == Concat(pieces)
  {
    if pieces != [] {
      var init, last := pieces[..|pieces| - 1], pieces[|pieces| - 1];
      SkippingEmptiesKeepsText(init);
      assert pieces == init + [last];
      ConcatAppend(init, [last]);
      ConcatAppend(NonEmpty(init), [last]);
      assert Concat([last]) == last;
      if last == "" {
        assert NonEmpty(pieces) == NonEmpty(init) && Concat(init) + last == Concat(init);
      }
    }
  }

  /* ---- The coordinator's end ---- */

  function Chunks(texts: seq<string>): seq<Event> {
    if texts == [] then [] else [Chunk(texts[0])] + Chunks(texts[1..])
  }

  lemma {:induction false} ChunksHaveTexts(texts: seq<string>)
    ensures ChunkTexts(Chunks(texts)) == texts && AllChunks(Chunks(texts))
    ensures |Chunks(texts)| == |texts|
  {
    if texts != [] {
      ChunksHaveTexts(texts[1..]);
    }
  }

  /** The task after the chunk messages arrived on its connection. */
  function ReceiveChunks(t: Task, texts: seq<string>, now: Time, maxBytes: Option<int>): Task
    decreases |texts|
  {
    if texts == [] then t
    else ReceiveChunks(TakeChunk(t, texts[0], now, maxBytes), texts[1..], now, maxBytes)
  }

  function Receive(t: Task, texts: seq<string>, final: Payload, now: Time, maxBytes: Option<int>): Task {
    TakeResult(ReceiveChunks(t, texts, now, maxBytes), final, now, maxBytes)
  }

  lemma {:induction false} FinishedIgnoresChunks(t: Task, texts: seq<string>, now: Time,
                                                 maxBytes: Option<int>)
    requires t.finishedAt.Some?
    ensures ReceiveChunks(t, texts, now, maxBytes) == t
    decreases |texts|
  {
    if texts != [] {
      FinishedIgnoresChunks(t, texts[1..], now, maxBytes);
    }
  }

  /** The first chunk of several, and what is left of the size bound for the others. */
  lemma FirstChunk(t: Task, texts: seq<string>, now: Time, maxBytes: Option<int>)
    requires texts != [] && t.finishedAt.None?
    ensures var v := TakeChunk(t, texts[0], now, maxBytes);
            && v.streamedBytes + Utf8Len(Concat(texts[1..])) == t.streamedBytes + Utf8Len(Concat(texts))
            && v.taken == t.taken
            && (if TooLarge(v.streamedBytes, maxBytes) then
                  v.finishedAt.Some? && v.events == t.events + [Error(ResultTooLarge)]
                else v.finishedAt.None? && v.events == t.events + [Chunk(texts[0])])
  {
    Utf8LenConcat(texts[0], Concat(texts[1..]));
  }

  lemma Reassociate(before: seq<Event>, e: Event, after: seq<Event>)
    ensures (before + [e]) + after == before + ([e] + after)
  {
  }

  /** Chunks are accepted, all of them in order, exactly when the `total` with them fits. */
  lemma {:induction false} ChunksFit(t: Task, texts: seq<string>, now: Time, maxBytes: Option<int>,
                                     total: nat)
    requires t.finishedAt.None? && !TooLarge(t.streamedBytes, maxBytes)
    requires total == t.streamedBytes + Utf8Len(Concat(texts))
    ensures var u := ReceiveChunks(t, texts, now, maxBytes);
            if TooLarge(total, maxBytes) then
              && u.finishedAt.Some?
              && u.events != [] && u.events[|u.events| - 1] == Error(ResultTooLarge)
              && (AllChunks(t.events) ==> AllChunks(u.events[..|u.events| - 1]))
            else
              && u.finishedAt.None? && u.streamedBytes == total && u.taken == t.taken
              && u.events == t.events + Chunks(texts)
    decreases |texts|
  {
    if texts == [] {
      assert t.events + [] == t.events;
    } else {
      var v, rest := TakeChunk(t, texts[0], now, maxBytes), texts[1..];
      FirstChunk(t, texts, now, maxBytes);
      if v.finishedAt.Some? {
        FinishedIgnoresChunks(v, rest, now, maxBytes);
        assert v.events[..|v.events| - 1] == t.events;
      } else {
        ChunksFit(v, rest, now, maxBytes, total);
        Reassociate(t.events, Chunk(texts[0]), Chunks(rest));
      }
    }
  }

  /** For a completing generator the stream fails on size exactly when its text is too large: if
      all chunks were accepted, the final result is too. */
  lemma AcceptedStreamKeepsItsResult(nodeId: NodeId, conn: Conn, pieces: seq<string>, now: Time,
                                     maxBytes: Option<int>)
    requires maxBytes.Some? ==> maxBytes.value >= 0
    ensures var text := Concat(pieces);
            var u := Receive(NewTask(nodeId, conn, now), NonEmpty(pieces), Payload(true, text), now,
                             maxBytes);
            if TooLarge(Utf8Len(text), maxBytes) then
              u.events != [] && u.events[|u.events| - 1] == Error(ResultTooLarge)
            else u.events == Chunks(NonEmpty(pieces)) + [Result(Payload(true, text))]
  {
    SkippingEmptiesKeepsText(pieces);
    var t := NewTask(nodeId, conn, now);
    ChunksFit(t, NonEmpty(pieces), now, maxBytes, Utf8Len(Concat(pieces)));
    assert t.events + Chunks(NonEmpty(pieces)) == Chunks(NonEmpty(pieces));
  }

  /** Are both the streamed text and the result within the limit? */
  predicate BothFit(sent: seq<string>, final: Payload, maxBytes: Option<int>) {
    maxBytes.None?
    || (Utf8Len(Concat(sent)) <= maxBytes.value && Utf8Len(final.result) <= maxBytes.value)
  }

  /** What a task is given when its node sent these chunks and this result: all of them when they fit,
      else some chunks and the size error. */
  ghost predicate IsLogOf(log: seq<Event>, sent: seq<string>, final: Payload, maxBytes: Option<int>) {
    && log != [] && AllChunks(log[..|log| - 1])
    && if BothFit(sent, final, maxBytes) then log == Chunks(sent) + [Result(final)]
       else log[|log| - 1] == Error(ResultTooLarge)
  }

  /** The result after chunks that were all accepted. */
  lemma ResultIsLast(u: Task, sent: seq<string>, final: Payload, now: Time, maxBytes: Option<int>)
    requires u.finishedAt.None? && u.events == Chunks(sent) && AllChunks(Chunks(sent))
    requires !TooLarge(Utf8Len(Concat(sent)), maxBytes)
    ensures IsLogOf(TakeResult(u, final, now, maxBytes).events, sent, final, maxBytes)
  {
    var log := TakeResult(u, final, now, maxBytes).events;
    assert log[..|log| - 1] == Chunks(sent);
  }

  lemma LogOfMessages(nodeId: NodeId, conn: Conn, sent: seq<string>, final: Payload, now: Time,
                      maxBytes: Option<int>)
    requires maxBytes.Some? ==> maxBytes.value >= 0
    ensures IsLogOf(Receive(NewTask(nodeId, conn, now), sent, final, now, maxBytes).events, sent, final,
                    maxBytes)
  {
    var t := NewTask(nodeId, conn, now);
    ChunksFit(t, sent, now, maxBytes, Utf8Len(Concat(sent)));
    ChunksHaveTexts(sent);
    assert t.events + Chunks(sent) == Chunks(sent);
    var u := ReceiveChunks(t, sent, now, maxBytes);
    if u.finishedAt.None? {
      ResultIsLast(u, sent, final, now, maxBytes);
    }
  }

  /** A relay that ended took all chunks of such a log. */
  lemma EndsAtLast(log: seq<Event>, chunks: nat, out: seq<Output>)
    requires log != [] && AllChunks(log[..|log| - 1]) && IsAt(log, chunks, out, Ended)
    ensures chunks == |log| - 1
  {
    assert forall i :: 0 <= i < |log| - 1 ==> log[..|log| - 1][i] == log[i];
  }

  /** What the consumer has got at the end of a relay of such a log: the size error, or the whole
      answer of a handler that completed, or the pieces and the error of one that did not. */
  ghost predicate Ends(out: seq<Output>, sent: seq<string>, final: Payload, maxBytes: Option<int>)
    requires out != []
  {
    var last := out[|out| - 1];
    if !BothFit(sent, final, maxBytes) then last == Failure(TooMuch)
    else if final.completed then last == Done(final.result) && Concat(Texts(out)) == final.result
    else
      && last == Failure(TaskFailed(if final.result == "" then "Task failed" else final.result))
      && Concat(Texts(out)) == Concat(sent)
  }

  lemma RelayEnds(log: seq<Event>, sent: seq<string>, final: Payload, maxBytes: Option<int>,
                  chunks: nat, out: seq<Output>)
    requires IsLogOf(log, sent, final, maxBytes) && IsAt(log, chunks, out, Ended)
    requires final.completed && sent != [] ==> Concat(sent) == final.result
    ensures out != [] && Ends(out, sent, final, maxBytes)
  {
    EndsAtLast(log, chunks, out);
    FinalItem(log, chunks, out);
    if BothFit(sent, final, maxBytes) {
      WholeTexts(sent, final, chunks, out);
    }
  }

  lemma WholeTexts(sent: seq<string>, final: Payload, chunks: nat, out: seq<Output>)
    requires IsAt(Chunks(sent) + [Result(final)], chunks, out, Ended) && chunks == |Chunks(sent)|
    requires final.completed && sent != [] ==> Concat(sent) == final.result
    ensures Concat(Texts(out)) == if final.completed then final.result else Concat(sent)
  {
    var log := Chunks(sent) + [Result(final)];
    ChunksHaveTexts(sent);
    assert log[..chunks] == Chunks(sent);
    RelayedTexts(log, chunks, out, Ended);
    assert Concat([final.result]) == final.result;
  }

  /* ---- The node's messages among all calls on the tracker ---- */

  /** Does the call act on task `id`, which was assigned on `conn`? */
  predicate Addresses(op: Op, id: TaskId, conn: Conn) {
    if op.OpCreate? then op.id == id else Concerns(op, id, conn)
  }

  function Addressed(ops: seq<Op>, id: TaskId, conn: Conn): seq<Op> {
    if ops == [] then []
    else (if Addresses(ops[0], id, conn) then [ops[0]] else []) + Addressed(ops[1..], id, conn)
  }

  predicate IsMessage(op: Op) {
    op.OpChunk? || op.OpResult?
  }

  ghost predicate OnlyMessages(ops: seq<Op>) {
    forall i :: 0 <= i < |ops| ==> IsMessage(ops[i])
  }

  /** No task is created so late that a task created at `at` expires. */
  ghost predicate NoneExpires(ops: seq<Op>, at: Time, maxAge: Option<Time>) {
    forall i :: 0 <= i < |ops| && ops[i].OpCreate? && maxAge.Some? ==> ops[i].now - at <= maxAge.value
  }

  function Take(t: Task, op: Op, maxBytes: Option<int>): Task
    requires IsMessage(op)
  {
    match op
    case OpChunk(_, _, delta, now) => TakeChunk(t, delta, now, maxBytes)
    case OpResult(_, _, payload, now) => TakeResult(t, payload, now, maxBytes)
  }

  function TakeAll(t: Task, ops: seq<Op>, maxBytes: Option<int>): Task
    requires OnlyMessages(ops)
    decreases |ops|
  {
    if ops == [] then t else TakeAll(Take(t, ops[0], maxBytes), ops[1..], maxBytes)
  }

  lemma CallOnTask(tr: Tracker, op: Op, id: TaskId, conn: Conn, at: Time)
    requires tr.Owned(id, conn) && tr.tasks[id].createdAt == at && NoneExpires([op], at, tr.maxAge)
    requires Addresses(op, id, conn) ==> IsMessage(op)
    ensures var t := Apply(tr, op);
            && t.Owned(id, conn) && t.tasks[id].createdAt == at
            && t.maxAge == tr.maxAge && t.maxBytes == tr.maxBytes
            && t.tasks[id] == if Addresses(op, id, conn) then Take(tr.tasks[id], op, tr.maxBytes)
                              else tr.tasks[id]
  {
    assert op.OpCreate? && tr.maxAge.Some? ==> [op][0].now - at <= tr.maxAge.value;
  }

  /** What becomes of a task is decided by the messages that its own node sends, alone. */
  lemma {:induction false} TaskFollowsMessages(tr: Tracker, ops: seq<Op>, id: TaskId, conn: Conn,
                                               at: Time)
    requires tr.Owned(id, conn) && tr.tasks[id].createdAt == at && NoneExpires(ops, at, tr.maxAge)
    requires OnlyMessages(Addressed(ops, id, conn))
    ensures id in ApplyAll(tr, ops).tasks
    ensures ApplyAll(tr, ops).tasks[id]
            == TakeAll(tr.tasks[id], Addressed(ops, id, conn), tr.maxBytes)
    decreases |ops|
  {
    if ops != [] {
      var op, rest := ops[0], Addressed(ops[1..], id, conn);
      assert Addressed(ops, id, conn) == (if Addresses(op, id, conn) then [op] else []) + rest;
      assert Addresses(op, id, conn) ==> IsMessage(Addressed(ops, id, conn)[0]);
      assert [] + rest == rest && ([op] + rest)[1..] == rest;
      LaterMessages(ops, id, conn);
      CallOnTask(tr, op, id, conn, at);
      TaskFollowsMessages(Apply(tr, op), ops[1..], id, conn, at);
    }
  }

  lemma LaterMessages(ops: seq<Op>, id: TaskId, conn: Conn)
    requires ops != [] && OnlyMessages(Addressed(ops, id, conn))
    ensures OnlyMessages(Addressed(ops[1..], id, conn))
    ensures Addresses(ops[0], id, conn) ==> Addressed(ops, id, conn)[1..] == Addressed(ops[1..], id, conn)
  {
    var all, rest := Addressed(ops, id, conn), Addressed(ops[1..], id, conn);
    assert rest == if Addresses(ops[0], id, conn) then all[1..] else all;
  }

  lemma {:induction false} MessagesCreateNothing(ops: seq<Op>, id: TaskId, conn: Conn)
    requires OnlyMessages(Addressed(ops, id, conn))
    ensures Foreign(ops, {id})
  {
    if ops != [] {
      LaterMessages(ops, id, conn);
      MessagesCreateNothing(ops[1..], id, conn);
      assert Addresses(ops[0], id, conn) ==> Addressed(ops, id, conn)[0] == ops[0];
      assert forall op :: op in ops ==> op == ops[0] || op in ops[1..];
    }
  }

  /** The node's messages, at whatever times they arrive: the texts as chunks, then the result. */
  ghost predicate Delivers(calls: seq<Op>, texts: seq<string>, final: Payload) {
    && |calls| == |texts| + 1
    && (forall i :: 0 <= i < |texts| ==> calls[i].OpChunk? && calls[i].delta == texts[i])
    && calls[|texts|].OpResult? && calls[|texts|].payload == final
  }

  /** Tasks that differ in their finish times only. */
  predicate Alike(t: Task, u: Task) {
    && t.taken == u.taken && t.events == u.events && t.streamedBytes == u.streamedBytes
    && (t.finishedAt.Some? <==> u.finishedAt.Some?)
  }

  lemma {:induction false} TimesDoNotMatter(t: Task, u: Task, calls: seq<Op>, texts: seq<string>,
                                            final: Payload, now: Time, maxBytes: Option<int>)
    requires Alike(t, u) && Delivers(calls, texts, final) && OnlyMessages(calls)
    ensures Alike(TakeAll(t, calls, maxBytes), Receive(u, texts, final, now, maxBytes))
    decreases |texts|
  {
    var v := Take(t, calls[0], maxBytes);
    if texts == [] {
      assert calls[1..] == [];
    } else {
      TimesDoNotMatter(v, TakeChunk(u, texts[0], now, maxBytes), calls[1..], texts[1..], final, now,
                       maxBytes);
    }
  }

  lemma TrackedLog(tr: Tracker, ops: seq<Op>, id: TaskId)
    requires id in ApplyAll(tr, ops).tasks
    ensures LastLog(tr, ops, id) == ApplyAll(tr, ops).tasks[id].Log()
  {
  }

  lemma AlikeLogs(t: Task, u: Task)
    requires Alike(t, u) && u.taken == []
    ensures t.Log() == u.events
  {
  }

  /** When the calls on the tracker hold the node's messages, the task's holder is given exactly them. */
  lemma LogIsDelivered(tr: Tracker, ops: seq<Op>, id: TaskId, nodeId: NodeId, conn: Conn, at: Time,
                       texts: seq<string>, final: Payload)
    requires id in tr.tasks && tr.tasks[id] == NewTask(nodeId, conn, at)
    requires NoneExpires(ops, at, tr.maxAge) && OnlyMessages(Addressed(ops, id, conn))
    requires Delivers(Addressed(ops, id, conn), texts, final)
    ensures LastLog(tr, ops, id)
            == Receive(NewTask(nodeId, conn, at), texts, final, at, tr.maxBytes).events
  {
    var t := NewTask(nodeId, conn, at);
    TaskFollowsMessages(tr, ops, id, conn, at);
    TimesDoNotMatter(t, t, Addressed(ops, id, conn), texts, final, at, tr.maxBytes);
    ReceiveTakesNone(t, texts, final, at, tr.maxBytes);
    TrackedLog(tr, ops, id);
    AlikeLogs(ApplyAll(tr, ops).tasks[id], Receive(t, texts, final, at, tr.maxBytes));
  }

  lemma {:induction false} ReceiveTakesNone(t: Task, texts: seq<string>, final: Payload, now: Time,
                                            maxBytes: Option<int>)
    ensures Receive(t, texts, final, now, maxBytes).taken == t.taken
    decreases |texts|
  {
    if texts != [] {
      ReceiveTakesNone(TakeChunk(t, texts[0], now, maxBytes), texts[1..], final, now, maxBytes);
    }
  }

  /** From the handler to the consumer: when the node's messages all arrive among whatever others do on
      the tracker, a drained stream that did not time out delivers exactly what the handler made: its
      text and a success, its pieces, its error and a failure, or the size error and a failure. `tr` is
      the tracker right after the create. */
  method StreamEndToEnd(tr: Tracker, past: seq<Op>, id: TaskId, nodeId: NodeId, conn: Conn, at: Time,
                        handling: Handling, startedAt: Time, taskTimeout: Time, streamMax: Time,
                        watches: seq<Watch>, leaving: seq<Op>)
    returns (out: seq<Output>, records: seq<Outcome>, sent: seq<string>, final: Payload)
    requires id in tr.tasks && tr.tasks[id] == NewTask(nodeId, conn, at)
    requires tr.maxBytes.Some? ==> tr.maxBytes.value >= 0
    requires NoneExpires(past + OpsOf(watches), at, tr.maxAge)
    requires OnlyMessages(Addressed(past + OpsOf(watches), id, conn))
    requires forall texts, payload :: Handled(handling, true, texts, payload) ==>
               Delivers(Addressed(past + OpsOf(watches), id, conn), texts, payload)
    ensures Handled(handling, true, sent, final)
    ensures Drained(out) && out[|out| - 1] != Failure(Timeout) ==>
              && Ends(out, sent, final, tr.maxBytes)
              && records == [Outcome(nodeId, BothFit(sent, final, tr.maxBytes) && final.completed)]
  {
    sent, final := HandleTask(handling, true);
    if handling.Pieces? {
      SkippingEmptiesKeepsText(handling.pieces);
    }
    var ops := past + OpsOf(watches);
    LogIsDelivered(tr, ops, id, nodeId, conn, at, sent, final);
    MessagesCreateNothing(ops, id, conn);
    assert Foreign(OpsOf(watches), {id}) by {
      assert forall op :: op in OpsOf(watches) ==> op in ops;
    }
    var after, deadline, chunks, stage;
    out, records, after, deadline, chunks, stage :=
      StreamTask(tr, past, id, nodeId, startedAt, taskTimeout, streamMax, watches, leaving);
    if stage == Ended {
      LogOfMessages(nodeId, conn, sent, final, at, tr.maxBytes);
      RelayEnds(LastLog(tr, ops, id), sent, final, tr.maxBytes, chunks, out);
    } else {
      OneFinalItem(LastLog(tr, ops, id), chunks, out, stage);
    }
  }
}
