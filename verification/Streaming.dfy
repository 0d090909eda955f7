/** Waiting for a task's events: next_event and wait_result (tasks.py), _stream_task (server.py). */
module Streaming {
  import opened Prelude
  import opened Tasks

  /* ---- One wait ---- */

  /** One call of next_event: when it is called, which events other coroutines put on the queue
      from the call before until it returns, and when it returns. */
  datatype Wait = Wait(calledAt: Time, arrived: seq<Event>, wokeAt: Time)

  /** Everything that arrives during the waits, in order. */
  function Arrivals(waits: seq<Wait>): seq<Event> {
    if waits == [] then [] else Arrivals(waits[..|waits| - 1]) + waits[|waits| - 1].arrived
  }

  /** next_event: the head of the queue, or None for TimeoutError. */
  function NextEvent(queue: seq<Event>, deadline: Time, w: Wait): Option<Event> {
    if deadline - w.calledAt <= 0.0 then None
    else if queue + w.arrived == [] then None
    else Some((queue + w.arrived)[0])
  }

  /** `queue` is what has arrived before wait `k` without the `k` events already taken. */
  ghost predicate QueueOk(queued: seq<Event>, waits: seq<Wait>, k: nat, queue: seq<Event>) {
    && k <= |waits| && k <= |queued + Arrivals(waits[..k])|
    && queue == (queued + Arrivals(waits[..k]))[k..]
  }

  /** Wait `i` gets an event: it starts before `deadline` and not all that arrived was taken. */
  predicate GetsEvent(queued: seq<Event>, waits: seq<Wait>, i: nat, deadline: Time)
    requires i < |waits|
  {
    waits[i].calledAt < deadline && i < |queued + Arrivals(waits[..i + 1])|
  }

  lemma Append(a: seq<Event>, b: seq<Event>, c: seq<Event>)
    ensures a + (b + c) == (a + b) + c
  {
  }

  lemma PrefixUnder(a: seq<Event>, b: seq<Event>, c: seq<Event>)
    requires b <= c
    ensures a + b <= a + c
  {
  }

  lemma ArrivalsStep(waits: seq<Wait>, k: nat)
    requires k < |waits|
    ensures Arrivals(waits[..k + 1]) == Arrivals(waits[..k]) + waits[k].arrived
  {
    assert waits[..k + 1][..k] == waits[..k];
  }

  lemma ArrivedBy(queued: seq<Event>, waits: seq<Wait>, k: nat)
    requires k < |waits|
    ensures queued + Arrivals(waits[..k + 1]) == (queued + Arrivals(waits[..k])) + waits[k].arrived
  {
    ArrivalsStep(waits, k);
    Append(queued, Arrivals(waits[..k]), waits[k].arrived);
  }

  lemma TakeNext(before: seq<Event>, arrived: seq<Event>, k: nat)
    requires k <= |before|
    ensures before[k..] + arrived == (before + arrived)[k..]
    ensures k < |before + arrived| ==>
              && (before[k..] + arrived)[0] == (before + arrived)[k]
              && (before[k..] + arrived)[1..] == (before + arrived)[k + 1..]
  {
  }

  /** Events are taken in the order in which they arrived: the k-th wait gets the k-th event of
      the log or, if there is none in time, nothing. */
  lemma QueueStep(queued: seq<Event>, waits: seq<Wait>, k: nat, queue: seq<Event>, deadline: Time)
    requires QueueOk(queued, waits, k, queue) && k < |waits|
    ensures var log := queued + Arrivals(waits); var e := NextEvent(queue, deadline, waits[k]);
            if GetsEvent(queued, waits, k, deadline) then
              k < |log| && e == Some(log[k])
              && QueueOk(queued, waits, k + 1, (queue + waits[k].arrived)[1..])
            else e == None
  {
    ArrivedBy(queued, waits, k);
    ArrivalsPrefix(waits, k + 1);
    PrefixUnder(queued, Arrivals(waits[..k + 1]), Arrivals(waits));
    TakeNext(queued + Arrivals(waits[..k]), waits[k].arrived, k);
  }

  /* ---- wait_result ---- */

  datatype WaitOutcome = Answered(payload: Payload) | Broken(fault: Fault) | TimedOut | StillWaiting

  predicate IsTerminal(e: Event) {
    !e.Chunk?
  }

  /** A wait until `deadline` got `chunks` chunks and then ended, or still goes on, with `outcome`. */
  ghost predicate Waited(queued: seq<Event>, deadline: Time, waits: seq<Wait>, outcome: WaitOutcome,
                         chunks: nat)
  {
    var log := queued + Arrivals(waits);
    && chunks <= |waits| && chunks <= |log|
    && (forall i :: 0 <= i < chunks ==> log[i].Chunk? && GetsEvent(queued, waits, i, deadline))
    && (outcome.StillWaiting? <==> chunks == |waits|)
    && (chunks < |waits| ==>
          && (outcome.TimedOut? <==> !GetsEvent(queued, waits, chunks, deadline))
          && (outcome.Answered? ==> chunks < |log| && log[chunks] == Result(outcome.payload))
          && (outcome.Broken? ==> chunks < |log| && log[chunks] == Error(outcome.fault)))
  }

  /** The events and their timing leave no choice of the outcome. */
  lemma OutcomeIsDetermined(queued: seq<Event>, deadline: Time, waits: seq<Wait>, a: WaitOutcome,
                            i: nat, b: WaitOutcome, j: nat)
    requires Waited(queued, deadline, waits, a, i) && Waited(queued, deadline, waits, b, j)
    ensures a == b && i == j
  {
  }

  /** A wait times out exactly when it is called at the deadline or later, or when nothing that arrived
      by its end is left to take; it never times out before. */
  lemma TimesOutExactly(queued: seq<Event>, deadline: Time, waits: seq<Wait>, outcome: WaitOutcome,
                        chunks: nat)
    requires Waited(queued, deadline, waits, outcome, chunks)
    ensures chunks < |waits| ==>
              (outcome == TimedOut <==> waits[chunks].calledAt >= deadline
                                        || |queued + Arrivals(waits[..chunks + 1])| <= chunks)
    ensures forall i :: 0 <= i < chunks ==>
              waits[i].calledAt < deadline && i < |queued + Arrivals(waits[..i + 1])|
  {
    forall i | 0 <= i < chunks
      ensures waits[i].calledAt < deadline && i < |queued + Arrivals(waits[..i + 1])|
    {
      assert GetsEvent(queued, waits, i, deadline);
    }
  }

  /** wait_result: the first result or error that arrives in time; chunks are skipped. */
  method WaitResult(queued: seq<Event>, deadline: Time, waits: seq<Wait>)
    returns (outcome: WaitOutcome, chunks: nat)
    ensures Waited(queued, deadline, waits, outcome, chunks)
  {
    ghost var log := queued + Arrivals(waits);
    var queue := queued;
    chunks := 0;
    assert QueueOk(queued, waits, 0, queue);
    while chunks < |waits|
      invariant QueueOk(queued, waits, chunks, queue) && chunks <= |log|
      invariant forall i :: 0 <= i < chunks ==> log[i].Chunk? && GetsEvent(queued, waits, i, deadline)
    {
      QueueStep(queued, waits, chunks, queue, deadline);
      var e := NextEvent(queue, deadline, waits[chunks]);
      if e.None? {
        outcome := TimedOut;
        return;
      }
      if !e.value.Chunk? {
        outcome := if e.value.Result? then Answered(e.value.payload) else Broken(e.value.fault);
        return;
      }
      queue := (queue + waits[chunks].arrived)[1..];
      chunks := chunks + 1;
    }
    outcome := StillWaiting;
    assert waits[..chunks] == waits;
  }

  lemma {:induction false} ArrivalsPrefix(waits: seq<Wait>, k: nat)
    requires k <= |waits|
    ensures Arrivals(waits[..k]) <= Arrivals(waits)
    decreases |waits|
  {
    if k < |waits| {
      ArrivalsPrefix(waits[..|waits| - 1], k);
      assert waits[..|waits| - 1][..k] == waits[..k];
    } else {
      assert waits[..k] == waits;
    }
  }

  /* ---- Waiting while other coroutines use the tracker ---- */

  /** One call of next_event and the calls that other coroutines make on the tracker from the call
      before until it returns. */
  datatype Watch = Watch(calledAt: Time, ops: seq<Op>, wokeAt: Time)

  function OpsOf(watches: seq<Watch>): seq<Op> {
    if watches == [] then [] else OpsOf(watches[..|watches| - 1]) + watches[|watches| - 1].ops
  }

  /** What `b` adds to `a`. */
  function Added(a: seq<Event>, b: seq<Event>): seq<Event> {
    if |a| <= |b| then b[|a|..] else []
  }

  /** The waits of the holder of task `id`, whose events so far are those of `past`. */
  function WaitsOf(tr: Tracker, past: seq<Op>, watches: seq<Watch>, id: TaskId): (waits: seq<Wait>)
    ensures |waits| == |watches|
  {
    if watches == [] then []
    else
      var init, w := watches[..|watches| - 1], watches[|watches| - 1];
      var before := LastLog(tr, past + OpsOf(init), id);
      WaitsOf(tr, past, init, id)
      + [Wait(w.calledAt, Added(before, LastLog(tr, past + OpsOf(watches), id)), w.wokeAt)]
  }

  lemma LastWait(tr: Tracker, past: seq<Op>, watches: seq<Watch>, id: TaskId)
    requires watches != []
    ensures var m := |watches| - 1; var waits := WaitsOf(tr, past, watches, id);
            && waits[..m] == WaitsOf(tr, past, watches[..m], id)
            && waits[m].arrived == Added(LastLog(tr, past + OpsOf(watches[..m]), id),
                                         LastLog(tr, past + OpsOf(watches), id))
  {
  }

  lemma AddedTo(a: seq<Event>, b: seq<Event>)
    requires a <= b
    ensures a + Added(a, b) == b
  {
  }

  /** The holder sees exactly the events that are put on the task, in order. */
  lemma {:induction false} WaitsSeeTheLog(tr: Tracker, past: seq<Op>, watches: seq<Watch>, id: TaskId)
    requires Foreign(OpsOf(watches), {id})
    ensures LastLog(tr, past, id) + Arrivals(WaitsOf(tr, past, watches, id))
            == LastLog(tr, past + OpsOf(watches), id)
  {
    if watches == [] {
      assert past + [] == past;
    } else {
      var init, ops := watches[..|watches| - 1], watches[|watches| - 1].ops;
      var waits := WaitsOf(tr, past, watches, id);
      WaitsSeeTheLog(tr, past, init, id);
      assert past + OpsOf(watches) == (past + OpsOf(init)) + ops;
      LastLogGrows(tr, past + OpsOf(init), ops, id);
      LastWait(tr, past, watches, id);
      AddedTo(LastLog(tr, past + OpsOf(init), id), LastLog(tr, past + OpsOf(watches), id));
      Append(LastLog(tr, past, id), Arrivals(waits[..|waits| - 1]), waits[|waits| - 1].arrived);
    }
  }

  /* ---- _stream_task ---- */

  datatype Code = Timeout | TooMuch | NodeGone | TaskFailed(message: string)

  datatype Output = Delta(text: string) | Done(result: string) | Failure(code: Code)

  /** What is fed into reputation: the node and whether it succeeded. */
  datatype Outcome = Outcome(nodeId: NodeId, success: bool)

  function Texts(out: seq<Output>): seq<string> {
    if out == [] then []
    else Texts(out[..|out| - 1])
         + (if out[|out| - 1].Delta? then [out[|out| - 1].text] else [])
  }

  predicate Drained(out: seq<Output>) {
    out != [] && !out[|out| - 1].Delta?
  }

  ghost predicate AllChunks(log: seq<Event>) {
    forall i :: 0 <= i < |log| ==> log[i].Chunk?
  }

  lemma DeltaAppends(out: seq<Output>, o: Output)
    ensures Texts(out + [o]) == Texts(out) + (if o.Delta? then [o.text] else [])
  {
  }

  function Deltas(texts: seq<string>): seq<Output> {
    if texts == [] then []
    else Deltas(texts[..|texts| - 1]) + [Delta(texts[|texts| - 1])]
  }

  lemma {:induction false} DeltasAre(texts: seq<string>)
    ensures |Deltas(texts)| == |texts| && Texts(Deltas(texts)) == texts
    ensures forall i :: 0 <= i < |texts| ==> Deltas(texts)[i] == Delta(texts[i])
  {
    if texts != [] {
      DeltasAre(texts[..|texts| - 1]);
      DeltaAppends(Deltas(texts[..|texts| - 1]), Delta(texts[|texts| - 1]));
    }
  }

  lemma {:induction false} OnlyChunks(log: seq<Event>)
    ensures |ChunkTexts(log)| <= |log|
    ensures |ChunkTexts(log)| == |log| <==> AllChunks(log)
  {
    if log != [] {
      OnlyChunks(log[1..]);
      assert AllChunks(log) <==> log[0].Chunk? && AllChunks(log[1..]);
    }
  }

  /** The first `seen` events of `log` are chunks, and `out` is their texts as deltas. */
  ghost predicate Streams(log: seq<Event>, seen: nat, out: seq<Output>) {
    && seen <= |log| && |ChunkTexts(log[..seen])| == seen
    && out == Deltas(ChunkTexts(log[..seen]))
  }

  /** What follows the last delta for a terminal event. */
  function Ending(e: Event, streamed: bool): seq<Output>
    requires IsTerminal(e)
  {
    match e
    case Error(ResultTooLarge) => [Failure(TooMuch)]
    case Error(NodeDisconnected) => [Failure(NodeGone)]
    case Result(p) =>
      if !p.completed then [Failure(TaskFailed(if p.result != "" then p.result else "Task failed"))]
      else (if !streamed && p.result != "" then [Delta(p.result)] else []) + [Done(p.result)]
  }

  /** How far a relay of `log` that took `seen` events may be. */
  datatype Stage = Going | GaveUp | Ended

  /** What the relay has yielded after the deltas of the chunks. */
  function Tail(log: seq<Event>, chunks: nat, stage: Stage): seq<Output> {
    match stage
    case Going => []
    case GaveUp => [Failure(Timeout)]
    case Ended => if chunks < |log| && IsTerminal(log[chunks]) then Ending(log[chunks], chunks > 0)
                  else []
  }

  /** The relay took `chunks` chunks from the front of `log` and then reached `stage`. */
  ghost predicate IsAt(log: seq<Event>, chunks: nat, out: seq<Output>, stage: Stage) {
    && chunks <= |log| && |ChunkTexts(log[..chunks])| == chunks
    && (stage == Ended ==> chunks < |log| && IsTerminal(log[chunks]))
    && out == Deltas(ChunkTexts(log[..chunks])) + Tail(log, chunks, stage)
  }

  lemma NextChunk(log: seq<Event>, seen: nat, out: seq<Output>)
    requires Streams(log, seen, out) && seen < |log| && log[seen].Chunk?
    ensures Streams(log, seen + 1, out + [Delta(log[seen].delta)])
  {
    assert log[..seen + 1] == log[..seen] + [log[seen]];
    ChunkTextsAppend(log[..seen], [log[seen]]);
    assert ChunkTexts([log[seen]]) == [log[seen].delta];
    var texts := ChunkTexts(log[..seen + 1]);
    assert texts[..seen] == ChunkTexts(log[..seen]);
  }

  /** The deadline of a stream that last got a chunk (or, before any chunk, started) at `last`. */
  function Deadline(startedAt: Time, last: Time, taskTimeout: Time, streamMax: Time): Time {
    MinReal(last + taskTimeout, startedAt + streamMax)
  }

  /** The deadline in force when the stream starts to wait for event `i`. */
  function DeadlineAt(startedAt: Time, waits: seq<Wait>, i: nat, taskTimeout: Time, streamMax: Time)
    : Time
    requires i <= |waits|
  {
    Deadline(startedAt, if i == 0 then startedAt else waits[i - 1].wokeAt, taskTimeout, streamMax)
  }

  /** Every wait before the `chunks`-th got its event in time. */
  ghost predicate InTime(queued: seq<Event>, startedAt: Time, taskTimeout: Time, streamMax: Time,
                         waits: seq<Wait>, chunks: nat)
    requires chunks <= |waits|
  {
    forall i :: 0 <= i < chunks ==>
      GetsEvent(queued, waits, i, DeadlineAt(startedAt, waits, i, taskTimeout, streamMax))
  }

  lemma NextInTime(queued: seq<Event>, startedAt: Time, taskTimeout: Time, streamMax: Time,
                   waits: seq<Wait>, chunks: nat)
    requires chunks < |waits| && InTime(queued, startedAt, taskTimeout, streamMax, waits, chunks)
    requires GetsEvent(queued, waits, chunks,
                       DeadlineAt(startedAt, waits, chunks, taskTimeout, streamMax))
    ensures InTime(queued, startedAt, taskTimeout, streamMax, waits, chunks + 1)
  {
  }

  /** How far a relay may be when the waits are over: stopped by the consumer, given up because
      nothing came in time, or ended by a terminal event that did. */
  ghost predicate Relays(queued: seq<Event>, startedAt: Time, taskTimeout: Time, streamMax: Time,
                         waits: seq<Wait>, chunks: nat, stage: Stage)
  {
    && chunks <= |waits| && InTime(queued, startedAt, taskTimeout, streamMax, waits, chunks)
    && (stage == Going <==> chunks == |waits|)
    && (chunks < |waits| ==>
          var deadline := DeadlineAt(startedAt, waits, chunks, taskTimeout, streamMax);
          stage == GaveUp <==> !GetsEvent(queued, waits, chunks, deadline))
  }

  /** The events and their timing leave no choice of what the relay yields. */
  lemma RelayIsDetermined(queued: seq<Event>, startedAt: Time, taskTimeout: Time, streamMax: Time,
                          waits: seq<Wait>, i: nat, a: Stage, out: seq<Output>, j: nat, b: Stage,
                          other: seq<Output>)
    requires Relays(queued, startedAt, taskTimeout, streamMax, waits, i, a)
    requires Relays(queued, startedAt, taskTimeout, streamMax, waits, j, b)
    requires IsAt(queued + Arrivals(waits), i, out, a) && IsAt(queued + Arrivals(waits), j, other, b)
    ensures i == j && a == b && out == other
  {
    var log := queued + Arrivals(waits);
    OnlyChunks(log[..i]);
    OnlyChunks(log[..j]);
    assert forall k :: 0 <= k < i ==> log[..i][k] == log[k];
    assert forall k :: 0 <= k < j ==> log[..j][k] == log[k];
  }

  /** A relay gives up exactly when it starts to wait too late, task_timeout after the last chunk (or the
      start) or streamMax after the start, or when nothing that arrived by then is left to take. */
  lemma GivesUpExactly(queued: seq<Event>, startedAt: Time, taskTimeout: Time, streamMax: Time,
                       waits: seq<Wait>, chunks: nat, stage: Stage)
    requires Relays(queued, startedAt, taskTimeout, streamMax, waits, chunks, stage)
    requires chunks < |waits|
    ensures var last := if chunks == 0 then startedAt else waits[chunks - 1].wokeAt;
            stage == GaveUp <==> waits[chunks].calledAt >= last + taskTimeout
                                 || waits[chunks].calledAt >= startedAt + streamMax
                                 || |queued + Arrivals(waits[..chunks + 1])| <= chunks
  {
  }

  /** Where the loop of _stream_task may leave off, and what it has yielded then. */
  lemma LeavesOff(queued: seq<Event>, startedAt: Time, taskTimeout: Time, streamMax: Time,
                  waits: seq<Wait>, chunks: nat, deltas: seq<Output>, stage: Stage)
    requires var log := queued + Arrivals(waits);
             Streams(log, chunks, deltas) && (stage == Ended ==> chunks < |log| && IsTerminal(log[chunks]))
    requires chunks <= |waits| && InTime(queued, startedAt, taskTimeout, streamMax, waits, chunks)
    requires stage == Going <==> chunks == |waits|
    requires chunks < |waits| ==>
               (stage == GaveUp <==> !GetsEvent(queued, waits, chunks,
                                                DeadlineAt(startedAt, waits, chunks, taskTimeout,
                                                           streamMax)))
    ensures var log := queued + Arrivals(waits);
            && Relays(queued, startedAt, taskTimeout, streamMax, waits, chunks, stage)
            && IsAt(log, chunks, deltas + Tail(log, chunks, stage), stage)
  {
  }

  /** The loop of _stream_task: relays until the task answers, breaks or times out, or until the
      consumer stops (`waits` ends). It gives up only when nothing came by the deadline, which every
      chunk extends but never beyond STREAM_MAX_SECONDS after the start. */
  method Relay(nodeId: NodeId, queued: seq<Event>, startedAt: Time, taskTimeout: Time,
               streamMax: Time, waits: seq<Wait>)
    returns (out: seq<Output>, records: seq<Outcome>, deadline: Time, chunks: nat, stage: Stage)
    ensures Relays(queued, startedAt, taskTimeout, streamMax, waits, chunks, stage)
    ensures IsAt(queued + Arrivals(waits), chunks, out, stage)
    ensures records == if stage == Going then [] else [Outcome(nodeId, out[|out| - 1].Done?)]
    ensures deadline == DeadlineAt(startedAt, waits, chunks, taskTimeout, streamMax)
    ensures deadline <= startedAt + streamMax
  {
    ghost var log := queued + Arrivals(waits);
    var hardDeadline := startedAt + streamMax;
    deadline := MinReal(startedAt + taskTimeout, hardDeadline);
    var streamed := false;
    var queue := queued;
    out, records, chunks, stage := [], [], 0, Going;
    assert QueueOk(queued, waits, 0, queue);
    while chunks < |waits|
      invariant QueueOk(queued, waits, chunks, queue)
      invariant Streams(log, chunks, out)
      invariant streamed <==> chunks > 0
      invariant deadline == DeadlineAt(startedAt, waits, chunks, taskTimeout, streamMax)
      invariant InTime(queued, startedAt, taskTimeout, streamMax, waits, chunks)
    {
      QueueStep(queued, waits, chunks, queue, deadline);
      var w := waits[chunks];
      var e := NextEvent(queue, deadline, w);
      if e.None? {
        LeavesOff(queued, startedAt, taskTimeout, streamMax, waits, chunks, out, GaveUp);
        records, stage := [Outcome(nodeId, false)], GaveUp;
        out := out + [Failure(Timeout)];
        return;
      }
      queue := (queue + w.arrived)[1..];
      if e.value.Chunk? {
        streamed := true;
        NextInTime(queued, startedAt, taskTimeout, streamMax, waits, chunks);
        deadline := MinReal(w.wokeAt + taskTimeout, hardDeadline);
        NextChunk(log, chunks, out);
        out := out + [Delta(e.value.delta)];
        chunks := chunks + 1;
      } else {
        LeavesOff(queued, startedAt, taskTimeout, streamMax, waits, chunks, out, Ended);
        records, stage := [Outcome(nodeId, e.value.Result? && e.value.payload.completed)], Ended;
        out := out + Ending(e.value, streamed);
        return;
      }
    }
    LeavesOff(queued, startedAt, taskTimeout, streamMax, waits, chunks, out, Going);
  }

  /** The calls during the waits that a relay or a wait came back from. */
  function OpsUntil(watches: seq<Watch>, chunks: nat): seq<Op> {
    if chunks < |watches| then OpsOf(watches[..chunks + 1]) else OpsOf(watches)
  }

  /** _stream_task: relays the events put on task `id`, records the outcome once and releases the
      task, whatever other coroutines do to the tracker before the stream starts (`past`), while it
      waits and while it ends (`leaving`). */
  method StreamTask(tr: Tracker, past: seq<Op>, id: TaskId, nodeId: NodeId, startedAt: Time,
                    taskTimeout: Time, streamMax: Time, watches: seq<Watch>, leaving: seq<Op>)
    returns (out: seq<Output>, records: seq<Outcome>, after: Tracker, deadline: Time, chunks: nat,
             stage: Stage)
    requires Foreign(OpsOf(watches), {id})
    ensures Relays(LastLog(tr, past, id), startedAt, taskTimeout, streamMax,
                   WaitsOf(tr, past, watches, id), chunks, stage)
    ensures IsAt(LastLog(tr, past + OpsOf(watches), id), chunks, out, stage)
    ensures records == if stage == Going then [] else [Outcome(nodeId, out[|out| - 1].Done?)]
    ensures after == ApplyAll(tr, past + OpsUntil(watches, chunks) + leaving + [OpPop(id)])
    ensures id !in after.tasks
    ensures deadline <= startedAt + streamMax
  {
    WaitsSeeTheLog(tr, past, watches, id);
    out, records, deadline, chunks, stage :=
      Relay(nodeId, LastLog(tr, past, id), startedAt, taskTimeout, streamMax,
            WaitsOf(tr, past, watches, id));
    var now := ApplyAll(tr, past + OpsUntil(watches, chunks) + leaving);
    after := now.Pop(id);
    ApplyAllConcat(tr, past + OpsUntil(watches, chunks) + leaving, [OpPop(id)]);
    assert ApplyAll(now, [OpPop(id)]) == Apply(now, OpPop(id));
  }

  /** The consumer sees deltas, then, if the stream is drained, exactly one final item. */
  lemma OneFinalItem(log: seq<Event>, chunks: nat, out: seq<Output>, stage: Stage)
    requires IsAt(log, chunks, out, stage)
    ensures forall i :: 0 <= i < |out| - 1 ==> out[i].Delta?
    ensures Drained(out) <==> stage != Going
  {
    var texts := ChunkTexts(log[..chunks]);
    var rest := Tail(log, chunks, stage);
    DeltasAre(texts);
    TailShape(log, chunks, stage);
    DeltasFirst(Deltas(texts), rest);
  }

  lemma DeltasFirst(before: seq<Output>, rest: seq<Output>)
    requires forall i :: 0 <= i < |before| ==> before[i].Delta?
    requires |rest| <= 2 && (|rest| == 2 ==> rest[0].Delta?)
    requires rest != [] ==> !rest[|rest| - 1].Delta?
    ensures forall i :: 0 <= i < |before + rest| - 1 ==> (before + rest)[i].Delta?
    ensures Drained(before + rest) <==> rest != []
  {
  }

  lemma TailTexts(before: seq<Output>, rest: seq<Output>)
    requires |rest| <= 2 && (|rest| == 2 ==> rest[0].Delta?)
    requires rest != [] ==> !rest[|rest| - 1].Delta?
    ensures Texts(before + rest) == Texts(before) + (if |rest| == 2 then [rest[0].text] else [])
  {
    if |rest| == 0 {
      assert before + rest == before;
    } else if |rest| == 1 {
      assert rest == [rest[0]];
      DeltaAppends(before, rest[0]);
    } else {
      var middle := before + [rest[0]];
      assert before + rest == middle + [rest[1]];
      DeltaAppends(before, rest[0]);
      DeltaAppends(middle, rest[1]);
    }
  }

  /** Did the task answer with a text before streaming anything? */
  predicate AnsweredAtOnce(log: seq<Event>, chunks: nat, stage: Stage) {
    stage == Ended && chunks == 0 && log != [] && log[0].Result? && log[0].payload.completed
    && log[0].payload.result != ""
  }

  lemma TailShape(log: seq<Event>, chunks: nat, stage: Stage)
    ensures var rest := Tail(log, chunks, stage);
            && |rest| <= 2 && (|rest| == 2 <==> AnsweredAtOnce(log, chunks, stage))
            && (|rest| == 2 ==> rest[0] == Delta(log[0].payload.result))
            && (rest != [] ==> !rest[|rest| - 1].Delta?)
            && (rest == [] <==> stage == Going
                                || (stage == Ended && !(chunks < |log| && IsTerminal(log[chunks]))))
  {
  }

  /** The deltas are the queued chunks, in order, or the whole result when nothing was streamed. */
  lemma RelayedTexts(log: seq<Event>, chunks: nat, out: seq<Output>, stage: Stage)
    requires IsAt(log, chunks, out, stage)
    ensures AllChunks(log[..chunks])
    ensures Texts(out) == if AnsweredAtOnce(log, chunks, stage) then [log[0].payload.result]
                          else ChunkTexts(log[..chunks])
  {
    var texts := ChunkTexts(log[..chunks]);
    var rest := Tail(log, chunks, stage);
    OnlyChunks(log[..chunks]);
    DeltasAre(texts);
    TailShape(log, chunks, stage);
    TailTexts(Deltas(texts), rest);
    if chunks == 0 {
      assert texts == [];
    }
  }

  /** The final item says how the task ended. */
  lemma FinalItem(log: seq<Event>, chunks: nat, out: seq<Output>)
    requires IsAt(log, chunks, out, Ended)
    ensures out != []
    ensures match log[chunks]
            case Error(ResultTooLarge) => out[|out| - 1] == Failure(TooMuch)
            case Error(NodeDisconnected) => out[|out| - 1] == Failure(NodeGone)
            case Result(p) => if p.completed then out[|out| - 1] == Done(p.result)
                              else out[|out| - 1]
                                   == Failure(TaskFailed(if p.result == "" then "Task failed"
                                                         else p.result))
  {
  }

  /** The texts relayed from a well-formed log are within the limit. */
  lemma TextsAreBounded(log: seq<Event>, chunks: nat, out: seq<Output>, stage: Stage, maxBytes: int)
    requires IsAt(log, chunks, out, stage) && LogShape(log, Some(maxBytes)) && maxBytes >= 0
    ensures Utf8Len(Concat(Texts(out))) <= maxBytes
  {
    RelayedTexts(log, chunks, out, stage);
    if AnsweredAtOnce(log, chunks, stage) {
      assert Concat([log[0].payload.result]) == log[0].payload.result;
    } else {
      FrontIsShorter(log, chunks);
    }
  }

  lemma FrontIsShorter(log: seq<Event>, chunks: nat)
    requires chunks <= |log|
    ensures Utf8Len(Concat(ChunkTexts(log[..chunks]))) <= Utf8Len(Concat(ChunkTexts(log)))
    ensures ChunkTexts(log) == [] ==> ChunkTexts(log[..chunks]) == []
  {
    var front, rest := ChunkTexts(log[..chunks]), ChunkTexts(log[chunks..]);
    assert log == log[..chunks] + log[chunks..];
    ChunkTextsAppend(log[..chunks], log[chunks..]);
    ConcatAppend(front, rest);
    Utf8LenConcat(Concat(front), Concat(rest));
  }

  /** A node cannot make the coordinator relay more than the limit, whatever it sends and whatever
      others do on the tracker. */
  lemma RelayIsBounded(tr: Tracker, ops: seq<Op>, id: TaskId, chunks: nat, out: seq<Output>,
                       stage: Stage)
    requires LogsOk(tr) && tr.maxBytes.Some? && tr.maxBytes.value >= 0
    requires IsAt(LastLog(tr, ops, id), chunks, out, stage)
    ensures Utf8Len(Concat(Texts(out))) <= tr.maxBytes.value
  {
    LastLogOk(tr, ops, id);
    TextsAreBounded(LastLog(tr, ops, id), chunks, out, stage, tr.maxBytes.value);
  }
}
