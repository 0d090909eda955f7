/** server.py: _run_split_task, against any calls other coroutines make on the tracker while it awaits. */
module SplitTask {
  import opened Prelude
  import opened Tasks
  import opened Streaming
  import opened Splitter
  import opened Dispatch
  import Registry
  import Connections
  import Coordinator
  import Router

  const SPLIT_CHUNKS: nat := 3

  function Digit(d: nat): char
    requires d < 10
  {
    ('0' as int + d) as char
  }

  function Decimal(n: nat): string {
    if n < 10 then [Digit(n)] else Decimal(n / 10) + [Digit(n % 10)]
  }

  function ValueOf(s: string): int {
    if s == [] then 0 else ValueOf(s[..|s| - 1]) * 10 + (s[|s| - 1] as int - '0' as int)
  }

  lemma {:induction false} DecimalReadsBack(n: nat)
    ensures ValueOf(Decimal(n)) == n
  {
    if n < 10 {
      assert Decimal(n)[..0] == [];
    } else {
      DecimalReadsBack(n / 10);
      assert Decimal(n)[..|Decimal(n)| - 1] == Decimal(n / 10);
    }
  }

  /** f'{task_id}-{i}' */
  function SubId(taskId: TaskId, i: nat): TaskId {
    taskId + "-" + Decimal(i)
  }

  /** Every chunk has its own task id. */
  lemma SubIdsDiffer(taskId: TaskId, i: nat, j: nat)
    requires i != j
    ensures SubId(taskId, i) != SubId(taskId, j)
  {
    DecimalReadsBack(i);
    DecimalReadsBack(j);
    assert SubId(taskId, i)[|taskId| + 1..] == Decimal(i);
    assert SubId(taskId, j)[|taskId| + 1..] == Decimal(j);
  }

  function SubIds(taskId: TaskId, n: nat): set<TaskId> {
    set i | 0 <= i < n :: SubId(taskId, i)
  }

  /** The world around one split task: attempt(i, k) is the k-th assignment of chunk i to a chosen
      node, routes(i) its fallback, `waiting` what other coroutines do on the tracker while the
      chunks' results are awaited side by side, and watches(i) the waits for chunk i in that time. */
  datatype SplitWorld = SplitWorld(attempt: (nat, nat) -> Attempt, routes: nat -> Routes,
                                   deadline: Time, waiting: seq<Op>, watches: nat -> seq<Watch>)

  ghost predicate WorldOk(w: SplitWorld, own: set<TaskId>) {
    && (forall i, k :: AttemptIsForeign(w.attempt(i, k), own))
    && (forall i :: RoutesOk(w.routes(i), own))
    && Foreign(w.waiting, own)
    && (forall i :: OpsOf(w.watches(i)) <= w.waiting)
  }

  /** node_ids[start:] + node_ids[:start] */
  function Rotated(nodes: seq<NodeId>, start: nat): seq<NodeId>
    requires start <= |nodes|
  {
    nodes[start..] + nodes[..start]
  }

  /** The chosen nodes are tried round robin: from the chunk's own on, each of them once. */
  lemma RotatedAt(nodes: seq<NodeId>, start: nat, k: nat)
    requires start < |nodes| && k < |nodes|
    ensures |Rotated(nodes, start)| == |nodes|
    ensures Rotated(nodes, start)[k]
            == nodes[if start + k < |nodes| then start + k else start + k - |nodes|]
  {
  }

  /** How a chunk was placed: how many of the chosen nodes were tried, the nodes _dispatch tried
      after them, and who has the task. */
  datatype Placement = Placement(used: nat, tried: seq<NodeId>, node: Option<NodeId>)

  predicate ChosenFailed(w: SplitWorld, i: nat, k: nat) {
    forall l: nat :: l < k ==> !w.attempt(i, l).Works()
  }

  /** The first chosen node that works has the chunk, counting from the chunk's own; only when none
      does, it is dispatched. */
  ghost predicate Placed(w: SplitWorld, i: nat, nodes: seq<NodeId>, p: Placement)
    requires nodes != []
  {
    && p.used <= |nodes|
    && if ChosenFailed(w, i, |nodes|) then
         p.used == |nodes| && Dispatched(w.routes(i), p.tried, p.node)
       else
         && p.used > 0 && ChosenFailed(w, i, p.used - 1) && w.attempt(i, p.used - 1).Works()
         && p.tried == [] && p.node == Some(Rotated(nodes, i % |nodes|)[p.used - 1])
  }

  /** The attempts leave no choice of how a chunk is placed. */
  lemma PlacementIsDetermined(w: SplitWorld, i: nat, nodes: seq<NodeId>, p: Placement, q: Placement)
    requires nodes != [] && Placed(w, i, nodes, p) && Placed(w, i, nodes, q)
    ensures p == q
  {
    if ChosenFailed(w, i, |nodes|) {
      DispatchIsDetermined(w.routes(i), p.tried, p.node, q.tried, q.node);
    }
  }

  /** The first node that works has the chunk, going round from the chunk's own. */
  lemma FirstWorkingNode(w: SplitWorld, i: nat, nodes: seq<NodeId>, p: Placement, k: nat)
    requires nodes != [] && Placed(w, i, nodes, p) && k < |nodes|
    requires w.attempt(i, k).Works() && forall l: nat :: l < k ==> !w.attempt(i, l).Works()
    ensures var own := i % |nodes|;
            p == Placement(k + 1, [],
                           Some(nodes[if own + k < |nodes| then own + k else own + k - |nodes|]))
  {
    assert !ChosenFailed(w, i, |nodes|);
    RotatedAt(nodes, i % |nodes|, k);
  }

  /** When its own node works, chunk i is there. */
  lemma OwnNodeFirst(w: SplitWorld, i: nat, nodes: seq<NodeId>, p: Placement)
    requires nodes != [] && Placed(w, i, nodes, p) && w.attempt(i, 0).Works()
    ensures p == Placement(1, [], Some(nodes[i % |nodes|]))
  {
    FirstWorkingNode(w, i, nodes, p, 0);
  }

  /** Everything that happens to the tracker while the chosen nodes in `order` are tried. */
  function ChosenOps(w: SplitWorld, i: nat, id: TaskId, order: seq<NodeId>): seq<Op> {
    if order == [] then []
    else
      var k := |order| - 1;
      ChosenOps(w, i, id, order[..k]) + AssignOps(id, order[k], w.attempt(i, k))
  }

  function PlacementOps(w: SplitWorld, i: nat, id: TaskId, nodes: seq<NodeId>, p: Placement): seq<Op>
    requires nodes != [] && p.used <= |nodes|
  {
    ChosenOps(w, i, id, Rotated(nodes, i % |nodes|)[..p.used])
    + if ChosenFailed(w, i, |nodes|) then DispatchOps(w.routes(i), id, p.tried, p.node) else []
  }

  lemma NextChosen(tr: Tracker, w: SplitWorld, i: nat, id: TaskId, order: seq<NodeId>, k: nat)
    requires k < |order|
    ensures ApplyAll(tr, ChosenOps(w, i, id, order[..k + 1]))
            == ApplyAll(ApplyAll(tr, ChosenOps(w, i, id, order[..k])),
                        AssignOps(id, order[k], w.attempt(i, k)))
  {
    assert order[..k + 1][..k] == order[..k];
    ApplyAllConcat(tr, ChosenOps(w, i, id, order[..k]), AssignOps(id, order[k], w.attempt(i, k)));
  }

  /** One more of the chosen nodes. */
  method TryOne(now: Tracker, id: TaskId, i: nat, order: seq<NodeId>, k: nat, w: SplitWorld,
                ghost tr: Tracker, ghost own: set<TaskId>)
    returns (after: Tracker, took: bool)
    requires id in own && WorldOk(w, own) && k < |order|
    requires now == ApplyAll(tr, ChosenOps(w, i, id, order[..k]))
    ensures took == w.attempt(i, k).Works()
    ensures after == ApplyAll(tr, ChosenOps(w, i, id, order[..k + 1]))
    ensures Held(after, own) <= if took then Held(now, own) + {id} else Held(now, own)
  {
    NextChosen(tr, w, i, id, order, k);
    after, took := Assign(now, id, order[k], w.attempt(i, k), own);
  }

  /** The loop over the chosen nodes: the first that works takes the chunk. */
  method TryChosen(tr: Tracker, id: TaskId, i: nat, order: seq<NodeId>, w: SplitWorld,
                   ghost own: set<TaskId>)
    returns (after: Tracker, used: nat, took: bool)
    requires id in own && WorldOk(w, own)
    ensures used <= |order| && after == ApplyAll(tr, ChosenOps(w, i, id, order[..used]))
    ensures if took then used > 0 && ChosenFailed(w, i, used - 1) && w.attempt(i, used - 1).Works()
            else used == |order| && ChosenFailed(w, i, used)
    ensures Held(after, own) <= if took then Held(tr, own) + {id} else Held(tr, own)
  {
    after, used, took := tr, 0, false;
    while used < |order|
      invariant used <= |order| && !took
      invariant Held(after, own) <= Held(tr, own) && ChosenFailed(w, i, used)
      invariant after == ApplyAll(tr, ChosenOps(w, i, id, order[..used]))
    {
      after, took := TryOne(after, id, i, order, used, w, tr, own);
      used := used + 1;
      if took {
        return;
      }
    }
  }

  /** Try the chosen nodes in turn, starting at the chunk's own, then dispatch. */
  method PlaceChunk(tr: Tracker, id: TaskId, i: nat, nodes: seq<NodeId>, w: SplitWorld,
                    ghost own: set<TaskId>)
    returns (after: Tracker, p: Placement)
    requires nodes != [] && id in own && WorldOk(w, own) && id !in tr.tasks
    ensures Placed(w, i, nodes, p)
    ensures after == ApplyAll(tr, PlacementOps(w, i, id, nodes, p))
    ensures Held(after, own) <= if p.node.Some? then Held(tr, own) + {id} else Held(tr, own)
  {
    var order := Rotated(nodes, i % |nodes|);
    var used, took;
    after, used, took := TryChosen(tr, id, i, order, w, own);
    if took {
      p := Placement(used, [], Some(order[used - 1]));
      assert !ChosenFailed(w, i, |nodes|);
      assert PlacementOps(w, i, id, nodes, p) == ChosenOps(w, i, id, order[..used]);
      return;
    }
    NotHeld(tr, after, own, id);
    var node, tried;
    after, node, tried := Dispatch.Dispatch(after, id, w.routes(i), own);
    p := Placement(used, tried, node);
    ApplyAllConcat(tr, ChosenOps(w, i, id, order[..used]), DispatchOps(w.routes(i), id, tried, node));
  }

  datatype SplitResult = NoNode | Unfinished | SplitFailed(cause: WaitOutcome)
                       | Merged(completed: bool, text: string)

  /** The answers' texts, in chunk order. */
  function AnswerTexts(outcomes: seq<WaitOutcome>): seq<string> {
    if outcomes == [] then []
    else
      var o := outcomes[|outcomes| - 1];
      AnswerTexts(outcomes[..|outcomes| - 1]) + (if o.Answered? then [o.payload.result] else [])
  }

  /** When all chunks were answered, there is one text for each, in order. */
  lemma {:induction false} AnswersInOrder(outcomes: seq<WaitOutcome>)
    requires AllAnswered(outcomes, |outcomes|)
    ensures |AnswerTexts(outcomes)| == |outcomes|
    ensures forall i :: 0 <= i < |outcomes| ==>
              outcomes[i].Answered? && AnswerTexts(outcomes)[i] == outcomes[i].payload.result
  {
    if outcomes != [] {
      var init := outcomes[..|outcomes| - 1];
      assert forall i :: 0 <= i < |init| ==> init[i] == outcomes[i];
      AnswersInOrder(init);
    }
  }

  /** Everything that happens to the tracker while the first chunks are placed like this. */
  function AllOps(w: SplitWorld, taskId: TaskId, nodes: seq<NodeId>, ps: seq<Placement>): seq<Op>
    requires nodes != [] && forall i :: 0 <= i < |ps| ==> ps[i].used <= |nodes|
  {
    if ps == [] then []
    else
      var m := |ps| - 1;
      AllOps(w, taskId, nodes, ps[..m]) + PlacementOps(w, m, SubId(taskId, m), nodes, ps[m])
  }

  lemma NextPlaced(tr: Tracker, w: SplitWorld, taskId: TaskId, nodes: seq<NodeId>,
                   ps: seq<Placement>, p: Placement)
    requires nodes != [] && p.used <= |nodes| && forall i :: 0 <= i < |ps| ==> ps[i].used <= |nodes|
    ensures ApplyAll(tr, AllOps(w, taskId, nodes, ps + [p]))
            == ApplyAll(ApplyAll(tr, AllOps(w, taskId, nodes, ps)),
                        PlacementOps(w, |ps|, SubId(taskId, |ps|), nodes, p))
  {
    var m := |ps|;
    assert (ps + [p])[..m] == ps;
    ApplyAllConcat(tr, AllOps(w, taskId, nodes, ps), PlacementOps(w, m, SubId(taskId, m), nodes, p));
  }

  /** These chunks, the first ones, all have a task. */
  ghost predicate FirstPlaced(w: SplitWorld, nodes: seq<NodeId>, tasks: seq<Placement>)
    requires nodes != []
  {
    forall i :: 0 <= i < |tasks| ==> Placed(w, i, nodes, tasks[i]) && tasks[i].node.Some?
  }

  lemma NextFirst(w: SplitWorld, nodes: seq<NodeId>, tasks: seq<Placement>, p: Placement)
    requires nodes != [] && FirstPlaced(w, nodes, tasks)
    requires Placed(w, |tasks|, nodes, p) && p.node.Some?
    ensures FirstPlaced(w, nodes, tasks + [p])
  {
  }

  /** The chunks that have a task, and the one that found no node, if any. */
  ghost predicate AllPlaced(w: SplitWorld, nodes: seq<NodeId>, n: nat, tasks: seq<Placement>,
                            failed: Option<Placement>)
    requires nodes != []
  {
    && |tasks| <= n && (failed.None? <==> |tasks| == n) && FirstPlaced(w, nodes, tasks)
    && (failed.Some? ==> Placed(w, |tasks|, nodes, failed.value) && failed.value.node.None?)
  }

  function Tries(tasks: seq<Placement>, failed: Option<Placement>): seq<Placement> {
    if failed.Some? then tasks + [failed.value] else tasks
  }

  /** A sub-task whose turn has not come is not tracked. */
  lemma NotYetHeld(tr: Tracker, taskId: TaskId, i: nat, n: nat)
    requires i < n && Held(tr, SubIds(taskId, n)) <= SubIds(taskId, i)
    ensures SubId(taskId, i) in SubIds(taskId, n) && SubId(taskId, i) !in tr.tasks
  {
    FreshSubId(taskId, i);
    assert SubId(taskId, i) !in Held(tr, SubIds(taskId, n));
  }

  /** The turn of chunk `i`, when only sub-tasks of earlier chunks may be tracked. */
  method PlaceNext(tr: Tracker, taskId: TaskId, i: nat, n: nat, nodes: seq<NodeId>, w: SplitWorld)
    returns (after: Tracker, p: Placement)
    requires nodes != [] && i < n && WorldOk(w, SubIds(taskId, n))
    requires Held(tr, SubIds(taskId, n)) <= SubIds(taskId, i)
    ensures Placed(w, i, nodes, p)
    ensures after == ApplyAll(tr, PlacementOps(w, i, SubId(taskId, i), nodes, p))
    ensures Held(after, SubIds(taskId, n)) <= SubIds(taskId, if p.node.Some? then i + 1 else i)
  {
    NotYetHeld(tr, taskId, i, n);
    FreshSubId(taskId, i);
    after, p := PlaceChunk(tr, SubId(taskId, i), i, nodes, w, SubIds(taskId, n));
  }

  /** The placing loop: one task per chunk in turn, until some chunk finds no node at all. */
  method PlaceAll(tr: Tracker, taskId: TaskId, n: nat, nodes: seq<NodeId>, w: SplitWorld,
                  ghost own: set<TaskId>)
    returns (after: Tracker, tasks: seq<Placement>, failed: Option<Placement>)
    requires nodes != [] && own == SubIds(taskId, n) && WorldOk(w, own) && Held(tr, own) == {}
    ensures AllPlaced(w, nodes, n, tasks, failed)
    ensures after == ApplyAll(tr, AllOps(w, taskId, nodes, Tries(tasks, failed)))
    ensures Held(after, own) <= SubIds(taskId, |tasks|)
  {
    after, tasks, failed := tr, [], None;
    while |tasks| < n
      invariant |tasks| <= n && failed.None? && FirstPlaced(w, nodes, tasks)
      invariant after == ApplyAll(tr, AllOps(w, taskId, nodes, tasks))
      invariant Held(after, own) <= SubIds(taskId, |tasks|)
    {
      var p;
      after, p := PlaceNext(after, taskId, |tasks|, n, nodes, w);
      NextPlaced(tr, w, taskId, nodes, tasks, p);
      if p.node.None? {
        failed := Some(p);
        return;
      }
      NextFirst(w, nodes, tasks, p);
      tasks := tasks + [p];
    }
  }

  /** The first outcome that is no answer. */
  function FirstFailure(outcomes: seq<WaitOutcome>): Option<WaitOutcome> {
    if outcomes == [] then None
    else
      var before, o := FirstFailure(outcomes[..|outcomes| - 1]), outcomes[|outcomes| - 1];
      if before.Some? || o.Answered? then before else Some(o)
  }

  /** All chunks up to the i-th were answered. */
  predicate AllAnswered(outcomes: seq<WaitOutcome>, i: nat)
    requires i <= |outcomes|
  {
    forall j :: 0 <= j < i ==> outcomes[j].Answered?
  }

  lemma {:induction false} FirstFailureIs(outcomes: seq<WaitOutcome>)
    ensures FirstFailure(outcomes).None? <==> AllAnswered(outcomes, |outcomes|)
    ensures FirstFailure(outcomes).Some? ==>
              exists i: nat :: i < |outcomes| && !outcomes[i].Answered?
                && FirstFailure(outcomes) == Some(outcomes[i]) && AllAnswered(outcomes, i)
  {
    if outcomes != [] {
      var init, m := outcomes[..|outcomes| - 1], |outcomes| - 1;
      FirstFailureIs(init);
      assert forall j :: 0 <= j < m ==> init[j] == outcomes[j];
      assert AllAnswered(init, m) <==> AllAnswered(outcomes, m);
      if FirstFailure(init).Some? {
        var i: nat :| i < m && !init[i].Answered? && FirstFailure(init) == Some(init[i])
                      && AllAnswered(init, i);
        assert AllAnswered(outcomes, i);
      }
    }
  }

  /** One record per chunk, for the node that had it. */
  ghost predicate RecordsAre(records: seq<Outcome>, tasks: seq<Placement>, outcomes: seq<WaitOutcome>) {
    && |records| == |tasks| == |outcomes|
    && forall i :: 0 <= i < |tasks| ==>
         tasks[i].node.Some? && records[i] == Outcome(tasks[i].node.value, OutcomeOk(outcomes[i]))
  }

  /** The collecting loop: records for every chunk, texts in chunk order, the first failure. */
  method Collect(tasks: seq<Placement>, outcomes: seq<WaitOutcome>)
    returns (records: seq<Outcome>, texts: seq<string>, cause: Option<WaitOutcome>, allOk: bool)
    requires |tasks| == |outcomes| && forall i :: 0 <= i < |tasks| ==> tasks[i].node.Some?
    ensures RecordsAre(records, tasks, outcomes)
    ensures texts == AnswerTexts(outcomes) && cause == FirstFailure(outcomes)
    ensures allOk <==> forall i :: 0 <= i < |outcomes| ==> OutcomeOk(outcomes[i])
  {
    records, texts, cause, allOk := [], [], None, true;
    var i := 0;
    while i < |outcomes|
      invariant i <= |outcomes|
      invariant RecordsAre(records, tasks[..i], outcomes[..i])
      invariant texts == AnswerTexts(outcomes[..i]) && cause == FirstFailure(outcomes[..i])
      invariant allOk <==> forall j :: 0 <= j < i ==> OutcomeOk(outcomes[j])
    {
      var o := outcomes[i];
      assert outcomes[..i + 1][..i] == outcomes[..i];
      records := records + [Outcome(tasks[i].node.value, OutcomeOk(o))];
      allOk := allOk && OutcomeOk(o);
      if o.Answered? {
        texts := texts + [o.payload.result];
      } else if cause.None? {
        cause := Some(o);
      }
      i := i + 1;
    }
    assert tasks[..i] == tasks && outcomes[..i] == outcomes;
  }

  /** What a split task answers when all its chunks were placed and waited for: the first failure, or
      the merged answers, completed when every chunk was. */
  ghost predicate Answers(outcomes: seq<WaitOutcome>, result: SplitResult) {
    match result
    case NoNode => false
    case Unfinished => false
    case SplitFailed(cause) =>
      exists i: nat :: i < |outcomes| && !outcomes[i].Answered? && cause == outcomes[i]
        && AllAnswered(outcomes, i)
    case Merged(completed, text) =>
      && AllAnswered(outcomes, |outcomes|)
      && text == MergeResults(AnswerTexts(outcomes))
      && (completed <==> forall i :: 0 <= i < |outcomes| ==> OutcomeOk(outcomes[i]))
  }

  /** The outcome is that of waiting for chunk i, whose events come over the shared tracker. */
  ghost predicate Awaited(tr: Tracker, past: seq<Op>, w: SplitWorld, id: TaskId, i: nat,
                          outcome: WaitOutcome)
  {
    exists chunks: nat ::
      Waited(LastLog(tr, past, id), w.deadline, WaitsOf(tr, past, w.watches(i), id), outcome, chunks)
  }

  ghost predicate AllAwaited(tr: Tracker, past: seq<Op>, w: SplitWorld, taskId: TaskId,
                             outcomes: seq<WaitOutcome>)
  {
    forall i :: 0 <= i < |outcomes| ==> Awaited(tr, past, w, SubId(taskId, i), i, outcomes[i])
  }

  /** The gathering of the chunks' results. */
  method Gather(tr: Tracker, past: seq<Op>, w: SplitWorld, taskId: TaskId, n: nat)
    returns (outcomes: seq<WaitOutcome>)
    ensures |outcomes| == n && AllAwaited(tr, past, w, taskId, outcomes)
  {
    outcomes := [];
    while |outcomes| < n
      invariant |outcomes| <= n && AllAwaited(tr, past, w, taskId, outcomes)
    {
      var i := |outcomes|;
      var id := SubId(taskId, i);
      var outcome, chunks :=
        WaitResult(LastLog(tr, past, id), w.deadline, WaitsOf(tr, past, w.watches(i), id));
      assert Awaited(tr, past, w, id, i, outcome);
      outcomes := outcomes + [outcome];
    }
  }

  /** The tracker after a split task that placed `tasks`. */
  function Afterwards(placing: Tracker, w: SplitWorld, taskId: TaskId, tasks: seq<Placement>,
                      failed: Option<Placement>, outcomes: seq<WaitOutcome>): Tracker {
    if failed.Some? then Without(placing, SubIds(taskId, |tasks|))
    else if StillWaiting in outcomes then ApplyAll(placing, w.waiting)
    else Without(ApplyAll(placing, w.waiting), SubIds(taskId, |tasks|))
  }

  /** What a split task over n chunks returns and records for its chunks' placements and outcomes. */
  ghost predicate Concludes(n: nat, tasks: seq<Placement>, failed: Option<Placement>,
                            outcomes: seq<WaitOutcome>, result: SplitResult, records: seq<Outcome>)
  {
    && |outcomes| == (if failed.Some? then 0 else n)
    && if failed.Some? then result == NoNode && records == []
       else if StillWaiting in outcomes then result == Unfinished && records == []
       else Answers(outcomes, result) && RecordsAre(records, tasks, outcomes)
  }

  /** What a split task over n chunks does: every chunk is placed, or the first that finds no node
      ends it; each is waited for on the shared tracker; the answer and the records are those of the
      chunks; and the sub-tasks are gone unless some chunk is still waited for. */
  ghost predicate SplitRan(tr: Tracker, taskId: TaskId, n: nat, nodes: seq<NodeId>, w: SplitWorld,
                           after: Tracker, result: SplitResult, tasks: seq<Placement>,
                           failed: Option<Placement>, outcomes: seq<WaitOutcome>,
                           records: seq<Outcome>)
    requires nodes != []
  {
    && AllPlaced(w, nodes, n, tasks, failed)
    && var past := AllOps(w, taskId, nodes, Tries(tasks, failed));
    && AllAwaited(tr, past, w, taskId, outcomes)
    && after == Afterwards(ApplyAll(tr, past), w, taskId, tasks, failed, outcomes)
    && Concludes(n, tasks, failed, outcomes, result, records)
    && (result != Unfinished ==> Held(after, SubIds(taskId, n)) == {})
  }

  /** _run_split_task from the chosen nodes on: one task per chunk, each waited for, the answers
      merged in chunk order, the first failure reported, and no sub-task left behind on any exit. */
  method RunSplitTask(tr: Tracker, taskId: TaskId, chunks: seq<string>, nodes: seq<NodeId>,
                      w: SplitWorld)
    returns (after: Tracker, result: SplitResult, tasks: seq<Placement>, failed: Option<Placement>,
             outcomes: seq<WaitOutcome>, records: seq<Outcome>)
    requires nodes != []
    requires WorldOk(w, SubIds(taskId, |chunks|))
    requires Held(tr, SubIds(taskId, |chunks|)) == {}
    ensures SplitRan(tr, taskId, |chunks|, nodes, w, after, result, tasks, failed, outcomes, records)
  {
    var n := |chunks|;
    ghost var own := SubIds(taskId, n);
    after, tasks, failed := PlaceAll(tr, taskId, n, nodes, w, own);
    outcomes, records := [], [];
    if failed.Some? {
      after := Release(after, taskId, |tasks|, own);
      result := NoNode;
      return;
    }
    outcomes := Gather(tr, AllOps(w, taskId, nodes, tasks), w, taskId, n);
    ForeignAddsNothing(after, w.waiting, own);
    after := ApplyAll(after, w.waiting);
    if StillWaiting in outcomes {
      result := Unfinished;
      return;
    }
    after := Release(after, taskId, n, own);
    var texts, cause, allOk;
    records, texts, cause, allOk := Collect(tasks, outcomes);
    FirstFailureIs(outcomes);
    result := if cause.Some? then SplitFailed(cause.value) else Merged(allOk, MergeResults(texts));
  }

  lemma FreshSubId(taskId: TaskId, i: nat)
    ensures SubId(taskId, i) !in SubIds(taskId, i)
    ensures SubIds(taskId, i + 1) == SubIds(taskId, i) + {SubId(taskId, i)}
  {
    forall j: nat | j < i
      ensures SubId(taskId, j) != SubId(taskId, i)
    {
      SubIdsDiffer(taskId, j, i);
    }
  }

  function Without(tr: Tracker, ids: set<TaskId>): Tracker {
    tr.(tasks := tr.tasks - ids)
  }

  /** The `finally` of _run_split_task: release the first n sub-tasks, and nothing else. */
  method Release(tr: Tracker, taskId: TaskId, n: nat, ghost own: set<TaskId>) returns (after: Tracker)
    requires Held(tr, own) <= SubIds(taskId, n)
    ensures after == Without(tr, SubIds(taskId, n)) && Held(after, own) == {}
  {
    after := tr;
    var i := 0;
    while i < n
      invariant i <= n && after == Without(tr, SubIds(taskId, i))
    {
      FreshSubId(taskId, i);
      assert (tr.tasks - SubIds(taskId, i)) - {SubId(taskId, i)} == tr.tasks - SubIds(taskId, i + 1);
      after := after.Pop(SubId(taskId, i));
      i := i + 1;
    }
  }

  /* ---- Load ---- */

  /** How many of the chunks 0 to n - 1 go to node `a` of `nodes` in turn. */
  function Load(n: nat, nodes: nat, a: nat): nat
    requires nodes > 0
  {
    if n == 0 then 0 else Load(n - 1, nodes, a) + (if (n - 1) % nodes == a then 1 else 0)
  }

  lemma QuotientUnique(n: nat, d: nat, q: nat, r: nat)
    requires d > 0 && r < d && n == q * d + r
    ensures n / d == q && n % d == r
  {
    var p := n / d;
    assert n == p * d + n % d;
    if p < q {
      Scale(p + 1, q, d);
    } else if p > q {
      Scale(q + 1, p, d);
    }
  }

  lemma NextQuotient(n: nat, d: nat)
    requires n > 0 && d > 0
    ensures if (n - 1) % d + 1 < d then n / d == (n - 1) / d && n % d == (n - 1) % d + 1
            else n / d == (n - 1) / d + 1 && n % d == 0
  {
    var q, r := (n - 1) / d, (n - 1) % d;
    assert n - 1 == q * d + r;
    if r + 1 < d {
      QuotientUnique(n, d, q, r + 1);
    } else {
      assert n == (q + 1) * d + 0;
      QuotientUnique(n, d, q + 1, 0);
    }
  }

  lemma {:induction false} LoadIs(n: nat, nodes: nat, a: nat)
    requires a < nodes
    ensures Load(n, nodes, a) == n / nodes + (if a < n % nodes then 1 else 0)
  {
    if n > 0 {
      LoadIs(n - 1, nodes, a);
      NextQuotient(n, nodes);
    }
  }

  lemma {:induction false} PlacedLoad(placed: seq<NodeId>, nodes: seq<NodeId>, a: nat)
    requires a < |nodes| && Distinct(nodes)
    requires forall i :: 0 <= i < |placed| ==> placed[i] == nodes[i % |nodes|]
    ensures multiset(placed)[nodes[a]] == Load(|placed|, |nodes|, a)
  {
    if placed != [] {
      var m := |placed| - 1;
      assert placed == placed[..m] + [placed[m]];
      PlacedLoad(placed[..m], nodes, a);
    }
  }

  function NodesOf(tasks: seq<Placement>): (nodes: seq<NodeId>)
    requires forall i :: 0 <= i < |tasks| ==> tasks[i].node.Some?
    ensures |nodes| == |tasks| && forall i :: 0 <= i < |tasks| ==> nodes[i] == tasks[i].node.value
  {
    if tasks == [] then []
    else NodesOf(tasks[..|tasks| - 1]) + [tasks[|tasks| - 1].node.value]
  }

  /** No node has two chunks more than another. */
  ghost predicate Balanced(tasks: seq<Placement>, nodes: seq<NodeId>) {
    && (forall i :: 0 <= i < |tasks| ==> tasks[i].node.Some?)
    && forall a, b :: 0 <= a < |nodes| && 0 <= b < |nodes| ==>
         multiset(NodesOf(tasks))[nodes[a]] <= multiset(NodesOf(tasks))[nodes[b]] + 1
  }

  /** When every chunk's own node works, the load is balanced. */
  lemma LoadsAreBalanced(w: SplitWorld, tasks: seq<Placement>, nodes: seq<NodeId>)
    requires nodes != [] && Distinct(nodes) && FirstPlaced(w, nodes, tasks)
    requires forall i: nat :: i < |tasks| ==> w.attempt(i, 0).Works()
    ensures Balanced(tasks, nodes)
  {
    var placed := NodesOf(tasks);
    forall i | 0 <= i < |placed|
      ensures placed[i] == nodes[i % |nodes|]
    {
      OwnNodeFirst(w, i, nodes, tasks[i]);
    }
    forall a, b | 0 <= a < |nodes| && 0 <= b < |nodes|
      ensures multiset(placed)[nodes[a]] <= multiset(placed)[nodes[b]] + 1
    {
      PlacedLoad(placed, nodes, a);
      PlacedLoad(placed, nodes, b);
      LoadIs(|placed|, |nodes|, a);
      LoadIs(|placed|, |nodes|, b);
    }
  }

  /** Does every chunk's own node work? */
  ghost predicate OwnNodesWork(w: SplitWorld, n: nat) {
    forall i: nat :: i < n ==> w.attempt(i, 0).Works()
  }

  /** _run_split_task from the request's content on: split, pick nodes, run. `tr` is the tracker when
      the nodes have been picked from the entries read. */
  method SplitAndRun(tr: Tracker, taskId: TaskId, content: string, pool: Connections.Pool,
                     job: Coordinator.Job, entries: seq<Registry.Entry>, suspended: NodeId -> bool,
                     score: NodeId -> real, w: SplitWorld)
    returns (after: Tracker, result: SplitResult, chunks: seq<string>, tasks: seq<Placement>,
             nodes: seq<NodeId>, failed: Option<Placement>, outcomes: seq<WaitOutcome>,
             records: seq<Outcome>)
    requires WorldOk(w, SubIds(taskId, SPLIT_CHUNKS)) && Held(tr, SubIds(taskId, SPLIT_CHUNKS)) == {}
    ensures SplitsInto(content, SPLIT_CHUNKS, chunks) && |chunks| == 3 && |nodes| <= 3
    ensures forall n :: n in nodes ==> Router.Serves(pool, job, entries, n) && !suspended(n)
    ensures nodes == [] ==>
              && (forall n :: Router.Serves(pool, job, entries, n) ==> suspended(n))
              && result == NoNode && after == tr
    ensures nodes != [] ==>
              SplitRan(tr, taskId, SPLIT_CHUNKS, nodes, w, after, result, tasks, failed, outcomes, records)
    ensures nodes != [] && Coordinator.DistinctIds(entries) && OwnNodesWork(w, SPLIT_CHUNKS) ==>
              Balanced(tasks, nodes)
    ensures nodes != [] && Echoes(outcomes, chunks) ==>
              result.Merged? && NonSpace(result.text) == NonSpace(content)
  {
    chunks := SplitContent(content, SPLIT_CHUNKS);
    nodes := Router.FindNodesForSplit(pool, job, entries, |chunks|, suspended, score);
    if nodes == [] {
      after, result, tasks, failed, outcomes, records := tr, NoNode, [], None, [], [];
      return;
    }
    after, result, tasks, failed, outcomes, records := RunSplitTask(tr, taskId, chunks, nodes, w);
    if Distinct(nodes) {
      BalancedIfWorking(w, SPLIT_CHUNKS, nodes, tasks);
    }
    ghost var echoes := Echoes(outcomes, chunks);
    if echoes {
      EchoIsAnswered(chunks, tasks, failed, outcomes, result, records);
      EchoMerges(content, chunks, outcomes, result);
    }
  }

  /** Every chunk's answer is its own text. */
  ghost predicate Echoes(outcomes: seq<WaitOutcome>, chunks: seq<string>) {
    && |outcomes| == |chunks|
    && forall i :: 0 <= i < |chunks| ==>
         outcomes[i].Answered? && outcomes[i].payload.result == chunks[i]
  }

  lemma {:induction false} EchoTexts(outcomes: seq<WaitOutcome>, chunks: seq<string>)
    requires Echoes(outcomes, chunks)
    ensures AnswerTexts(outcomes) == chunks
  {
    if chunks != [] {
      EchoTexts(outcomes[..|chunks| - 1], chunks[..|chunks| - 1]);
    }
  }

  lemma EchoIsAnswered(chunks: seq<string>, tasks: seq<Placement>, failed: Option<Placement>,
                       outcomes: seq<WaitOutcome>, result: SplitResult, records: seq<Outcome>)
    requires chunks != [] && Echoes(outcomes, chunks)
    requires Concludes(|chunks|, tasks, failed, outcomes, result, records)
    ensures Answers(outcomes, result)
  {
  }

  /** Splitting, running and merging keeps the text that the nodes keep. */
  lemma EchoMerges(content: string, chunks: seq<string>, outcomes: seq<WaitOutcome>, result: SplitResult)
    requires NonSpace(MergeResults(chunks)) == NonSpace(content)
    requires Echoes(outcomes, chunks) && Answers(outcomes, result)
    ensures result.Merged? && NonSpace(result.text) == NonSpace(content)
  {
    EchoTexts(outcomes, chunks);
  }

  lemma BalancedIfWorking(w: SplitWorld, n: nat, nodes: seq<NodeId>, tasks: seq<Placement>)
    requires nodes != [] && Distinct(nodes) && FirstPlaced(w, nodes, tasks) && |tasks| <= n
    ensures OwnNodesWork(w, n) ==> Balanced(tasks, nodes)
  {
    if OwnNodesWork(w, n) {
      LoadsAreBalanced(w, tasks, nodes);
    }
  }
}
