/** server.py: _assign, _dispatch and _run_task, each against any calls other coroutines make on the
    tracker while it awaits. */
module Dispatch {
  import opened Prelude
  import opened Tasks
  import opened Streaming

  const DISPATCH_ATTEMPTS: nat := 3

  /** The world around one _assign: the node's live connection at that moment, whether the send
      succeeds, and what other coroutines do to the tracker while it sends and while it drops. */
  datatype Attempt = Attempt(conn: Option<Conn>, sent: bool, now: Time, sending: seq<Op>,
                             dropping: seq<Op>)
  {
    predicate Works() {
      conn.Some? && sent
    }
  }

  ghost predicate AttemptIsForeign(a: Attempt, own: set<TaskId>) {
    Foreign(a.sending, own) && Foreign(a.dropping, own)
  }

  /** The ids of `own` that are tracked. */
  function Held(tr: Tracker, own: set<TaskId>): set<TaskId> {
    set id | id in own && id in tr.tasks
  }

  lemma {:induction false} ForeignAddsNothing(tr: Tracker, ops: seq<Op>, own: set<TaskId>)
    requires Foreign(ops, own)
    ensures Held(ApplyAll(tr, ops), own) <= Held(tr, own)
    decreases |ops|
  {
    if ops != [] {
      assert ops[0] in ops;
      assert Held(Apply(tr, ops[0]), own) <= Held(tr, own);
      assert Foreign(ops[1..], own);
      ForeignAddsNothing(Apply(tr, ops[0]), ops[1..], own);
    }
  }

  /** Everything that happens to the tracker during one _assign, in order. */
  function AssignOps(id: TaskId, nodeId: NodeId, a: Attempt): seq<Op> {
    if a.conn.None? then []
    else
      [OpCreate(id, nodeId, a.conn.value, a.now)] + a.sending
      + if a.sent then [] else [OpPop(id)] + a.dropping + [OpFail(a.conn.value, a.now)]
  }

  lemma FailedSendOps(tr: Tracker, id: TaskId, nodeId: NodeId, a: Attempt)
    requires a.conn.Some?
    ensures var created := tr.Create(id, nodeId, a.conn.value, a.now);
            var sent := ApplyAll(created, a.sending);
            var dropped := ApplyAll(sent.Pop(id), a.dropping).FailConnection(a.conn.value, a.now);
            ApplyAll(tr, AssignOps(id, nodeId, a)) == if a.sent then sent else dropped
  {
    var create, fail := OpCreate(id, nodeId, a.conn.value, a.now), OpFail(a.conn.value, a.now);
    var tail := [OpPop(id)] + a.dropping + [fail];
    assert ([create] + a.sending)[1..] == a.sending;
    assert [create] + a.sending + [] == [create] + a.sending;
    ApplyAllConcat(tr, [create] + a.sending, tail);
    assert tail == [OpPop(id)] + (a.dropping + [fail]);
    assert tail[1..] == a.dropping + [fail];
    var popped := ApplyAll(Apply(tr, create), a.sending).Pop(id);
    ApplyAllConcat(popped, a.dropping, [fail]);
    assert ApplyAll(ApplyAll(popped, a.dropping), [fail])
           == Apply(ApplyAll(popped, a.dropping), fail);
  }

  /** _assign: the task is tracked before it is sent; a failed send leaves no trace of it and fails
      whatever else was on that connection. */
  method Assign(tr: Tracker, id: TaskId, nodeId: NodeId, a: Attempt, ghost own: set<TaskId>)
    returns (after: Tracker, ok: bool)
    requires id in own && AttemptIsForeign(a, own)
    ensures ok <==> a.conn.Some? && a.sent
    ensures after == ApplyAll(tr, AssignOps(id, nodeId, a))
    ensures ok ==> Held(after, own) <= Held(tr, own) + {id}
    ensures !ok ==> Held(after, own) <= if a.conn.None? then Held(tr, own) else Held(tr, own) - {id}
  {
    if a.conn.None? {
      return tr, false;
    }
    FailedSendOps(tr, id, nodeId, a);
    var created := tr.Create(id, nodeId, a.conn.value, a.now);
    assert Held(created, own) <= Held(tr, own) + {id};
    var now := ApplyAll(created, a.sending);
    ForeignAddsNothing(created, a.sending, own);
    if a.sent {
      return now, true;
    }
    var popped := now.Pop(id);
    assert Held(popped, own) <= Held(tr, own) - {id};
    var waited := ApplyAll(popped, a.dropping);
    ForeignAddsNothing(popped, a.dropping, own);
    after := waited.FailConnection(a.conn.value, a.now);
    assert Held(after, own) == Held(waited, own);
    ok := false;
  }

  /** The world around one _dispatch: what find_best_node picks on the k-th try given the nodes
      already tried (never one of those), what happens to the k-th assignment, and what other
      coroutines do while routing reads. */
  datatype Routes = Routes(best: (nat, set<NodeId>) -> Option<NodeId>, attempt: nat -> Attempt,
                           routing: nat -> seq<Op>)

  ghost predicate RoutesOk(r: Routes, own: set<TaskId>) {
    && (forall k, tried :: r.best(k, tried).Some? ==> r.best(k, tried).value !in tried)
    && (forall k :: AttemptIsForeign(r.attempt(k), own))
    && (forall k :: Foreign(r.routing(k), own))
  }

  /** Everything that happens to the tracker while the nodes in `order` are tried. */
  function TriedOps(r: Routes, id: TaskId, order: seq<NodeId>): seq<Op> {
    if order == [] then []
    else
      var k := |order| - 1;
      TriedOps(r, id, order[..k]) + (r.routing(k) + AssignOps(id, order[k], r.attempt(k)))
  }

  lemma TryOps(tr: Tracker, r: Routes, id: TaskId, order: seq<NodeId>, node: NodeId)
    ensures var k := |order|; var before := ApplyAll(tr, TriedOps(r, id, order));
            ApplyAll(ApplyAll(before, r.routing(k)), AssignOps(id, node, r.attempt(k)))
            == ApplyAll(tr, TriedOps(r, id, order + [node]))
  {
    var k := |order|;
    assert (order + [node])[..k] == order;
    ApplyAllConcat(tr, TriedOps(r, id, order), r.routing(k) + AssignOps(id, node, r.attempt(k)));
    ApplyAllConcat(ApplyAll(tr, TriedOps(r, id, order)), r.routing(k),
                   AssignOps(id, node, r.attempt(k)));
  }

  function AsSet(order: seq<NodeId>): set<NodeId> {
    set n | n in order
  }

  lemma NewlyTried(order: seq<NodeId>, n: NodeId)
    requires Distinct(order) && n !in AsSet(order)
    ensures Distinct(order + [n])
  {
  }

  predicate NoneWorked(r: Routes, n: nat) {
    forall k: nat :: k < n ==> !r.attempt(k).Works()
  }

  /** The nodes in `order` are what routing picks in turn, each given those before it. */
  ghost predicate FollowsRouting(r: Routes, order: seq<NodeId>) {
    forall k :: 0 <= k < |order| ==> r.best(k, AsSet(order[..k])) == Some(order[k])
  }

  /** _dispatch tries the nodes in `order`: at most three, until one takes the task (`node`) or
      routing has no other. */
  ghost predicate Dispatched(r: Routes, order: seq<NodeId>, node: Option<NodeId>) {
    && |order| <= DISPATCH_ATTEMPTS && FollowsRouting(r, order)
    && match node
       case Some(n) =>
         && order != [] && order[|order| - 1] == n
         && NoneWorked(r, |order| - 1) && r.attempt(|order| - 1).Works()
       case None =>
         && NoneWorked(r, |order|)
         && (|order| == DISPATCH_ATTEMPTS || r.best(|order|, AsSet(order)).None?)
  }

  lemma {:induction false} SameOrder(r: Routes, a: seq<NodeId>, b: seq<NodeId>, k: nat)
    requires FollowsRouting(r, a) && FollowsRouting(r, b) && k <= |a| && k <= |b|
    ensures a[..k] == b[..k] && (k == |a| ==> b[..k] == a)
  {
    if k > 0 {
      SameOrder(r, a, b, k - 1);
      assert a[..k] == a[..k - 1] + [a[k - 1]] && b[..k] == b[..k - 1] + [b[k - 1]];
    }
  }

  lemma NotShorter(r: Routes, a: seq<NodeId>, m: Option<NodeId>, b: seq<NodeId>, n: Option<NodeId>)
    requires Dispatched(r, a, m) && Dispatched(r, b, n)
    ensures |b| <= |a|
  {
    if |a| < |b| && m.None? {
      SameOrder(r, a, b, |a|);
    }
  }

  /** Routing and the attempts leave no choice of who gets the task. */
  lemma DispatchIsDetermined(r: Routes, a: seq<NodeId>, m: Option<NodeId>, b: seq<NodeId>,
                             n: Option<NodeId>)
    requires Dispatched(r, a, m) && Dispatched(r, b, n)
    ensures a == b && m == n
  {
    NotShorter(r, a, m, b, n);
    NotShorter(r, b, n, a, m);
    SameOrder(r, a, b, |a|);
    assert b[..|a|] == b;
  }

  /** Everything that happens to the tracker during a _dispatch. */
  function DispatchOps(r: Routes, id: TaskId, order: seq<NodeId>, node: Option<NodeId>): seq<Op> {
    TriedOps(r, id, order)
    + if node.None? && |order| < DISPATCH_ATTEMPTS then r.routing(|order|) else []
  }

  /** The nodes in `order` were tried in vain. */
  ghost predicate InVain(r: Routes, order: seq<NodeId>) {
    |order| <= DISPATCH_ATTEMPTS && FollowsRouting(r, order) && NoneWorked(r, |order|)
    && Distinct(order)
  }

  lemma NextTried(r: Routes, order: seq<NodeId>, n: NodeId)
    requires InVain(r, order) && |order| < DISPATCH_ATTEMPTS
    requires r.best(|order|, AsSet(order)) == Some(n) && n !in AsSet(order)
    ensures Distinct(order + [n])
    ensures if r.attempt(|order|).Works() then Dispatched(r, order + [n], Some(n))
            else InVain(r, order + [n])
  {
    var longer := order + [n];
    assert longer[..|order|] == order;
    assert forall k :: 0 <= k < |order| ==> longer[..k] == order[..k];
    NewlyTried(order, n);
  }

  lemma NotHeld(tr: Tracker, after: Tracker, own: set<TaskId>, id: TaskId)
    requires id in own && id !in tr.tasks && Held(after, own) <= Held(tr, own)
    ensures id !in after.tasks
  {
    assert id !in Held(after, own);
  }

  /** One round of _dispatch after the nodes in `order` failed: pick the next node and try it. */
  method TryNext(now: Tracker, r: Routes, id: TaskId, order: seq<NodeId>, ghost tr: Tracker,
                 ghost own: set<TaskId>)
    returns (after: Tracker, next: Option<NodeId>, took: bool)
    requires id in own && RoutesOk(r, own)
    requires now == ApplyAll(tr, TriedOps(r, id, order))
    ensures next == r.best(|order|, AsSet(order)) && took == (next.Some? && r.attempt(|order|).Works())
    ensures after == ApplyAll(tr, if next.Some? then TriedOps(r, id, order + [next.value])
                                  else TriedOps(r, id, order) + r.routing(|order|))
    ensures Held(after, own) <= if took then Held(now, own) + {id} else Held(now, own)
  {
    var k := |order|;
    ForeignAddsNothing(now, r.routing(k), own);
    ApplyAllConcat(tr, TriedOps(r, id, order), r.routing(k));
    var routed := ApplyAll(now, r.routing(k));
    next := r.best(k, AsSet(order));
    if next.None? {
      return routed, None, false;
    }
    TryOps(tr, r, id, order, next.value);
    after, took := Assign(routed, id, next.value, r.attempt(k), own);
  }

  /** _dispatch: at most three different nodes, the first that takes the task keeps it; when none
      does (NoNodeAvailable) the task is not tracked. */
  method Dispatch(tr: Tracker, id: TaskId, r: Routes, ghost own: set<TaskId>)
    returns (after: Tracker, node: Option<NodeId>, order: seq<NodeId>)
    requires id in own && RoutesOk(r, own) && id !in tr.tasks
    ensures Dispatched(r, order, node) && Distinct(order) && |order| <= 3
    ensures node.None? && |order| < 3 ==> r.best(|order|, set n | n in order) == None
    ensures after == ApplyAll(tr, DispatchOps(r, id, order, node))
    ensures Held(after, own) <= if node.Some? then Held(tr, own) + {id} else Held(tr, own)
    ensures node.None? ==> id !in after.tasks
  {
    after, node, order := tr, None, [];
    while |order| < DISPATCH_ATTEMPTS
      invariant InVain(r, order) && node.None?
      invariant Held(after, own) <= Held(tr, own)
      invariant after == ApplyAll(tr, TriedOps(r, id, order))
    {
      var next, took;
      after, next, took := TryNext(after, r, id, order, tr, own);
      if next.None? {
        NotHeld(tr, after, own, id);
        return;
      }
      NextTried(r, order, next.value);
      order := order + [next.value];
      if took {
        node := next;
        NoMore(TriedOps(r, id, order));
        return;
      }
    }
    NoMore(TriedOps(r, id, order));
    NotHeld(tr, after, own, id);
  }

  lemma NoMore(ops: seq<Op>)
    ensures ops + [] == ops
  {
  }

  predicate OutcomeOk(o: WaitOutcome): (ok: bool)
    ensures ok <==> exists text :: o == Answered(Payload(true, text))
  {
    assert o.Answered? ==> o == Answered(Payload(o.payload.completed, o.payload.result));
    o.Answered? && o.payload.completed
  }

  /** How _run_task ends once its wait is over: a failure is recorded before the task is released,
      while other coroutines go on (`leaving`). */
  function EndOps(outcome: WaitOutcome, id: TaskId, leaving: seq<Op>): seq<Op> {
    match outcome
    case StillWaiting => []
    case Answered(_) => [OpPop(id)]
    case _ => leaving + [OpPop(id)]
  }

  lemma PopLast(tr: Tracker, ops: seq<Op>, id: TaskId)
    ensures ApplyAll(tr, ops + [OpPop(id)]) == ApplyAll(tr, ops).Pop(id)
  {
    ApplyAllConcat(tr, ops, [OpPop(id)]);
    assert ApplyAll(ApplyAll(tr, ops), [OpPop(id)]) == Apply(ApplyAll(tr, ops), OpPop(id));
  }

  /** _run_task without splitting: the node that took the task is waited for, whatever comes out is
      recorded once for it, and the task is released. */
  method RunTask(tr: Tracker, id: TaskId, r: Routes, ghost own: set<TaskId>, timeoutAt: Time,
                 watches: seq<Watch>, leaving: seq<Op>)
    returns (after: Tracker, node: Option<NodeId>, order: seq<NodeId>, outcome: WaitOutcome,
             chunks: nat, records: seq<Outcome>)
    requires id in own && RoutesOk(r, own) && id !in tr.tasks
    ensures Dispatched(r, order, node)
    ensures var past := DispatchOps(r, id, order, node);
            if node.None? then
              after == ApplyAll(tr, past) && id !in after.tasks && records == []
            else
              && Waited(LastLog(tr, past, id), timeoutAt, WaitsOf(tr, past, watches, id), outcome, chunks)
              && records == (if outcome.StillWaiting? then []
                             else [Outcome(node.value, OutcomeOk(outcome))])
              && after == ApplyAll(tr, past + OpsUntil(watches, chunks) + EndOps(outcome, id, leaving))
              && (id in after.tasks ==> outcome.StillWaiting?)
  {
    after, node, order := Dispatch(tr, id, r, own);
    records, outcome, chunks := [], StillWaiting, 0;
    if node.Some? {
      var past := DispatchOps(r, id, order, node);
      outcome, chunks := WaitResult(LastLog(tr, past, id), timeoutAt, WaitsOf(tr, past, watches, id));
      var gone := past + OpsUntil(watches, chunks);
      match outcome {
        case StillWaiting =>
          after := ApplyAll(tr, gone);
          NoMore(gone);
        case Answered(payload) =>
          after := ApplyAll(tr, gone).Pop(id);
          PopLast(tr, gone, id);
          records := [Outcome(node.value, payload.completed)];
        case _ =>
          records := [Outcome(node.value, false)];
          after := ApplyAll(tr, gone + leaving).Pop(id);
          PopLast(tr, gone + leaving, id);
          assert gone + (leaving + [OpPop(id)]) == gone + leaving + [OpPop(id)];
      }
    }
  }
}
