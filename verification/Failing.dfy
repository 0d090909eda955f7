/** server.py: failing the tasks of connections that end, are replaced or are dropped. */
module Failing {
  import opened Prelude
  import opened Tasks
  import opened Coordinator
  import opened Safety

  /** No task on this connection is unfinished. */
  ghost predicate NoneUnfinished(tr: Tracker, c: Conn) {
    forall id :: tr.Owned(id, c) ==> tr.tasks[id].finishedAt.Some?
  }

  lemma FailConnectionFinishesAll(s: State, c: Conn)
    ensures NoneUnfinished(s.FailTasks(Some(c)).tracker, c)
  {
  }

  /** The actions of `more` after those of `actions` are all `a`. */
  ghost predicate OnlyAdds(actions: seq<Action>, more: seq<Action>, a: Action) {
    actions <= more && forall i :: |actions| <= i < |more| ==> more[i] == a
  }

  lemma HandlersFailAtOnce(s: State, c: Conn)
    requires c in s.handlers
    ensures s.handlers[c].phase.Joined? && s.handlers[c].phase.replaced.Some? ==>
              NoneUnfinished(AdvanceHandler(s, c).tracker, s.handlers[c].phase.replaced.value)
    ensures s.handlers[c].phase == Unregistering(0) ==> NoneUnfinished(AdvanceHandler(s, c).tracker, c)
    ensures !s.pool.IsLive(s.handlers[c].node, Some(c)) && s.handlers[c].phase != Rejecting(false) ==>
              NoneUnfinished(Finish(s, c).tracker, c)
  {
    if s.handlers[c].phase.Joined? && s.handlers[c].phase.replaced.Some? {
      FailConnectionFinishesAll(s, s.handlers[c].phase.replaced.value);
    }
    FailConnectionFinishesAll(s, c);
  }

  lemma JobsFailAtOnce(s: State, j: nat)
    requires j in s.jobs
    ensures s.jobs[j].pc.Dropping? && s.jobs[j].pc.left == 0 && s.jobs[j].pc.socket.Some? ==>
              NoneUnfinished(AdvanceDrop(s, j).tracker, s.jobs[j].pc.socket.value)
    ensures s.jobs[j].pc.Sending? && !s.pool.IsLive(s.jobs[j].pc.node, Some(s.jobs[j].pc.conn)) ==>
              NoneUnfinished(FinishAssign(s, j, false).tracker, s.jobs[j].pc.conn)
              && s.jobs[j].pc.task !in FinishAssign(s, j, false).tracker.tasks
  {
    if s.jobs[j].pc.Dropping? && s.jobs[j].pc.socket.Some? {
      FailConnectionFinishesAll(s, s.jobs[j].pc.socket.value);
    }
    if s.jobs[j].pc.Sending? {
      FailConnectionFinishesAll(s.(tracker := s.tracker.Pop(s.jobs[j].pc.task)), s.jobs[j].pc.conn);
    }
  }

  /** The connection that the handler's registration replaced and has yet to fail. */
  function Replacing(phase: Phase): Option<Conn> {
    match phase
    case StoringEntry(replaced) => replaced
    case JoiningOnline(replaced) => replaced
    case Joined(replaced) => replaced
    case _ => None
  }

  function StepsToJoin(phase: Phase): nat {
    if phase.StoringEntry? then 2 else if phase.JoiningOnline? then 1 else 0
  }

  /** However a run stands, a registration that replaced a connection gets, by its own steps, to
      where none of that connection's tasks is unfinished: they need not wait for their timeouts. */
  lemma {:induction false} ReplacedLosesItsTasks(cfg: Config, run: seq<State>, actions: seq<Action>,
                                                 c: Conn, d: Conn)
    returns (longer: seq<State>, more: seq<Action>)
    requires IsRun(cfg, run, actions) && c in run[|actions|].handlers
    requires Replacing(run[|actions|].handlers[c].phase) == Some(d)
    ensures IsRun(cfg, longer, more) && run <= longer && OnlyAdds(actions, more, Advance(c))
    ensures NoneUnfinished(longer[|more|].tracker, d)
    decreases StepsToJoin(run[|actions|].handlers[c].phase)
  {
    HandlersFailAtOnce(run[|actions|], c);
    longer := Extend(cfg, run, actions, Advance(c));
    more := actions + [Advance(c)];
    if !run[|actions|].handlers[c].phase.Joined? {
      longer, more := ReplacedLosesItsTasks(cfg, longer, more, c, d);
    }
  }

  /** The same for a request that drops a connection. */
  lemma {:induction false} DroppingFinishes(cfg: Config, run: seq<State>, actions: seq<Action>, j: nat,
                                            d: Conn)
    returns (longer: seq<State>, more: seq<Action>)
    requires IsRun(cfg, run, actions) && j in run[|actions|].jobs
    requires run[|actions|].jobs[j].pc.Dropping? && run[|actions|].jobs[j].pc.socket == Some(d)
    ensures IsRun(cfg, longer, more) && run <= longer && OnlyAdds(actions, more, AdvanceJob(j))
    ensures NoneUnfinished(longer[|more|].tracker, d)
    decreases run[|actions|].jobs[j].pc.left
  {
    JobsFailAtOnce(run[|actions|], j);
    longer := Extend(cfg, run, actions, AdvanceJob(j));
    more := actions + [AdvanceJob(j)];
    if run[|actions|].jobs[j].pc.left > 0 {
      longer, more := DroppingFinishes(cfg, longer, more, j, d);
    }
  }

  /** A request whose send failed fails, by its own steps, every task on that connection. */
  lemma FailedSendFinishes(cfg: Config, run: seq<State>, actions: seq<Action>, j: nat)
    returns (longer: seq<State>, more: seq<Action>)
    requires IsRun(cfg, run, actions) && j in run[|actions|].jobs && run[|actions|].jobs[j].pc.Sending?
    ensures IsRun(cfg, longer, more) && run <= longer
    ensures OnlyAdds(actions + [SendDone(j, false)], more, AdvanceJob(j))
    ensures NoneUnfinished(longer[|more|].tracker, run[|actions|].jobs[j].pc.conn)
  {
    var pc := run[|actions|].jobs[j].pc;
    JobsFailAtOnce(run[|actions|], j);
    longer := Extend(cfg, run, actions, SendDone(j, false));
    more := actions + [SendDone(j, false)];
    if run[|actions|].pool.IsLive(pc.node, Some(pc.conn)) {
      longer, more := DroppingFinishes(cfg, longer, more, j, pc.conn);
    }
  }

  lemma {:induction false} UnregisteringCloses(cfg: Config, run: seq<State>, actions: seq<Action>,
                                               c: Conn, left: nat)
    returns (longer: seq<State>, more: seq<Action>)
    requires IsRun(cfg, run, actions) && c in run[|actions|].handlers
    requires run[|actions|].handlers[c].phase == Unregistering(left)
    ensures IsRun(cfg, longer, more) && run <= longer && OnlyAdds(actions, more, Advance(c))
    ensures IsClosed(longer[|more|], c)
    decreases left
  {
    longer := Extend(cfg, run, actions, Advance(c));
    more := actions + [Advance(c)];
    if left > 0 {
      assert longer[|more|].handlers[c].phase == Unregistering(left - 1);
      longer, more := UnregisteringCloses(cfg, longer, more, c, left - 1);
    }
  }

  /** However a run stands, once a live handler's connection ends, its own remaining steps finish
      every task that was sent on it. */
  lemma EndingFinishesEverything(cfg: Config, run: seq<State>, actions: seq<Action>, c: Conn)
    returns (longer: seq<State>, more: seq<Action>)
    requires IsRun(cfg, run, actions) && c in run[|actions|].handlers
    requires IsAttached(run[|actions|].handlers[c].phase)
    ensures IsRun(cfg, longer, more) && run <= longer && IsClosed(longer[|more|], c)
    ensures OnlyAdds(actions + [Coordinator.End(c)], more, Advance(c))
    ensures NoneUnfinished(longer[|more|].tracker, c)
  {
    longer := Extend(cfg, run, actions, Coordinator.End(c));
    more := actions + [Coordinator.End(c)];
    if !IsClosed(longer[|more|], c) {
      longer, more := UnregisteringCloses(cfg, longer, more, c, 3);
    }
    assert TasksOk(longer[|more|].tracker.tasks, longer[|more|].handlers) by {
      AlwaysOk(cfg, longer, more, |more|);
    }
  }

  /* ---- Failed once and for all ---- */

  /** The connection was online or could have been, and can never be online again. */
  ghost predicate Retired(s: State, d: Conn) {
    && d in s.handlers && !s.handlers[d].phase.Acking?
    && forall n :: n in s.pool.connections ==> s.pool.connections[n] != d
  }

  /** A handler keeps its node and, once past acknowledging, never gets back there. */
  lemma HandlersPersist(cfg: Config, s: State, a: Action, d: Conn)
    requires ByHandler(a) && HandlerEnabled(s, a) && d in s.handlers
    ensures var t := HandlerStep(cfg, s, a);
            d in t.handlers && t.handlers[d].node == s.handlers[d].node
            && (t.handlers[d].phase.Acking? ==> s.handlers[d].phase.Acking?)
  {
    match a
    case End(e) => FinishChangesOne(s, e);
    case Advance(e) => AdvanceChangesOne(s, e);
    case AckSent(e) => AfterSendChangesOne(cfg, s, e);
    case _ =>
  }

  lemma HandlersKeepOffline(cfg: Config, s: State, a: Action, d: Conn, n: NodeId)
    requires ByHandler(a) && HandlerEnabled(s, a) && Retired(s, d)
    requires n in HandlerStep(cfg, s, a).pool.connections
    ensures HandlerStep(cfg, s, a).pool.connections[n] != d
  {
    if !a.AckSent? {
      HandlersAddOnlyByAttaching(cfg, s, a);
    }
  }

  lemma HandlersKeepRetired(cfg: Config, s: State, a: Action, d: Conn)
    requires ByHandler(a) && HandlerEnabled(s, a) && Retired(s, d)
    ensures Retired(HandlerStep(cfg, s, a), d)
  {
    HandlersPersist(cfg, s, a, d);
    forall n | n in HandlerStep(cfg, s, a).pool.connections
      ensures HandlerStep(cfg, s, a).pool.connections[n] != d
    {
      HandlersKeepOffline(cfg, s, a, d, n);
    }
  }

  lemma StaysRetired(cfg: Config, s: State, a: Action, d: Conn)
    requires Enabled(s, a) && Retired(s, d)
    ensures Retired(Step(cfg, s, a), d)
  {
    if ByHandler(a) {
      HandlersKeepRetired(cfg, s, a, d);
    } else {
      RequestsLeaveHandlers(s, a);
      RequestsAddNothing(s, a);
    }
  }

  lemma HandlersKeepFinished(cfg: Config, s: State, a: Action, d: Conn)
    requires ByHandler(a) && HandlerEnabled(s, a) && NoneUnfinished(s.tracker, d)
    ensures NoneUnfinished(HandlerStep(cfg, s, a).tracker, d)
  {
    if a.AckSent? {
      assert HandlerStep(cfg, s, a).tracker == s.tracker;
    }
  }

  lemma RequestsKeepFinished(s: State, a: Action, d: Conn)
    requires !ByHandler(a) && RequestEnabled(s, a) && Retired(s, d) && NoneUnfinished(s.tracker, d)
    ensures NoneUnfinished(RequestStep(s, a).tracker, d)
  {
  }

  lemma StaysFinished(cfg: Config, s: State, a: Action, t: State, d: Conn)
    requires IsStep(cfg, s, a, t) && Retired(s, d) && NoneUnfinished(s.tracker, d)
    ensures Retired(t, d) && NoneUnfinished(t.tracker, d)
  {
    StaysRetired(cfg, s, a, d);
    if ByHandler(a) {
      HandlersKeepFinished(cfg, s, a, d);
    } else {
      RequestsKeepFinished(s, a, d);
    }
  }

  ghost predicate Gone(s: State, d: Conn) {
    Retired(s, d) && NoneUnfinished(s.tracker, d)
  }

  lemma StaysGone(cfg: Config, run: seq<State>, actions: seq<Action>, k: nat, d: Conn)
    requires IsRun(cfg, run, actions) && k < |actions| && Gone(run[k], d)
    ensures Gone(run[k + 1], d)
  {
    assert IsStep(cfg, run[k], actions[k], run[k + 1]);
    StaysFinished(cfg, run[k], actions[k], run[k + 1], d);
  }

  lemma {:induction false} FinishedForGood(cfg: Config, run: seq<State>, actions: seq<Action>, i: nat,
                                           k: nat, d: Conn)
    requires IsRun(cfg, run, actions) && i <= k < |run| && Gone(run[i], d)
    ensures Gone(run[k], d)
    decreases k - i
  {
    if i < k {
      StaysGone(cfg, run, actions, i, d);
      FinishedForGood(cfg, run, actions, i + 1, k, d);
    }
  }

  /** The connection a request is about to fail is retired; the one it sends on may be online. */
  ghost predicate PcOk(s: State, pc: Pc) {
    match pc
    case Sending(_, node, c) =>
      c in s.handlers && !s.handlers[c].phase.Acking? && s.handlers[c].node == node
    case Dropping(_, socket, _) => socket.Some? ==> Retired(s, socket.value)
    case _ => true
  }

  ghost predicate ReplacedOk(s: State) {
    forall c :: c in s.handlers && Replacing(s.handlers[c].phase).Some? ==>
      Retired(s, Replacing(s.handlers[c].phase).value)
  }

  ghost predicate JobsOk(s: State) {
    forall j :: j in s.jobs ==> PcOk(s, s.jobs[j].pc)
  }

  /** Only attaching starts to replace a connection, which was then live and is not any more. */
  lemma ReplacingIsOld(cfg: Config, s: State, a: Action, c: Conn)
    requires ByHandler(a) && HandlerEnabled(s, a) && !a.AckSent?
    requires c in HandlerStep(cfg, s, a).handlers
    requires Replacing(HandlerStep(cfg, s, a).handlers[c].phase).Some?
    ensures c in s.handlers
    ensures Replacing(s.handlers[c].phase) == Replacing(HandlerStep(cfg, s, a).handlers[c].phase)
  {
  }

  lemma AttachRetires(cfg: Config, s: State, c: Conn)
    requires LiveOk(s.pool.connections, s.handlers) && c in s.handlers && s.handlers[c].phase.Acking?
    requires Replacing(AfterSend(cfg, s, c).handlers[c].phase).Some?
    ensures Retired(AfterSend(cfg, s, c), Replacing(AfterSend(cfg, s, c).handlers[c].phase).value)
  {
  }

  lemma HandlersKeepReplacedOk(cfg: Config, s: State, a: Action)
    requires ByHandler(a) && HandlerEnabled(s, a)
    requires LiveOk(s.pool.connections, s.handlers) && ReplacedOk(s)
    ensures ReplacedOk(HandlerStep(cfg, s, a))
  {
    var t := HandlerStep(cfg, s, a);
    forall c | c in t.handlers && Replacing(t.handlers[c].phase).Some?
      ensures Retired(t, Replacing(t.handlers[c].phase).value)
    {
      if a == AckSent(c) {
        AttachRetires(cfg, s, c);
      } else {
        if !a.AckSent? {
          ReplacingIsOld(cfg, s, a, c);
        }
        HandlersKeepRetired(cfg, s, a, Replacing(t.handlers[c].phase).value);
      }
    }
  }

  lemma HandlersKeepPcOk(cfg: Config, s: State, a: Action, pc: Pc)
    requires ByHandler(a) && HandlerEnabled(s, a) && PcOk(s, pc)
    ensures PcOk(HandlerStep(cfg, s, a), pc)
  {
    if pc.Dropping? && pc.socket.Some? {
      HandlersKeepRetired(cfg, s, a, pc.socket.value);
    } else if pc.Sending? {
      HandlersPersist(cfg, s, a, pc.conn);
    }
  }

  lemma DropIsOk(s: State, j: nat, node: NodeId, conn: Option<Conn>)
    requires LiveOk(s.pool.connections, s.handlers) && JobsOk(s) && j in s.jobs
    ensures JobsOk(Drop(s, j, node, conn))
  {
  }

  lemma RequestsKeepJobsOk(s: State, a: Action)
    requires !ByHandler(a) && RequestEnabled(s, a)
    requires LiveOk(s.pool.connections, s.handlers) && JobsOk(s)
    ensures JobsOk(RequestStep(s, a))
  {
    match a
    case DropNode(j, node) => DropIsOk(s, j, node, Get(s.pool.connections, node));
    case SendDone(j, ok) =>
      var pc := s.jobs[j].pc;
      if !ok {
        DropIsOk(s.(tracker := s.tracker.Pop(pc.task)), j, pc.node, Some(pc.conn));
      }
    case _ =>
  }

  lemma {:induction false} GoneAreRetired(cfg: Config, run: seq<State>, actions: seq<Action>, i: nat)
    requires IsRun(cfg, run, actions) && i < |run|
    ensures ReplacedOk(run[i]) && JobsOk(run[i])
  {
    if i > 0 {
      var s, a := run[i - 1], actions[i - 1];
      GoneAreRetired(cfg, run, actions, i - 1);
      assert IsStep(cfg, s, a, run[i]);
      assert LiveOk(s.pool.connections, s.handlers) by { AlwaysOk(cfg, run, actions, i - 1); }
      if ByHandler(a) {
        HandlersKeepReplacedOk(cfg, s, a);
        HandlersKeepJobsOk(cfg, s, a);
      } else {
        RequestsKeepJobsOk(s, a);
        RequestsKeepReplacedOk(s, a);
      }
    }
  }

  lemma HandlersKeepJobsOk(cfg: Config, s: State, a: Action)
    requires ByHandler(a) && HandlerEnabled(s, a) && JobsOk(s)
    ensures JobsOk(HandlerStep(cfg, s, a))
  {
    assert HandlerStep(cfg, s, a).jobs == s.jobs;
    forall j | j in s.jobs
      ensures PcOk(HandlerStep(cfg, s, a), s.jobs[j].pc)
    {
      HandlersKeepPcOk(cfg, s, a, s.jobs[j].pc);
    }
  }

  lemma RequestsKeepReplacedOk(s: State, a: Action)
    requires !ByHandler(a) && RequestEnabled(s, a) && ReplacedOk(s)
    ensures ReplacedOk(RequestStep(s, a))
  {
    RequestsLeaveHandlers(s, a);
    RequestsAddNothing(s, a);
  }

  /** A replaced connection's tasks are failed once and for all: from the step in which its
      successor's registration fails them on, none is unfinished, in any run. */
  lemma ReplacedFailsForGood(cfg: Config, run: seq<State>, actions: seq<Action>, i: nat, k: nat, c: Conn,
                             d: Conn)
    requires IsRun(cfg, run, actions) && i < k < |run| && actions[i] == Advance(c)
    requires c in run[i].handlers && run[i].handlers[c].phase == Joined(Some(d))
    ensures NoneUnfinished(run[k].tracker, d)
  {
    GoneAreRetired(cfg, run, actions, i);
    assert IsStep(cfg, run[i], actions[i], run[i + 1]);
    HandlersFailAtOnce(run[i], c);
    StaysRetired(cfg, run[i], actions[i], d);
    FinishedForGood(cfg, run, actions, i + 1, k, d);
  }

  /** Does the step fail the tasks of `d` for a request, after a failed send or for a dropped node? */
  ghost predicate FailsFor(s: State, a: Action, j: nat, d: Conn) {
    && j in s.jobs
    && (|| (a == AdvanceJob(j) && s.jobs[j].pc.Dropping? && s.jobs[j].pc.socket == Some(d)
            && s.jobs[j].pc.left == 0)
        || (a == SendDone(j, false) && s.jobs[j].pc.Sending? && s.jobs[j].pc.conn == d
            && !s.pool.IsLive(s.jobs[j].pc.node, Some(d))))
  }

  /** So are those of a connection that a request drops. */
  lemma DroppedFailsForGood(cfg: Config, run: seq<State>, actions: seq<Action>, i: nat, k: nat, j: nat,
                            d: Conn)
    requires IsRun(cfg, run, actions) && i < k < |run| && FailsFor(run[i], actions[i], j, d)
    ensures NoneUnfinished(run[k].tracker, d)
  {
    GoneAreRetired(cfg, run, actions, i);
    assert LiveOk(run[i].pool.connections, run[i].handlers) by { AlwaysOk(cfg, run, actions, i); }
    assert IsStep(cfg, run[i], actions[i], run[i + 1]);
    JobsFailAtOnce(run[i], j);
    assert PcOk(run[i], run[i].jobs[j].pc);
    assert Retired(run[i], d);
    StaysRetired(cfg, run[i], actions[i], d);
    FinishedForGood(cfg, run, actions, i + 1, k, d);
  }
}
