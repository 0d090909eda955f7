/** What every step of the coordinator keeps: live connections, tasks, node cap. */
module Safety {
  import opened Prelude
  import opened Registry
  import opened Connections
  import opened Tasks
  import opened Coordinator

  /** From the attach to the handler's `finally`. */
  predicate IsAttached(p: Phase) {
    !p.Rejecting? && !p.Acking? && !p.Unregistering? && !p.Closed?
  }

  /** Every live connection belongs to a handler that serves that node. */
  ghost predicate LiveOk(connections: map<NodeId, Conn>, handlers: map<Conn, Handler>) {
    forall n :: n in connections ==>
      && connections[n] in handlers
      && handlers[connections[n]].node == n
      && IsAttached(handlers[connections[n]].phase)
  }

  ghost predicate PoolOk(pool: Pool) {
    && pool.nodeAccount.Keys == pool.nodeInfo.Keys == pool.connections.Keys
    && (forall n :: n in pool.nodeAccount ==> pool.nodeAccount[n] == AccountOf(n))
  }

  ghost predicate AccountsOk(handlers: map<Conn, Handler>) {
    forall c :: c in handlers ==> handlers[c].account == AccountOf(handlers[c].node)
  }

  /** May a task on a connection in this phase be tracked? An unfinished one needs a handler that
      has yet to fail its connection's tasks. */
  predicate MayHold(phase: Phase, finished: bool) {
    IsAttached(phase) || phase.Unregistering? || (phase.Closed? && finished)
  }

  ghost predicate TasksOk(tasks: map<TaskId, Task>, handlers: map<Conn, Handler>) {
    forall id :: id in tasks ==>
      && tasks[id].conn in handlers
      && MayHold(handlers[tasks[id].conn].phase, tasks[id].finishedAt.Some?)
  }

  ghost predicate Ok(s: State) {
    && LiveOk(s.pool.connections, s.handlers)
    && PoolOk(s.pool)
    && AccountsOk(s.handlers)
    && TasksOk(s.tracker.tasks, s.handlers)
  }

  lemma PhaseKeepsOk(s: State, c: Conn, phase: Phase)
    requires Ok(s) && c in s.handlers
    requires IsAttached(phase) || (forall n :: n in s.pool.connections ==> s.pool.connections[n] != c)
    requires IsAttached(s.handlers[c].phase) ==> IsAttached(phase) || phase.Unregistering?
    requires s.handlers[c].phase.Unregistering? ==> IsAttached(phase) || phase.Unregistering?
    requires s.handlers[c].phase.Closed? ==> phase.Closed?
    ensures Ok(s.SetPhase(c, phase))
  {
  }

  lemma PopKeepsOk(s: State, id: TaskId)
    requires Ok(s)
    ensures Ok(s.(tracker := s.tracker.Pop(id)))
  {
  }

  lemma MessageKeepsOk(s: State, id: TaskId, conn: Conn, delta: string, payload: Payload)
    requires Ok(s)
    ensures Ok(s.(tracker := s.tracker.AddChunk(id, conn, delta, s.now)))
    ensures Ok(s.(tracker := s.tracker.Resolve(id, conn, payload, s.now)))
  {
  }

  lemma CreateKeepsOk(s: State, id: TaskId, node: NodeId)
    requires Ok(s) && node in s.pool.connections
    ensures Ok(s.(tracker := s.tracker.Create(id, node, s.pool.connections[node], s.now)))
  {
  }

  lemma FailKeepsOk(s: State, c: Option<Conn>)
    requires Ok(s)
    ensures Ok(s.FailTasks(c))
  {
  }

  lemma SendKeepsOk(s: State, c: Conn, m: Msg)
    requires Ok(s)
    ensures Ok(s.Send(c, m))
  {
  }

  /** After fail_connection the handler may end. */
  lemma FailThenClose(s: State, c: Conn)
    requires Ok(s) && c in s.handlers
    requires forall n :: n in s.pool.connections ==> s.pool.connections[n] != c
    ensures Ok(s.FailTasks(Some(c)).SetPhase(c, Closed))
  {
  }

  lemma DetachKeepsOk(s: State, node: NodeId, conn: Option<Conn>)
    requires Ok(s)
    ensures Ok(s.(pool := s.pool.Detach(node, conn)))
  {
  }

  lemma AttachKeepsOk(s: State, c: Conn)
    requires Ok(s) && c in s.handlers && IsAttached(s.handlers[c].phase)
    ensures var h := s.handlers[c];
            Ok(s.(pool := s.pool.Attach(h.node, c, h.info, Some(h.account))))
  {
  }

  /** A refused attach leaves the node offline. */
  lemma RefusalKeepsOk(s: State, c: Conn)
    requires Ok(s) && c in s.handlers && s.handlers[c].phase.Acking?
    ensures var h := s.handlers[c];
            Ok(s.(pool := s.pool.Remove(h.node)).SetPhase(c, Rejecting(false)))
  {
  }

  lemma AfterSendKeepsOk(cfg: Config, s: State, c: Conn)
    requires Ok(s) && c in s.handlers && s.handlers[c].phase.Acking?
    ensures Ok(AfterSend(cfg, s, c))
  {
    var h := s.handlers[c];
    var attached := s.pool.Attach(h.node, c, h.info, Some(h.account));
    if attached.ExceedsNodeLimit(h.account, h.node, cfg.limit) {
      Rollback(s.pool, h.node, c, h.info, h.account);
      RefusalKeepsOk(s, c);
    } else {
      var r := s.pool.Replaced(h.node, c);
      PhaseKeepsOk(s, c, StoringEntry(r));
      AttachKeepsOk(s.SetPhase(c, StoringEntry(r)), c);
    }
  }

  lemma FinishKeepsOk(s: State, c: Conn)
    requires Ok(s) && s.InPhase(c) && !s.handlers[c].phase.Unregistering?
    ensures Ok(Finish(s, c))
  {
    var h := s.handlers[c];
    if h.phase == Rejecting(false) {
    } else if s.pool.IsLive(h.node, Some(c)) {
      DetachKeepsOk(s, h.node, Some(c));
      PhaseKeepsOk(s.(pool := s.pool.Detach(h.node, Some(c))), c, Unregistering(3));
    } else {
      FailThenClose(s, c);
    }
  }

  lemma AdvanceHandlerKeepsOk(s: State, c: Conn)
    requires Ok(s) && c in s.handlers && AwaitsRedis(s.handlers[c].phase)
    ensures Ok(AdvanceHandler(s, c))
  {
    var h := s.handlers[c];
    if h.phase.Joined? {
      FailKeepsOk(s, h.phase.replaced);
      PhaseKeepsOk(s.FailTasks(h.phase.replaced), c, Serving);
    } else if h.phase == Unregistering(0) {
      FailThenClose(s, c);
    } else {
      PhaseKeepsOk(s, c, RegistryStep(s.table, h).1);
    }
  }

  lemma DropKeepsOk(s: State, j: nat, node: NodeId, conn: Option<Conn>)
    requires Ok(s) && j in s.jobs
    ensures Ok(Drop(s, j, node, conn))
  {
  }

  lemma HelloKeepsOk(cfg: Config, s: State, a: Action)
    requires a.Hello? && HandlerEnabled(s, a) && Ok(s)
    ensures Ok(HandlerStep(cfg, s, a))
  {
    AccountOfDerived(a.account, a.name);
  }

  lemma HandlerKeepsOk(cfg: Config, s: State, a: Action)
    requires ByHandler(a) && HandlerEnabled(s, a) && Ok(s)
    ensures Ok(HandlerStep(cfg, s, a))
  {
    match a
    case Hello(_, _, _, _) => HelloKeepsOk(cfg, s, a);
    case Tell(c) => SendKeepsOk(s, c, Refusal);
    case AckSent(c) => AfterSendKeepsOk(cfg, s, c);
    case Advance(c) => AdvanceHandlerKeepsOk(s, c);
    case Heartbeat(c, fields, toFloat, toInt) =>
      PhaseKeepsOk(s, c, ReadingEntry(LoadInfo(fields, toFloat, toInt)));
    case ChunkFrom(c, task, delta) => MessageKeepsOk(s, task, c, delta, Payload(false, ""));
    case ResultFrom(c, task, payload) => MessageKeepsOk(s, task, c, "", payload);
    case End(c) => FinishKeepsOk(s, c);
  }

  lemma RequestKeepsOk(s: State, a: Action)
    requires !ByHandler(a) && RequestEnabled(s, a) && Ok(s)
    ensures Ok(RequestStep(s, a))
  {
    match a
    case AssignTo(j, task, node) =>
      if node in s.pool.connections {
        CreateKeepsOk(s, task, node);
      }
    case SendDone(j, ok) =>
      if !ok {
        var pc := s.jobs[j].pc;
        PopKeepsOk(s, pc.task);
        DropKeepsOk(s.(tracker := s.tracker.Pop(pc.task)), j, pc.node, Some(pc.conn));
      }
    case DropNode(j, node) => DropKeepsOk(s, j, node, Get(s.pool.connections, node));
    case AdvanceJob(j) => FailKeepsOk(s, s.jobs[j].pc.socket);
    case Release(task) => PopKeepsOk(s, task);
    case _ =>
  }

  /* ---- Node cap ---- */

  ghost predicate CapOk(cfg: Config, pool: Pool) {
    forall a :: |pool.AccountNodes(a)| <= Max(cfg.limit, 0)
  }

  lemma RemoveKeepsCap(cfg: Config, p: Pool, node: NodeId)
    requires CapOk(cfg, p)
    ensures CapOk(cfg, p.Remove(node))
  {
    forall a
      ensures |p.Remove(node).AccountNodes(a)| <= Max(cfg.limit, 0)
    {
      SubsetSize(p.Remove(node).AccountNodes(a), p.AccountNodes(a));
    }
  }

  /** The account's nodes right after one of its nodes attached. */
  lemma AttachedNodes(p: Pool, node: NodeId, c: Conn, info: Entry, account: Account, a: Account)
    requires node in p.nodeAccount ==> p.nodeAccount[node] == account
    ensures p.Attach(node, c, info, Some(account)).AccountNodes(a)
            == if a == account then p.AccountNodes(a) + {node} else p.AccountNodes(a)
  {
  }

  /** The re-check after attaching: it keeps the cap however many registrations passed the first
      check together, it never refuses a node that was online, and refusing restores the pool. */
  lemma RecheckKeepsCap(cfg: Config, s: State, c: Conn)
    requires Ok(s) && CapOk(cfg, s.pool) && c in s.handlers
    ensures CapOk(cfg, AfterSend(cfg, s, c).pool)
    ensures var h := s.handlers[c]; var t := AfterSend(cfg, s, c);
            if t.handlers[c].phase.Rejecting? then h.node !in s.pool.connections && t.pool == s.pool
            else t.pool.connections == s.pool.connections[h.node := c]
  {
    var h := s.handlers[c];
    var p := s.pool;
    var q := p.Attach(h.node, c, h.info, Some(h.account));
    AttachedNodes(p, h.node, c, h.info, h.account, h.account);
    var nodes := p.AccountNodes(h.account);
    assert q.AccountNodes(h.account) - {h.node} == nodes - {h.node};
    if h.node in p.connections {
      assert h.node in nodes;
      assert |nodes - {h.node}| == |nodes| - 1;
      assert q.AccountNodes(h.account) == nodes;
    } else {
      assert nodes - {h.node} == nodes;
    }
    Rollback(p, h.node, c, h.info, h.account);
    if !q.ExceedsNodeLimit(h.account, h.node, cfg.limit) {
      forall a
        ensures |q.AccountNodes(a)| <= Max(cfg.limit, 0)
      {
        AttachedNodes(p, h.node, c, h.info, h.account, a);
      }
    }
  }

  /** `q` is `p`, or `p` without one node. */
  ghost predicate Shrinks(p: Pool, q: Pool) {
    q == p || exists n :: q == p.Remove(n)
  }

  lemma HandlersAddOnlyByAttaching(cfg: Config, s: State, a: Action)
    requires ByHandler(a) && HandlerEnabled(s, a) && !a.AckSent?
    ensures Shrinks(s.pool, HandlerStep(cfg, s, a).pool)
  {
  }

  lemma RequestsAddNothing(s: State, a: Action)
    requires !ByHandler(a) && RequestEnabled(s, a)
    ensures Shrinks(s.pool, RequestStep(s, a).pool)
  {
  }

  lemma StepKeepsCap(cfg: Config, s: State, a: Action)
    requires Enabled(s, a) && Ok(s) && CapOk(cfg, s.pool)
    ensures CapOk(cfg, Step(cfg, s, a).pool)
  {
    if a.AckSent? {
      RecheckKeepsCap(cfg, s, a.conn);
    } else {
      if ByHandler(a) {
        HandlersAddOnlyByAttaching(cfg, s, a);
      } else {
        RequestsAddNothing(s, a);
      }
      if Step(cfg, s, a).pool != s.pool {
        var n :| Step(cfg, s, a).pool == s.pool.Remove(n);
        RemoveKeepsCap(cfg, s.pool, n);
      }
    }
  }

  /* ---- Acknowledged first ---- */

  predicate Greeted(msgs: seq<Msg>) {
    msgs != [] && msgs[0] == Registered
  }

  ghost predicate WasAssigned(msgs: seq<Msg>) {
    exists m :: m in msgs && m.Assign?
  }

  ghost predicate AckOn(sent: map<Conn, seq<Msg>>, handlers: map<Conn, Handler>) {
    && (forall c :: c in handlers && IsAttached(handlers[c].phase) ==> Greeted(SentTo(sent, c)))
    && (forall c :: c !in handlers || handlers[c].phase.Acking? ==> SentTo(sent, c) == [])
    && (forall c :: WasAssigned(SentTo(sent, c)) ==> Greeted(SentTo(sent, c)))
  }

  ghost predicate AckOk(s: State) {
    AckOn(s.sent, s.handlers)
  }

  lemma SendKeepsAck(s: State, c: Conn, m: Msg)
    requires AckOk(s)
    requires c in s.handlers && !s.handlers[c].phase.Acking?
    requires m.Assign? ==> Greeted(s.Sent(c))
    ensures AckOk(s.Send(c, m))
  {
    var after := s.Send(c, m).sent;
    assert forall d :: d != c ==> SentTo(after, d) == SentTo(s.sent, d);
    if WasAssigned(SentTo(after, c)) && !m.Assign? {
      var n :| n in SentTo(after, c) && n.Assign?;
      assert n in SentTo(s.sent, c);
    }
  }

  lemma PhaseKeepsAck(s: State, c: Conn, phase: Phase)
    requires AckOk(s) && c in s.handlers && !phase.Acking?
    requires IsAttached(phase) ==> IsAttached(s.handlers[c].phase)
    ensures AckOk(s.SetPhase(c, phase))
  {
  }

  lemma AfterSendKeepsAck(cfg: Config, s: State, c: Conn)
    requires AckOk(s) && c in s.handlers && s.handlers[c].phase.Acking?
    ensures AckOk(AfterSend(cfg, s, c))
  {
    var after := AfterSend(cfg, s, c).sent;
    assert forall d :: d != c ==> SentTo(after, d) == SentTo(s.sent, d);
    assert SentTo(after, c) == [Registered];
  }

  lemma AdvanceKeepsAck(s: State, c: Conn)
    requires AckOk(s) && c in s.handlers && AwaitsRedis(s.handlers[c].phase)
    ensures AckOk(AdvanceHandler(s, c))
  {
    var h := s.handlers[c];
    if h.phase.Joined? {
      SendKeepsAck(s, c, Benchmark);
      PhaseKeepsAck(s.Send(c, Benchmark), c, Serving);
    } else if h.phase == Unregistering(0) {
      PhaseKeepsAck(s, c, Closed);
    } else {
      PhaseKeepsAck(s, c, RegistryStep(s.table, h).1);
    }
  }

  lemma HelloKeepsAck(cfg: Config, s: State, a: Action)
    requires a.Hello? && HandlerEnabled(s, a) && AckOk(s)
    ensures AckOk(HandlerStep(cfg, s, a))
  {
  }

  lemma MessageKeepsAck(cfg: Config, s: State, a: Action)
    requires AckOk(s) && (a.Tell? || a.Heartbeat? || a.ChunkFrom? || a.ResultFrom?)
    requires HandlerEnabled(s, a)
    ensures AckOk(HandlerStep(cfg, s, a))
  {
    if a.Tell? {
      SendKeepsAck(s, a.conn, Refusal);
    } else if a.Heartbeat? {
      PhaseKeepsAck(s, a.conn, ReadingEntry(LoadInfo(a.fields, a.toFloat, a.toInt)));
    }
  }

  lemma HandlerKeepsAck(cfg: Config, s: State, a: Action)
    requires ByHandler(a) && HandlerEnabled(s, a) && AckOk(s)
    ensures AckOk(HandlerStep(cfg, s, a))
  {
    match a
    case Hello(_, _, _, _) => HelloKeepsAck(cfg, s, a);
    case AckSent(c) => AfterSendKeepsAck(cfg, s, c);
    case Advance(c) => AdvanceKeepsAck(s, c);
    case End(c) => PhaseKeepsAck(s, c, Finish(s, c).handlers[c].phase);
    case _ => MessageKeepsAck(cfg, s, a);
  }

  /** Apart from assigning, requests neither move handlers nor send anything. */
  lemma RequestsLeaveHandlers(s: State, a: Action)
    requires !ByHandler(a) && RequestEnabled(s, a)
    ensures RequestStep(s, a).handlers == s.handlers
    ensures !a.AssignTo? ==> RequestStep(s, a).sent == s.sent
  {
  }

  lemma AssignKeepsAck(s: State, j: nat, task: TaskId, node: NodeId)
    requires LiveOk(s.pool.connections, s.handlers) && AckOk(s) && j in s.jobs
    ensures AckOk(StartAssign(s, j, task, node))
  {
    if node in s.pool.connections {
      SendKeepsAck(s, s.pool.connections[node], Assign(task, s.jobs[j].trust));
    }
  }

  lemma RequestKeepsAck(s: State, a: Action)
    requires !ByHandler(a) && RequestEnabled(s, a)
    requires LiveOk(s.pool.connections, s.handlers) && AckOk(s)
    ensures AckOk(RequestStep(s, a))
  {
    if a.AssignTo? {
      AssignKeepsAck(s, a.job, a.task, a.node);
    } else {
      RequestsLeaveHandlers(s, a);
    }
  }

  /* ---- A handler's own steps change its phase only ---- */

  lemma FinishChangesOne(s: State, c: Conn)
    requires c in s.handlers
    ensures c in Finish(s, c).handlers
    ensures Finish(s, c).handlers == s.SetPhase(c, Finish(s, c).handlers[c].phase).handlers
  {
  }

  lemma AdvanceChangesOne(s: State, c: Conn)
    requires c in s.handlers
    ensures c in AdvanceHandler(s, c).handlers
    ensures AdvanceHandler(s, c).handlers == s.SetPhase(c, AdvanceHandler(s, c).handlers[c].phase).handlers
  {
  }

  lemma AfterSendChangesOne(cfg: Config, s: State, c: Conn)
    requires c in s.handlers
    ensures c in AfterSend(cfg, s, c).handlers
    ensures AfterSend(cfg, s, c).handlers
            == s.SetPhase(c, AfterSend(cfg, s, c).handlers[c].phase).handlers
  {
  }

  /* ---- Over every run ---- */

  /** Append an enabled action to a run. */
  lemma Extend(cfg: Config, run: seq<State>, actions: seq<Action>, a: Action)
    returns (longer: seq<State>)
    requires IsRun(cfg, run, actions) && Enabled(run[|actions|], a)
    ensures longer == run + [Step(cfg, run[|actions|], a)]
    ensures IsRun(cfg, longer, actions + [a])
  {
    longer := run + [Step(cfg, run[|actions|], a)];
  }

  lemma FirstAttach(cfg: Config, s: State, c: Conn)
    requires cfg.limit >= 1 && c in s.handlers && s.pool == EMPTY_POOL
    ensures var h := s.handlers[c];
            AfterSend(cfg, s, c)
            == s.Send(c, Registered).(pool := EMPTY_POOL.Attach(h.node, c, h.info, Some(h.account)))
                .SetPhase(c, StoringEntry(None))
  {
    var h := s.handlers[c];
    var attached := EMPTY_POOL.Attach(h.node, c, h.info, Some(h.account));
    assert attached.AccountNodes(h.account) - {h.node} == {};
  }

  /** While no node is online, a registration gets through to its first registry command. */
  lemma Connects(cfg: Config, run: seq<State>, actions: seq<Action>, c: Conn, account: Account,
                 name: string)
    returns (longer: seq<State>, more: seq<Action>)
    requires IsRun(cfg, run, actions) && cfg.limit >= 1
    requires ValidAccount(account) && 1 <= |name| <= 64
    requires c !in run[|actions|].handlers && run[|actions|].pool == EMPTY_POOL
    ensures IsRun(cfg, longer, more) && longer[0] == run[0]
    ensures var s := run[|actions|]; var t := longer[|more|];
            var n := DeriveNodeId(account, name); var info := NodeInfo(cfg, account, name, ["chat"]);
            t == s.(handlers := s.handlers[c := Handler(account, n, info, StoringEntry(None))],
                    pool := EMPTY_POOL.Attach(n, c, info, Some(account)), sent := t.sent)
  {
    var n := DeriveNodeId(account, name);
    var info := NodeInfo(cfg, account, name, ["chat"]);
    var s := run[|actions|];
    assert EMPTY_POOL.AccountNodes(account) - {n} == {};
    var hello := Hello(c, account, name, ["chat"]);
    longer := Extend(cfg, run, actions, hello);
    more := actions + [hello];
    var greeted := longer[|more|];
    assert greeted == s.(handlers := s.handlers[c := Handler(account, n, info, Acking)]);
    FirstAttach(cfg, greeted, c);
    longer := Extend(cfg, longer, more, AckSent(c));
    more := more + [AckSent(c)];
  }

  lemma StepKeepsAll(cfg: Config, s: State, a: Action)
    requires Enabled(s, a) && Ok(s) && CapOk(cfg, s.pool) && AckOk(s)
    ensures Ok(Step(cfg, s, a)) && CapOk(cfg, Step(cfg, s, a).pool) && AckOk(Step(cfg, s, a))
  {
    StepKeepsCap(cfg, s, a);
    if ByHandler(a) {
      HandlerKeepsOk(cfg, s, a);
      HandlerKeepsAck(cfg, s, a);
    } else {
      RequestKeepsOk(s, a);
      RequestKeepsAck(s, a);
    }
  }

  lemma {:induction false} AlwaysOk(cfg: Config, run: seq<State>, actions: seq<Action>, i: nat)
    requires IsRun(cfg, run, actions) && i < |run|
    ensures Ok(run[i]) && CapOk(cfg, run[i].pool) && AckOk(run[i])
  {
    if i == 0 {
      assert forall a :: run[0].pool.AccountNodes(a) == {};
    } else {
      AlwaysOk(cfg, run, actions, i - 1);
      assert IsStep(cfg, run[i - 1], actions[i - 1], run[i]);
      StepKeepsAll(cfg, run[i - 1], actions[i - 1]);
    }
  }

  ghost predicate IsClosed(s: State, c: Conn) {
    c in s.handlers && s.handlers[c].phase.Closed?
  }

  /** No task is stranded: whatever the interleaving, an unfinished tracked task's connection has
      a handler that has not ended, so its fail_connection is still to come. */
  lemma NoTaskIsStranded(cfg: Config, run: seq<State>, actions: seq<Action>, i: nat, id: TaskId)
    requires IsRun(cfg, run, actions) && i < |run|
    requires id in run[i].tracker.tasks && run[i].tracker.tasks[id].finishedAt.None?
    ensures run[i].InPhase(run[i].tracker.tasks[id].conn)
    ensures var phase := run[i].handlers[run[i].tracker.tasks[id].conn].phase;
            IsAttached(phase) || phase.Unregistering?
  {
    AlwaysOk(cfg, run, actions, i);
  }

  lemma AdvanceLeavesClosed(s: State, d: Conn, c: Conn, id: TaskId)
    requires d in s.handlers && AwaitsRedis(s.handlers[d].phase) && IsClosed(s, c)
    ensures IsClosed(AdvanceHandler(s, d), c)
    ensures AdvanceHandler(s, d).tracker.Owned(id, c) ==> s.tracker.Owned(id, c)
  {
  }

  lemma FinishLeavesClosed(s: State, d: Conn, c: Conn, id: TaskId)
    requires d in s.handlers && IsClosed(s, c)
    ensures IsClosed(Finish(s, d), c) || d == c
    ensures Finish(s, d).tracker.Owned(id, c) ==> s.tracker.Owned(id, c)
  {
  }

  /** No action puts a task on the connection of an ended handler, nor revives the handler. */
  lemma HandlerLeavesClosed(cfg: Config, s: State, a: Action, c: Conn, id: TaskId)
    requires ByHandler(a) && HandlerEnabled(s, a) && IsClosed(s, c)
    ensures IsClosed(HandlerStep(cfg, s, a), c)
    ensures HandlerStep(cfg, s, a).tracker.Owned(id, c) ==> s.tracker.Owned(id, c)
  {
    match a
    case Advance(d) => AdvanceLeavesClosed(s, d, c, id);
    case End(d) => FinishLeavesClosed(s, d, c, id);
    case AckSent(d) => assert HandlerStep(cfg, s, a).tracker == s.tracker;
    case _ =>
  }

  lemma RequestLeavesClosed(s: State, a: Action, c: Conn, id: TaskId)
    requires !ByHandler(a) && RequestEnabled(s, a) && IsClosed(s, c)
    requires LiveOk(s.pool.connections, s.handlers)
    ensures IsClosed(RequestStep(s, a), c)
    ensures RequestStep(s, a).tracker.Owned(id, c) ==> s.tracker.Owned(id, c)
  {
    RequestsLeaveHandlers(s, a);
  }

  lemma {:induction false} ClosedForever(cfg: Config, run: seq<State>, actions: seq<Action>, i: nat,
                                         k: nat, c: Conn, id: TaskId)
    requires IsRun(cfg, run, actions) && i <= k < |run| && IsClosed(run[i], c)
    ensures IsClosed(run[k], c)
    ensures run[k].tracker.Owned(id, c) ==> run[i].tracker.Owned(id, c)
  {
    if i < k {
      ClosedForever(cfg, run, actions, i, k - 1, c, id);
      var s, a := run[k - 1], actions[k - 1];
      assert IsStep(cfg, s, a, run[k]);
      if ByHandler(a) {
        HandlerLeavesClosed(cfg, s, a, c, id);
      } else {
        assert LiveOk(s.pool.connections, s.handlers) by { AlwaysOk(cfg, run, actions, k - 1); }
        RequestLeavesClosed(s, a, c, id);
      }
    }
  }

  /** Once a handler has ended, none of its connection's tasks is unfinished and none is ever
      added. */
  lemma EndIsFinal(cfg: Config, run: seq<State>, actions: seq<Action>, i: nat, k: nat, c: Conn,
                   id: TaskId)
    requires IsRun(cfg, run, actions) && i <= k < |run| && IsClosed(run[i], c)
    requires run[k].tracker.Owned(id, c)
    ensures run[i].tracker.Owned(id, c) && run[k].tracker.tasks[id].finishedAt.Some?
  {
    ClosedForever(cfg, run, actions, i, k, c, id);
    assert TasksOk(run[k].tracker.tasks, run[k].handlers) by { AlwaysOk(cfg, run, actions, k); }
  }

  /** The connected nodes that belong to an account by their ids. */
  function OnlineNodes(pool: Pool, account: Account): set<NodeId> {
    set n | n in pool.connections && AccountOf(n) == account
  }

  lemma CapCounts(cfg: Config, pool: Pool, account: Account)
    requires PoolOk(pool) && CapOk(cfg, pool)
    ensures |OnlineNodes(pool, account)| <= Max(cfg.limit, 0)
  {
    assert OnlineNodes(pool, account) == pool.AccountNodes(account);
  }

  /** At every moment each account has at most `limit` nodes online. */
  lemma NodeCap(cfg: Config, run: seq<State>, actions: seq<Action>, i: nat, account: Account)
    requires IsRun(cfg, run, actions) && i < |run|
    ensures |OnlineNodes(run[i].pool, account)| <= Max(cfg.limit, 0)
  {
    AlwaysOk(cfg, run, actions, i);
    CapCounts(cfg, run[i].pool, account);
  }

  /** A registration that is refused after attaching never cost a node its previous connection. */
  lemma RefusalLosesNothing(cfg: Config, run: seq<State>, actions: seq<Action>, i: nat)
    requires IsRun(cfg, run, actions) && i < |actions| && actions[i].AckSent?
    requires run[i + 1].handlers[actions[i].conn].phase.Rejecting?
    ensures run[i + 1].pool == run[i].pool
    ensures run[i].handlers[actions[i].conn].node !in run[i].pool.connections
  {
    AlwaysOk(cfg, run, actions, i);
    assert IsStep(cfg, run[i], actions[i], run[i + 1]);
    RecheckKeepsCap(cfg, run[i], actions[i].conn);
  }

  /** The first message of a connection that is ever given a task is node_registered. */
  lemma AcknowledgedFirst(cfg: Config, run: seq<State>, actions: seq<Action>, i: nat, c: Conn, k: nat)
    requires IsRun(cfg, run, actions) && i < |run|
    requires k < |run[i].Sent(c)| && run[i].Sent(c)[k].Assign?
    ensures k > 0 && run[i].Sent(c)[0] == Registered
  {
    AlwaysOk(cfg, run, actions, i);
  }

  /* ---- Replies ---- */

  /** A task is tracked on its connection from before it is sent, so no reply can come too early. */
  lemma TrackedBeforeSent(s: State, j: nat, task: TaskId, node: NodeId)
    requires j in s.jobs && node in s.pool.connections
    ensures var c := s.pool.connections[node]; var t := StartAssign(s, j, task, node);
            && t.Sent(c) == s.Sent(c) + [Assign(task, s.jobs[j].trust)]
            && t.tracker.Owned(task, c) && t.tracker.tasks[task].finishedAt.None?
            && t.tracker.Resolve(task, c, Payload(true, ""), t.now).tasks[task].finishedAt.Some?
  {
  }

  /** Does the action stop tracking `id`, or track it anew? */
  predicate LetsGo(s: State, a: Action, id: TaskId) {
    match a
    case Release(task) => task == id
    case SendDone(j, ok) => !ok && j in s.jobs && s.jobs[j].pc.Sending? && s.jobs[j].pc.task == id
    case AssignTo(_, task, _) => task == id || (id in s.tracker.tasks && s.tracker.Expired(id, s.now))
    case _ => false
  }

  predicate Keeps(run: seq<State>, actions: seq<Action>, m: nat, id: TaskId) {
    m < |run| && m < |actions| && !LetsGo(run[m], actions[m], id)
  }

  lemma HandlersKeepTracked(cfg: Config, s: State, a: Action, id: TaskId, c: Conn)
    requires ByHandler(a) && HandlerEnabled(s, a) && s.tracker.Owned(id, c)
    ensures HandlerStep(cfg, s, a).tracker.Owned(id, c)
  {
    if a.AckSent? {
      assert HandlerStep(cfg, s, a).tracker == s.tracker;
    }
  }

  lemma RequestsKeepTracked(s: State, a: Action, id: TaskId, c: Conn)
    requires !ByHandler(a) && RequestEnabled(s, a) && s.tracker.Owned(id, c) && !LetsGo(s, a, id)
    ensures RequestStep(s, a).tracker.Owned(id, c)
  {
  }

  lemma StepKeepsTracked(cfg: Config, s: State, a: Action, t: State, id: TaskId, c: Conn)
    requires IsStep(cfg, s, a, t) && s.tracker.Owned(id, c) && !LetsGo(s, a, id)
    ensures t.tracker.Owned(id, c)
  {
    if ByHandler(a) {
      HandlersKeepTracked(cfg, s, a, id, c);
    } else {
      RequestsKeepTracked(s, a, id, c);
    }
  }

  lemma {:induction false} StillTracked(cfg: Config, run: seq<State>, actions: seq<Action>, i: nat,
                                        k: nat, id: TaskId, c: Conn)
    requires IsRun(cfg, run, actions) && i <= k < |run| && run[i].tracker.Owned(id, c)
    requires forall m :: i <= m < k ==> Keeps(run, actions, m, id)
    ensures run[k].tracker.Owned(id, c)
  {
    if i < k {
      StillTracked(cfg, run, actions, i, k - 1, id, c);
      assert Keeps(run, actions, k - 1, id) && IsStep(cfg, run[k - 1], actions[k - 1], run[k]);
      StepKeepsTracked(cfg, run[k - 1], actions[k - 1], run[k], id, c);
    }
  }

  /** No reply comes too early and none is lost: from the step that starts to send a task on, until
      somebody lets go of it, a result on its connection finds the task and finishes it. */
  lemma RepliesAreHeard(cfg: Config, run: seq<State>, actions: seq<Action>, i: nat, k: nat, job: nat,
                        id: TaskId, node: NodeId, payload: Payload)
    requires IsRun(cfg, run, actions) && i < k < |actions|
    requires actions[i] == AssignTo(job, id, node) && node in run[i].pool.connections
    requires actions[k] == ResultFrom(run[i].pool.connections[node], id, payload)
    requires forall m :: i < m < k ==> Keeps(run, actions, m, id)
    ensures run[k + 1].tracker.Owned(id, run[i].pool.connections[node])
    ensures run[k + 1].tracker.tasks[id].finishedAt.Some?
  {
    var c := run[i].pool.connections[node];
    assert IsStep(cfg, run[i], actions[i], run[i + 1]);
    TrackedBeforeSent(run[i], job, id, node);
    StillTracked(cfg, run, actions, i + 1, k, id, c);
    assert IsStep(cfg, run[k], actions[k], run[k + 1]);
  }
}
