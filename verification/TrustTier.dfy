/** Requests for official nodes only: exactly when they stay on official accounts' connections. */
module TrustTier {
  import opened Prelude
  import opened Registry
  import opened Connections
  import opened Tasks
  import opened Coordinator
  import opened Safety
  import opened Routing

  /** Can a registration get this node id? */
  predicate IsDerived(node: NodeId) {
    && '/' in node && AccountOf(node) != ""
    && 1 <= |node| - |AccountOf(node)| - 1 <= 64
  }

  predicate OffersSomething(entry: Entry) {
    "capabilities" in entry && entry["capabilities"].Texts? && entry["capabilities"].texts != []
  }

  /** An entry that would route official-only work of some type to an account that is not official. */
  ghost predicate Misleads(cfg: Config, entry: Entry) {
    && SaysOfficial(entry)
    && IdIn(entry).Some? && IsDerived(IdIn(entry).value)
    && AccountOf(IdIn(entry).value) !in cfg.officials
    && OffersSomething(entry)
  }

  /** Has the handler overwritten whatever an earlier process left for its node? */
  predicate HasStored(p: Phase) {
    IsAttached(p) && !p.StoringEntry?
  }

  ghost predicate HandlersHonest(cfg: Config, handlers: map<Conn, Handler>) {
    forall c :: c in handlers ==>
      && IsDerived(handlers[c].node)
      && handlers[c].account == AccountOf(handlers[c].node)
      && !Misleads(cfg, handlers[c].info)
      && (handlers[c].phase.WritingEntry? ==> !Misleads(cfg, handlers[c].phase.data))
      && (handlers[c].phase.ReadingEntry? ==> handlers[c].phase.load.Keys == {"cpu_percent", "active_tasks"})
      && (handlers[c].phase.Restoring? ==> handlers[c].phase.load.Keys == {"cpu_percent", "active_tasks"})
  }

  /** A misleading entry can only be a leftover nobody reads: its node is in no routing set and
      no handler of it has stored anything yet. */
  ghost predicate TableHonest(cfg: Config, table: Table, handlers: map<Conn, Handler>) {
    forall n :: n in table.entries && Misleads(cfg, table.entries[n]) ==>
      && n !in table.online
      && forall c :: c in handlers && handlers[c].node == n ==> !HasStored(handlers[c].phase)
  }

  ghost predicate AreHonest(cfg: Config, entries: seq<Entry>) {
    forall i :: 0 <= i < |entries| ==> !Misleads(cfg, entries[i])
  }

  /** Nodes offered to an official-only request belong to official accounts. */
  ghost predicate JobHonest(cfg: Config, table: Table, job: Job) {
    && (job.trust == Official ==>
          forall n :: n in job.chosen && IsDerived(n) ==> AccountOf(n) in cfg.officials)
    && (job.pc.Reading? ==>
          && AreHonest(cfg, job.pc.nodes)
          && forall n :: n in job.pc.todo && n in table.entries ==> !Misleads(cfg, table.entries[n]))
  }

  ghost predicate JobsHonest(cfg: Config, table: Table, jobs: map<nat, Job>) {
    forall j :: j in jobs ==> JobHonest(cfg, table, jobs[j])
  }

  /** Every official-only task was sent on a connection of an official account. */
  ghost predicate SentHonest(cfg: Config, sent: map<Conn, seq<Msg>>, handlers: map<Conn, Handler>) {
    forall c, m :: m in SentTo(sent, c) && m.Assign? && m.trust == Official ==>
      c in handlers && handlers[c].account in cfg.officials
  }

  ghost predicate Honest(cfg: Config, s: State) {
    && HandlersHonest(cfg, s.handlers)
    && TableHonest(cfg, s.table, s.handlers)
    && JobsHonest(cfg, s.table, s.jobs)
    && SentHonest(cfg, s.sent, s.handlers)
  }

  /** A heartbeat only brings load fields, so it cannot change what an entry says about trust. */
  lemma LoadKeepsHonest(cfg: Config, entry: Entry, load: Entry)
    requires load.Keys == {"cpu_percent", "active_tasks"}
    ensures Misleads(cfg, Update(entry, load)) <==> Misleads(cfg, entry)
  {
  }

  lemma InfoIsHonest(cfg: Config, account: Account, name: string, capabilities: seq<string>)
    requires ValidAccount(account) && ValidRegistration(name, capabilities)
    ensures !Misleads(cfg, NodeInfo(cfg, account, name, capabilities))
    ensures IsDerived(DeriveNodeId(account, name))
    ensures AccountOf(DeriveNodeId(account, name)) == account
  {
    AccountOfDerived(account, name);
    assert DeriveNodeId(account, name)[|account|] == '/';
  }

  /** Writing an honest entry for a node keeps every reader safe. */
  lemma SetKeepsHonest(cfg: Config, s: State, n: NodeId, entry: Entry)
    requires Honest(cfg, s) && !Misleads(cfg, entry)
    ensures Honest(cfg, s.(table := s.table.SetEntry(n, entry)))
  {
  }

  lemma DeleteKeepsHonest(cfg: Config, s: State, n: NodeId)
    requires Honest(cfg, s)
    ensures Honest(cfg, s.(table := s.table.DeleteEntry(n)))
    ensures Honest(cfg, s.(table := s.table.RemoveOnline(n)))
  {
  }

  /** A handler that has stored its entry may join the routing set. */
  lemma JoinKeepsHonest(cfg: Config, s: State, c: Conn)
    requires Honest(cfg, s) && c in s.handlers && HasStored(s.handlers[c].phase)
    ensures Honest(cfg, s.(table := s.table.AddOnline(s.handlers[c].node)))
  {
  }

  lemma PhaseKeepsHonest(cfg: Config, s: State, c: Conn, phase: Phase)
    requires Honest(cfg, s) && c in s.handlers
    requires HasStored(phase) ==>
               HasStored(s.handlers[c].phase)
               || s.handlers[c].node !in s.table.entries
               || !Misleads(cfg, s.table.entries[s.handlers[c].node])
    requires phase.WritingEntry? ==> !Misleads(cfg, phase.data)
    requires phase.ReadingEntry? ==> phase.load.Keys == {"cpu_percent", "active_tasks"}
    requires phase.Restoring? ==> phase.load.Keys == {"cpu_percent", "active_tasks"}
    ensures Honest(cfg, s.SetPhase(c, phase))
  {
  }

  lemma OthersKeepHonest(cfg: Config, s: State, pool: Pool, tracker: Tracker)
    requires Honest(cfg, s)
    ensures Honest(cfg, s.(pool := pool, tracker := tracker))
  {
  }

  lemma SendKeepsHonest(cfg: Config, s: State, c: Conn, m: Msg)
    requires Honest(cfg, s)
    requires m.Assign? && m.trust == Official ==>
               c in s.handlers && s.handlers[c].account in cfg.officials
    ensures Honest(cfg, s.Send(c, m))
  {
  }

  lemma JobKeepsHonest(cfg: Config, s: State, j: nat, job: Job)
    requires Honest(cfg, s) && JobHonest(cfg, s.table, job)
    ensures Honest(cfg, s.(jobs := s.jobs[j := job]))
  {
  }

  /** A new handler that has stored nothing yet. */
  lemma NewHandlerKeepsHonest(cfg: Config, s: State, c: Conn, h: Handler)
    requires Honest(cfg, s) && c !in s.handlers
    requires IsDerived(h.node) && h.account == AccountOf(h.node) && !Misleads(cfg, h.info)
    requires h.phase.Acking? || h.phase.Rejecting?
    ensures Honest(cfg, s.(handlers := s.handlers[c := h]))
  {
  }

  lemma HelloKeepsHonest(cfg: Config, s: State, a: Action)
    requires Honest(cfg, s) && a.Hello? && HandlerEnabled(s, a)
    ensures Honest(cfg, HandlerStep(cfg, s, a))
  {
    InfoIsHonest(cfg, a.account, a.name, a.capabilities);
    NewHandlerKeepsHonest(cfg, s, a.conn, HandlerStep(cfg, s, a).handlers[a.conn]);
  }

  lemma ReadStepKeepsHonest(cfg: Config, s: State, c: Conn)
    requires Honest(cfg, s) && c in s.handlers && s.handlers[c].phase.ReadingEntry?
    ensures Honest(cfg, AdvanceHandler(s, c))
  {
    var h := s.handlers[c];
    var phase := RegistryStep(s.table, h).1;
    if h.node in s.table.entries {
      assert !Misleads(cfg, s.table.entries[h.node]);
      LoadKeepsHonest(cfg, s.table.entries[h.node], h.phase.load);
    }
    PhaseKeepsHonest(cfg, s, c, phase);
  }

  /** A handler stores an honest entry for its node. */
  lemma StoreStepKeepsHonest(cfg: Config, s: State, c: Conn)
    requires Honest(cfg, s) && c in s.handlers
    requires var p := s.handlers[c].phase; p.StoringEntry? || p.WritingEntry? || p.Restoring?
    ensures Honest(cfg, AdvanceHandler(s, c))
  {
    var h := s.handlers[c];
    var (table, phase) := RegistryStep(s.table, h);
    if h.phase.Restoring? {
      LoadKeepsHonest(cfg, h.info, h.phase.load);
    }
    var entry := if h.phase.StoringEntry? then h.info
                 else if h.phase.WritingEntry? then h.phase.data
                 else Update(h.info, h.phase.load);
    SetKeepsHonest(cfg, s, h.node, entry);
    assert table == s.table.SetEntry(h.node, entry);
    PhaseKeepsHonest(cfg, s.(table := table), c, phase);
  }

  lemma JoinStepKeepsHonest(cfg: Config, s: State, c: Conn)
    requires Honest(cfg, s) && c in s.handlers
    requires s.handlers[c].phase.JoiningOnline? || s.handlers[c].phase.Rejoining?
    ensures Honest(cfg, AdvanceHandler(s, c))
  {
    var (table, phase) := RegistryStep(s.table, s.handlers[c]);
    JoinKeepsHonest(cfg, s, c);
    PhaseKeepsHonest(cfg, s.(table := table), c, phase);
  }

  lemma UnregisterStepKeepsHonest(cfg: Config, s: State, c: Conn)
    requires Honest(cfg, s) && c in s.handlers
    requires s.handlers[c].phase.Unregistering? && s.handlers[c].phase.left > 0
    ensures Honest(cfg, AdvanceHandler(s, c))
  {
    var (table, phase) := RegistryStep(s.table, s.handlers[c]);
    DeleteKeepsHonest(cfg, s, s.handlers[c].node);
    PhaseKeepsHonest(cfg, s.(table := table), c, phase);
  }

  lemma FailThenPhaseKeepsHonest(cfg: Config, s: State, c: Conn)
    requires Honest(cfg, s) && c in s.handlers
    requires s.handlers[c].phase.Joined? || s.handlers[c].phase == Unregistering(0)
    ensures Honest(cfg, AdvanceHandler(s, c))
  {
    var h := s.handlers[c];
    var failed := s.FailTasks(if h.phase.Joined? then h.phase.replaced else Some(c));
    OthersKeepHonest(cfg, s, s.pool, failed.tracker);
    if h.phase.Joined? {
      SendKeepsHonest(cfg, failed, c, Benchmark);
      PhaseKeepsHonest(cfg, failed.Send(c, Benchmark), c, Serving);
    } else {
      PhaseKeepsHonest(cfg, failed, c, Closed);
    }
  }

  lemma AdvanceKeepsHonest(cfg: Config, s: State, c: Conn)
    requires Honest(cfg, s) && c in s.handlers && AwaitsRedis(s.handlers[c].phase)
    ensures Honest(cfg, AdvanceHandler(s, c))
  {
    var p := s.handlers[c].phase;
    if p.ReadingEntry? {
      ReadStepKeepsHonest(cfg, s, c);
    } else if p.StoringEntry? || p.WritingEntry? || p.Restoring? {
      StoreStepKeepsHonest(cfg, s, c);
    } else if p.Joined? || p == Unregistering(0) {
      FailThenPhaseKeepsHonest(cfg, s, c);
    } else if p.Unregistering? {
      UnregisterStepKeepsHonest(cfg, s, c);
    } else {
      JoinStepKeepsHonest(cfg, s, c);
    }
  }

  lemma AfterSendKeepsHonest(cfg: Config, s: State, c: Conn)
    requires Honest(cfg, s) && c in s.handlers
    ensures Honest(cfg, AfterSend(cfg, s, c))
  {
    var t := AfterSend(cfg, s, c);
    SendKeepsHonest(cfg, s, c, Registered);
    var u := s.Send(c, Registered);
    OthersKeepHonest(cfg, u, t.pool, t.tracker);
    PhaseKeepsHonest(cfg, u.(pool := t.pool, tracker := t.tracker), c, t.handlers[c].phase);
  }

  lemma FinishKeepsHonest(cfg: Config, s: State, c: Conn)
    requires Honest(cfg, s) && c in s.handlers
    ensures Honest(cfg, Finish(s, c))
  {
    var t := Finish(s, c);
    OthersKeepHonest(cfg, s, t.pool, t.tracker);
    PhaseKeepsHonest(cfg, s.(pool := t.pool, tracker := t.tracker), c, t.handlers[c].phase);
  }

  /** What routing offers an official-only request is official. */
  lemma CandidatesAreOfficial(cfg: Config, pool: Pool, job: Job, nodes: seq<Entry>, n: NodeId)
    requires AreHonest(cfg, nodes) && job.trust == Official
    requires n in Candidates(pool, job, nodes) && IsDerived(n)
    ensures AccountOf(n) in cfg.officials
  {
  }

  lemma RoutingKeepsHonest(cfg: Config, s: State, a: Action)
    requires Honest(cfg, s) && (a.Route? || a.ReadNode? || a.Choose?) && RequestEnabled(s, a)
    ensures Honest(cfg, RequestStep(s, a))
  {
  }

  lemma PcKeepsHonest(cfg: Config, s: State, j: nat, pc: Pc)
    requires Honest(cfg, s) && j in s.jobs && !pc.Reading?
    ensures Honest(cfg, s.SetPc(j, pc))
  {
  }

  lemma AssignKeepsHonest(cfg: Config, s: State, j: nat, task: TaskId, node: NodeId)
    requires Honest(cfg, s) && LiveOk(s.pool.connections, s.handlers)
    requires j in s.jobs && node in s.jobs[j].chosen
    ensures Honest(cfg, StartAssign(s, j, task, node))
  {
    if node in s.pool.connections {
      var c := s.pool.connections[node];
      var t := s.(tracker := s.tracker.Create(task, node, c, s.now));
      OthersKeepHonest(cfg, s, s.pool, t.tracker);
      assert JobHonest(cfg, s.table, s.jobs[j]);
      SendKeepsHonest(cfg, t, c, Assign(task, s.jobs[j].trust));
      PcKeepsHonest(cfg, t.Send(c, Assign(task, s.jobs[j].trust)), j, Sending(task, node, c));
    }
  }

  lemma DropKeepsHonest(cfg: Config, s: State, j: nat, node: NodeId, conn: Option<Conn>)
    requires Honest(cfg, s) && j in s.jobs
    ensures Honest(cfg, Drop(s, j, node, conn))
  {
  }

  lemma AdvanceDropKeepsHonest(cfg: Config, s: State, j: nat)
    requires Honest(cfg, s) && j in s.jobs && s.jobs[j].pc.Dropping?
    ensures Honest(cfg, AdvanceDrop(s, j))
  {
  }

  lemma FinishAssignKeepsHonest(cfg: Config, s: State, j: nat, ok: bool)
    requires Honest(cfg, s) && j in s.jobs && s.jobs[j].pc.Sending?
    ensures Honest(cfg, FinishAssign(s, j, ok))
  {
  }

  lemma MessageKeepsHonest(cfg: Config, s: State, a: Action)
    requires Honest(cfg, s) && (a.Tell? || a.Heartbeat? || a.ChunkFrom? || a.ResultFrom?)
    requires HandlerEnabled(s, a)
    ensures Honest(cfg, HandlerStep(cfg, s, a))
  {
    if a.Tell? {
      SendKeepsHonest(cfg, s, a.conn, Refusal);
    } else if a.Heartbeat? {
      PhaseKeepsHonest(cfg, s, a.conn, ReadingEntry(LoadInfo(a.fields, a.toFloat, a.toInt)));
    } else {
      OthersKeepHonest(cfg, s, s.pool, HandlerStep(cfg, s, a).tracker);
    }
  }

  lemma HandlerKeepsHonest(cfg: Config, s: State, a: Action)
    requires Honest(cfg, s) && ByHandler(a) && HandlerEnabled(s, a)
    ensures Honest(cfg, HandlerStep(cfg, s, a))
  {
    match a
    case Hello(_, _, _, _) => HelloKeepsHonest(cfg, s, a);
    case AckSent(c) => AfterSendKeepsHonest(cfg, s, c);
    case Advance(c) => AdvanceKeepsHonest(cfg, s, c);
    case End(c) => FinishKeepsHonest(cfg, s, c);
    case _ => MessageKeepsHonest(cfg, s, a);
  }

  lemma RequestKeepsHonest(cfg: Config, s: State, a: Action)
    requires Honest(cfg, s) && LiveOk(s.pool.connections, s.handlers)
    requires !ByHandler(a) && RequestEnabled(s, a)
    ensures Honest(cfg, RequestStep(s, a))
  {
    match a
    case Begin(j, trust, taskType) => JobKeepsHonest(cfg, s, j, Job(trust, taskType, {}, Idle));
    case AssignTo(j, task, node) => AssignKeepsHonest(cfg, s, j, task, node);
    case SendDone(j, ok) => FinishAssignKeepsHonest(cfg, s, j, ok);
    case DropNode(j, node) => DropKeepsHonest(cfg, s, j, node, Get(s.pool.connections, node));
    case AdvanceJob(j) => AdvanceDropKeepsHonest(cfg, s, j);
    case Release(task) => OthersKeepHonest(cfg, s, s.pool, s.tracker.Pop(task));
    case Expire(node) => DeleteKeepsHonest(cfg, s, node);
    case LeaveOnline(node) => DeleteKeepsHonest(cfg, s, node);
    case Tick(_) =>
    case _ => RoutingKeepsHonest(cfg, s, a);
  }

  /* ---- Over every run ---- */

  lemma {:induction false} AlwaysHonest(cfg: Config, run: seq<State>, actions: seq<Action>, i: nat)
    requires IsRun(cfg, run, actions) && i < |run| && Honest(cfg, run[0])
    ensures Honest(cfg, run[i])
  {
    if i > 0 {
      AlwaysHonest(cfg, run, actions, i - 1);
      assert IsStep(cfg, run[i - 1], actions[i - 1], run[i]);
      var s, a := run[i - 1], actions[i - 1];
      if ByHandler(a) {
        HandlerKeepsHonest(cfg, s, a);
      } else {
        assert LiveOk(s.pool.connections, s.handlers) by { AlwaysOk(cfg, run, actions, i - 1); }
        RequestKeepsHonest(cfg, s, a);
      }
    }
  }

  /** Some node in the routing set has a misleading entry. */
  ghost predicate LeftoverMisleads(cfg: Config, table: Table) {
    exists n :: n in table.online && n in table.entries && Misleads(cfg, table.entries[n])
  }

  ghost predicate NeverLeaks(cfg: Config, start: State) {
    forall run: seq<State>, actions: seq<Action> :: IsRun(cfg, run, actions) && run[0] == start ==>
      SentHonest(cfg, run[|actions|].sent, run[|actions|].handlers)
  }

  lemma CleanStartIsHonest(cfg: Config, start: State)
    requires Init(start) && !LeftoverMisleads(cfg, start.table)
    ensures Honest(cfg, start)
  {
  }

  /* The run that leaks when a misleading leftover is in the routing set: the node it names comes
     online, and an official-only request reads the leftover before the node has overwritten it. */

  lemma {:induction false} AccountIsPrefix(node: NodeId)
    requires '/' in node
    ensures '/' !in AccountOf(node) && |AccountOf(node)| < |node|
    ensures node[..|AccountOf(node)|] == AccountOf(node) && node[|AccountOf(node)|] == '/'
  {
    if node[0] != '/' {
      AccountIsPrefix(node[1..]);
    }
  }

  lemma {:induction false} SplitDerived(node: NodeId)
    requires '/' in node
    ensures '/' !in AccountOf(node) && |AccountOf(node)| < |node|
    ensures DeriveNodeId(AccountOf(node), node[|AccountOf(node)| + 1..]) == node
  {
    AccountIsPrefix(node);
  }

  /** A request starts to read the routing set. */
  lemma StartRouting(cfg: Config, run: seq<State>, actions: seq<Action>, taskType: string)
    returns (longer: seq<State>, more: seq<Action>)
    requires IsRun(cfg, run, actions) && run[|actions|].jobs == map[]
    ensures IsRun(cfg, longer, more) && longer[0] == run[0]
    ensures var s := run[|actions|];
            longer[|more|]
            == s.(jobs := map[0 := Job(Official, taskType, {}, Reading(s.table.online, []))])
  {
    var begin := Begin(0, Official, taskType);
    longer := Extend(cfg, run, actions, begin);
    longer := Extend(cfg, longer, actions + [begin], Route(0));
    more := actions + [begin] + [Route(0)];
  }

  /** The node named by a misleading entry is offered to an official-only request. */
  lemma OfferLeftover(cfg: Config, start: State, n: NodeId)
    returns (run: seq<State>, actions: seq<Action>)
    requires Init(start) && cfg.limit >= 1
    requires n in start.table.online && n in start.table.entries
    requires Misleads(cfg, start.table.entries[n])
    ensures IsRun(cfg, run, actions) && run[0] == start
    ensures var s := run[|actions|]; var node := IdIn(start.table.entries[n]).value;
            && 0 in s.handlers && s.handlers[0].account == AccountOf(node)
            && Get(s.pool.connections, node) == Some(0)
            && IsIdle(s, 0) && s.jobs[0].trust == Official && node in s.jobs[0].chosen
  {
    var entry := start.table.entries[n];
    var node := IdIn(entry).value;
    SplitDerived(node);
    run, actions := Connects(cfg, [start], [], 0, AccountOf(node), node[|AccountOf(node)| + 1..]);
    run, actions := StartRouting(cfg, run, actions, entry["capabilities"].texts[0]);
    run, actions := ReadsEverything(cfg, run, actions, 0, n);
    var s := run[|actions|];
    var i :| 0 <= i < |s.jobs[0].pc.nodes| && s.jobs[0].pc.nodes[i] == entry;
    assert IsCandidate(s.pool, s.jobs[0], s.jobs[0].pc.nodes[i]);
    run := Extend(cfg, run, actions, Choose(0));
    actions := actions + [Choose(0)];
  }

  lemma LeftoverLeaks(cfg: Config, start: State, n: NodeId)
    requires Init(start) && cfg.limit >= 1
    requires n in start.table.online && n in start.table.entries
    requires Misleads(cfg, start.table.entries[n])
    ensures !NeverLeaks(cfg, start)
  {
    var node := IdIn(start.table.entries[n]).value;
    var run, actions := OfferLeftover(cfg, start, n);
    var leak := AssignTo(0, "task", node);
    run := Extend(cfg, run, actions, leak);
    actions := actions + [leak];
    var t := run[|actions|];
    assert Assign("task", Official) in SentTo(t.sent, 0);
    assert t.handlers[0].account !in cfg.officials;
  }

  /** Official-only work never reaches an account that is not official, whatever the interleaving
      of registrations, heartbeats, expiries and routing, exactly when the process does not start
      with a misleading entry in the routing set. */
  lemma TrustNeverLeaks(cfg: Config, start: State)
    requires Init(start) && cfg.limit >= 1
    ensures NeverLeaks(cfg, start) <==> !LeftoverMisleads(cfg, start.table)
  {
    if LeftoverMisleads(cfg, start.table) {
      var n :| n in start.table.online && n in start.table.entries
               && Misleads(cfg, start.table.entries[n]);
      LeftoverLeaks(cfg, start, n);
    } else {
      CleanStartIsHonest(cfg, start);
      forall run: seq<State>, actions: seq<Action> | IsRun(cfg, run, actions) && run[0] == start
        ensures SentHonest(cfg, run[|actions|].sent, run[|actions|].handlers)
      {
        AlwaysHonest(cfg, run, actions, |actions|);
      }
    }
  }
}
