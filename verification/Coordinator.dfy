/** server.py: the coordinator as a transition system. An action is the code a coroutine runs
    between two awaits, or one Redis command; actions of all coroutines interleave freely. */
module Coordinator {
  import opened Prelude
  import opened Registry
  import opened Connections
  import opened Tasks

  datatype Trust = Any | Official

  /** MAX_NODES_PER_ACCOUNT and OFFICIAL_ACCOUNTS. */
  datatype Config = Config(limit: int, officials: set<Account>)

  datatype Msg = Registered | Refusal | Benchmark | Assign(task: TaskId, trust: Trust)

  /** Where the handler of one node connection is. */
  datatype Phase =
    | Rejecting(drops: bool)                 // reject(); `drops` is whether node_id is set
    | Acking                                 // sending node_registered
    | StoringEntry(replaced: Option<Conn>)   // registry.register: SET
    | JoiningOnline(replaced: Option<Conn>)  // registry.register: SADD
    | Joined(replaced: Option<Conn>)         // about to fail the replaced connection's tasks
    | Serving                                // waiting for the next message
    | ReadingEntry(load: Entry)              // update_heartbeat: GET
    | WritingEntry(data: Entry)              // update_heartbeat: SET
    | Restoring(load: Entry)                 // entry was gone, register again: SET
    | Rejoining                              // ... SADD
    | Unregistering(left: nat)               // _drop_connection: DEL, DEL, SREM, then fail
    | Closed

  datatype Handler = Handler(account: Account, node: NodeId, info: Entry, phase: Phase)

  function SentTo(sent: map<Conn, seq<Msg>>, c: Conn): seq<Msg> {
    if c in sent then sent[c] else []
  }

  /** A request (or account deletion) coroutine, as far as it touches nodes. */
  datatype Pc =
    | Idle
    | Reading(todo: set<NodeId>, nodes: seq<Entry>)      // get_online_nodes: GETs
    | Sending(task: TaskId, node: NodeId, conn: Conn)    // _assign: send
    | Dropping(node: NodeId, socket: Option<Conn>, left: nat)

  /** `chosen`: the nodes routing has offered this request so far. */
  datatype Job = Job(trust: Trust, taskType: string, chosen: set<NodeId>, pc: Pc)

  datatype State = State(pool: Pool, tracker: Tracker, table: Table, handlers: map<Conn, Handler>,
                         jobs: map<nat, Job>, sent: map<Conn, seq<Msg>>, now: Time)
  {
    function Sent(c: Conn): seq<Msg> {
      SentTo(sent, c)
    }

    function Send(c: Conn, m: Msg): State {
      this.(sent := sent[c := Sent(c) + [m]])
    }

    function SetPhase(c: Conn, phase: Phase): State
      requires c in handlers
    {
      this.(handlers := handlers[c := handlers[c].(phase := phase)])
    }

    function SetPc(j: nat, pc: Pc): State
      requires j in jobs
    {
      this.(jobs := jobs[j := jobs[j].(pc := pc)])
    }

    function FailTasks(c: Option<Conn>): State {
      if c.None? then this else this.(tracker := tracker.FailConnection(c.value, now))
    }

    predicate InPhase(c: Conn) {
      c in handlers && handlers[c].phase != Closed
    }
  }

  datatype Action =
    | Hello(conn: Conn, account: Account, name: string, capabilities: seq<string>)
    | Tell(conn: Conn)
    | AckSent(conn: Conn)
    | Advance(conn: Conn)
    | Heartbeat(conn: Conn, fields: Entry, toFloat: Json -> Option<real>, toInt: Json -> Option<int>)
    | ChunkFrom(conn: Conn, task: TaskId, delta: string)
    | ResultFrom(conn: Conn, task: TaskId, payload: Payload)
    | End(conn: Conn)
    | Begin(job: nat, trust: Trust, taskType: string)
    | Route(job: nat)
    | ReadNode(job: nat, node: NodeId)
    | Choose(job: nat)
    | AssignTo(job: nat, task: TaskId, node: NodeId)
    | SendDone(job: nat, ok: bool)
    | DropNode(job: nat, node: NodeId)
    | AdvanceJob(job: nat)
    | Release(task: TaskId)
    | Expire(node: NodeId)
    | LeaveOnline(node: NodeId)
    | Tick(elapsed: Time)

  /* ---- Identity ---- */

  predicate ValidAccount(account: Account) {
    account != "" && '/' !in account
  }

  /** NodeRegisterPayload's bounds. */
  predicate ValidRegistration(name: string, capabilities: seq<string>) {
    1 <= |name| <= 64 && 1 <= |capabilities| <= 32
  }

  /** The text derive_node_id hashes; the hash is taken to be injective. */
  function DeriveNodeId(account: Account, name: string): NodeId {
    account + "/" + name
  }

  function AccountOf(node: NodeId): Account {
    if node == [] || node[0] == '/' then [] else [node[0]] + AccountOf(node[1..])
  }

  lemma {:induction false} AccountOfDerived(account: Account, name: string)
    requires '/' !in account
    ensures AccountOf(DeriveNodeId(account, name)) == account
  {
    if account != [] {
      assert DeriveNodeId(account, name)[1..] == DeriveNodeId(account[1..], name);
      AccountOfDerived(account[1..], name);
    }
  }

  /** Nobody else can claim a node's identity: the id determines the account and the name. */
  lemma NodeIdsAreInjective(a: Account, x: string, b: Account, y: string)
    requires ValidAccount(a) && ValidAccount(b)
    ensures DeriveNodeId(a, x) == DeriveNodeId(b, y) <==> a == b && x == y
  {
    AccountOfDerived(a, x);
    AccountOfDerived(b, y);
    assert DeriveNodeId(a, x)[|a| + 1..] == x;
    assert DeriveNodeId(b, y)[|b| + 1..] == y;
  }

  function Tier(cfg: Config, account: Account): Json {
    Text(if account in cfg.officials then "official" else "community")
  }

  function NodeInfo(cfg: Config, account: Account, name: string, capabilities: seq<string>): Entry {
    map["node_id" := Text(DeriveNodeId(account, name)), "name" := Text(name),
        "capabilities" := Texts(capabilities), "trust" := Tier(cfg, account)]
  }

  /* ---- Routing ---- */

  predicate Offers(entry: Entry, taskType: string) {
    "capabilities" in entry && entry["capabilities"].Texts? && taskType in entry["capabilities"].texts
  }

  function IdIn(entry: Entry): Option<NodeId> {
    if "node_id" in entry && entry["node_id"].Text? then Some(entry["node_id"].text) else None
  }

  /** The entries name nodes, and no two of them the same. */
  predicate DistinctIds(nodes: seq<Entry>) {
    && (forall i :: 0 <= i < |nodes| ==> IdIn(nodes[i]).Some?)
    && forall i, j :: 0 <= i < j < |nodes| ==> IdIn(nodes[i]) != IdIn(nodes[j])
  }

  predicate SaysOfficial(entry: Entry) {
    Get(entry, "trust") == Some(Text("official"))
  }

  /** RoutingEngine._candidates, applied to the entries that were read. */
  predicate IsCandidate(pool: Pool, job: Job, entry: Entry) {
    && Offers(entry, job.taskType)
    && IdIn(entry).Some? && IdIn(entry).value in pool.connections
    && (job.trust == Official ==> SaysOfficial(entry))
  }

  function Candidates(pool: Pool, job: Job, nodes: seq<Entry>): set<NodeId> {
    set i | 0 <= i < |nodes| && IsCandidate(pool, job, nodes[i]) :: IdIn(nodes[i]).value
  }

  /* ---- The atomic pieces of code ---- */

  /** node_websocket once node_registered is sent: attach, re-check the cap, maybe roll back. */
  function AfterSend(cfg: Config, s: State, c: Conn): State
    requires c in s.handlers
  {
    var h := s.handlers[c];
    var s := s.Send(c, Registered);
    var replaced := s.pool.Replaced(h.node, c);
    var attached := s.pool.Attach(h.node, c, h.info, Some(h.account));
    if attached.ExceedsNodeLimit(h.account, h.node, cfg.limit) then
      s.(pool := attached.Detach(h.node, Some(c))).SetPhase(c, Rejecting(false))
    else
      s.(pool := attached).SetPhase(c, StoringEntry(replaced))
  }

  /** The handler's `finally`, up to its first await. */
  function Finish(s: State, c: Conn): State
    requires c in s.handlers
  {
    var h := s.handlers[c];
    if h.phase == Rejecting(false) then s.SetPhase(c, Closed)
    else if s.pool.IsLive(h.node, Some(c)) then
      s.(pool := s.pool.Detach(h.node, Some(c))).SetPhase(c, Unregistering(3))
    else s.FailTasks(Some(c)).SetPhase(c, Closed)
  }

  /** One command of registry.unregister. */
  function Unregister(table: Table, node: NodeId, left: nat): Table {
    if left == 3 then table.DeleteEntry(node)
    else if left == 1 then table.RemoveOnline(node)
    else table
  }

  /** Does the handler wait for Redis (or run on after its reply) in this phase? */
  predicate AwaitsRedis(phase: Phase) {
    !phase.Rejecting? && !phase.Acking? && !phase.Serving? && !phase.Closed?
  }

  /** What the Redis command a handler waits for does, and where its reply takes the handler. */
  function RegistryStep(table: Table, h: Handler): (Table, Phase) {
    match h.phase
    case StoringEntry(r) => (table.SetEntry(h.node, h.info), JoiningOnline(r))
    case JoiningOnline(r) => (table.AddOnline(h.node), Joined(r))
    case ReadingEntry(load) =>
      (table, if h.node in table.entries then WritingEntry(Update(table.entries[h.node], load))
              else Restoring(load))
    case WritingEntry(data) => (table.SetEntry(h.node, data), Serving)
    case Restoring(load) => (table.SetEntry(h.node, Update(h.info, load)), Rejoining)
    case Rejoining => (table.AddOnline(h.node), Serving)
    case Unregistering(left) =>
      (Unregister(table, h.node, left), Unregistering(if left == 0 then 0 else left - 1))
    case _ => (table, h.phase)
  }

  function AdvanceHandler(s: State, c: Conn): State
    requires c in s.handlers
  {
    var h := s.handlers[c];
    if h.phase.Joined? then s.FailTasks(h.phase.replaced).Send(c, Benchmark).SetPhase(c, Serving)
    else if h.phase == Unregistering(0) then s.FailTasks(Some(c)).SetPhase(c, Closed)
    else
      var (table, phase) := RegistryStep(s.table, h);
      s.(table := table).SetPhase(c, phase)
  }

  /** _drop_connection called by a request or an account deletion, up to its first await. */
  function Drop(s: State, j: nat, node: NodeId, conn: Option<Conn>): State
    requires j in s.jobs
  {
    if s.pool.IsLive(node, conn) then
      s.(pool := s.pool.Detach(node, conn)).SetPc(j, Dropping(node, conn, 3))
    else s.FailTasks(conn).SetPc(j, Idle)
  }

  /** _assign up to its await: look the connection up, track the task, start sending. */
  function StartAssign(s: State, j: nat, task: TaskId, node: NodeId): State
    requires j in s.jobs
  {
    if node !in s.pool.connections then s
    else
      var c := s.pool.connections[node];
      s.(tracker := s.tracker.Create(task, node, c, s.now))
       .Send(c, Assign(task, s.jobs[j].trust))
       .SetPc(j, Sending(task, node, c))
  }

  function FinishAssign(s: State, j: nat, ok: bool): State
    requires j in s.jobs && s.jobs[j].pc.Sending?
  {
    var pc := s.jobs[j].pc;
    if ok then s.SetPc(j, Idle)
    else Drop(s.(tracker := s.tracker.Pop(pc.task)), j, pc.node, Some(pc.conn))
  }

  function AdvanceDrop(s: State, j: nat): State
    requires j in s.jobs && s.jobs[j].pc.Dropping?
  {
    var pc := s.jobs[j].pc;
    if pc.left == 0 then s.FailTasks(pc.socket).SetPc(j, Idle)
    else s.(table := Unregister(s.table, pc.node, pc.left)).SetPc(j, pc.(left := pc.left - 1))
  }

  function Lookup(s: State, j: nat, node: NodeId): State
    requires j in s.jobs && s.jobs[j].pc.Reading?
  {
    var pc := s.jobs[j].pc;
    var found := if node in s.table.entries then [s.table.entries[node]] else [];
    s.SetPc(j, Reading(pc.todo - {node}, pc.nodes + found))
  }

  function Offer(s: State, j: nat): State
    requires j in s.jobs && s.jobs[j].pc.Reading?
  {
    var job := s.jobs[j];
    s.(jobs := s.jobs[j := job.(chosen := job.chosen + Candidates(s.pool, job, job.pc.nodes),
                                pc := Idle)])
  }

  predicate IsIdle(s: State, j: nat) {
    j in s.jobs && s.jobs[j].pc.Idle?
  }

  /** Is the action one of a node's handler (rather than of a request or of the environment)? */
  predicate ByHandler(a: Action) {
    a.Hello? || a.Tell? || a.AckSent? || a.Advance? || a.Heartbeat? || a.ChunkFrom? || a.ResultFrom?
    || a.End?
  }

  predicate HandlerEnabled(s: State, a: Action)
    requires ByHandler(a)
  {
    match a
    case Hello(c, account, name, capabilities) =>
      c !in s.handlers && ValidAccount(account) && ValidRegistration(name, capabilities)
    case Tell(c) => c in s.handlers && s.handlers[c].phase.Rejecting?
    case AckSent(c) => c in s.handlers && s.handlers[c].phase.Acking?
    case Advance(c) => c in s.handlers && AwaitsRedis(s.handlers[c].phase)
    case End(c) =>
      c in s.handlers && !s.handlers[c].phase.Closed? && !s.handlers[c].phase.Unregistering?
    case _ => a.conn in s.handlers && s.handlers[a.conn].phase.Serving?
  }

  predicate RequestEnabled(s: State, a: Action)
    requires !ByHandler(a)
  {
    match a
    case Begin(j, _, _) => j !in s.jobs
    case Route(j) => IsIdle(s, j)
    case ReadNode(j, n) => j in s.jobs && s.jobs[j].pc.Reading? && n in s.jobs[j].pc.todo
    case Choose(j) => j in s.jobs && s.jobs[j].pc.Reading? && s.jobs[j].pc.todo == {}
    case AssignTo(j, _, n) => IsIdle(s, j) && n in s.jobs[j].chosen
    case SendDone(j, _) => j in s.jobs && s.jobs[j].pc.Sending?
    case DropNode(j, _) => IsIdle(s, j)
    case AdvanceJob(j) => j in s.jobs && s.jobs[j].pc.Dropping?
    case Tick(elapsed) => elapsed >= 0.0
    case _ => true
  }

  predicate Enabled(s: State, a: Action) {
    if ByHandler(a) then HandlerEnabled(s, a) else RequestEnabled(s, a)
  }

  function HandlerStep(cfg: Config, s: State, a: Action): State
    requires ByHandler(a) && HandlerEnabled(s, a)
  {
    match a
    case Hello(c, account, name, capabilities) =>
      var node := DeriveNodeId(account, name);
      var phase := if s.pool.ExceedsNodeLimit(account, node, cfg.limit) then Rejecting(true)
                   else Acking;
      s.(handlers := s.handlers[c := Handler(account, node,
                                             NodeInfo(cfg, account, name, capabilities), phase)])
    case Tell(c) => s.Send(c, Refusal)
    case AckSent(c) => AfterSend(cfg, s, c)
    case Advance(c) => AdvanceHandler(s, c)
    case Heartbeat(c, fields, toFloat, toInt) =>
      s.SetPhase(c, ReadingEntry(LoadInfo(fields, toFloat, toInt)))
    case ChunkFrom(c, task, delta) => s.(tracker := s.tracker.AddChunk(task, c, delta, s.now))
    case ResultFrom(c, task, payload) => s.(tracker := s.tracker.Resolve(task, c, payload, s.now))
    case End(c) => Finish(s, c)
  }

  function RequestStep(s: State, a: Action): State
    requires !ByHandler(a) && RequestEnabled(s, a)
  {
    match a
    case Begin(j, trust, taskType) => s.(jobs := s.jobs[j := Job(trust, taskType, {}, Idle)])
    case Route(j) => s.SetPc(j, Reading(s.table.online, []))
    case ReadNode(j, node) => Lookup(s, j, node)
    case Choose(j) => Offer(s, j)
    case AssignTo(j, task, node) => StartAssign(s, j, task, node)
    case SendDone(j, ok) => FinishAssign(s, j, ok)
    case DropNode(j, node) => Drop(s, j, node, Get(s.pool.connections, node))
    case AdvanceJob(j) => AdvanceDrop(s, j)
    case Release(task) => s.(tracker := s.tracker.Pop(task))
    case Expire(node) => s.(table := s.table.DeleteEntry(node))
    case LeaveOnline(node) => s.(table := s.table.RemoveOnline(node))
    case Tick(elapsed) => s.(now := s.now + elapsed)
  }

  function Step(cfg: Config, s: State, a: Action): State
    requires Enabled(s, a)
  {
    if ByHandler(a) then HandlerStep(cfg, s, a) else RequestStep(s, a)
  }

  /** A fresh process; Redis may still hold what an earlier one left. */
  predicate Init(s: State) {
    s.pool == EMPTY_POOL && s.tracker.tasks == map[] && s.handlers == map[] && s.jobs == map[]
    && s.sent == map[]
  }

  ghost predicate IsStep(cfg: Config, s: State, a: Action, t: State) {
    Enabled(s, a) && t == Step(cfg, s, a)
  }

  /** `run` is a sequence of states, each reached from the one before by an enabled action. */
  ghost predicate IsRun(cfg: Config, run: seq<State>, actions: seq<Action>) {
    && |run| == |actions| + 1 && Init(run[0])
    && forall i :: 0 <= i < |actions| ==> IsStep(cfg, run[i], actions[i], run[i + 1])
  }
}
