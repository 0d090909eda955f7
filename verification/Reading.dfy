/** What routing reads from the node table, one entry at a time. */
module Reading {
  import opened Prelude
  import opened Registry
  import opened Coordinator
  import opened Safety

  /** Every entry is stored under the id it carries. */
  ghost predicate TableNames(table: Table) {
    forall n :: n in table.entries ==> IdIn(table.entries[n]) == Some(n)
  }

  predicate PhaseNames(phase: Phase, node: NodeId) {
    match phase
    case ReadingEntry(load) => "node_id" !in load
    case Restoring(load) => "node_id" !in load
    case WritingEntry(data) => IdIn(data) == Some(node)
    case _ => true
  }

  ghost predicate HandlersName(handlers: map<Conn, Handler>) {
    forall c :: c in handlers ==>
      IdIn(handlers[c].info) == Some(handlers[c].node) && PhaseNames(handlers[c].phase, handlers[c].node)
  }

  /** A request has read different nodes' entries, none of which it is still to read. */
  predicate PcNames(pc: Pc) {
    pc.Reading? ==>
      && DistinctIds(pc.nodes)
      && forall i :: 0 <= i < |pc.nodes| ==> IdIn(pc.nodes[i]).Some? && IdIn(pc.nodes[i]).value !in pc.todo
  }

  ghost predicate JobsName(jobs: map<nat, Job>) {
    forall j :: j in jobs ==> PcNames(jobs[j].pc)
  }

  ghost predicate NamesOk(s: State) {
    TableNames(s.table) && HandlersName(s.handlers) && JobsName(s.jobs)
  }

  lemma LoadKeepsName(entry: Entry, load: Entry)
    requires "node_id" !in load
    ensures IdIn(Update(entry, load)) == IdIn(entry)
  {
  }

  /** A registry command keeps the names of the table and of its handler. */
  lemma RegistryStepNames(table: Table, h: Handler)
    requires TableNames(table) && IdIn(h.info) == Some(h.node) && PhaseNames(h.phase, h.node)
    ensures TableNames(RegistryStep(table, h).0) && PhaseNames(RegistryStep(table, h).1, h.node)
  {
    match h.phase
    case ReadingEntry(load) =>
      if h.node in table.entries {
        LoadKeepsName(table.entries[h.node], load);
      }
    case Restoring(load) => LoadKeepsName(h.info, load);
    case _ =>
  }

  lemma AdvanceNames(s: State, c: Conn)
    requires NamesOk(s) && c in s.handlers && AwaitsRedis(s.handlers[c].phase)
    ensures NamesOk(AdvanceHandler(s, c))
  {
    RegistryStepNames(s.table, s.handlers[c]);
  }

  lemma SettingPhaseNames(s: State, t: State, c: Conn, phase: Phase)
    requires NamesOk(s) && t.table == s.table && t.jobs == s.jobs && c in s.handlers
    requires t.handlers == s.SetPhase(c, phase).handlers && PhaseNames(phase, s.handlers[c].node)
    ensures NamesOk(t)
  {
  }

  lemma FinishNames(s: State, c: Conn)
    requires NamesOk(s) && c in s.handlers
    ensures NamesOk(Finish(s, c))
  {
    FinishChangesOne(s, c);
    SettingPhaseNames(s, Finish(s, c), c, Finish(s, c).handlers[c].phase);
  }

  lemma AfterSendNames(cfg: Config, s: State, c: Conn)
    requires NamesOk(s) && c in s.handlers
    ensures NamesOk(AfterSend(cfg, s, c))
  {
    AfterSendChangesOne(cfg, s, c);
    SettingPhaseNames(s, AfterSend(cfg, s, c), c, AfterSend(cfg, s, c).handlers[c].phase);
  }

  lemma MessageNames(cfg: Config, s: State, a: Action)
    requires NamesOk(s) && ByHandler(a) && HandlerEnabled(s, a)
    requires !a.Advance? && !a.AckSent? && !a.End?
    ensures NamesOk(HandlerStep(cfg, s, a))
  {
    if a.Heartbeat? {
      SettingPhaseNames(s, HandlerStep(cfg, s, a), a.conn,
                        ReadingEntry(LoadInfo(a.fields, a.toFloat, a.toInt)));
    }
  }

  lemma HandlerNames(cfg: Config, s: State, a: Action)
    requires NamesOk(s) && ByHandler(a) && HandlerEnabled(s, a)
    ensures NamesOk(HandlerStep(cfg, s, a))
  {
    match a
    case Advance(c) => AdvanceNames(s, c);
    case AckSent(c) => AfterSendNames(cfg, s, c);
    case End(c) => FinishNames(s, c);
    case _ => MessageNames(cfg, s, a);
  }

  lemma LookupNames(s: State, j: nat, node: NodeId)
    requires NamesOk(s) && j in s.jobs && s.jobs[j].pc.Reading? && node in s.jobs[j].pc.todo
    ensures NamesOk(Lookup(s, j, node))
  {
    var pc := s.jobs[j].pc;
    if node in s.table.entries {
      var nodes := pc.nodes + [s.table.entries[node]];
      assert forall i :: 0 <= i < |pc.nodes| ==> nodes[i] == pc.nodes[i];
    }
  }

  lemma RequestNames(s: State, a: Action)
    requires NamesOk(s) && !ByHandler(a) && RequestEnabled(s, a)
    ensures NamesOk(RequestStep(s, a))
  {
    if a.ReadNode? {
      LookupNames(s, a.job, a.node);
    } else {
      RequestsLeaveHandlers(s, a);
    }
  }

  /** From a table that stores entries under their own ids, routing always filters entries of
      different nodes, though the table changes under its reads. */
  lemma {:induction false} ReadsDiffer(cfg: Config, run: seq<State>, actions: seq<Action>, i: nat)
    requires IsRun(cfg, run, actions) && i < |run| && TableNames(run[0].table)
    ensures NamesOk(run[i])
    ensures forall j :: j in run[i].jobs && run[i].jobs[j].pc.Reading? ==>
              DistinctIds(run[i].jobs[j].pc.nodes)
  {
    if i > 0 {
      ReadsDiffer(cfg, run, actions, i - 1);
      assert IsStep(cfg, run[i - 1], actions[i - 1], run[i]);
      if ByHandler(actions[i - 1]) {
        HandlerNames(cfg, run[i - 1], actions[i - 1]);
      } else {
        RequestNames(run[i - 1], actions[i - 1]);
      }
    }
  }
}
