/** What registrations, heartbeats and unregisters leave in the node table, and that requests find the
    nodes it holds. */
module Routing {
  import opened Prelude
  import opened Registry
  import opened Connections
  import opened Coordinator
  import opened Safety
  import opened Failing
  import opened Router

  /* ---- Admission ---- */

  /** A registration is refused at once exactly when its account already has `limit` other nodes
      online; otherwise it goes on. */
  lemma HelloIsRefusedExactly(cfg: Config, run: seq<State>, actions: seq<Action>, i: nat, c: Conn,
                              account: Account, name: string, capabilities: seq<string>)
    requires IsRun(cfg, run, actions) && i < |actions|
    requires actions[i] == Hello(c, account, name, capabilities)
    ensures c in run[i + 1].handlers
    ensures var others := set n | n in run[i].pool.connections && AccountOf(n) == account
                                  && n != DeriveNodeId(account, name);
            run[i + 1].handlers[c].phase == if |others| >= cfg.limit then Rejecting(true) else Acking
  {
    AlwaysOk(cfg, run, actions, i);
    assert IsStep(cfg, run[i], actions[i], run[i + 1]);
    OthersAre(run[i].pool, account, DeriveNodeId(account, name));
  }

  lemma OthersAre(pool: Pool, account: Account, node: NodeId)
    requires PoolOk(pool)
    ensures pool.AccountNodes(account) - {node}
            == set n | n in pool.connections && AccountOf(n) == account && n != node
  {
  }

  /** After the acknowledgement the node is online, replacing its live connection if there is one,
      unless its account has got `limit` other nodes online meanwhile. */
  lemma AttachIsRefusedExactly(cfg: Config, run: seq<State>, actions: seq<Action>, i: nat, c: Conn)
    requires IsRun(cfg, run, actions) && i < |actions| && actions[i] == AckSent(c)
    ensures c in run[i].handlers && c in run[i + 1].handlers
    ensures var h := run[i].handlers[c];
            var others := set n | n in run[i].pool.connections && AccountOf(n) == h.account
                                  && n != h.node;
            if |others| >= cfg.limit then
              run[i + 1].handlers[c].phase == Rejecting(false) && run[i + 1].pool == run[i].pool
            else
              && run[i + 1].pool.connections == run[i].pool.connections[h.node := c]
              && run[i + 1].pool.nodeInfo == run[i].pool.nodeInfo[h.node := h.info]
              && run[i + 1].handlers[c].phase
                 == StoringEntry(if h.node in run[i].pool.connections
                                 then Some(run[i].pool.connections[h.node]) else None)
  {
    AlwaysOk(cfg, run, actions, i);
    assert IsStep(cfg, run[i], actions[i], run[i + 1]);
    AttachExactly(cfg, run[i], c);
  }

  lemma AttachExactly(cfg: Config, s: State, c: Conn)
    requires Ok(s) && CapOk(cfg, s.pool) && c in s.handlers && s.handlers[c].phase.Acking?
    ensures var h := s.handlers[c]; var t := AfterSend(cfg, s, c);
            var others := set n | n in s.pool.connections && AccountOf(n) == h.account && n != h.node;
            if |others| >= cfg.limit then t.handlers[c].phase == Rejecting(false) && t.pool == s.pool
            else
              && t.pool.connections == s.pool.connections[h.node := c]
              && t.pool.nodeInfo == s.pool.nodeInfo[h.node := h.info]
              && t.handlers[c].phase == StoringEntry(if h.node in s.pool.connections
                                                     then Some(s.pool.connections[h.node]) else None)
  {
    var h := s.handlers[c];
    var attached := s.pool.Attach(h.node, c, h.info, Some(h.account));
    OthersAre(s.pool, h.account, h.node);
    assert attached.AccountNodes(h.account) - {h.node} == s.pool.AccountNodes(h.account) - {h.node};
    RecheckKeepsCap(cfg, s, c);
    assert h.node in s.pool.connections ==> s.pool.connections[h.node] != c;
  }

  /* ---- The node table ---- */

  /** A registration stores the node's info and makes it known to routing, by its own steps. */
  lemma {:induction false} RegistrationStores(cfg: Config, run: seq<State>, actions: seq<Action>, c: Conn)
    returns (longer: seq<State>, more: seq<Action>)
    requires IsRun(cfg, run, actions) && c in run[|actions|].handlers
    requires run[|actions|].handlers[c].phase.StoringEntry?
    ensures IsRun(cfg, longer, more) && run <= longer && OnlyAdds(actions, more, Advance(c))
    ensures var s := run[|actions|]; var t := longer[|more|]; var h := s.handlers[c];
            && t.table.entries == s.table.entries[h.node := h.info]
            && t.table.online == s.table.online + {h.node}
            && t.handlers == s.handlers[c := h.(phase := Serving)] && t.pool == s.pool && t.jobs == s.jobs
  {
    longer := Extend(cfg, run, actions, Advance(c));
    more := actions + [Advance(c)];
    longer := Extend(cfg, longer, more, Advance(c));
    more := more + [Advance(c)];
    longer := Extend(cfg, longer, more, Advance(c));
    more := more + [Advance(c)];
  }

  /** The entry after a heartbeat: the load fields are new, all others as they were. */
  ghost predicate Refreshed(entry: Entry, load: Entry, before: Entry) {
    forall k :: Get(entry, k) == if k == "cpu_percent" || k == "active_tasks" then Get(load, k)
                                 else Get(before, k)
  }

  lemma UpdateRefreshes(entry: Entry, load: Entry)
    requires load.Keys == {"cpu_percent", "active_tasks"}
    ensures Refreshed(Update(entry, load), load, entry)
  {
  }

  /** A heartbeat refreshes the load in the node's entry and nothing else, by its own steps; when the
      entry is gone, it stores the info with the load and makes the node known to routing again. */
  lemma HeartbeatStores(cfg: Config, run: seq<State>, actions: seq<Action>, c: Conn, fields: Entry,
                        toFloat: Json -> Option<real>, toInt: Json -> Option<int>)
    returns (longer: seq<State>, more: seq<Action>)
    requires IsRun(cfg, run, actions) && c in run[|actions|].handlers
    requires run[|actions|].handlers[c].phase.Serving?
    ensures IsRun(cfg, longer, more) && run <= longer
    ensures OnlyAdds(actions + [Heartbeat(c, fields, toFloat, toInt)], more, Advance(c))
    ensures var s := run[|actions|]; var t := longer[|more|]; var h := s.handlers[c];
            var load := LoadInfo(fields, toFloat, toInt);
            && c in t.handlers && t.handlers[c].phase.Serving? && h.node in t.table.entries
            && t.table.entries == s.table.entries[h.node := t.table.entries[h.node]]
            && (if h.node in s.table.entries then
                  Refreshed(t.table.entries[h.node], load, s.table.entries[h.node])
                  && t.table.online == s.table.online
                else
                  Refreshed(t.table.entries[h.node], load, h.info)
                  && t.table.online == s.table.online + {h.node})
  {
    var s := run[|actions|];
    var load := LoadInfo(fields, toFloat, toInt);
    var beat := Heartbeat(c, fields, toFloat, toInt);
    longer := Extend(cfg, run, actions, beat);
    more := actions + [beat];
    longer, more := BeatRuns(cfg, longer, more, c, load);
    UpdateRefreshes(s.handlers[c].info, load);
    if s.handlers[c].node in s.table.entries {
      UpdateRefreshes(s.table.entries[s.handlers[c].node], load);
    }
  }

  lemma BeatRuns(cfg: Config, run: seq<State>, actions: seq<Action>, c: Conn, load: Entry)
    returns (longer: seq<State>, more: seq<Action>)
    requires IsRun(cfg, run, actions) && c in run[|actions|].handlers
    requires run[|actions|].handlers[c].phase == ReadingEntry(load)
    ensures IsRun(cfg, longer, more) && run <= longer && OnlyAdds(actions, more, Advance(c))
    ensures var s := run[|actions|]; var t := longer[|more|]; var h := s.handlers[c];
            && t.handlers == s.handlers[c := h.(phase := Serving)]
            && (if h.node in s.table.entries then
                  t.table == s.table.SetEntry(h.node, Update(s.table.entries[h.node], load))
                else t.table == s.table.SetEntry(h.node, Update(h.info, load)).AddOnline(h.node))
  {
    var missing := run[|actions|].handlers[c].node !in run[|actions|].table.entries;
    longer := Extend(cfg, run, actions, Advance(c));
    more := actions + [Advance(c)];
    longer := Extend(cfg, longer, more, Advance(c));
    more := more + [Advance(c)];
    if missing {
      longer := Extend(cfg, longer, more, Advance(c));
      more := more + [Advance(c)];
    }
  }

  /** The end of a live connection takes the node out of the pool, the table and the routing set, by the
      handler's own steps. */
  lemma EndForgetsNode(cfg: Config, run: seq<State>, actions: seq<Action>, c: Conn)
    returns (longer: seq<State>, more: seq<Action>)
    requires IsRun(cfg, run, actions) && c in run[|actions|].handlers
    requires run[|actions|].pool.IsLive(run[|actions|].handlers[c].node, Some(c))
    ensures IsRun(cfg, longer, more) && run <= longer
    ensures OnlyAdds(actions + [Coordinator.End(c)], more, Advance(c))
    ensures var s := run[|actions|]; var t := longer[|more|]; var n := s.handlers[c].node;
            && IsClosed(t, c)
            && t.pool.connections == s.pool.connections - {n} && t.pool.nodeInfo == s.pool.nodeInfo - {n}
            && t.table.entries == s.table.entries - {n} && t.table.online == s.table.online - {n}
  {
    AlwaysOk(cfg, run, actions, |actions|);
    longer := Extend(cfg, run, actions, Coordinator.End(c));
    more := actions + [Coordinator.End(c)];
    longer, more := UnregisterRuns(cfg, longer, more, c);
  }

  lemma UnregisterRuns(cfg: Config, run: seq<State>, actions: seq<Action>, c: Conn)
    returns (longer: seq<State>, more: seq<Action>)
    requires IsRun(cfg, run, actions) && c in run[|actions|].handlers
    requires run[|actions|].handlers[c].phase == Unregistering(3)
    ensures IsRun(cfg, longer, more) && run <= longer && OnlyAdds(actions, more, Advance(c))
    ensures var s := run[|actions|]; var t := longer[|more|]; var n := s.handlers[c].node;
            && IsClosed(t, c) && t.pool == s.pool
            && t.table.entries == s.table.entries - {n} && t.table.online == s.table.online - {n}
  {
    longer := Extend(cfg, run, actions, Advance(c));
    more := actions + [Advance(c)];
    longer := Extend(cfg, longer, more, Advance(c));
    more := more + [Advance(c)];
    longer := Extend(cfg, longer, more, Advance(c));
    more := more + [Advance(c)];
    longer := Extend(cfg, longer, more, Advance(c));
    more := more + [Advance(c)];
  }

  /* ---- Requests find what is there ---- */

  /** Every step of a request's choice: the nodes offered are those offered before and exactly the
      connected nodes whose entries, as read, can do the job. */
  lemma ChosenExactly(cfg: Config, run: seq<State>, actions: seq<Action>, i: nat, j: nat, n: NodeId)
    requires IsRun(cfg, run, actions) && i < |actions| && actions[i] == Choose(j)
    ensures j in run[i].jobs && j in run[i + 1].jobs && run[i].jobs[j].pc.Reading?
    ensures n in run[i + 1].jobs[j].chosen <==>
            n in run[i].jobs[j].chosen
            || Serves(run[i].pool, run[i].jobs[j], run[i].jobs[j].pc.nodes, n)
  {
    assert IsStep(cfg, run[i], actions[i], run[i + 1]);
    CandidatesExactly(run[i].pool, run[i].jobs[j], run[i].jobs[j].pc.nodes, n);
  }

  /** The entry carries what the node's registration says of its id, name, capabilities and trust. */
  predicate IsOwnEntry(cfg: Config, entry: Entry, account: Account, name: string,
                       capabilities: seq<string>)
  {
    && Get(entry, "node_id") == Some(Text(DeriveNodeId(account, name)))
    && Get(entry, "name") == Some(Text(name))
    && Get(entry, "capabilities") == Some(Texts(capabilities))
    && Get(entry, "trust") == Some(Text(if account in cfg.officials then "official" else "community"))
  }

  lemma RegistrationIsOwn(cfg: Config, account: Account, name: string, capabilities: seq<string>)
    ensures IsOwnEntry(cfg, NodeInfo(cfg, account, name, capabilities), account, name, capabilities)
  {
  }

  /** May a request of this trust tier be served by this account? */
  predicate Fits(cfg: Config, account: Account, trust: Trust) {
    trust == Any || account in cfg.officials
  }

  lemma OwnEntryServes(cfg: Config, entry: Entry, account: Account, name: string,
                       capabilities: seq<string>, taskType: string, trust: Trust)
    requires IsOwnEntry(cfg, entry, account, name, capabilities) && taskType in capabilities
    ensures EntryServes(entry, taskType, trust, DeriveNodeId(account, name)) <==>
            Fits(cfg, account, trust)
  {
  }

  /** A request's own steps while it reads and filters. */
  ghost predicate OnlyRoutes(actions: seq<Action>, more: seq<Action>, j: nat) {
    && actions <= more
    && forall i :: |actions| <= i < |more| ==>
         more[i] == Route(j) || more[i] == Choose(j) || (more[i].ReadNode? && more[i].job == j)
  }

  /** Reading goes through the whole routing set, in any order, and misses no entry. */
  lemma {:induction false} ReadsEverything(cfg: Config, run: seq<State>, actions: seq<Action>, j: nat,
                                           n: NodeId)
    returns (longer: seq<State>, more: seq<Action>)
    requires IsRun(cfg, run, actions) && j in run[|actions|].jobs && run[|actions|].jobs[j].pc.Reading?
    requires n in run[|actions|].table.entries
    requires n in run[|actions|].jobs[j].pc.todo
             || run[|actions|].table.entries[n] in run[|actions|].jobs[j].pc.nodes
    ensures IsRun(cfg, longer, more) && run <= longer && OnlyRoutes(actions, more, j)
    ensures var s := run[|actions|]; var t := longer[|more|];
            && j in t.jobs && t.jobs[j].pc.Reading?
            && t == s.(jobs := s.jobs[j := s.jobs[j].(pc := Reading({}, t.jobs[j].pc.nodes))])
            && s.table.entries[n] in t.jobs[j].pc.nodes
    decreases run[|actions|].jobs[j].pc.todo
  {
    var s := run[|actions|];
    if s.jobs[j].pc.todo == {} {
      longer, more := run, actions;
      assert s.jobs == s.jobs[j := s.jobs[j]];
    } else {
      var m :| m in s.jobs[j].pc.todo;
      longer := Extend(cfg, run, actions, ReadNode(j, m));
      longer, more := ReadsEverything(cfg, longer, actions + [ReadNode(j, m)], j, n);
    }
  }

  /** A request's own steps, while nobody else moves, offer it a connected node that routing knows and
      whose entry says what its registration said, for each of its capabilities: every account's node
      for trust 'any', exactly the official accounts' for trust 'official'. */
  lemma RequestFindsNode(cfg: Config, run: seq<State>, actions: seq<Action>, j: nat, account: Account,
                         name: string, capabilities: seq<string>)
    returns (longer: seq<State>, more: seq<Action>)
    requires IsRun(cfg, run, actions) && IsIdle(run[|actions|], j)
    requires var s := run[|actions|]; var n := DeriveNodeId(account, name);
             && n in s.pool.connections && n in s.table.online && n in s.table.entries
             && IsOwnEntry(cfg, s.table.entries[n], account, name, capabilities)
             && s.jobs[j].taskType in capabilities && Fits(cfg, account, s.jobs[j].trust)
    ensures IsRun(cfg, longer, more) && run <= longer && OnlyRoutes(actions, more, j)
    ensures var s := run[|actions|]; var t := longer[|more|];
            && t.pool == s.pool && t.table == s.table && IsIdle(t, j)
            && DeriveNodeId(account, name) in t.jobs[j].chosen
  {
    var s, n := run[|actions|], DeriveNodeId(account, name);
    var routing := Extend(cfg, run, actions, Route(j));
    var found, steps := ReadsEverything(cfg, routing, actions + [Route(j)], j, n);
    var t := found[|steps|];
    var i :| 0 <= i < |t.jobs[j].pc.nodes| && t.jobs[j].pc.nodes[i] == s.table.entries[n];
    OwnEntryServes(cfg, s.table.entries[n], account, name, capabilities, s.jobs[j].taskType,
                   s.jobs[j].trust);
    assert EntryServes(t.jobs[j].pc.nodes[i], t.jobs[j].taskType, t.jobs[j].trust, n);
    CandidatesExactly(t.pool, t.jobs[j], t.jobs[j].pc.nodes, n);
    longer := Extend(cfg, found, steps, Choose(j));
    more := steps + [Choose(j)];
  }

  /** From a registration's acknowledgement on, its own steps and then a request's own steps lead to the
      node being offered to the request. */
  lemma RegisteredNodeIsFound(cfg: Config, run: seq<State>, actions: seq<Action>, c: Conn, j: nat,
                              account: Account, name: string, capabilities: seq<string>)
    returns (longer: seq<State>, more: seq<Action>)
    requires IsRun(cfg, run, actions) && IsIdle(run[|actions|], j) && c in run[|actions|].handlers
    requires var s := run[|actions|]; var h := s.handlers[c];
             && h.phase.StoringEntry? && s.pool.IsLive(h.node, Some(c))
             && h.node == DeriveNodeId(account, name)
             && h.info == NodeInfo(cfg, account, name, capabilities)
             && s.jobs[j].taskType in capabilities && Fits(cfg, account, s.jobs[j].trust)
    ensures IsRun(cfg, longer, more) && run <= longer && IsIdle(longer[|more|], j)
    ensures DeriveNodeId(account, name) in longer[|more|].jobs[j].chosen
  {
    RegistrationIsOwn(cfg, account, name, capabilities);
    longer, more := RegistrationStores(cfg, run, actions, c);
    longer, more := RequestFindsNode(cfg, longer, more, j, account, name, capabilities);
  }

  /** A handler's info is that of its own registration, in every run. */
  lemma {:induction false} InfoIsOwn(cfg: Config, run: seq<State>, actions: seq<Action>, i: nat, c: Conn)
    returns (name: string, capabilities: seq<string>)
    requires IsRun(cfg, run, actions) && i < |run| && c in run[i].handlers
    ensures var h := run[i].handlers[c];
            && h.node == DeriveNodeId(h.account, name)
            && h.info == NodeInfo(cfg, h.account, name, capabilities)
  {
    var s, a := run[i - 1], actions[i - 1];
    assert IsStep(cfg, s, a, run[i]);
    if a.Hello? && a.conn == c {
      name, capabilities := a.name, a.capabilities;
    } else {
      KeepsInfo(cfg, s, a, c);
      name, capabilities := InfoIsOwn(cfg, run, actions, i - 1, c);
    }
  }

  lemma KeepsInfo(cfg: Config, s: State, a: Action, c: Conn)
    requires Enabled(s, a) && c in Step(cfg, s, a).handlers && !(a.Hello? && a.conn == c)
    ensures c in s.handlers
    ensures Step(cfg, s, a).handlers[c] == s.handlers[c].(phase := Step(cfg, s, a).handlers[c].phase)
  {
    if ByHandler(a) {
      match a
      case End(e) => FinishChangesOne(s, e);
      case Advance(e) => AdvanceChangesOne(s, e);
      case AckSent(e) => AfterSendChangesOne(cfg, s, e);
      case _ =>
    } else {
      RequestsLeaveHandlers(s, a);
    }
  }
}
