/** What a request asks for, reads and sends, and what dropping a node leaves. */
module Requests {
  import opened Prelude
  import opened Registry
  import opened Coordinator
  import opened Safety
  import opened Failing
  import opened Router
  import Routing

  /** The registrations the coordinator takes: any account of one path segment, within the bounds of a
      registration's payload, on a connection that has not registered before. */
  lemma HelloIsTakenExactly(s: State, c: Conn, account: Account, name: string, capabilities: seq<string>)
    ensures Enabled(s, Hello(c, account, name, capabilities)) <==>
            && c !in s.handlers && account != "" && (forall i :: 0 <= i < |account| ==> account[i] != '/')
            && 1 <= |name| <= 64 && 1 <= |capabilities| <= 32
  {
  }

  /* ---- A request's tier and task type ---- */

  lemma RequestStepsKeepJobs(s: State, a: Action, j: nat)
    requires !ByHandler(a) && RequestEnabled(s, a) && j in s.jobs
    ensures var t := RequestStep(s, a);
            j in t.jobs && t.jobs[j].trust == s.jobs[j].trust && t.jobs[j].taskType == s.jobs[j].taskType
  {
  }

  lemma HandlersLeaveJobs(cfg: Config, s: State, a: Action)
    requires ByHandler(a) && HandlerEnabled(s, a)
    ensures HandlerStep(cfg, s, a).jobs == s.jobs
  {
  }

  /** In every run a request keeps the trust tier and the task type it was begun with. */
  lemma {:induction false} AskedIsKept(cfg: Config, run: seq<State>, actions: seq<Action>, i: nat, k: nat,
                                       j: nat, trust: Trust, taskType: string)
    requires IsRun(cfg, run, actions) && i < k < |run| && actions[i] == Begin(j, trust, taskType)
    ensures j in run[k].jobs && run[k].jobs[j].trust == trust && run[k].jobs[j].taskType == taskType
    decreases k
  {
    var s, a := run[k - 1], actions[k - 1];
    assert IsStep(cfg, s, a, run[k]);
    if i < k - 1 {
      AskedIsKept(cfg, run, actions, i, k - 1, j, trust, taskType);
      if ByHandler(a) {
        HandlersLeaveJobs(cfg, s, a);
      } else {
        RequestStepsKeepJobs(s, a, j);
      }
    }
  }

  /* ---- What a request reads ---- */

  lemma ReadsByStep(s: State, a: Action, j: nat)
    requires !ByHandler(a) && RequestEnabled(s, a) && j in RequestStep(s, a).jobs
    requires RequestStep(s, a).jobs[j].pc.Reading?
    ensures var pc := RequestStep(s, a).jobs[j].pc;
            if a == Route(j) then pc.todo == s.table.online && pc.nodes == []
            else
              && j in s.jobs && s.jobs[j].pc.Reading?
              && if a.ReadNode? && a.job == j then
                   && a.node in s.jobs[j].pc.todo && pc.todo == s.jobs[j].pc.todo - {a.node}
                   && pc.nodes == s.jobs[j].pc.nodes
                                  + if a.node in s.table.entries then [s.table.entries[a.node]] else []
                 else pc == s.jobs[j].pc
  {
  }

  /** A request still reads only nodes that were in the routing set when it asked for it. */
  lemma {:induction false} ToReadWasOnline(cfg: Config, run: seq<State>, actions: seq<Action>, i: nat,
                                           j: nat, n: NodeId)
    returns (r: nat)
    requires IsRun(cfg, run, actions) && i < |run| && j in run[i].jobs && run[i].jobs[j].pc.Reading?
    requires n in run[i].jobs[j].pc.todo
    ensures r < i && actions[r] == Route(j) && n in run[r].table.online
    decreases i
  {
    var s, a := run[i - 1], actions[i - 1];
    assert IsStep(cfg, s, a, run[i]);
    if a == Route(j) {
      r := i - 1;
    } else {
      if ByHandler(a) {
        HandlersLeaveJobs(cfg, s, a);
      } else {
        ReadsByStep(s, a, j);
      }
      r := ToReadWasOnline(cfg, run, actions, i - 1, j, n);
    }
  }

  /** Whatever entry a request has read belonged to a node that was in the routing set when the request
      asked for it, and was stored for that node when it was read. */
  lemma {:induction false} ReadWasStored(cfg: Config, run: seq<State>, actions: seq<Action>, i: nat,
                                         j: nat, e: Entry)
    returns (r: nat, k: nat, n: NodeId)
    requires IsRun(cfg, run, actions) && i < |run| && j in run[i].jobs && run[i].jobs[j].pc.Reading?
    requires e in run[i].jobs[j].pc.nodes
    ensures r < k < i && actions[r] == Route(j) && n in run[r].table.online
    ensures actions[k] == ReadNode(j, n) && n in run[k].table.entries && run[k].table.entries[n] == e
    decreases i
  {
    var s, a := run[i - 1], actions[i - 1];
    assert IsStep(cfg, s, a, run[i]);
    if ByHandler(a) {
      HandlersLeaveJobs(cfg, s, a);
    } else {
      ReadsByStep(s, a, j);
    }
    if e in s.jobs[j].pc.nodes {
      r, k, n := ReadWasStored(cfg, run, actions, i - 1, j, e);
    } else {
      k, n := i - 1, a.node;
      r := ToReadWasOnline(cfg, run, actions, i - 1, j, n);
    }
  }

  /* ---- What a request is offered ---- */

  lemma OffersByStep(s: State, a: Action, j: nat)
    requires !ByHandler(a) && RequestEnabled(s, a) && a != Choose(j) && j in RequestStep(s, a).jobs
    ensures var chosen := RequestStep(s, a).jobs[j].chosen;
            if j in s.jobs then chosen == s.jobs[j].chosen else chosen == {}
  {
  }

  /** A node is only ever offered to a request that had read an entry naming the node as one that can do
      its job, at a time when the node was connected. */
  lemma {:induction false} OfferedServed(cfg: Config, run: seq<State>, actions: seq<Action>, i: nat, j: nat,
                                         n: NodeId)
    returns (k: nat, e: Entry)
    requires IsRun(cfg, run, actions) && i < |run| && j in run[i].jobs && n in run[i].jobs[j].chosen
    ensures k < i && actions[k] == Choose(j) && n in run[k].pool.connections
    ensures j in run[k].jobs && run[k].jobs[j].pc.Reading? && e in run[k].jobs[j].pc.nodes
    ensures EntryServes(e, run[k].jobs[j].taskType, run[k].jobs[j].trust, n)
    decreases i
  {
    k := i - 1;
    var s, a := run[k], actions[k];
    assert IsStep(cfg, s, a, run[i]);
    if a == Choose(j) {
      Routing.ChosenExactly(cfg, run, actions, k, j, n);
    } else if ByHandler(a) {
      HandlersLeaveJobs(cfg, s, a);
    } else {
      OffersByStep(s, a, j);
    }
    if n in s.jobs[j].chosen {
      k, e := OfferedServed(cfg, run, actions, k, j, n);
    } else {
      var l :| 0 <= l < |s.jobs[j].pc.nodes|
               && EntryServes(s.jobs[j].pc.nodes[l], s.jobs[j].taskType, s.jobs[j].trust, n);
      e := s.jobs[j].pc.nodes[l];
    }
  }

  /* ---- What a request sends ---- */

  /** Assigning a task tracks it on the node's live connection and sends it there; nothing happens
      when the node has none. */
  lemma AssignExactly(s: State, j: nat, task: TaskId, node: NodeId)
    requires Enabled(s, AssignTo(j, task, node))
    ensures node !in s.pool.connections ==> StartAssign(s, j, task, node) == s
    ensures node in s.pool.connections ==>
              var c := s.pool.connections[node]; var t := StartAssign(s, j, task, node);
              && t.sent == s.sent[c := s.Sent(c) + [Msg.Assign(task, s.jobs[j].trust)]]
              && t.tracker == s.tracker.Create(task, node, c, s.now)
              && t.jobs == s.jobs[j := s.jobs[j].(pc := Sending(task, node, c))]
              && t.pool == s.pool && t.table == s.table && t.handlers == s.handlers
  {
  }

  /** A registration's own messages: the acknowledgement, the benchmark when it is done, or a refusal;
      nothing else is sent to anyone. */
  lemma HandlerSendsExactly(cfg: Config, run: seq<State>, actions: seq<Action>, i: nat)
    requires IsRun(cfg, run, actions) && i < |actions| && ByHandler(actions[i])
    ensures var s, a := run[i], actions[i];
            run[i + 1].sent
            == match a
               case Tell(c) => s.sent[c := s.Sent(c) + [Refusal]]
               case AckSent(c) => s.sent[c := s.Sent(c) + [Registered]]
               case Advance(c) =>
                 if c in s.handlers && s.handlers[c].phase.Joined? then s.sent[c := s.Sent(c) + [Benchmark]]
                 else s.sent
               case _ => s.sent
  {
    assert IsStep(cfg, run[i], actions[i], run[i + 1]);
  }

  /* ---- What a dropped node leaves ---- */

  /** Dropping a node's live connection takes the node out of the pool, the table and the routing set
      and fails its tasks, by the request's own steps. */
  lemma DropForgetsNode(cfg: Config, run: seq<State>, actions: seq<Action>, j: nat, n: NodeId)
    returns (longer: seq<State>, more: seq<Action>)
    requires IsRun(cfg, run, actions) && IsIdle(run[|actions|], j) && n in run[|actions|].pool.connections
    ensures IsRun(cfg, longer, more) && run <= longer
    ensures OnlyAdds(actions + [DropNode(j, n)], more, AdvanceJob(j))
    ensures var s := run[|actions|]; var t := longer[|more|]; var c := s.pool.connections[n];
            && IsIdle(t, j) && NoneUnfinished(t.tracker, c)
            && t.pool.connections == s.pool.connections - {n} && t.pool.nodeInfo == s.pool.nodeInfo - {n}
            && t.table.entries == s.table.entries - {n} && t.table.online == s.table.online - {n}
  {
    longer := Extend(cfg, run, actions, DropNode(j, n));
    more := actions + [DropNode(j, n)];
    longer, more := DropRuns(cfg, longer, more, j);
  }

  lemma DropRuns(cfg: Config, run: seq<State>, actions: seq<Action>, j: nat)
    returns (longer: seq<State>, more: seq<Action>)
    requires IsRun(cfg, run, actions) && j in run[|actions|].jobs
    requires var pc := run[|actions|].jobs[j].pc; pc.Dropping? && pc.left == 3 && pc.socket.Some?
    ensures IsRun(cfg, longer, more) && run <= longer && OnlyAdds(actions, more, AdvanceJob(j))
    ensures var s := run[|actions|]; var t := longer[|more|]; var pc := s.jobs[j].pc;
            && IsIdle(t, j) && NoneUnfinished(t.tracker, pc.socket.value) && t.pool == s.pool
            && t.table.entries == s.table.entries - {pc.node}
            && t.table.online == s.table.online - {pc.node}
  {
    longer := Extend(cfg, run, actions, AdvanceJob(j));
    more := actions + [AdvanceJob(j)];
    longer := Extend(cfg, longer, more, AdvanceJob(j));
    more := more + [AdvanceJob(j)];
    longer := Extend(cfg, longer, more, AdvanceJob(j));
    more := more + [AdvanceJob(j)];
    JobsFailAtOnce(longer[|more|], j);
    longer := Extend(cfg, longer, more, AdvanceJob(j));
    more := more + [AdvanceJob(j)];
  }
}
