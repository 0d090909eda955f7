/** When a connected node can be found by routing. */
module Routability {
  import opened Prelude
  import opened Registry
  import opened Connections
  import opened Coordinator
  import opened Safety

  /** The action is the last command of some unregister of `n` (or an outside cleanup). */
  predicate Removes(s: State, a: Action, n: NodeId) {
    match a
    case Advance(c) =>
      c in s.handlers && s.handlers[c].node == n && s.handlers[c].phase == Unregistering(1)
    case AdvanceJob(j) =>
      j in s.jobs && s.jobs[j].pc.Dropping? && s.jobs[j].pc.node == n && s.jobs[j].pc.left == 1
    case LeaveOnline(m) => m == n
    case _ => false
  }

  /** The action is the SADD of a registration of `n`. */
  predicate Adds(s: State, a: Action, n: NodeId) {
    a.Advance? && a.conn in s.handlers && s.handlers[a.conn].node == n
    && (s.handlers[a.conn].phase.JoiningOnline? || s.handlers[a.conn].phase.Rejoining?)
  }

  lemma HandlersOnline(cfg: Config, s: State, a: Action, n: NodeId)
    requires ByHandler(a) && HandlerEnabled(s, a)
    ensures n in HandlerStep(cfg, s, a).table.online
            <==> Adds(s, a, n) || (n in s.table.online && !Removes(s, a, n))
  {
  }

  lemma RequestsOnline(s: State, a: Action, n: NodeId)
    requires !ByHandler(a) && RequestEnabled(s, a)
    ensures n in RequestStep(s, a).table.online <==> n in s.table.online && !Removes(s, a, n)
  {
  }

  /** Some unregister of `n` still has its last `least` commands (or more) to come. */
  ghost predicate Unregisters(s: State, n: NodeId, least: nat) {
    || (exists d :: UnregistersFor(s, d, n, least))
    || (exists j :: DropsFor(s, j, n, least))
  }

  predicate UnregistersFor(s: State, d: Conn, n: NodeId, least: nat) {
    d in s.handlers && s.handlers[d].node == n && s.handlers[d].phase.Unregistering?
    && s.handlers[d].phase.left >= least
  }

  predicate DropsFor(s: State, j: nat, n: NodeId, least: nat) {
    j in s.jobs && s.jobs[j].pc.Dropping? && s.jobs[j].pc.node == n && s.jobs[j].pc.left >= least
  }

  /** An unregister of `n` has yet to remove it from the routing set. */
  ghost predicate Pending(s: State, n: NodeId) {
    Unregisters(s, n, 1)
  }

  /** An ending handler starts an unregister only by taking its node offline. */
  lemma FinishStartsNone(s: State, e: Conn, n: NodeId, c: Conn, d: Conn, least: nat)
    requires e in s.handlers && Finish(s, e).pool.IsLive(n, Some(c))
    requires UnregistersFor(Finish(s, e), d, n, least)
    ensures UnregistersFor(s, d, n, least)
  {
  }

  lemma AdvanceStartsNone(s: State, e: Conn, n: NodeId, d: Conn, least: nat)
    requires e in s.handlers && AwaitsRedis(s.handlers[e].phase)
    requires UnregistersFor(AdvanceHandler(s, e), d, n, least)
    ensures UnregistersFor(s, d, n, least)
  {
  }

  lemma HandlersStartNone(cfg: Config, s: State, a: Action, n: NodeId, c: Conn, d: Conn, least: nat)
    requires ByHandler(a) && HandlerEnabled(s, a)
    requires HandlerStep(cfg, s, a).pool.IsLive(n, Some(c))
    requires UnregistersFor(HandlerStep(cfg, s, a), d, n, least)
    ensures UnregistersFor(s, d, n, least)
  {
    if a.End? {
      FinishStartsNone(s, a.conn, n, c, d, least);
    } else if a.Advance? {
      AdvanceStartsNone(s, a.conn, n, d, least);
    }
  }

  lemma RequestsStartNone(s: State, a: Action, n: NodeId, c: Conn, j: nat, least: nat)
    requires !ByHandler(a) && RequestEnabled(s, a)
    requires RequestStep(s, a).pool.IsLive(n, Some(c))
    requires DropsFor(RequestStep(s, a), j, n, least)
    ensures DropsFor(s, j, n, least)
  {
  }

  /** While the node stays connected, no unregister of it begins. */
  lemma LiveStartsNone(cfg: Config, s: State, a: Action, n: NodeId, c: Conn, least: nat)
    requires Enabled(s, a) && !Unregisters(s, n, least)
    requires Step(cfg, s, a).pool.IsLive(n, Some(c))
    ensures !Unregisters(Step(cfg, s, a), n, least)
  {
    var t := Step(cfg, s, a);
    if ByHandler(a) {
      assert forall j :: DropsFor(t, j, n, least) ==> DropsFor(s, j, n, least) by {
        HandlersLeaveJobs(cfg, s, a);
      }
      forall d | UnregistersFor(t, d, n, least)
        ensures UnregistersFor(s, d, n, least)
      {
        HandlersStartNone(cfg, s, a, n, c, d, least);
      }
    } else {
      assert forall d :: UnregistersFor(t, d, n, least) ==> UnregistersFor(s, d, n, least) by {
        RequestsLeaveHandlers(s, a);
      }
      forall j | DropsFor(t, j, n, least)
        ensures DropsFor(s, j, n, least)
      {
        RequestsStartNone(s, a, n, c, j, least);
      }
    }
  }

  lemma HandlersLeaveJobs(cfg: Config, s: State, a: Action)
    requires ByHandler(a) && HandlerEnabled(s, a)
    ensures HandlerStep(cfg, s, a).jobs == s.jobs
  {
  }

  lemma LiveStaysOnline(cfg: Config, s: State, a: Action, n: NodeId, c: Conn)
    requires Enabled(s, a) && !Pending(s, n) && n in s.table.online && a != LeaveOnline(n)
    ensures n in Step(cfg, s, a).table.online
  {
    assert !Removes(s, a, n) by {
      if a.Advance? {
        assert !UnregistersFor(s, a.conn, n, 1);
      } else if a.AdvanceJob? {
        assert !DropsFor(s, a.job, n, 1);
      }
    }
    if ByHandler(a) {
      HandlersOnline(cfg, s, a, n);
    } else {
      RequestsOnline(s, a, n);
    }
  }

  /** `longer` goes on from `run` with `c` the live connection of `n` all along. */
  ghost predicate LiveOn(cfg: Config, run: seq<State>, actions: seq<Action>, longer: seq<State>,
                         more: seq<Action>, n: NodeId, c: Conn)
  {
    && IsRun(cfg, longer, more) && run <= longer && actions <= more && |run| == |actions| + 1
    && forall i :: |actions| <= i < |longer| ==> longer[i].pool.IsLive(n, Some(c))
  }

  /** None of the actions after those of `actions` is `a`. */
  ghost predicate Without(actions: seq<Action>, more: seq<Action>, a: Action) {
    forall i :: |actions| <= i < |more| ==> more[i] != a
  }

  /** So does this, without an outside cleanup of `n`. */
  ghost predicate GoesOn(cfg: Config, run: seq<State>, actions: seq<Action>, longer: seq<State>,
                         more: seq<Action>, n: NodeId, c: Conn)
  {
    LiveOn(cfg, run, actions, longer, more, n, c) && Without(actions, more, LeaveOnline(n))
  }

  lemma {:induction false} OnlineAllAlong(cfg: Config, run: seq<State>, actions: seq<Action>,
                                          longer: seq<State>, more: seq<Action>, n: NodeId, c: Conn,
                                          k: nat)
    requires GoesOn(cfg, run, actions, longer, more, n, c) && |actions| <= k < |longer|
    requires n in run[|actions|].table.online && !Pending(run[|actions|], n)
    ensures n in longer[k].table.online && !Pending(longer[k], n)
  {
    if k == |actions| {
      assert longer[k] == run[k];
    } else {
      OnlineAllAlong(cfg, run, actions, longer, more, n, c, k - 1);
      assert IsStep(cfg, longer[k - 1], more[k - 1], longer[k]);
      LiveStaysOnline(cfg, longer[k - 1], more[k - 1], n, c);
      LiveStartsNone(cfg, longer[k - 1], more[k - 1], n, c, 1);
    }
  }

  /** The commands left of a handler's unregister, one after the other. */
  lemma {:induction false} UnregisterRuns(cfg: Config, run: seq<State>, actions: seq<Action>, d: Conn,
                                          n: NodeId, c: Conn)
    returns (longer: seq<State>, more: seq<Action>)
    requires IsRun(cfg, run, actions) && UnregistersFor(run[|actions|], d, n, 1)
    requires run[|actions|].pool.IsLive(n, Some(c))
    ensures GoesOn(cfg, run, actions, longer, more, n, c) && n !in longer[|more|].table.online
    decreases run[|actions|].handlers[d].phase.left
  {
    longer := Extend(cfg, run, actions, Advance(d));
    more := actions + [Advance(d)];
    if run[|actions|].handlers[d].phase.left > 1 {
      longer, more := UnregisterRuns(cfg, longer, more, d, n, c);
    }
  }

  /** The same for the unregister of a request that drops the node. */
  lemma {:induction false} DropRuns(cfg: Config, run: seq<State>, actions: seq<Action>, j: nat,
                                    n: NodeId, c: Conn)
    returns (longer: seq<State>, more: seq<Action>)
    requires IsRun(cfg, run, actions) && DropsFor(run[|actions|], j, n, 1)
    requires run[|actions|].pool.IsLive(n, Some(c))
    ensures GoesOn(cfg, run, actions, longer, more, n, c) && n !in longer[|more|].table.online
    decreases run[|actions|].jobs[j].pc.left
  {
    longer := Extend(cfg, run, actions, AdvanceJob(j));
    more := actions + [AdvanceJob(j)];
    if run[|actions|].jobs[j].pc.left > 1 {
      longer, more := DropRuns(cfg, longer, more, j, n, c);
    }
  }

  /** Routing knows the node in whatever follows while `c` stays its live connection. */
  ghost predicate StaysRoutable(cfg: Config, run: seq<State>, actions: seq<Action>, n: NodeId, c: Conn) {
    forall longer: seq<State>, more: seq<Action> :: GoesOn(cfg, run, actions, longer, more, n, c) ==>
      n in longer[|more|].table.online
  }

  /** When a connected node can rely on being found: from any reachable state on, for as long as it
      stays connected, exactly when it is in the routing set and no unregister of it is under way. */
  lemma RoutableWhileLive(cfg: Config, run: seq<State>, actions: seq<Action>, n: NodeId, c: Conn)
    requires IsRun(cfg, run, actions) && run[|actions|].pool.IsLive(n, Some(c))
    ensures StaysRoutable(cfg, run, actions, n, c)
            <==> n in run[|actions|].table.online && !Pending(run[|actions|], n)
  {
    var s := run[|actions|];
    if n in s.table.online && !Pending(s, n) {
      forall longer: seq<State>, more: seq<Action> | GoesOn(cfg, run, actions, longer, more, n, c)
        ensures n in longer[|more|].table.online
      {
        OnlineAllAlong(cfg, run, actions, longer, more, n, c, |more|);
      }
    } else if n !in s.table.online {
      assert GoesOn(cfg, run, actions, run, actions, n, c);
    } else if exists d :: UnregistersFor(s, d, n, 1) {
      var d :| UnregistersFor(s, d, n, 1);
      var longer, more := UnregisterRuns(cfg, run, actions, d, n, c);
      assert GoesOn(cfg, run, actions, longer, more, n, c);
    } else {
      var j :| DropsFor(s, j, n, 1);
      var longer, more := DropRuns(cfg, run, actions, j, n, c);
      assert GoesOn(cfg, run, actions, longer, more, n, c);
    }
  }

  /* ---- Lost for good ---- */

  /** The handler is about to add its node to the routing set. */
  predicate AddsSoon(phase: Phase) {
    phase.StoringEntry? || phase.JoiningOnline? || phase.Restoring? || phase.Rejoining?
  }

  /** The handler may find its node's entry missing in a heartbeat and register it again. */
  predicate MayMiss(phase: Phase) {
    phase.Joined? || phase.Serving? || phase.ReadingEntry?
  }

  /** `n` is unknown to routing, nobody is adding it, and no heartbeat can find its entry missing: it
      is there, or being written, and no unregister has yet to delete it. */
  ghost predicate IsLost(s: State, n: NodeId) {
    && n !in s.table.online
    && NoneAdds(s, n)
    && !Unregisters(s, n, 3)
    && (n in s.table.entries || NoneMisses(s, n))
  }

  ghost predicate NoneAdds(s: State, n: NodeId) {
    forall d :: d in s.handlers && s.handlers[d].node == n ==> !AddsSoon(s.handlers[d].phase)
  }

  ghost predicate NoneMisses(s: State, n: NodeId) {
    forall d :: d in s.handlers && s.handlers[d].node == n ==> !MayMiss(s.handlers[d].phase)
  }

  /** So does this, without the entry of `n` expiring. */
  ghost predicate KeepsBeating(cfg: Config, run: seq<State>, actions: seq<Action>, longer: seq<State>,
                               more: seq<Action>, n: NodeId, c: Conn)
  {
    LiveOn(cfg, run, actions, longer, more, n, c) && Without(actions, more, Expire(n))
  }

  lemma ReadingMisses(table: Table, h: Handler)
    requires AddsSoon(RegistryStep(table, h).1) && !AddsSoon(h.phase)
    ensures MayMiss(h.phase) && h.node !in table.entries
  {
  }

  lemma WritingServes(table: Table, h: Handler)
    requires MayMiss(RegistryStep(table, h).1) && !MayMiss(h.phase) && !AddsSoon(h.phase)
    ensures h.node in RegistryStep(table, h).0.entries
  {
  }

  /** What a message, or a new connection, does to the phases of handlers. */
  lemma MessagePhases(cfg: Config, s: State, a: Action, d: Conn)
    requires ByHandler(a) && HandlerEnabled(s, a) && !a.Advance? && !a.AckSent? && !a.End?
    requires d in HandlerStep(cfg, s, a).handlers
    ensures var phase := HandlerStep(cfg, s, a).handlers[d].phase;
            || phase.Rejecting? || phase.Acking?
            || (d in s.handlers && (phase == s.handlers[d].phase
                                    || (phase.ReadingEntry? && s.handlers[d].phase.Serving?)))
    ensures d in s.handlers ==> HandlerStep(cfg, s, a).handlers[d].node == s.handlers[d].node
  {
  }

  lemma MessageKeepsAway(cfg: Config, s: State, a: Action, n: NodeId)
    requires ByHandler(a) && HandlerEnabled(s, a) && !a.Advance? && !a.AckSent? && !a.End?
    ensures NoneAdds(s, n) ==> NoneAdds(HandlerStep(cfg, s, a), n)
    ensures NoneMisses(s, n) ==> NoneMisses(HandlerStep(cfg, s, a), n)
  {
    var t := HandlerStep(cfg, s, a);
    forall d | d in t.handlers && t.handlers[d].node == n
      ensures NoneAdds(s, n) ==> !AddsSoon(t.handlers[d].phase)
      ensures NoneMisses(s, n) ==> !MayMiss(t.handlers[d].phase)
    {
      MessagePhases(cfg, s, a, d);
    }
  }

  lemma FinishKeepsAway(s: State, e: Conn, n: NodeId)
    requires e in s.handlers
    ensures NoneAdds(s, n) ==> NoneAdds(Finish(s, e), n)
    ensures NoneMisses(s, n) ==> NoneMisses(Finish(s, e), n)
  {
    FinishChangesOne(s, e);
    assert !AddsSoon(Finish(s, e).handlers[e].phase) && !MayMiss(Finish(s, e).handlers[e].phase);
  }

  /** A new registration of the node would take the live connection's place. */
  lemma AttachKeepsAway(cfg: Config, s: State, e: Conn, n: NodeId, c: Conn)
    requires e in s.handlers && e != c && AfterSend(cfg, s, e).pool.IsLive(n, Some(c))
    ensures NoneAdds(s, n) ==> NoneAdds(AfterSend(cfg, s, e), n)
    ensures NoneMisses(s, n) ==> NoneMisses(AfterSend(cfg, s, e), n)
  {
    AfterSendChangesOne(cfg, s, e);
    assert s.handlers[e].node != n;
  }

  lemma AdvanceAddsNone(s: State, e: Conn, n: NodeId)
    requires IsLost(s, n) && e in s.handlers && AwaitsRedis(s.handlers[e].phase)
    ensures NoneAdds(AdvanceHandler(s, e), n)
  {
    AdvanceChangesOne(s, e);
    if s.handlers[e].node == n && AddsSoon(RegistryStep(s.table, s.handlers[e]).1) {
      ReadingMisses(s.table, s.handlers[e]);
    }
  }

  lemma AdvanceMissesNone(s: State, e: Conn, n: NodeId)
    requires NoneAdds(s, n) && NoneMisses(s, n)
    requires e in s.handlers && AwaitsRedis(s.handlers[e].phase)
    requires n !in AdvanceHandler(s, e).table.entries
    ensures NoneMisses(AdvanceHandler(s, e), n)
  {
    AdvanceChangesOne(s, e);
    if s.handlers[e].node == n && MayMiss(RegistryStep(s.table, s.handlers[e]).1) {
      WritingServes(s.table, s.handlers[e]);
    }
  }

  lemma HandlersAddNone(cfg: Config, s: State, a: Action, n: NodeId, c: Conn)
    requires ByHandler(a) && HandlerEnabled(s, a) && IsLost(s, n)
    requires c in s.handlers && IsAttached(s.handlers[c].phase)
    requires HandlerStep(cfg, s, a).pool.IsLive(n, Some(c))
    ensures NoneAdds(HandlerStep(cfg, s, a), n)
  {
    match a
    case Advance(e) => AdvanceAddsNone(s, e, n);
    case AckSent(e) => AttachKeepsAway(cfg, s, e, n, c);
    case End(e) => FinishKeepsAway(s, e, n);
    case _ => MessageKeepsAway(cfg, s, a, n);
  }

  lemma HandlersMissNone(cfg: Config, s: State, a: Action, n: NodeId, c: Conn)
    requires ByHandler(a) && HandlerEnabled(s, a) && NoneAdds(s, n) && NoneMisses(s, n)
    requires c in s.handlers && IsAttached(s.handlers[c].phase)
    requires HandlerStep(cfg, s, a).pool.IsLive(n, Some(c))
    requires n !in HandlerStep(cfg, s, a).table.entries
    ensures NoneMisses(HandlerStep(cfg, s, a), n)
  {
    match a
    case Advance(e) => AdvanceMissesNone(s, e, n);
    case AckSent(e) => AttachKeepsAway(cfg, s, e, n, c);
    case End(e) => FinishKeepsAway(s, e, n);
    case _ => MessageKeepsAway(cfg, s, a, n);
  }

  /** Entries are deleted only by an unregister or by expiry. */
  lemma HandlersKeepEntry(cfg: Config, s: State, a: Action, n: NodeId)
    requires ByHandler(a) && HandlerEnabled(s, a) && n in s.table.entries && !Unregisters(s, n, 3)
    ensures n in HandlerStep(cfg, s, a).table.entries
  {
    if a.Advance? {
      assert !UnregistersFor(s, a.conn, n, 3);
    }
  }

  lemma RequestsKeepEntry(s: State, a: Action, n: NodeId)
    requires !ByHandler(a) && RequestEnabled(s, a) && n in s.table.entries && !Unregisters(s, n, 3)
    requires a != Expire(n)
    ensures n in RequestStep(s, a).table.entries
  {
    if a.AdvanceJob? {
      assert !DropsFor(s, a.job, n, 3);
    }
  }

  lemma HandlersKeepLost(cfg: Config, s: State, a: Action, n: NodeId, c: Conn)
    requires ByHandler(a) && HandlerEnabled(s, a) && IsLost(s, n)
    requires c in s.handlers && IsAttached(s.handlers[c].phase)
    requires HandlerStep(cfg, s, a).pool.IsLive(n, Some(c))
    ensures IsLost(HandlerStep(cfg, s, a), n)
  {
    var t := HandlerStep(cfg, s, a);
    HandlersOnline(cfg, s, a, n);
    LiveStartsNone(cfg, s, a, n, c, 3);
    HandlersAddNone(cfg, s, a, n, c);
    if n in s.table.entries {
      HandlersKeepEntry(cfg, s, a, n);
    } else if n !in t.table.entries {
      HandlersMissNone(cfg, s, a, n, c);
    }
  }

  lemma RequestsKeepLost(cfg: Config, s: State, a: Action, n: NodeId, c: Conn)
    requires !ByHandler(a) && RequestEnabled(s, a) && IsLost(s, n) && a != Expire(n)
    requires RequestStep(s, a).pool.IsLive(n, Some(c))
    ensures IsLost(RequestStep(s, a), n)
  {
    RequestsOnline(s, a, n);
    LiveStartsNone(cfg, s, a, n, c, 3);
    RequestsLeaveHandlers(s, a);
    if n in s.table.entries {
      RequestsKeepEntry(s, a, n);
    }
  }

  lemma NextLost(cfg: Config, s: State, a: Action, t: State, n: NodeId, c: Conn)
    requires IsStep(cfg, s, a, t) && LiveOk(s.pool.connections, s.handlers) && a != Expire(n)
    requires s.pool.IsLive(n, Some(c)) && t.pool.IsLive(n, Some(c)) && IsLost(s, n)
    ensures IsLost(t, n)
  {
    if ByHandler(a) {
      HandlersKeepLost(cfg, s, a, n, c);
    } else {
      RequestsKeepLost(cfg, s, a, n, c);
    }
  }

  lemma LostOneMore(cfg: Config, run: seq<State>, actions: seq<Action>, longer: seq<State>,
                    more: seq<Action>, n: NodeId, c: Conn, k: nat)
    requires KeepsBeating(cfg, run, actions, longer, more, n, c) && |actions| <= k < |more|
    requires IsLost(longer[k], n)
    ensures IsLost(longer[k + 1], n)
  {
    assert IsStep(cfg, longer[k], more[k], longer[k + 1]);
    assert LiveOk(longer[k].pool.connections, longer[k].handlers) by { AlwaysOk(cfg, longer, more, k); }
    NextLost(cfg, longer[k], more[k], longer[k + 1], n, c);
  }

  lemma {:induction false} LostAllAlong(cfg: Config, run: seq<State>, actions: seq<Action>,
                                        longer: seq<State>, more: seq<Action>, n: NodeId, c: Conn,
                                        k: nat)
    requires KeepsBeating(cfg, run, actions, longer, more, n, c) && |actions| <= k < |longer|
    requires IsLost(run[|actions|], n)
    ensures IsLost(longer[k], n)
  {
    if k == |actions| {
      assert longer[k] == run[k];
    } else {
      LostAllAlong(cfg, run, actions, longer, more, n, c, k - 1);
      LostOneMore(cfg, run, actions, longer, more, n, c, k - 1);
    }
  }

  /* How a node that is not lost comes back. */

  /** One more action that leaves the pool alone. */
  lemma GoOn(cfg: Config, run: seq<State>, actions: seq<Action>, a: Action, n: NodeId, c: Conn)
    returns (longer: seq<State>, more: seq<Action>)
    requires IsRun(cfg, run, actions) && Enabled(run[|actions|], a) && a != Expire(n)
    requires run[|actions|].pool.IsLive(n, Some(c))
    requires Step(cfg, run[|actions|], a).pool == run[|actions|].pool
    ensures KeepsBeating(cfg, run, actions, longer, more, n, c)
    ensures |more| == |actions| + 1 && longer[|more|] == Step(cfg, run[|actions|], a)
  {
    longer := Extend(cfg, run, actions, a);
    more := actions + [a];
  }

  lemma GoOnTwice(cfg: Config, run: seq<State>, actions: seq<Action>, next: seq<State>,
                  after: seq<Action>, longer: seq<State>, more: seq<Action>, n: NodeId, c: Conn)
    requires KeepsBeating(cfg, run, actions, next, after, n, c)
    requires KeepsBeating(cfg, next, after, longer, more, n, c)
    ensures KeepsBeating(cfg, run, actions, longer, more, n, c)
  {
    forall i | |actions| <= i < |longer|
      ensures longer[i].pool.IsLive(n, Some(c))
    {
      if i < |next| {
        assert longer[i] == next[i];
      }
    }
    forall i | |actions| <= i < |more|
      ensures more[i] != Expire(n)
    {
      if i < |after| {
        assert more[i] == after[i];
      }
    }
  }

  lemma {:induction false} AddRuns(cfg: Config, run: seq<State>, actions: seq<Action>, d: Conn,
                                   n: NodeId, c: Conn)
    returns (longer: seq<State>, more: seq<Action>)
    requires IsRun(cfg, run, actions) && run[|actions|].pool.IsLive(n, Some(c))
    requires d in run[|actions|].handlers && run[|actions|].handlers[d].node == n
    requires AddsSoon(run[|actions|].handlers[d].phase)
    ensures KeepsBeating(cfg, run, actions, longer, more, n, c) && n in longer[|more|].table.online
    decreases if run[|actions|].handlers[d].phase.StoringEntry?
                 || run[|actions|].handlers[d].phase.Restoring? then 1 else 0
  {
    var phase := run[|actions|].handlers[d].phase;
    longer, more := GoOn(cfg, run, actions, Advance(d), n, c);
    if phase.StoringEntry? || phase.Restoring? {
      var next, after := longer, more;
      longer, more := AddRuns(cfg, next, after, d, n, c);
      GoOnTwice(cfg, run, actions, next, after, longer, more, n, c);
    }
  }

  function StepsToMiss(phase: Phase): nat {
    if phase.Joined? then 2 else if phase.Serving? then 1 else 0
  }

  /** A heartbeat that finds the entry missing registers the node again. */
  lemma {:induction false} MissRuns(cfg: Config, run: seq<State>, actions: seq<Action>, d: Conn,
                                    n: NodeId, c: Conn)
    returns (longer: seq<State>, more: seq<Action>)
    requires IsRun(cfg, run, actions) && run[|actions|].pool.IsLive(n, Some(c))
    requires d in run[|actions|].handlers && run[|actions|].handlers[d].node == n
    requires MayMiss(run[|actions|].handlers[d].phase) && n !in run[|actions|].table.entries
    ensures KeepsBeating(cfg, run, actions, longer, more, n, c) && n in longer[|more|].table.online
    decreases StepsToMiss(run[|actions|].handlers[d].phase)
  {
    var phase := run[|actions|].handlers[d].phase;
    var a := if phase.Serving? then Heartbeat(d, map[], _ => None, _ => None) else Advance(d);
    var next, after := GoOn(cfg, run, actions, a, n, c);
    if phase.ReadingEntry? {
      longer, more := AddRuns(cfg, next, after, d, n, c);
    } else {
      longer, more := MissRuns(cfg, next, after, d, n, c);
    }
    GoOnTwice(cfg, run, actions, next, after, longer, more, n, c);
  }

  /** An unregister deletes the entry under the live connection. */
  lemma {:induction false} UnregisterDeletes(cfg: Config, run: seq<State>, actions: seq<Action>,
                                             d: Conn, n: NodeId, c: Conn)
    returns (longer: seq<State>, more: seq<Action>)
    requires IsRun(cfg, run, actions) && run[|actions|].pool.IsLive(n, Some(c))
    requires UnregistersFor(run[|actions|], d, n, 3) && d != c
    requires c in run[|actions|].handlers
    ensures KeepsBeating(cfg, run, actions, longer, more, n, c) && n !in longer[|more|].table.entries
    ensures c in longer[|more|].handlers && longer[|more|].handlers[c] == run[|actions|].handlers[c]
    decreases run[|actions|].handlers[d].phase.left
  {
    longer, more := GoOn(cfg, run, actions, Advance(d), n, c);
    if run[|actions|].handlers[d].phase.left > 3 {
      var next, after := longer, more;
      longer, more := UnregisterDeletes(cfg, next, after, d, n, c);
      GoOnTwice(cfg, run, actions, next, after, longer, more, n, c);
    }
  }

  lemma {:induction false} DropDeletes(cfg: Config, run: seq<State>, actions: seq<Action>, j: nat,
                                       n: NodeId, c: Conn)
    returns (longer: seq<State>, more: seq<Action>)
    requires IsRun(cfg, run, actions) && run[|actions|].pool.IsLive(n, Some(c))
    requires DropsFor(run[|actions|], j, n, 3) && c in run[|actions|].handlers
    ensures KeepsBeating(cfg, run, actions, longer, more, n, c) && n !in longer[|more|].table.entries
    ensures c in longer[|more|].handlers && longer[|more|].handlers[c] == run[|actions|].handlers[c]
    decreases run[|actions|].jobs[j].pc.left
  {
    longer, more := GoOn(cfg, run, actions, AdvanceJob(j), n, c);
    if run[|actions|].jobs[j].pc.left > 3 {
      var next, after := longer, more;
      longer, more := DropDeletes(cfg, next, after, j, n, c);
      GoOnTwice(cfg, run, actions, next, after, longer, more, n, c);
    }
  }

  lemma DeleteThenMiss(cfg: Config, run: seq<State>, actions: seq<Action>, n: NodeId, c: Conn)
    returns (longer: seq<State>, more: seq<Action>)
    requires IsRun(cfg, run, actions) && run[|actions|].pool.IsLive(n, Some(c))
    requires c in run[|actions|].handlers && run[|actions|].handlers[c].node == n
    requires MayMiss(run[|actions|].handlers[c].phase) && Unregisters(run[|actions|], n, 3)
    ensures KeepsBeating(cfg, run, actions, longer, more, n, c) && n in longer[|more|].table.online
  {
    var s := run[|actions|];
    var next, after;
    if exists d :: UnregistersFor(s, d, n, 3) {
      var d :| UnregistersFor(s, d, n, 3);
      next, after := UnregisterDeletes(cfg, run, actions, d, n, c);
    } else {
      var j :| DropsFor(s, j, n, 3);
      next, after := DropDeletes(cfg, run, actions, j, n, c);
    }
    longer, more := MissRuns(cfg, next, after, c, n, c);
    GoOnTwice(cfg, run, actions, next, after, longer, more, n, c);
  }

  /** An unregister that has yet to delete the entry lets a heartbeat bring the node back. */
  lemma DeleteRuns(cfg: Config, run: seq<State>, actions: seq<Action>, n: NodeId, c: Conn)
    returns (longer: seq<State>, more: seq<Action>)
    requires IsRun(cfg, run, actions) && run[|actions|].pool.IsLive(n, Some(c))
    requires c in run[|actions|].handlers && run[|actions|].handlers[c].node == n
    requires IsAttached(run[|actions|].handlers[c].phase)
    requires !AddsSoon(run[|actions|].handlers[c].phase) && Unregisters(run[|actions|], n, 3)
    ensures KeepsBeating(cfg, run, actions, longer, more, n, c) && n in longer[|more|].table.online
  {
    if run[|actions|].handlers[c].phase.WritingEntry? {
      var next, after := GoOn(cfg, run, actions, Advance(c), n, c);
      WritingLeaves(run[|actions|], c, n);
      longer, more := DeleteThenMiss(cfg, next, after, n, c);
      GoOnTwice(cfg, run, actions, next, after, longer, more, n, c);
    } else {
      longer, more := DeleteThenMiss(cfg, run, actions, n, c);
    }
  }

  lemma WritingLeaves(s: State, c: Conn, n: NodeId)
    requires c in s.handlers && s.handlers[c].phase.WritingEntry? && Unregisters(s, n, 3)
    ensures Unregisters(AdvanceHandler(s, c), n, 3)
  {
    var t := AdvanceHandler(s, c);
    if exists d :: UnregistersFor(s, d, n, 3) {
      var d :| UnregistersFor(s, d, n, 3);
      assert UnregistersFor(t, d, n, 3);
    } else {
      var j :| DropsFor(s, j, n, 3);
      assert DropsFor(t, j, n, 3);
    }
  }

  /** Routing never finds the node in whatever follows while `c` stays its live connection. */
  ghost predicate StaysLost(cfg: Config, run: seq<State>, actions: seq<Action>, n: NodeId, c: Conn) {
    forall longer: seq<State>, more: seq<Action> :: KeepsBeating(cfg, run, actions, longer, more, n, c) ==>
      n !in longer[|more|].table.online
  }

  /** When a connected node is lost for good: from any reachable state on, no heartbeat of it brings
      it back for as long as it stays connected and its entry does not expire, exactly when it is out
      of the routing set, nobody is adding it, and nothing can make a heartbeat miss its entry. */
  lemma LostWhileLive(cfg: Config, run: seq<State>, actions: seq<Action>, n: NodeId, c: Conn)
    requires IsRun(cfg, run, actions) && run[|actions|].pool.IsLive(n, Some(c))
    ensures StaysLost(cfg, run, actions, n, c) <==> IsLost(run[|actions|], n)
  {
    var s := run[|actions|];
    assert LiveOk(s.pool.connections, s.handlers) by { AlwaysOk(cfg, run, actions, |actions|); }
    if IsLost(s, n) {
      forall longer: seq<State>, more: seq<Action> | KeepsBeating(cfg, run, actions, longer, more, n, c)
        ensures n !in longer[|more|].table.online
      {
        LostAllAlong(cfg, run, actions, longer, more, n, c, |more|);
      }
    } else {
      var longer, more := ComesBack(cfg, run, actions, n, c);
      assert KeepsBeating(cfg, run, actions, longer, more, n, c);
    }
  }

  lemma ComesBack(cfg: Config, run: seq<State>, actions: seq<Action>, n: NodeId, c: Conn)
    returns (longer: seq<State>, more: seq<Action>)
    requires IsRun(cfg, run, actions) && run[|actions|].pool.IsLive(n, Some(c))
    requires LiveOk(run[|actions|].pool.connections, run[|actions|].handlers)
    requires !IsLost(run[|actions|], n)
    ensures KeepsBeating(cfg, run, actions, longer, more, n, c) && n in longer[|more|].table.online
  {
    var s := run[|actions|];
    if n in s.table.online {
      longer, more := run, actions;
    } else if !NoneAdds(s, n) {
      var d :| d in s.handlers && s.handlers[d].node == n && AddsSoon(s.handlers[d].phase);
      longer, more := AddRuns(cfg, run, actions, d, n, c);
    } else if Unregisters(s, n, 3) {
      longer, more := DeleteRuns(cfg, run, actions, n, c);
    } else {
      var d :| d in s.handlers && s.handlers[d].node == n && MayMiss(s.handlers[d].phase);
      longer, more := MissRuns(cfg, run, actions, d, n, c);
    }
  }

  /* The node reconnects while its previous connection is still being unregistered: the new
     registration is stored first, the old unregister's last command comes after. */

  /** The handler of `c` registers its node up to serving, with nobody else doing anything. */
  lemma Register(cfg: Config, run: seq<State>, actions: seq<Action>, c: Conn, account: Account,
                 name: string)
    returns (longer: seq<State>, more: seq<Action>)
    requires IsRun(cfg, run, actions) && cfg.limit >= 1
    requires ValidAccount(account) && 1 <= |name| <= 64
    requires c !in run[|actions|].handlers && run[|actions|].pool == EMPTY_POOL
    ensures IsRun(cfg, longer, more) && longer[0] == run[0]
    ensures var s := run[|actions|]; var t := longer[|more|];
            var n := DeriveNodeId(account, name); var info := NodeInfo(cfg, account, name, ["chat"]);
            && t.handlers == s.handlers[c := Handler(account, n, info, Serving)]
            && t.pool == EMPTY_POOL.Attach(n, c, info, Some(account))
            && t.table == s.table.SetEntry(n, info).AddOnline(n) && t.jobs == s.jobs
  {
    longer, more := Connects(cfg, run, actions, c, account, name);
    longer, more := Store(cfg, longer, more, c);
  }

  /** The registry commands after the attach of a node that replaces nobody. */
  lemma Store(cfg: Config, run: seq<State>, actions: seq<Action>, c: Conn)
    returns (longer: seq<State>, more: seq<Action>)
    requires IsRun(cfg, run, actions) && c in run[|actions|].handlers
    requires run[|actions|].handlers[c].phase == StoringEntry(None)
    ensures IsRun(cfg, longer, more) && longer[0] == run[0]
    ensures var s := run[|actions|]; var t := longer[|more|]; var h := s.handlers[c];
            && t.handlers == s.handlers[c := h.(phase := Serving)] && t.pool == s.pool
            && t.table == s.table.SetEntry(h.node, h.info).AddOnline(h.node) && t.jobs == s.jobs
  {
    longer := Extend(cfg, run, actions, Advance(c));
    longer := Extend(cfg, longer, actions + [Advance(c)], Advance(c));
    longer := Extend(cfg, longer, actions + [Advance(c)] + [Advance(c)], Advance(c));
    more := actions + [Advance(c)] + [Advance(c)] + [Advance(c)];
  }

  /** The connection of `c` ends; its unregister has run its first two commands. */
  lemma HalfUnregister(cfg: Config, run: seq<State>, actions: seq<Action>, c: Conn)
    returns (longer: seq<State>, more: seq<Action>)
    requires IsRun(cfg, run, actions) && c in run[|actions|].handlers
    requires var h := run[|actions|].handlers[c];
             h.phase.Serving? && run[|actions|].pool.IsLive(h.node, Some(c))
    ensures IsRun(cfg, longer, more) && longer[0] == run[0]
    ensures var s := run[|actions|]; var t := longer[|more|]; var h := s.handlers[c];
            && t.handlers == s.handlers[c := h.(phase := Unregistering(1))]
            && t.pool == s.pool.Remove(h.node) && t.table == s.table.DeleteEntry(h.node)
            && t.jobs == s.jobs
  {
    longer := Extend(cfg, run, actions, Coordinator.End(c));
    longer := Extend(cfg, longer, actions + [Coordinator.End(c)], Advance(c));
    longer := Extend(cfg, longer, actions + [Coordinator.End(c)] + [Advance(c)], Advance(c));
    more := actions + [Coordinator.End(c)] + [Advance(c)] + [Advance(c)];
  }

  /** The first connection's unregister ends after the second has registered. */
  lemma Reconnects(cfg: Config, start: State, account: Account, name: string)
    returns (run: seq<State>, actions: seq<Action>)
    requires Init(start) && cfg.limit >= 1 && ValidAccount(account) && 1 <= |name| <= 64
    ensures IsRun(cfg, run, actions) && run[0] == start
    ensures var n := DeriveNodeId(account, name); var info := NodeInfo(cfg, account, name, ["chat"]);
            var s := run[|actions|];
            && s.pool.IsLive(n, Some(1)) && s.jobs == map[]
            && s.handlers == map[0 := Handler(account, n, info, Unregistering(0)),
                                 1 := Handler(account, n, info, Serving)]
            && n in s.table.entries && n !in s.table.online
  {
    var n := DeriveNodeId(account, name);
    var info := NodeInfo(cfg, account, name, ["chat"]);
    run, actions := [start], [];
    run, actions := Register(cfg, run, actions, 0, account, name);
    run, actions := HalfUnregister(cfg, run, actions, 0);
    Rollback(EMPTY_POOL, n, 0, info, account);
    run, actions := Register(cfg, run, actions, 1, account, name);
    run := Extend(cfg, run, actions, Advance(0));
    actions := actions + [Advance(0)];
  }

  /** A quick reconnect can leave a serving node lost to routing for as long as it stays connected:
      the code's promise that a heartbeat lets routing find a connected node again fails here. */
  lemma ReconnectCanLoseNode(cfg: Config, start: State, account: Account, name: string)
    returns (run: seq<State>, actions: seq<Action>)
    requires Init(start) && cfg.limit >= 1 && ValidAccount(account) && 1 <= |name| <= 64
    ensures IsRun(cfg, run, actions) && run[0] == start
    ensures var n := DeriveNodeId(account, name); var s := run[|actions|];
            && s.pool.IsLive(n, Some(1)) && 1 in s.handlers && s.handlers[1].phase.Serving?
            && n in s.table.entries && StaysLost(cfg, run, actions, n, 1)
  {
    run, actions := Reconnects(cfg, start, account, name);
    LostWhileLive(cfg, run, actions, DeriveNodeId(account, name), 1);
  }
}
