/** reputation.py: rating a task once, while both the task's record and its marker expire. */
module Rating {
  import opened Prelude

  const TASK_META_TTL: Time := 3600.0

  datatype Record = Record(requester: Account, nodeIds: seq<NodeId>, until: Time)

  /** A rating that was applied: by which call, when it looked the task up, when it set the marker. */
  datatype Applied = Applied(task: TaskId, call: nat, requester: Account, rating: int,
                             lookedAt: Time, markedAt: Time)

  /** A call of rate_task between its GET and its SET NX. */
  datatype Pending = Pending(task: TaskId, requester: Account, rating: int, lookedAt: Time)

  /** `remembered` is when remember_task ran for a task; `applied` is every rating applied so far. */
  datatype State = State(records: map<TaskId, Record>, markers: map<TaskId, Time>,
                         calls: map<nat, Pending>, remembered: map<TaskId, Time>,
                         applied: seq<Applied>, now: Time)

  datatype Action =
    | Remember(task: TaskId, requester: Account, nodeIds: seq<NodeId>)
    | Lookup(call: nat, task: TaskId, requester: Account, rating: int)
    | Mark(call: nat)
    | Tick(elapsed: Time)

  /** Remembering a task twice, reusing a call and time running back do not happen. */
  function Step(s: State, a: Action): State {
    match a
    case Remember(task, requester, nodeIds) =>
      if task in s.remembered then s
      else s.(records := s.records[task := Record(requester, nodeIds, s.now + TASK_META_TTL)],
              remembered := s.remembered[task := s.now])
    case Lookup(call, task, requester, rating) =>
      if call in s.calls || task !in s.records || s.now >= s.records[task].until then s
      else if s.records[task].requester != requester then s
      else s.(calls := s.calls[call := Pending(task, requester, rating, s.now)])
    case Mark(call) =>
      if call !in s.calls then s
      else
        var c := s.calls[call];
        var t := s.(calls := s.calls - {call});
        if c.task in s.markers && s.now < s.markers[c.task] then t
        else t.(markers := s.markers[c.task := s.now + TASK_META_TTL],
                applied := s.applied
                           + [Applied(c.task, call, c.requester, c.rating, c.lookedAt, s.now)])
    case Tick(elapsed) => s.(now := s.now + if elapsed < 0.0 then 0.0 else elapsed)
  }

  function Run(s: State, actions: seq<Action>): State {
    if actions == [] then s
    else Step(Run(s, actions[..|actions| - 1]), actions[|actions| - 1])
  }

  const START := State(map[], map[], map[], map[], [], 0.0)

  ghost predicate RecordsOk(s: State) {
    forall t :: t in s.records ==>
      t in s.remembered && s.records[t].until == s.remembered[t] + TASK_META_TTL
      && s.remembered[t] <= s.now
  }

  /** A lookup found the record before its expiry, for its requester. */
  predicate FoundOk(s: State, task: TaskId, requester: Account, lookedAt: Time) {
    && task in s.records && task in s.remembered
    && s.remembered[task] <= lookedAt < s.records[task].until
    && requester == s.records[task].requester
  }

  ghost predicate CallsOk(s: State) {
    forall c :: c in s.calls ==>
      s.calls[c].lookedAt <= s.now
      && FoundOk(s, s.calls[c].task, s.calls[c].requester, s.calls[c].lookedAt)
  }

  predicate AppliedOk(s: State, a: Applied) {
    && FoundOk(s, a.task, a.requester, a.lookedAt) && a.task in s.markers
    && a.lookedAt <= a.markedAt <= s.now && a.markedAt + TASK_META_TTL <= s.markers[a.task]
  }

  /** Two ratings of one task are at least the marker's life apart. */
  ghost predicate Spaced(applied: seq<Applied>) {
    forall i, j :: 0 <= i < j < |applied| && applied[i].task == applied[j].task ==>
      applied[i].markedAt + TASK_META_TTL <= applied[j].markedAt
  }

  ghost predicate Ok(s: State) {
    && RecordsOk(s) && CallsOk(s) && Spaced(s.applied)
    && forall i :: 0 <= i < |s.applied| ==> AppliedOk(s, s.applied[i])
  }

  lemma MarkKeepsOk(s: State, call: nat)
    requires Ok(s)
    ensures Ok(Step(s, Mark(call)))
  {
    var t := Step(s, Mark(call));
    if t.applied != s.applied {
      var last := t.applied[|s.applied|];
      assert AppliedOk(t, last);
      forall i | 0 <= i < |s.applied|
        ensures AppliedOk(t, s.applied[i])
        ensures s.applied[i].task == last.task ==>
                  s.applied[i].markedAt + TASK_META_TTL <= last.markedAt
      {
        assert AppliedOk(s, s.applied[i]);
      }
    }
  }

  lemma OthersKeepOk(s: State, a: Action)
    requires Ok(s) && !a.Mark?
    ensures Ok(Step(s, a))
  {
    var t := Step(s, a);
    forall i | 0 <= i < |s.applied|
      ensures AppliedOk(t, s.applied[i])
    {
      assert AppliedOk(s, s.applied[i]);
    }
  }

  lemma StepKeepsOk(s: State, a: Action)
    requires Ok(s)
    ensures Ok(Step(s, a))
  {
    if a.Mark? {
      MarkKeepsOk(s, a.call);
    } else {
      OthersKeepOk(s, a);
    }
  }

  lemma {:induction false} AlwaysOk(actions: seq<Action>)
    ensures Ok(Run(START, actions))
  {
    if actions != [] {
      AlwaysOk(actions[..|actions| - 1]);
      StepKeepsOk(Run(START, actions[..|actions| - 1]), actions[|actions| - 1]);
    }
  }

  /** Only the account that requested a task ever rates it, and every rating after the first set
      its marker only after the task's record had expired, having looked the record up before. */
  lemma RatedAgainOnlyAfterExpiry(actions: seq<Action>, i: nat, j: nat)
    requires i < j < |Run(START, actions).applied|
    requires Run(START, actions).applied[i].task == Run(START, actions).applied[j].task
    ensures var s := Run(START, actions); var a := s.applied[j];
            && a.task in s.records && a.requester == s.records[a.task].requester
            && a.task in s.remembered
            && a.lookedAt < s.remembered[a.task] + TASK_META_TTL <= a.markedAt
  {
    AlwaysOk(actions);
  }

  /** Every rating applied so far set its marker at most `delay` after its lookup. */
  ghost predicate Prompt(s: State, delay: Time) {
    forall i :: 0 <= i < |s.applied| ==> s.applied[i].markedAt <= s.applied[i].lookedAt + delay
  }

  ghost predicate RatedOnce(s: State) {
    forall i, j :: 0 <= i < j < |s.applied| ==> s.applied[i].task != s.applied[j].task
  }

  ghost predicate NeverTwice(delay: Time) {
    forall actions: seq<Action> :: Prompt(Run(START, actions), delay) ==>
      RatedOnce(Run(START, actions))
  }

  /** Alice rates her task, and again just before its record expires, up to the second lookup. */
  lemma FirstRatingThenLookup(d: Time) returns (actions: seq<Action>)
    requires 0.0 < d <= 1.0
    ensures Run(START, actions)
            == State(map["t" := Record("alice", ["n"], TASK_META_TTL)], map["t" := TASK_META_TTL],
                     map[1 := Pending("t", "alice", 5, TASK_META_TTL - d)], map["t" := 0.0],
                     [Applied("t", 0, "alice", 5, 0.0, 0.0)], TASK_META_TTL - d)
  {
    var a0 := [Remember("t", "alice", ["n"])];
    var a1 := a0 + [Lookup(0, "t", "alice", 5)];
    var a2 := a1 + [Mark(0)];
    var a3 := a2 + [Tick(TASK_META_TTL - d)];
    RunAppend([], Remember("t", "alice", ["n"]));
    assert [] + a0 == a0;
    RunAppend(a0, Lookup(0, "t", "alice", 5));
    RunAppend(a1, Mark(0));
    RunAppend(a2, Tick(TASK_META_TTL - d));
    assert Run(START, a3).calls == map[];
    RunAppend(a3, Lookup(1, "t", "alice", 5));
    actions := a3 + [Lookup(1, "t", "alice", 5)];
  }

  lemma SecondRating(d: Time) returns (actions: seq<Action>)
    requires 0.0 < d <= 1.0
    ensures Run(START, actions).applied
            == [Applied("t", 0, "alice", 5, 0.0, 0.0),
                Applied("t", 1, "alice", 5, TASK_META_TTL - d, TASK_META_TTL)]
  {
    var looked := FirstRatingThenLookup(d);
    var waited := looked + [Tick(d)];
    RunAppend(looked, Tick(d));
    assert Run(START, waited).now == TASK_META_TTL;
    RunAppend(waited, Mark(1));
    actions := waited + [Mark(1)];
  }

  /** The run that rates a task twice when a marker may follow its lookup by `delay`. */
  lemma SlowMarkRatesTwice(delay: Time)
    requires delay > 0.0
    ensures !NeverTwice(delay)
  {
    var actions := SecondRating(if delay < 1.0 then delay else 1.0);
    var s := Run(START, actions);
    assert s.applied[0].task == s.applied[1].task;
    assert Prompt(s, delay) && !RatedOnce(s);
  }

  lemma RunAppend(actions: seq<Action>, a: Action)
    ensures Run(START, actions + [a]) == Step(Run(START, actions), a)
  {
  }

  /** A task is rated at most once, for all time, exactly when lookup and marker happen at one
      instant: the marker outlives the record, but only just. */
  lemma RateOnce(delay: Time)
    requires delay >= 0.0
    ensures NeverTwice(delay) <==> delay == 0.0
  {
    if delay > 0.0 {
      SlowMarkRatesTwice(delay);
    } else {
      forall actions: seq<Action> | Prompt(Run(START, actions), delay)
        ensures RatedOnce(Run(START, actions))
      {
        AlwaysOk(actions);
      }
    }
  }

  /* ---- What is applied is what was asked for ---- */

  lemma LastAction(actions: seq<Action>)
    requires actions != []
    ensures var m := |actions| - 1; Run(START, actions) == Step(Run(START, actions[..m]), actions[m])
  {
  }

  lemma OpenAfterStep(s: State, a: Action, call: nat)
    requires call in Step(s, a).calls
    ensures var c := Step(s, a).calls[call];
            if call in s.calls then c == s.calls[call]
            else a == Lookup(call, c.task, c.requester, c.rating) && c.lookedAt == s.now
  {
  }

  /** An open call is its Lookup's: of that task, for that requester and with that rating. */
  lemma {:induction false} OpenCallIsItsLookup(actions: seq<Action>, call: nat) returns (k: nat)
    requires call in Run(START, actions).calls
    ensures var c := Run(START, actions).calls[call];
            && k < |actions| && actions[k] == Lookup(call, c.task, c.requester, c.rating)
            && c.lookedAt == Run(START, actions[..k]).now
  {
    k := |actions| - 1;
    var before := actions[..k];
    LastAction(actions);
    OpenAfterStep(Run(START, before), actions[k], call);
    if call in Run(START, before).calls {
      k := OpenCallIsItsLookup(before, call);
      assert before[..k] == actions[..k];
    }
  }

  lemma AppliedByStep(s: State, a: Action)
    ensures var t := Step(s, a);
            t.applied == s.applied
            || (a.Mark? && a.call in s.calls
                && var c := s.calls[a.call];
                t.applied == s.applied
                             + [Applied(c.task, a.call, c.requester, c.rating, c.lookedAt, s.now)])
  {
  }

  /** Every rating applied is the one its own call was made with, for the task and by the account of
      that call's Lookup, at the times of that Lookup and of the call's Mark. */
  lemma {:induction false} AppliedIsAsAsked(actions: seq<Action>, i: nat) returns (k: nat, m: nat)
    requires i < |Run(START, actions).applied|
    ensures var a := Run(START, actions).applied[i];
            && k < m < |actions| && actions[m] == Mark(a.call)
            && actions[k] == Lookup(a.call, a.task, a.requester, a.rating)
            && a.lookedAt == Run(START, actions[..k]).now && a.markedAt == Run(START, actions[..m]).now
  {
    m := |actions| - 1;
    var before := actions[..m];
    LastAction(actions);
    AppliedByStep(Run(START, before), actions[m]);
    if i < |Run(START, before).applied| {
      k, m := AppliedIsAsAsked(before, i);
      assert before[..k] == actions[..k] && before[..m] == actions[..m];
    } else {
      k := OpenCallIsItsLookup(before, actions[m].call);
      assert before[..k] == actions[..k];
    }
  }

  /** Whoever rates a task is the account that requested it. */
  lemma OnlyTheRequesterRates(actions: seq<Action>, i: nat)
    requires i < |Run(START, actions).applied|
    ensures var s := Run(START, actions); var a := s.applied[i];
            a.task in s.records && a.requester == s.records[a.task].requester
  {
    AlwaysOk(actions);
    assert AppliedOk(Run(START, actions), Run(START, actions).applied[i]);
  }

  lemma StepKeepsRecord(s: State, a: Action, task: TaskId)
    requires task in s.remembered && task in s.records
    ensures var t := Step(s, a);
            task in t.remembered && task in t.records && t.records[task] == s.records[task]
  {
  }

  /** A task's record stays as it was first remembered. */
  lemma {:induction false} RecordStays(actions: seq<Action>, more: seq<Action>, task: TaskId)
    requires task in Run(START, actions).remembered && task in Run(START, actions).records
    ensures var s, t := Run(START, actions), Run(START, actions + more);
            task in t.remembered && task in t.records && t.records[task] == s.records[task]
    decreases |more|
  {
    if more == [] {
      assert actions + more == actions;
    } else {
      var init, last := more[..|more| - 1], more[|more| - 1];
      RecordStays(actions, init, task);
      assert actions + more == (actions + init) + [last];
      RunAppend(actions + init, last);
      StepKeepsRecord(Run(START, actions + init), last, task);
    }
  }

  lemma MarkedByStep(s: State, a: Action, task: TaskId)
    requires task in Step(s, a).markers
    ensures s.applied <= Step(s, a).applied
    ensures task in s.markers
            || (|Step(s, a).applied| == |s.applied| + 1 && Step(s, a).applied[|s.applied|].task == task)
  {
  }

  /** A marker is there only for a task that was rated. */
  lemma {:induction false} MarkedIsRated(actions: seq<Action>, task: TaskId) returns (i: nat)
    requires task in Run(START, actions).markers
    ensures i < |Run(START, actions).applied| && Run(START, actions).applied[i].task == task
  {
    var before := actions[..|actions| - 1];
    LastAction(actions);
    MarkedByStep(Run(START, before), actions[|actions| - 1], task);
    if task in Run(START, before).markers {
      i := MarkedIsRated(before, task);
    } else {
      i := |Run(START, before).applied|;
    }
  }

  lemma NotYetMarked(actions: seq<Action>, task: TaskId)
    requires var s := Run(START, actions); forall i :: 0 <= i < |s.applied| ==> s.applied[i].task != task
    ensures task !in Run(START, actions).markers
  {
    if task in Run(START, actions).markers {
      var i := MarkedIsRated(actions, task);
    }
  }

  lemma FirstRating(s: State, task: TaskId, requester: Account, call: nat, rating: int, delay: Time)
    requires task in s.records && s.records[task].requester == requester
    requires s.now < s.records[task].until && task !in s.markers && call !in s.calls && delay >= 0.0
    ensures Step(Step(Step(s, Lookup(call, task, requester, rating)), Tick(delay)), Mark(call)).applied
            == s.applied + [Applied(task, call, requester, rating, s.now, s.now + delay)]
  {
  }

  lemma ThreeMore(actions: seq<Action>, a: Action, b: Action, c: Action)
    ensures Run(START, actions + [a] + [b] + [c]) == Step(Step(Step(Run(START, actions), a), b), c)
  {
    RunAppend(actions, a);
    RunAppend(actions + [a], b);
    RunAppend(actions + [a] + [b], c);
  }

  lemma Remembered(actions: seq<Action>, task: TaskId, requester: Account, nodeIds: seq<NodeId>)
    requires task !in Run(START, actions).remembered
    ensures var t := Run(START, actions + [Remember(task, requester, nodeIds)]);
            && task in t.remembered && task in t.records
            && t.records[task] == Record(requester, nodeIds, Run(START, actions).now + 3600.0)
  {
    RunAppend(actions, Remember(task, requester, nodeIds));
  }

  /** The requester's first rating of a task is applied as asked: looked up before the record expires
      and whatever the delay until the marker. `actions` ends before the task is remembered; `between`
      is whatever happens from then until the call. */
  lemma RatingIsApplied(actions: seq<Action>, task: TaskId, requester: Account, nodeIds: seq<NodeId>,
                        between: seq<Action>, call: nat, rating: int, delay: Time)
    requires task !in Run(START, actions).remembered && delay >= 0.0
    requires var s := Run(START, actions + [Remember(task, requester, nodeIds)] + between);
             && s.now < Run(START, actions).now + 3600.0 && call !in s.calls
             && forall i :: 0 <= i < |s.applied| ==> s.applied[i].task != task
    ensures var ops := actions + [Remember(task, requester, nodeIds)] + between;
            var s := Run(START, ops);
            Run(START, ops + [Lookup(call, task, requester, rating)] + [Tick(delay)] + [Mark(call)]).applied
            == s.applied + [Applied(task, call, requester, rating, s.now, s.now + delay)]
  {
    var ops := actions + [Remember(task, requester, nodeIds)] + between;
    Remembered(actions, task, requester, nodeIds);
    RecordStays(actions + [Remember(task, requester, nodeIds)], between, task);
    NotYetMarked(ops, task);
    FirstRating(Run(START, ops), task, requester, call, rating, delay);
    ThreeMore(ops, Lookup(call, task, requester, rating), Tick(delay), Mark(call));
  }
}
