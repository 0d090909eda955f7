/** reputation.py: counters, score and suspension of one node. */
module Reputation {
  import opened Prelude

  /* ---- What is recorded ---- */

  /** A finished task: whether it succeeded, its response time and when it was recorded. */
  datatype Finished = Finished(success: bool, ms: nat, at: nat)

  function Successes(history: seq<Finished>): nat {
    if history == [] then 0
    else Successes(history[..|history| - 1]) + (if history[|history| - 1].success then 1 else 0)
  }

  function TotalMs(history: seq<Finished>): nat {
    if history == [] then 0
    else TotalMs(history[..|history| - 1]) + history[|history| - 1].ms
  }

  /** The Redis hash and rating list of a node. */
  datatype Stats = Stats(total: int, successful: int, failed: int, totalMs: int, avgMs: Option<int>,
                         lastAt: int)

  function StatsOf(history: seq<Finished>): Stats {
    if history == [] then Stats(0, 0, 0, 0, None, 0)
    else Stats(|history|, Successes(history), |history| - Successes(history), TotalMs(history),
               Some(TotalMs(history) / |history|), history[|history| - 1].at)
  }

  /** One more task on the counters. */
  lemma NextStats(history: seq<Finished>, f: Finished)
    ensures var s := StatsOf(history); var ok := if f.success then 1 else 0;
            StatsOf(history + [f])
            == Stats(s.total + 1, s.successful + ok, s.failed + 1 - ok, s.totalMs + f.ms,
                     Some((s.totalMs + f.ms) / (s.total + 1)), f.at)
  {
    assert (history + [f])[..|history|] == history;
  }

  const KEPT_RATINGS: nat := 100

  class NodeReputation {
    var total: int
    var successful: int
    var failed: int
    var totalMs: int
    var avgMs: Option<int>
    var lastAt: int
    var ratings: seq<int>
    var suspendedUntil: Option<real>
    ghost var history: seq<Finished>
    ghost var allRatings: seq<int>

    constructor ()
      ensures Valid() && history == [] && allRatings == []
    {
      total, successful, failed, totalMs, avgMs, lastAt := 0, 0, 0, 0, None, 0;
      ratings, suspendedUntil, history, allRatings := [], None, [], [];
    }

    /** The counters say what happened; the list holds the newest ratings, newest first. */
    ghost predicate Valid()
      reads this
    {
      View() == StatsOf(history) && ratings == Newest(allRatings)
    }

    function View(): Stats
      reads this
    {
      Stats(total, successful, failed, totalMs, avgMs, lastAt)
    }

    /** record_task_result, without another call in between its two steps. */
    method RecordTaskResult(success: bool, ms: nat, now: nat)
      requires Valid()
      modifies this
      ensures Valid() && history == old(history) + [Finished(success, ms, now)]
      ensures allRatings == old(allRatings) && suspendedUntil == old(suspendedUntil)
    {
      total := total + 1;
      if success {
        successful := successful + 1;
      } else {
        failed := failed + 1;
      }
      totalMs := totalMs + ms;
      lastAt := now;
      NextStats(history, Finished(success, ms, now));
      history := history + [Finished(success, ms, now)];
      if total > 0 {
        avgMs := Some(totalMs / total);
      }
    }

    /** record_user_rating: LPUSH, LTRIM 0 99. */
    method RecordUserRating(rating: int)
      requires Valid()
      modifies this
      ensures Valid() && allRatings == old(allRatings) + [rating]
      ensures history == old(history) && suspendedUntil == old(suspendedUntil)
    {
      ratings := Push(ratings, rating);
      ratings := Trim(ratings);
      allRatings := allRatings + [rating];
      assert allRatings[..|allRatings| - 1] == old(allRatings);
    }

    /** check_and_suspend: 24 hours without routing for a low score. */
    method CheckAndSuspend(now: real)
      requires Valid()
      modifies this`suspendedUntil
      ensures suspendedUntil == if Suspends(StatsOf(history), Newest(allRatings), now)
                                then Some(now + 86400.0) else old(suspendedUntil)
    {
      if Score(View(), ratings, now) < 35.0 && total > 10 {
        suspendedUntil := Some(now + 86400.0);
      }
    }
  }

  /** total = successful + failed, and the average is within the slowest and fastest response. */
  lemma {:induction false} CountersAddUp(history: seq<Finished>, most: nat)
    requires forall i :: 0 <= i < |history| ==> history[i].ms <= most
    ensures 0 <= Successes(history) <= |history|
    ensures 0 <= TotalMs(history) <= |history| * most
  {
    if history != [] {
      CountersAddUp(history[..|history| - 1], most);
      assert |history| * most == (|history| - 1) * most + most;
    }
  }

  /* ---- The counters under concurrent calls ---- */

  /** One call of record_task_result counts its task, then reads the counters, then writes their
      average; the steps of different calls interleave. */
  datatype CounterOp = Count(task: Finished) | ReadBack(call: nat) | WriteBack(call: nat)

  datatype Counters = Counters(stats: Stats, history: seq<Finished>, snapshots: map<nat, Stats>)

  function WithTask(s: Stats, f: Finished): Stats {
    var ok := if f.success then 1 else 0;
    Stats(s.total + 1, s.successful + ok, s.failed + 1 - ok, s.totalMs + f.ms, s.avgMs, f.at)
  }

  function CounterStep(s: Counters, op: CounterOp): Counters {
    match op
    case Count(f) => s.(stats := WithTask(s.stats, f), history := s.history + [f])
    case ReadBack(call) => s.(snapshots := s.snapshots[call := s.stats])
    case WriteBack(call) =>
      if call !in s.snapshots || s.snapshots[call].total <= 0 then s
      else
        var read := s.snapshots[call];
        s.(stats := s.stats.(avgMs := Some(read.totalMs / read.total)), snapshots := s.snapshots - {call})
  }

  function CounterRun(s: Counters, ops: seq<CounterOp>): Counters {
    if ops == [] then s
    else CounterStep(CounterRun(s, ops[..|ops| - 1]), ops[|ops| - 1])
  }

  const NO_COUNTERS := Counters(Stats(0, 0, 0, 0, None, 0), [], map[])

  /** Everything but the average is that of the history. */
  predicate Counts(s: Stats, history: seq<Finished>) {
    s == StatsOf(history).(avgMs := s.avgMs)
  }

  /** The average, if there is one, was right after some of the tasks. */
  ghost predicate AverageOk(avgMs: Option<int>, history: seq<Finished>) {
    avgMs.None? || exists k: nat :: 0 < k <= |history| && StatsOf(history[..k]).avgMs == avgMs
  }

  /** How many tasks a schedule counts. */
  function Counted(ops: seq<CounterOp>): nat {
    if ops == [] then 0
    else Counted(ops[..|ops| - 1]) + (if ops[|ops| - 1].Count? then 1 else 0)
  }

  /** Of each call that has read but not written, how many tasks were counted before its read; and the
      same of the call that wrote last. */
  datatype Reads = Reads(open: map<nat, nat>, last: Option<nat>)

  function ReadsOf(ops: seq<CounterOp>): Reads {
    if ops == [] then Reads(map[], None)
    else
      var init := ops[..|ops| - 1];
      var r := ReadsOf(init);
      match ops[|ops| - 1]
      case Count(_) => r
      case ReadBack(call) => r.(open := r.open[call := Counted(init)])
      case WriteBack(call) =>
        if call !in r.open || r.open[call] == 0 then r
        else Reads(r.open - {call}, Some(r.open[call]))
  }

  /** The counters are those of all tasks, each open read those of the tasks before it, and the average
      that of the tasks before the read behind the last write-back. */
  ghost predicate Traced(s: Counters, ops: seq<CounterOp>) {
    var r := ReadsOf(ops);
    && |s.history| == Counted(ops) && Counts(s.stats, s.history)
    && s.snapshots.Keys == r.open.Keys
    && (forall call :: call in r.open ==>
          r.open[call] <= |s.history| && Counts(s.snapshots[call], s.history[..r.open[call]]))
    && (match r.last
        case None => s.stats.avgMs == None
        case Some(k) => 0 < k <= |s.history| && s.stats.avgMs == StatsOf(s.history[..k]).avgMs)
  }

  lemma CountIsTraced(s: Counters, ops: seq<CounterOp>, f: Finished)
    requires Traced(s, ops)
    ensures Traced(CounterStep(s, Count(f)), ops + [Count(f)])
  {
    assert (ops + [Count(f)])[..|ops|] == ops;
    NextStats(s.history, f);
    assert forall k :: 0 <= k <= |s.history| ==> (s.history + [f])[..k] == s.history[..k];
  }

  lemma ReadIsTraced(s: Counters, ops: seq<CounterOp>, call: nat)
    requires Traced(s, ops)
    ensures Traced(CounterStep(s, ReadBack(call)), ops + [ReadBack(call)])
  {
    assert (ops + [ReadBack(call)])[..|ops|] == ops;
    assert s.history[..|s.history|] == s.history;
  }

  lemma WriteIsTraced(s: Counters, ops: seq<CounterOp>, call: nat)
    requires Traced(s, ops)
    ensures Traced(CounterStep(s, WriteBack(call)), ops + [WriteBack(call)])
  {
    assert (ops + [WriteBack(call)])[..|ops|] == ops;
  }

  lemma {:induction false} AverageIsTraced(ops: seq<CounterOp>)
    ensures Traced(CounterRun(NO_COUNTERS, ops), ops)
  {
    if ops != [] {
      var init, op := ops[..|ops| - 1], ops[|ops| - 1];
      var s := CounterRun(NO_COUNTERS, init);
      AverageIsTraced(init);
      assert init + [op] == ops;
      match op
      case Count(f) => CountIsTraced(s, init, f);
      case ReadBack(call) => ReadIsTraced(s, init, call);
      case WriteBack(call) => WriteIsTraced(s, init, call);
    }
  }

  /** However calls interleave, total, successful, failed and the summed time are those of all tasks
      counted so far, and the average is that of some first tasks of them. */
  lemma CountersUnderConcurrency(ops: seq<CounterOp>)
    ensures var s := CounterRun(NO_COUNTERS, ops);
            Counts(s.stats, s.history) && AverageOk(s.stats.avgMs, s.history)
  {
    AverageIsTraced(ops);
  }

  /** So what is proved of scores below holds under any interleaving. */
  lemma ConcurrentCountersArePlausible(ops: seq<CounterOp>, most: nat)
    requires var history := CounterRun(NO_COUNTERS, ops).history;
             history != [] && forall i :: 0 <= i < |history| ==> history[i].ms <= most
    ensures var s := CounterRun(NO_COUNTERS, ops).stats;
            Plausible(s) && (s.avgMs.Some? ==> s.avgMs.value <= most)
  {
    CountersUnderConcurrency(ops);
    var s, history := CounterRun(NO_COUNTERS, ops).stats, CounterRun(NO_COUNTERS, ops).history;
    CountersAddUp(history, most);
    if s.avgMs.Some? {
      var k: nat :| 0 < k <= |history| && StatsOf(history[..k]).avgMs == s.avgMs;
      HistoriesArePlausible(history[..k], most);
    }
  }

  /** The same calls in the same order, with other outcomes and response times. */
  ghost predicate SameSchedule(a: seq<CounterOp>, b: seq<CounterOp>) {
    |a| == |b| && forall i :: 0 <= i < |a| ==> a[i] == b[i] || (a[i].Count? && b[i].Count?)
  }

  lemma {:induction false} SchedulesReadAlike(a: seq<CounterOp>, b: seq<CounterOp>)
    requires SameSchedule(a, b)
    ensures Counted(a) == Counted(b) && ReadsOf(a) == ReadsOf(b)
  {
    if a != [] {
      SchedulesReadAlike(a[..|a| - 1], b[..|b| - 1]);
    }
  }

  predicate IsExact(s: Counters) {
    s.stats.avgMs == StatsOf(s.history).avgMs
  }

  /** No task was counted after the read that the last write-back used. */
  predicate WritesLatest(ops: seq<CounterOp>) {
    ReadsOf(ops).last == if Counted(ops) == 0 then None else Some(Counted(ops))
  }

  /** The first k tasks take no time, the others as many milliseconds as there are tasks. */
  function Slowed(ops: seq<CounterOp>, k: nat, ms: nat): seq<CounterOp> {
    if ops == [] then []
    else
      var init := ops[..|ops| - 1];
      Slowed(init, k, ms)
      + [if ops[|ops| - 1].Count? then Count(Finished(true, if Counted(init) < k then 0 else ms, 0))
         else ops[|ops| - 1]]
  }

  /** From the k-th on, each task of the history takes `ms`; those before take no time. */
  ghost predicate SlowFrom(history: seq<Finished>, k: nat, ms: nat) {
    forall i :: 0 <= i < |history| ==> history[i].ms == if i < k then 0 else ms
  }

  lemma {:induction false} SlowedKeepsSchedule(ops: seq<CounterOp>, k: nat, ms: nat)
    ensures SameSchedule(ops, Slowed(ops, k, ms))
  {
    if ops != [] {
      SlowedKeepsSchedule(ops[..|ops| - 1], k, ms);
    }
  }

  lemma {:induction false} SlowedIs(ops: seq<CounterOp>, k: nat, ms: nat)
    ensures var s := CounterRun(NO_COUNTERS, Slowed(ops, k, ms));
            |s.history| == Counted(ops) && SlowFrom(s.history, k, ms)
  {
    if ops != [] {
      var init, slowed := ops[..|ops| - 1], Slowed(ops, k, ms);
      SlowedIs(init, k, ms);
      OneMoreStep(NO_COUNTERS, Slowed(init, k, ms), slowed[|slowed| - 1]);
    }
  }

  lemma {:induction false} SlowTotal(history: seq<Finished>, k: nat, ms: nat)
    requires SlowFrom(history, k, ms)
    ensures TotalMs(history) == if |history| <= k then 0 else (|history| - k) * ms
  {
    if history != [] {
      SlowTotal(history[..|history| - 1], k, ms);
      if |history| > k {
        assert (|history| - k) * ms == (|history| - 1 - k) * ms + ms;
      }
    }
  }

  /** With these times the average of the first k tasks is not that of all. */
  lemma SlowAverage(history: seq<Finished>, k: nat)
    requires 0 < k < |history| && SlowFrom(history, k, |history|)
    ensures StatsOf(history[..k]).avgMs == Some(0) && StatsOf(history).avgMs != Some(0)
  {
    var n := |history|;
    SlowTotal(history, k, n);
    SlowTotal(history[..k], k, n);
    Scale(1, n - k, n);
    assert TotalMs(history) >= n;
    AtLeastOne(TotalMs(history), n);
  }

  lemma AtLeastOne(total: nat, n: nat)
    requires 0 < n <= total
    ensures total / n >= 1
  {
  }

  lemma StaleWithThese(ops: seq<CounterOp>)
    requires !WritesLatest(ops)
    ensures exists other :: SameSchedule(ops, other) && !IsExact(CounterRun(NO_COUNTERS, other))
  {
    var last, n := ReadsOf(ops).last, Counted(ops);
    var other := Slowed(ops, if last.Some? then last.value else 0, n);
    SlowedIs(ops, if last.Some? then last.value else 0, n);
    SlowedKeepsSchedule(ops, if last.Some? then last.value else 0, n);
    SchedulesReadAlike(ops, other);
    AverageIsTraced(other);
    if last.Some? && last.value < n {
      SlowAverage(CounterRun(NO_COUNTERS, other).history, last.value);
    }
    assert SameSchedule(ops, other) && !IsExact(CounterRun(NO_COUNTERS, other));
  }

  /** However calls overlap, the stored average is right for all outcomes and response times exactly
      when no task was counted after the read that the last write-back used. */
  lemma AverageIsExact(ops: seq<CounterOp>)
    ensures (forall other :: SameSchedule(ops, other) ==> IsExact(CounterRun(NO_COUNTERS, other)))
            <==> WritesLatest(ops)
  {
    if WritesLatest(ops) {
      forall other | SameSchedule(ops, other)
        ensures IsExact(CounterRun(NO_COUNTERS, other))
      {
        SchedulesReadAlike(ops, other);
        AverageIsTraced(other);
        var s := CounterRun(NO_COUNTERS, other);
        assert s.history[..|s.history|] == s.history;
      }
    } else {
      StaleWithThese(ops);
    }
  }

  lemma OneMoreStep(s: Counters, ops: seq<CounterOp>, op: CounterOp)
    ensures CounterRun(s, ops + [op]) == CounterStep(CounterRun(s, ops), op)
  {
    assert (ops + [op])[..|ops|] == ops;
  }

  /** Both calls have counted and read, the first one before the second counted. */
  lemma BothHaveRead(f: Finished, g: Finished) returns (ops: seq<CounterOp>)
    ensures ops == [Count(f), ReadBack(0), Count(g), ReadBack(1)]
    ensures var one := WithTask(NO_COUNTERS.stats, f); var two := WithTask(one, g);
            CounterRun(NO_COUNTERS, ops) == Counters(two, [f, g], map[0 := one, 1 := two])
  {
    OneMoreStep(NO_COUNTERS, [], Count(f));
    OneMoreStep(NO_COUNTERS, [Count(f)], ReadBack(0));
    OneMoreStep(NO_COUNTERS, [Count(f), ReadBack(0)], Count(g));
    OneMoreStep(NO_COUNTERS, [Count(f), ReadBack(0), Count(g)], ReadBack(1));
    ops := [Count(f), ReadBack(0), Count(g), ReadBack(1)];
    assert [] + [Count(f)] == [Count(f)];
    assert [Count(f)] + [ReadBack(0)] == [Count(f), ReadBack(0)];
    assert [Count(f), ReadBack(0)] + [Count(g)] == [Count(f), ReadBack(0), Count(g)];
    assert [Count(f), ReadBack(0), Count(g)] + [ReadBack(1)] == ops;
  }

  lemma SecondWritesFirst(one: Stats, two: Stats, history: seq<Finished>)
    requires one.total > 0 && two.total > 0
    ensures var s := Counters(two, history, map[0 := one, 1 := two]);
            CounterStep(CounterStep(s, WriteBack(1)), WriteBack(0))
            == Counters(two.(avgMs := Some(one.totalMs / one.total)), history, map[])
  {
  }

  /** Two calls that overlap can leave a stale average for good: the first one reads before the second
      counts its task and writes after it. */
  lemma OverlapLeavesStaleAverage(f: Finished, g: Finished) returns (ops: seq<CounterOp>)
    ensures ops == [Count(f), ReadBack(0), Count(g), ReadBack(1), WriteBack(1), WriteBack(0)]
    ensures var s := CounterRun(NO_COUNTERS, ops);
            && s.snapshots == map[] && s.history == [f, g]
            && s.stats.avgMs == Some(f.ms) && StatsOf(s.history).avgMs == Some((f.ms + g.ms) / 2)
  {
    var one := WithTask(NO_COUNTERS.stats, f);
    var read := BothHaveRead(f, g);
    OneMoreStep(NO_COUNTERS, read, WriteBack(1));
    OneMoreStep(NO_COUNTERS, read + [WriteBack(1)], WriteBack(0));
    ops := read + [WriteBack(1)] + [WriteBack(0)];
    var two := WithTask(one, g);
    SecondWritesFirst(one, two, [f, g]);
    assert one.totalMs / one.total == f.ms;
    assert CounterRun(NO_COUNTERS, ops) == Counters(two.(avgMs := Some(f.ms)), [f, g], map[]);
    AverageOfTwo(f, g);
  }

  lemma AverageOfTwo(f: Finished, g: Finished)
    ensures StatsOf([f, g]).avgMs == Some((f.ms + g.ms) / 2)
  {
    NextStats([], f);
    NextStats([f], g);
    assert [] + [f] == [f] && [f] + [g] == [f, g];
  }

  /* ---- The rating list under concurrent pushes and trims ---- */

  function Push(list: seq<int>, rating: int): seq<int> {
    [rating] + list
  }

  function Trim(list: seq<int>): seq<int> {
    if |list| > KEPT_RATINGS then list[..KEPT_RATINGS] else list
  }

  function Reversed(all: seq<int>): seq<int> {
    if all == [] then [] else [all[|all| - 1]] + Reversed(all[..|all| - 1])
  }

  lemma {:induction false} ReversedLength(all: seq<int>)
    ensures |Reversed(all)| == |all|
  {
    if all != [] {
      ReversedLength(all[..|all| - 1]);
    }
  }

  /** The newest hundred ratings, newest first. */
  function Newest(all: seq<int>): seq<int> {
    Trim(Reversed(all))
  }

  lemma {:induction false} ReversedAt(all: seq<int>, i: nat)
    requires i < |all|
    ensures |Reversed(all)| == |all| && Reversed(all)[i] == all[|all| - 1 - i]
  {
    ReversedLength(all);
    if i > 0 {
      ReversedAt(all[..|all| - 1], i - 1);
    }
  }

  lemma NewestAt(all: seq<int>, i: nat)
    requires i < |all| && i < 100
    ensures |Newest(all)| == (if |all| <= 100 then |all| else 100)
    ensures Newest(all)[i] == all[|all| - 1 - i]
  {
    ReversedAt(all, i);
  }

  /** LPUSH of one rating, or an LTRIM; those of concurrent calls interleave. */
  datatype ListOp = OpPush(rating: int) | OpTrim

  function Pushed(ops: seq<ListOp>): seq<int> {
    if ops == [] then []
    else Pushed(ops[..|ops| - 1])
         + (if ops[|ops| - 1].OpPush? then [ops[|ops| - 1].rating] else [])
  }

  function Stored(ops: seq<ListOp>): seq<int> {
    if ops == [] then []
    else
      var before := Stored(ops[..|ops| - 1]);
      match ops[|ops| - 1]
      case OpPush(rating) => Push(before, rating)
      case OpTrim => Trim(before)
  }

  lemma {:induction false} StoredIsNewest(ops: seq<ListOp>)
    ensures Stored(ops) <= Reversed(Pushed(ops))
    ensures |Stored(ops)| == |Pushed(ops)| || |Stored(ops)| >= KEPT_RATINGS
  {
    ReversedLength(Pushed(ops));
    if ops != [] {
      var init := ops[..|ops| - 1];
      StoredIsNewest(init);
      ReversedLength(Pushed(init));
      if ops[|ops| - 1].OpPush? {
        assert Pushed(ops)[..|Pushed(ops)| - 1] == Pushed(init);
      } else {
        assert Pushed(ops) == Pushed(init);
      }
    }
  }

  /** Whenever no trim is outstanding, the list is the newest hundred of the full history. */
  lemma NewestHundredKept(ops: seq<ListOp>)
    requires ops != [] && ops[|ops| - 1].OpTrim?
    ensures Stored(ops) == Newest(Pushed(ops))
  {
    StoredIsNewest(ops);
    ReversedLength(Pushed(ops));
    TrimmedPrefix(Stored(ops), Reversed(Pushed(ops)));
  }

  lemma TrimmedPrefix(list: seq<int>, all: seq<int>)
    requires list <= all && |list| <= KEPT_RATINGS && (|list| == |all| || |list| >= KEPT_RATINGS)
    ensures list == Trim(all)
  {
    assert list == all[..|list|];
  }

  /* ---- get_score, over exact rationals ---- */

  function Completion(successful: int, total: int): real
    requires total > 0
  {
    successful as real / total as real
  }

  function Speed(avgMs: Option<int>): real {
    var avg := if avgMs.Some? then avgMs.value else 5000;
    1.0 - MinReal(avg as real / 10000.0, 1.0)
  }

  function Uptime(lastAt: int, now: real): real {
    var ageHours := if lastAt > 0 then (now - lastAt as real) / 3600.0 else 999.0;
    MaxReal(0.0, 1.0 - ageHours / 24.0)
  }

  function Sum(ratings: seq<int>): int {
    if ratings == [] then 0 else Sum(ratings[..|ratings| - 1]) + ratings[|ratings| - 1]
  }

  function RatingScore(ratings: seq<int>): real {
    if ratings == [] then 0.5 else (Sum(ratings) as real / |ratings| as real) / 5.0
  }

  /** The score before clamping and rounding. */
  function RawScore(s: Stats, ratings: seq<int>, now: real): real
    requires s.total > 0
  {
    Completion(s.successful, s.total) * 40.0 + Speed(s.avgMs) * 20.0 + Uptime(s.lastAt, now) * 20.0
    + RatingScore(ratings) * 20.0
  }

  function HalfEven(x: real): int {
    var f := x.Floor;
    var d := x - f as real;
    if d < 0.5 then f else if d > 0.5 then f + 1 else if f % 2 == 0 then f else f + 1
  }

  /** round(x, 1) */
  function Round1(x: real): real {
    HalfEven(x * 10.0) as real / 10.0
  }

  function Score(s: Stats, ratings: seq<int>, now: real): real {
    if s.total <= 0 then 50.0
    else Round1(MinReal(100.0, MaxReal(0.0, RawScore(s, ratings, now))))
  }

  /** check_and_suspend */
  predicate Suspends(s: Stats, ratings: seq<int>, now: real) {
    Score(s, ratings, now) < 35.0 && s.total > 10
  }

  /** A node without tasks scores 50, whatever its ratings. */
  lemma NewNodeScoresFifty(ratings: seq<int>, now: real)
    ensures Score(StatsOf([]), ratings, now) == 50.0
    ensures forall s: Stats :: s.total <= 0 ==> Score(s, ratings, now) == 50.0
  {
  }

  lemma {:induction false} SumAppend(a: seq<int>, b: seq<int>)
    ensures Sum(a + b) == Sum(a) + Sum(b) && (|a| == 1 ==> Sum(a) == a[0])
  {
    assert |a| == 1 ==> a[..0] == [];
    if b == [] {
      assert a + b == a;
    } else {
      assert (a + b)[..|a + b| - 1] == a + b[..|b| - 1];
      SumAppend(a, b[..|b| - 1]);
    }
  }

  /** The parts of the score between their borders: linear in the average time and in the hours since
      the last task, the share of successes, and the mean of the stars over five; half of the points
      without an average or a rating, none for recency without a last task. */
  lemma PartsAreLinear(s: Stats, ratings: seq<int>, now: real)
    requires s.total > 0
    ensures Completion(s.successful, s.total) * s.total as real == s.successful as real
    ensures s.avgMs.None? ==> Speed(s.avgMs) == 0.5
    ensures s.avgMs.Some? && 0 <= s.avgMs.value <= 10000 ==>
              Speed(s.avgMs) * 10000.0 == 10000.0 - s.avgMs.value as real
    ensures s.lastAt <= 0 || now - s.lastAt as real >= 86400.0 ==> Uptime(s.lastAt, now) == 0.0
    ensures s.lastAt > 0 && now - s.lastAt as real <= 86400.0 ==>
              Uptime(s.lastAt, now) * 86400.0 == 86400.0 - (now - s.lastAt as real)
    ensures ratings == [] ==> RatingScore(ratings) == 0.5
    ensures ratings != [] ==> RatingScore(ratings) * (5 * |ratings|) as real == Sum(ratings) as real
  {
  }

  /** Between the borders, the raw score written out: up to 40 points for completion and up to 20 for
      speed, recency and ratings each. */
  lemma Weights(s: Stats, ratings: seq<int>, now: real)
    requires s.total > 0 && s.lastAt > 0 && 0.0 <= now - s.lastAt as real <= 86400.0
    requires s.avgMs.Some? && 0 <= s.avgMs.value <= 10000 && ratings != []
    ensures RawScore(s, ratings, now)
            == 40.0 * (s.successful as real / s.total as real)
               + 20.0 * ((10000.0 - s.avgMs.value as real) / 10000.0)
               + 20.0 * ((86400.0 - (now - s.lastAt as real)) / 86400.0)
               + 4.0 * (Sum(ratings) as real / |ratings| as real)
  {
  }

  /** Rounding to one decimal: no other is nearer, and halfway it is the even one. */
  lemma RoundingIsNearest(x: real)
    ensures -0.05 <= Round1(x) - x <= 0.05
    ensures var tenths := Round1(x) * 10.0;
            && tenths == tenths.Floor as real
            && ((Round1(x) - x == 0.05 || Round1(x) - x == -0.05) ==> tenths.Floor % 2 == 0)
  {
  }

  ghost predicate AreStars(ratings: seq<int>) {
    forall i :: 0 <= i < |ratings| ==> 1 <= ratings[i] <= 5
  }

  /** What a history of tasks with non-negative times makes of the counters. */
  ghost predicate Plausible(s: Stats) {
    && s.total > 0 && 0 <= s.successful <= s.total && s.failed == s.total - s.successful
    && (s.avgMs.Some? ==> s.avgMs.value >= 0)
  }

  lemma HistoriesArePlausible(history: seq<Finished>, most: nat)
    requires history != [] && forall i :: 0 <= i < |history| ==> history[i].ms <= most
    ensures Plausible(StatsOf(history)) && StatsOf(history).avgMs.value <= most
  {
    CountersAddUp(history, most);
    QuotientAtMost(TotalMs(history), |history|, most);
  }

  lemma QuotientAtMost(n: nat, d: nat, most: nat)
    requires d > 0 && n <= d * most
    ensures 0 <= n / d <= most
  {
  }

  lemma Ratio(a: real, b: real, low: real, high: real)
    requires b > 0.0 && low * b <= a <= high * b
    ensures low <= a / b <= high
  {
  }

  lemma {:induction false} SumBounds(ratings: seq<int>)
    requires AreStars(ratings)
    ensures |ratings| <= Sum(ratings) <= 5 * |ratings|
  {
    if ratings != [] {
      SumBounds(ratings[..|ratings| - 1]);
    }
  }

  /** Each part of the score lies between 0 and 1. */
  lemma PartsAreFractions(s: Stats, ratings: seq<int>, now: real)
    requires Plausible(s) && AreStars(ratings)
    ensures 0.0 <= Completion(s.successful, s.total) <= 1.0
    ensures 0.0 <= Speed(s.avgMs) <= 1.0
    ensures 0.0 <= Uptime(s.lastAt, now)
    ensures s.lastAt <= 0 || now >= s.lastAt as real ==> Uptime(s.lastAt, now) <= 1.0
    ensures 0.2 <= RatingScore(ratings) <= 1.0
  {
    Ratio(s.successful as real, s.total as real, 0.0, 1.0);
    if ratings != [] {
      SumBounds(ratings);
      Ratio(Sum(ratings) as real, |ratings| as real, 1.0, 5.0);
    }
  }

  /** The clamp never acts unless the clock went back behind the last task. */
  lemma ClampNeverActs(s: Stats, ratings: seq<int>, now: real)
    requires Plausible(s) && AreStars(ratings)
    ensures RawScore(s, ratings, now) >= 4.0
    ensures now >= s.lastAt as real ==> RawScore(s, ratings, now) <= 100.0
  {
    PartsAreFractions(s, ratings, now);
  }

  /** With the clock behind the last task, a single fast success rated five stars is above 100. */
  lemma ClampActsWhenTheClockGoesBack(lastAt: int, now: real)
    requires 0 < lastAt && now < lastAt as real
    ensures var history := [Finished(true, 0, lastAt)];
            Plausible(StatsOf(history)) && RawScore(StatsOf(history), [5], now) > 100.0
  {
    var history := [Finished(true, 0, lastAt)];
    NextStats([], history[0]);
    assert [] + history == history && [5][..0] == [];
    assert Sum([5]) == 5 && RatingScore([5]) == 1.0;
  }

  /** The clamp at 100 can act for no counters and ratings of a node exactly when the node has no
      last task or the clock is not behind it. */
  lemma ClampActsExactly(lastAt: int, now: real)
    ensures (forall s: Stats, ratings: seq<int> ::
               Plausible(s) && s.lastAt == lastAt && AreStars(ratings) ==>
                 RawScore(s, ratings, now) <= 100.0)
            <==> lastAt <= 0 || now >= lastAt as real
  {
    if lastAt <= 0 || now >= lastAt as real {
      forall s: Stats, ratings: seq<int> | Plausible(s) && s.lastAt == lastAt && AreStars(ratings)
        ensures RawScore(s, ratings, now) <= 100.0
      {
        PartsAreFractions(s, ratings, now);
      }
    } else {
      ClampActsWhenTheClockGoesBack(lastAt, now);
      assert AreStars([5]);
    }
  }

  /** The full speed score takes an average of zero, not just one under a second; from ten seconds
      on there is none. */
  lemma SpeedBorders(avgMs: Option<int>)
    ensures Speed(avgMs) == 1.0 <==> avgMs == Some(0)
    ensures Speed(Some(1000)) == 0.9
    ensures Speed(avgMs) <= 0.0 <==> avgMs.Some? && avgMs.value >= 10000
  {
  }

  lemma DivisionIsMonotone(a: real, b: real, d: real)
    requires a <= b && d > 0.0
    ensures a / d <= b / d
  {
  }

  lemma {:induction false} SumIsMonotone(a: seq<int>, b: seq<int>)
    requires |a| == |b| && forall i :: 0 <= i < |a| ==> a[i] <= b[i]
    ensures Sum(a) <= Sum(b)
  {
    if a != [] {
      SumIsMonotone(a[..|a| - 1], b[..|b| - 1]);
    }
  }

  /** More successes, faster responses and better ratings never lower the score. */
  lemma ScoreIsMonotone(s: Stats, t: Stats, a: seq<int>, b: seq<int>, now: real)
    requires Plausible(s) && Plausible(t) && s.total == t.total && s.lastAt == t.lastAt
    requires s.successful <= t.successful
    requires s.avgMs.Some? && t.avgMs.Some? && s.avgMs.value >= t.avgMs.value
    requires |a| == |b| && forall i :: 0 <= i < |a| ==> a[i] <= b[i]
    ensures Score(s, a, now) <= Score(t, b, now)
  {
    DivisionIsMonotone(s.successful as real, t.successful as real, s.total as real);
    if a != [] {
      SumIsMonotone(a, b);
      DivisionIsMonotone(Sum(a) as real, Sum(b) as real, |a| as real);
    }
    assert RawScore(s, a, now) <= RawScore(t, b, now);
    RoundingIsMonotone(MinReal(100.0, MaxReal(0.0, RawScore(s, a, now))),
                       MinReal(100.0, MaxReal(0.0, RawScore(t, b, now))));
  }

  lemma Grows(a: real, b: real)
    requires 0.0 <= a <= b && b > 0.0
    ensures a / b <= (a + 1.0) / (b + 1.0)
  {
    var r := a / b;
    assert r * b == a;
    Ratio(a, b, 0.0, 1.0);
    Ratio(a + 1.0, b + 1.0, r, 1.0);
  }

  lemma QuotientBelow(n: nat, d: nat, q: nat)
    requires d > 0 && n < (q + 1) * d
    ensures n / d <= q
  {
    if n / d > q {
      Scale(q + 1, n / d, d);
    }
  }

  lemma NotSlower(totalMs: nat, total: nat, ms: nat)
    requires total > 0 && ms <= totalMs / total
    ensures (totalMs + ms) / (total + 1) <= totalMs / total
  {
    var q, r := totalMs / total, totalMs % total;
    assert totalMs == q * total + r;
    assert (q + 1) * (total + 1) == q * total + q + total + 1;
    QuotientBelow(totalMs + ms, total + 1, q);
  }

  /** One more success, no slower than the average and no earlier than the last task, never lowers the
      score of a node that has one. */
  lemma SuccessNeverLowersScore(history: seq<Finished>, f: Finished, ratings: seq<int>, now: real)
    requires history != [] && f.success && f.ms <= StatsOf(history).avgMs.value
    requires f.at >= history[|history| - 1].at
    ensures Score(StatsOf(history), ratings, now) <= Score(StatsOf(history + [f]), ratings, now)
  {
    var s, t := StatsOf(history), StatsOf(history + [f]);
    NextStats(history, f);
    SomeSucceeded(history);
    Grows(s.successful as real, s.total as real);
    NotSlower(s.totalMs, s.total, f.ms);
    assert Speed(s.avgMs) <= Speed(t.avgMs);
    LaterIsFresher(s.lastAt, t.lastAt, now);
    HigherScore(s, t, ratings, now);
  }

  lemma {:induction false} SomeSucceeded(history: seq<Finished>)
    ensures Successes(history) <= |history|
  {
    if history != [] {
      SomeSucceeded(history[..|history| - 1]);
    }
  }

  lemma LaterIsFresher(a: int, b: int, now: real)
    requires 0 <= a <= b
    ensures Uptime(a, now) <= Uptime(b, now)
  {
  }

  lemma HigherScore(s: Stats, t: Stats, ratings: seq<int>, now: real)
    requires s.total > 0 && t.total > 0
    requires Completion(s.successful, s.total) <= Completion(t.successful, t.total)
    requires Speed(s.avgMs) <= Speed(t.avgMs) && Uptime(s.lastAt, now) <= Uptime(t.lastAt, now)
    ensures Score(s, ratings, now) <= Score(t, ratings, now)
  {
    assert RawScore(s, ratings, now) <= RawScore(t, ratings, now);
    RoundingIsMonotone(MinReal(100.0, MaxReal(0.0, RawScore(s, ratings, now))),
                       MinReal(100.0, MaxReal(0.0, RawScore(t, ratings, now))));
  }

  lemma RoundingIsMonotone(x: real, y: real)
    requires x <= y
    ensures Round1(x) <= Round1(y)
  {
    assert (x * 10.0).Floor <= (y * 10.0).Floor;
  }

  /** Suspension in terms of the score before clamping and rounding. */
  lemma SuspendsBelow(s: Stats, ratings: seq<int>, now: real)
    requires Plausible(s) && AreStars(ratings) && now >= s.lastAt as real
    ensures Suspends(s, ratings, now) <==> s.total > 10 && RawScore(s, ratings, now) < 34.95
  {
  }

  /** No response times and ratings could suspend the node at `now`. */
  ghost predicate SafeFromSuspension(successful: int, total: int, lastAt: int, now: real) {
    forall avgMs: Option<int>, ratings: seq<int> ::
      (avgMs.Some? ==> avgMs.value >= 0) && AreStars(ratings) ==>
        !Suspends(Stats(total, successful, total - successful, 0, avgMs, lastAt), ratings, now)
  }

  /** Whatever its speed and ratings, a node stays in routing exactly when it is new or its
      completion rate and recency alone bring it to the border (one star adds 4 points). */
  lemma SuspensionBorder(successful: int, total: int, lastAt: int, now: real)
    requires total > 0 && 0 <= successful <= total && lastAt as real <= now
    ensures SafeFromSuspension(successful, total, lastAt, now) <==>
            total <= 10
            || Completion(successful, total) * 40.0 + Uptime(lastAt, now) * 20.0 + 4.0 >= 34.95
  {
    var base := Completion(successful, total) * 40.0 + Uptime(lastAt, now) * 20.0 + 4.0;
    if total <= 10 || base >= 34.95 {
      forall avgMs: Option<int>, ratings: seq<int>
        | (avgMs.Some? ==> avgMs.value >= 0) && AreStars(ratings)
        ensures !Suspends(Stats(total, successful, total - successful, 0, avgMs, lastAt), ratings, now)
      {
        var s := Stats(total, successful, total - successful, 0, avgMs, lastAt);
        PartsAreFractions(s, ratings, now);
        SuspendsBelow(s, ratings, now);
      }
    } else {
      var worst := Stats(total, successful, total - successful, 0, Some(10000), lastAt);
      assert Sum([1][..0]) == 0;
      assert Sum([1]) == 1 && RatingScore([1]) == 0.2;
      assert RawScore(worst, [1], now) == base;
      SuspendsBelow(worst, [1], now);
      assert AreStars([1]);
      assert Suspends(worst, [1], now);
    }
  }

  /** Ever safe, however long ago its last task was: 800 * successful >= 619 * total, or new. In
      particular 40 * successful >= 31 * total is enough. */
  lemma AlwaysSafeFromSuspension(successful: int, total: int)
    requires total > 0 && 0 <= successful <= total
    ensures (forall lastAt: int, now: real :: lastAt as real <= now ==>
               SafeFromSuspension(successful, total, lastAt, now))
            <==> total <= 10 || 800 * successful >= 619 * total
    ensures 40 * successful >= 31 * total ==> 800 * successful >= 619 * total
  {
    var c := Completion(successful, total);
    BorderInIntegers(successful, total);
    forall lastAt: int, now: real | lastAt as real <= now
      ensures SafeFromSuspension(successful, total, lastAt, now) <==>
              total <= 10 || c * 40.0 + Uptime(lastAt, now) * 20.0 + 4.0 >= 34.95
    {
      SuspensionBorder(successful, total, lastAt, now);
    }
    assert Uptime(0, 0.0) == 0.0;
  }

  lemma BorderInIntegers(successful: int, total: int)
    requires total > 0
    ensures Completion(successful, total) * 40.0 + 4.0 >= 34.95
            <==> 800 * successful >= 619 * total
  {
    var c := Completion(successful, total);
    assert c * total as real == successful as real;
    ScaleReal(619.0 / 800.0, c, total as real);
  }
}
