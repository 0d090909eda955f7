/** limits.py: the sliding-window limiter and the check of nested task parameters. */
module Limits {
  import opened Prelude

  /* ---- The events of a key, and those of them a limiter keeps ---- */

  /** How many of `events` are still inside the window at `now`. */
  function Recent(events: seq<Time>, now: Time, window: Time): nat {
    if events == [] then 0
    else Recent(events[..|events| - 1], now, window)
         + (if now - events[|events| - 1] < window then 1 else 0)
  }

  lemma {:induction false} RecentIsCount(events: seq<Time>, now: Time, window: Time)
    ensures Recent(events, now, window) == |set i | 0 <= i < |events| && now - events[i] < window|
  {
    var all := set i | 0 <= i < |events| && now - events[i] < window;
    if events == [] {
      assert all == {};
    } else {
      var m := |events| - 1;
      RecentIsCount(events[..m], now, window);
      var before := set i | 0 <= i < m && now - events[..m][i] < window;
      assert all == before + if now - events[m] < window then {m} else {};
    }
  }

  type History = map<string, seq<Time>>

  function Of(h: History, key: string): seq<Time> {
    if key in h then h[key] else []
  }

  function Record(h: History, key: string, now: Time): History {
    h[key := Of(h, key) + [now]]
  }

  ghost predicate Ordered(events: seq<Time>, until: Time) {
    && (forall i, j :: 0 <= i < j < |events| ==> events[i] <= events[j])
    && (forall i :: 0 <= i < |events| ==> events[i] <= until)
  }

  /** `kept` is the end of `all`, and everything forgotten has left the window for good. */
  ghost predicate Remembers(kept: seq<Time>, all: seq<Time>, now: Time, window: Time) {
    && Ordered(all, now) && |kept| <= |all| && kept == all[|all| - |kept|..]
    && forall i :: 0 <= i < |all| - |kept| ==> now - all[i] >= window
  }

  lemma {:induction false} OldOnesDoNotCount(a: seq<Time>, b: seq<Time>, now: Time, window: Time)
    requires forall i :: 0 <= i < |a| ==> now - a[i] >= window
    ensures Recent(a + b, now, window) == Recent(b, now, window)
  {
    if b != [] {
      assert (a + b)[..|a + b| - 1] == a + b[..|b| - 1];
      OldOnesDoNotCount(a, b[..|b| - 1], now, window);
    } else if a != [] {
      assert a + b == a;
      OldOnesDoNotCount(a[..|a| - 1], [], now, window);
      assert a[..|a| - 1] + [] == a[..|a| - 1];
    } else {
      assert a + b == b;
    }
  }

  lemma {:induction false} AllRecent(events: seq<Time>, now: Time, window: Time)
    requires forall i :: 0 <= i < |events| ==> now - events[i] < window
    ensures Recent(events, now, window) == |events|
  {
    if events != [] {
      AllRecent(events[..|events| - 1], now, window);
    }
  }

  lemma LaterStillRemembers(kept: seq<Time>, all: seq<Time>, earlier: Time, now: Time, window: Time)
    requires Remembers(kept, all, earlier, window) && earlier <= now
    ensures Remembers(kept, all, now, window)
  {
  }

  lemma KeptIsOrdered(kept: seq<Time>, all: seq<Time>, now: Time, window: Time)
    requires Remembers(kept, all, now, window)
    ensures forall i :: 0 <= i < |kept| ==> kept[0] <= kept[i]
  {
    forall i | 0 <= i < |kept|
      ensures kept[0] <= kept[i]
    {
      assert kept[i] == all[|all| - |kept| + i] && kept[0] == all[|all| - |kept|];
    }
  }

  /** Once the head of what is kept is recent, the kept events are exactly the recent ones. */
  lemma KeptAreRecent(kept: seq<Time>, all: seq<Time>, now: Time, window: Time)
    requires Remembers(kept, all, now, window)
    requires kept == [] || now - kept[0] < window
    ensures Recent(all, now, window) == |kept|
  {
    var gone := all[..|all| - |kept|];
    assert all == gone + kept;
    OldOnesDoNotCount(gone, kept, now, window);
    KeptIsOrdered(kept, all, now, window);
    AllRecent(kept, now, window);
  }

  lemma AppendRemembers(kept: seq<Time>, all: seq<Time>, now: Time, window: Time)
    requires Remembers(kept, all, now, window)
    ensures Remembers(kept + [now], all + [now], now, window)
  {
  }

  lemma EmptyRemembers(all: seq<Time>, now: Time, window: Time)
    requires Remembers([], all, now, window)
    ensures Recent(all, now, window) == 0
  {
  }

  /** The popleft loop: forget what has left the window. */
  method DropOld(events: seq<Time>, ghost all: seq<Time>, now: Time, window: Time)
    returns (recent: seq<Time>)
    requires Remembers(events, all, now, window)
    ensures Remembers(recent, all, now, window) && |recent| <= |events|
    ensures |recent| == Recent(all, now, window)
  {
    recent := events;
    while recent != [] && now - recent[0] >= window
      invariant Remembers(recent, all, now, window) && |recent| <= |events|
    {
      assert recent[0] == all[|all| - |recent|];
      assert recent[1..] == all[|all| - |recent| + 1..];
      recent := recent[1..];
    }
    KeptAreRecent(recent, all, now, window);
  }

  /* ---- Calls and their answers ---- */

  datatype Call = Call(key: string, now: Time)

  /** The times of the calls that were allowed, by key. */
  function Allowed(calls: seq<Call>, answers: seq<bool>): History
    requires |answers| == |calls|
  {
    if calls == [] then map[]
    else
      var m := |calls| - 1;
      var h := Allowed(calls[..m], answers[..m]);
      if answers[m] then Record(h, calls[m].key, calls[m].now) else h
  }

  lemma AllowedStep(calls: seq<Call>, answers: seq<bool>, c: Call, ok: bool)
    requires |answers| == |calls|
    ensures var h := Allowed(calls, answers);
            Allowed(calls + [c], answers + [ok]) == if ok then Record(h, c.key, c.now) else h
  {
    assert (calls + [c])[..|calls|] == calls && (answers + [ok])[..|calls|] == answers;
  }

  /** The first `n` calls that were allowed for `key` and are still inside the window at `now`. */
  ghost function Counted(calls: seq<Call>, answers: seq<bool>, n: nat, key: string, now: Time,
                         window: Time): set<int>
    requires n <= |calls| == |answers|
  {
    set i | 0 <= i < n && calls[i].key == key && answers[i] && now - calls[i].now < window
  }

  lemma CountedStep(calls: seq<Call>, answers: seq<bool>, n: nat, key: string, now: Time, window: Time)
    requires n < |calls| == |answers|
    ensures var counts := calls[n].key == key && answers[n] && now - calls[n].now < window;
            |Counted(calls, answers, n + 1, key, now, window)|
            == |Counted(calls, answers, n, key, now, window)| + if counts then 1 else 0
  {
    var counts := calls[n].key == key && answers[n] && now - calls[n].now < window;
    assert Counted(calls, answers, n + 1, key, now, window)
           == Counted(calls, answers, n, key, now, window) + if counts then {n as int} else {};
  }

  lemma RecentAppend(events: seq<Time>, t: Time, now: Time, window: Time)
    ensures Recent(events + [t], now, window)
            == Recent(events, now, window) + if now - t < window then 1 else 0
  {
    assert (events + [t])[..|events|] == events;
  }

  lemma {:induction false} AllowedCount(calls: seq<Call>, answers: seq<bool>, n: nat, key: string,
                                        now: Time, window: Time)
    requires n <= |calls| == |answers|
    ensures Recent(Of(Allowed(calls[..n], answers[..n]), key), now, window)
            == |Counted(calls, answers, n, key, now, window)|
    decreases n
  {
    if n > 0 {
      var c, h := calls[n - 1], Allowed(calls[..n - 1], answers[..n - 1]);
      AllowedCount(calls, answers, n - 1, key, now, window);
      assert calls[..n] == calls[..n - 1] + [c] && answers[..n] == answers[..n - 1] + [answers[n - 1]];
      AllowedStep(calls[..n - 1], answers[..n - 1], c, answers[n - 1]);
      OtherKey(h, c.key, Of(h, c.key) + [c.now], key);
      RecentAppend(Of(h, key), c.now, now, window);
      CountedStep(calls, answers, n - 1, key, now, window);
    }
  }

  /** Every call was allowed exactly when fewer than `limit` calls of its key before it were allowed
      within the window. */
  ghost predicate IsLimited(calls: seq<Call>, answers: seq<bool>, limit: int, window: Time) {
    && |answers| == |calls|
    && forall i :: 0 <= i < |calls| ==>
         (answers[i] <==> |Counted(calls, answers, i, calls[i].key, calls[i].now, window)| < limit)
  }

  lemma NextIsLimited(calls: seq<Call>, answers: seq<bool>, c: Call, ok: bool, limit: int, window: Time)
    requires IsLimited(calls, answers, limit, window)
    requires ok <==> |Counted(calls, answers, |calls|, c.key, c.now, window)| < limit
    ensures IsLimited(calls + [c], answers + [ok], limit, window)
  {
    forall i | 0 <= i <= |calls|
      ensures var d := (calls + [c])[i];
              Counted(calls + [c], answers + [ok], i, d.key, d.now, window)
              == Counted(calls, answers, i, d.key, d.now, window)
    {
    }
  }

  /** The first `n` calls that were allowed for `key` in the window starting at `from`. */
  ghost function InWindow(calls: seq<Call>, answers: seq<bool>, n: nat, key: string, from: Time,
                          window: Time): set<int>
    requires n <= |calls| == |answers|
  {
    set i | 0 <= i < n && calls[i].key == key && answers[i] && from <= calls[i].now < from + window
  }

  lemma LastInWindow(calls: seq<Call>, answers: seq<bool>, limit: int, window: Time, key: string,
                     from: Time, n: nat)
    requires IsLimited(calls, answers, limit, window) && n < |calls|
    requires n in InWindow(calls, answers, n + 1, key, from, window)
    ensures |InWindow(calls, answers, n + 1, key, from, window)| <= limit
  {
    var before := InWindow(calls, answers, n, key, from, window);
    assert InWindow(calls, answers, n + 1, key, from, window) == before + {n as int};
    SubsetSize(before, Counted(calls, answers, n, key, calls[n].now, window));
  }

  lemma NextInWindow(calls: seq<Call>, answers: seq<bool>, limit: int, window: Time, key: string,
                     from: Time, n: nat)
    requires IsLimited(calls, answers, limit, window) && n < |calls|
    ensures var size := |InWindow(calls, answers, n + 1, key, from, window)|;
            size <= limit || size == |InWindow(calls, answers, n, key, from, window)|
  {
    if n in InWindow(calls, answers, n + 1, key, from, window) {
      LastInWindow(calls, answers, limit, window, key, from, n);
    } else {
      assert InWindow(calls, answers, n + 1, key, from, window)
             == InWindow(calls, answers, n, key, from, window);
    }
  }

  lemma {:induction false} WindowsFit(calls: seq<Call>, answers: seq<bool>, limit: int, window: Time,
                                      key: string, from: Time, n: nat)
    requires IsLimited(calls, answers, limit, window) && n <= |calls|
    ensures |InWindow(calls, answers, n, key, from, window)| <= Max(limit, 0)
    decreases n
  {
    if n == 0 {
      assert InWindow(calls, answers, n, key, from, window) == {};
    } else {
      WindowsFit(calls, answers, limit, window, key, from, n - 1);
      NextInWindow(calls, answers, limit, window, key, from, n - 1);
    }
  }

  /** Any half-open window, wherever it starts, holds at most `limit` allowed calls of a key. */
  lemma AtMostLimitPerWindow(calls: seq<Call>, answers: seq<bool>, limit: int, window: Time,
                             key: string, from: Time)
    requires |answers| == |calls|
    requires forall i :: 0 <= i < |calls| ==>
               (answers[i] <==>
                |set j | 0 <= j < i && calls[j].key == calls[i].key && answers[j]
                         && calls[i].now - calls[j].now < window| < limit)
    ensures |set i | 0 <= i < |calls| && calls[i].key == key && answers[i]
                     && from <= calls[i].now < from + window| <= Max(limit, 0)
  {
    forall i | 0 <= i < |calls|
      ensures answers[i] <==> |Counted(calls, answers, i, calls[i].key, calls[i].now, window)| < limit
    {
      assert Counted(calls, answers, i, calls[i].key, calls[i].now, window)
             == set j | 0 <= j < i && calls[j].key == calls[i].key && answers[j]
                        && calls[i].now - calls[j].now < window;
    }
    WindowsFit(calls, answers, limit, window, key, from, |calls|);
    assert InWindow(calls, answers, |calls|, key, from, window)
           == set i | 0 <= i < |calls| && calls[i].key == key && answers[i]
                      && from <= calls[i].now < from + window;
  }

  /** The full history counts like the calls and their answers, which are no more than the calls. */
  lemma CountsDecide(calls: seq<Call>, answers: seq<bool>, key: string, now: Time, window: Time)
    requires |answers| == |calls|
    ensures var all := Of(Allowed(calls, answers), key);
            |set i | 0 <= i < |all| && now - all[i] < window|
            == |Counted(calls, answers, |calls|, key, now, window)|
            <= |set i | 0 <= i < |calls| && calls[i].key == key && now - calls[i].now < window|
  {
    assert calls[..|calls|] == calls && answers[..|calls|] == answers;
    AllowedCount(calls, answers, |calls|, key, now, window);
    RecentIsCount(Of(Allowed(calls, answers), key), now, window);
    SubsetSize(Counted(calls, answers, |calls|, key, now, window),
               set i | 0 <= i < |calls| && calls[i].key == key && now - calls[i].now < window);
  }

  /* ---- The limiter ---- */

  /** What the limiter keeps answers for everything it ever allowed, in bounded space per key. */
  ghost predicate Faithful(events: History, history: History, now: Time, limit: int, window: Time) {
    forall k {:trigger KeyFaithful(Of(events, k), Of(history, k), now, limit, window)} ::
      KeyFaithful(Of(events, k), Of(history, k), now, limit, window)
  }

  ghost predicate KeyFaithful(kept: seq<Time>, all: seq<Time>, now: Time, limit: int, window: Time) {
    Remembers(kept, all, now, window) && |kept| <= Max(limit, 0)
  }

  lemma LaterIsFaithful(events: History, history: History, earlier: Time, now: Time, limit: int,
                        window: Time)
    requires Faithful(events, history, earlier, limit, window) && earlier <= now
    ensures Faithful(events, history, now, limit, window)
  {
    forall k
      ensures KeyFaithful(Of(events, k), Of(history, k), now, limit, window)
    {
      assert KeyFaithful(Of(events, k), Of(history, k), earlier, limit, window);
      LaterStillRemembers(Of(events, k), Of(history, k), earlier, now, window);
    }
  }

  lemma KeepIsFaithful(events: History, history: History, key: string, kept: seq<Time>, now: Time,
                       limit: int, window: Time)
    requires Faithful(events, history, now, limit, window)
    requires Remembers(kept, Of(history, key), now, window) && |kept| <= Max(limit, 0)
    ensures Faithful(events[key := kept], history, now, limit, window)
  {
    forall k
      ensures KeyFaithful(Of(events[key := kept], k), Of(history, k), now, limit, window)
    {
      assert KeyFaithful(Of(events, k), Of(history, k), now, limit, window);
    }
  }

  lemma AfreshIsFaithful(events: History, history: History, key: string, now: Time, limit: int,
                         window: Time)
    requires Faithful(events, history, now, limit, window) && key !in events
    ensures Faithful(events[key := []], history, now, limit, window)
  {
    assert KeyFaithful(Of(events, key), Of(history, key), now, limit, window);
    KeepIsFaithful(events, history, key, [], now, limit, window);
  }

  /** What _prune drops. */
  lemma IdleIsForgettable(events: History, history: History, k: string, now: Time, limit: int,
                          window: Time)
    requires Faithful(events, history, now, limit, window) && k in events
    requires events[k] == [] || now - events[k][|events[k]| - 1] >= window
    ensures Remembers([], Of(history, k), now, window) && Recent(Of(history, k), now, window) == 0
  {
    assert KeyFaithful(Of(events, k), Of(history, k), now, limit, window);
    IdleIsOld(events[k], Of(history, k), now, window);
  }

  lemma OtherKey(h: History, key: string, events: seq<Time>, k: string)
    ensures Of(h[key := events], k) == if k == key then events else Of(h, k)
  {
  }

  lemma RecordIsFaithful(events: History, history: History, key: string, kept: seq<Time>, now: Time,
                         limit: int, window: Time)
    requires Faithful(events, history, now, limit, window)
    requires Remembers(kept, Of(history, key), now, window) && |kept| < limit
    ensures Faithful(events[key := kept + [now]], Record(history, key, now), now, limit, window)
  {
    AppendRemembers(kept, Of(history, key), now, window);
    forall k
      ensures KeyFaithful(Of(events[key := kept + [now]], k), Of(Record(history, key, now), k), now,
                          limit, window)
    {
      OtherKey(events, key, kept + [now], k);
      OtherKey(history, key, Of(history, key) + [now], k);
      if k != key {
        assert KeyFaithful(Of(events, k), Of(history, k), now, limit, window);
      }
    }
  }

  lemma ForgetIsFaithful(events: History, history: History, idle: set<string>, now: Time, limit: int,
                         window: Time)
    requires Faithful(events, history, now, limit, window)
    requires forall k :: k in idle ==> Remembers([], Of(history, k), now, window)
    ensures Faithful(events - idle, history, now, limit, window)
  {
    forall k
      ensures KeyFaithful(Of(events - idle, k), Of(history, k), now, limit, window)
    {
      assert KeyFaithful(Of(events, k), Of(history, k), now, limit, window);
    }
  }

  /** Dropping idle keys keeps the answers: nothing in their histories counts any more. */
  lemma ForgetIdle(events: History, history: History, idle: set<string>, now: Time, limit: int,
                   window: Time)
    requires Faithful(events, history, now, limit, window)
    requires forall k :: k in idle ==>
               k in events && (events[k] == [] || now - events[k][|events[k]| - 1] >= window)
    ensures Faithful(events - idle, history, now, limit, window)
    ensures forall k :: k in idle ==> Recent(Of(history, k), now, window) == 0
  {
    forall k | k in idle
      ensures Remembers([], Of(history, k), now, window) && Recent(Of(history, k), now, window) == 0
    {
      IdleIsForgettable(events, history, k, now, limit, window);
    }
    ForgetIsFaithful(events, history, idle, now, limit, window);
  }

  const MAX_KEYS: nat := 10_000

  class SlidingWindowLimiter {
    const limit: int
    const window: Time
    var events: History
    /** Every call so far with its answer, every event ever allowed, and the time of the latest call. */
    ghost var calls: seq<Call>
    ghost var answers: seq<bool>
    ghost var history: History
    ghost var clock: Time

    constructor (limit: int, window: Time, now: Time)
      ensures Valid() && calls == [] && answers == [] && clock == now
      ensures this.limit == limit && this.window == window
    {
      this.limit, this.window := limit, window;
      events, calls, answers, history, clock := map[], [], [], map[], now;
    }

    ghost predicate Valid()
      reads this
    {
      && Faithful(events, history, clock, limit, window) && IsLimited(calls, answers, limit, window)
      && history == Allowed(calls, answers)
    }

    /** allow: true exactly when fewer than `limit` calls of the key were answered true within the
        window before; so always when there were fewer calls of the key at all. */
    method Allow(key: string, now: Time) returns (ok: bool)
      requires Valid() && clock <= now
      modifies this
      ensures Valid() && clock == now
      ensures calls == old(calls) + [Call(key, now)] && answers == old(answers) + [ok]
      ensures ok <==> |set i | 0 <= i < |old(calls)| && old(calls)[i].key == key && old(answers)[i]
                               && now - old(calls)[i].now < window| < limit
      ensures (|set i | 0 <= i < |old(calls)| && old(calls)[i].key == key
                        && now - old(calls)[i].now < window| < limit) ==> ok
    {
      LaterIsFaithful(events, history, clock, now, limit, window);
      if key !in events {
        Open(key, now);
      }
      ok := Decide(key, now);
      CountsDecide(calls, answers, key, now, window);
      AllowedStep(calls, answers, Call(key, now), ok);
      NextIsLimited(calls, answers, Call(key, now), ok, limit, window);
      clock, calls, answers := now, calls + [Call(key, now)], answers + [ok];
    }

    method Decide(key: string, now: Time) returns (ok: bool)
      requires Faithful(events, history, now, limit, window) && key in events
      modifies this`events, this`history
      ensures Faithful(events, history, now, limit, window)
      ensures var all := Of(old(history), key);
              ok <==> |set i | 0 <= i < |all| && now - all[i] < window| < limit
      ensures history == if ok then Record(old(history), key, now) else old(history)
    {
      assert KeyFaithful(Of(events, key), Of(history, key), now, limit, window);
      assert Of(events, key) == events[key];
      var recent := DropOld(events[key], Of(history, key), now, window);
      RecentIsCount(Of(history, key), now, window);
      if |recent| >= limit {
        KeepIsFaithful(events, history, key, recent, now, limit, window);
        events := events[key := recent];
        return false;
      }
      RecordIsFaithful(events, history, key, recent, now, limit, window);
      events := events[key := recent + [now]];
      history := Record(history, key, now);
      ok := true;
    }

    /** A key not tracked (any more): make room if needed and start it afresh. */
    method Open(key: string, now: Time)
      requires Faithful(events, history, now, limit, window) && key !in events
      modifies this`events
      ensures Faithful(events, history, now, limit, window) && key in events && events[key] == []
    {
      if |events| >= MAX_KEYS {
        Prune(now);
      }
      AfreshIsFaithful(events, history, key, now, limit, window);
      events := events[key := []];
    }

    /** _prune: forget the keys without recent events. */
    method Prune(now: Time)
      requires Faithful(events, history, now, limit, window)
      modifies this`events
      ensures Faithful(events, history, now, limit, window)
      ensures forall k :: k in events ==> k in old(events) && events[k] == old(events[k])
      ensures forall k :: k in old(events) && k !in events ==> Recent(Of(history, k), now, window) == 0
      ensures forall k :: k in events ==> events[k] != [] && now - events[k][|events[k]| - 1] < window
    {
      var idle := set k | k in events
                          && (events[k] == [] || now - events[k][|events[k]| - 1] >= window);
      ForgetIdle(events, history, idle, now, limit, window);
      events := events - idle;
    }
  }

  lemma IdleIsOld(kept: seq<Time>, all: seq<Time>, now: Time, window: Time)
    requires Remembers(kept, all, now, window)
    requires kept == [] || now - kept[|kept| - 1] >= window
    ensures Remembers([], all, now, window) && Recent(all, now, window) == 0
  {
    forall i | 0 <= i < |all|
      ensures now - all[i] >= window
    {
      if i >= |all| - |kept| {
        assert kept[i - (|all| - |kept|)] == all[i];
        assert kept[|kept| - 1] == all[|all| - 1];
      }
    }
    EmptyRemembers(all, now, window);
  }

  /* ---- check_params: nested values ---- */

  const MAX_PARAMS_DEPTH: nat := 4
  const MAX_PARAMS_STRING_CHARS: nat := 8192

  /** A JSON value; a dictionary is its items in order, keys being strings. */
  datatype Value =
    | Str(text: string)
    | Scalar
    | List(items: seq<Value>)
    | Dict(entries: seq<Item>)

  datatype Item = Item(key: string, value: Value)

  /** _check_value: accepts unless a check on the way down raises. */
  predicate CheckValue(v: Value, depth: nat)
    decreases v
  {
    match v
    case Str(text) => |text| <= MAX_PARAMS_STRING_CHARS
    case Scalar => true
    case List(items) =>
      && depth <= MAX_PARAMS_DEPTH
      && forall i :: 0 <= i < |items| ==> CheckValue(items[i], depth + 1)
    case Dict(entries) =>
      && depth <= MAX_PARAMS_DEPTH
      && forall i :: 0 <= i < |entries| ==>
           |entries[i].key| <= MAX_PARAMS_STRING_CHARS && CheckValue(entries[i].value, depth + 1)
  }

  /** How many containers are nested in each other at most. */
  function Nesting(v: Value): nat
    decreases v, 1, 0
  {
    match v
    case Str(_) => 0
    case Scalar => 0
    case List(items) => 1 + DeepestOf(items)
    case Dict(entries) => 1 + DeepestIn(entries)
  }

  function DeepestOf(items: seq<Value>): nat
    decreases items, 0, |items|
  {
    if items == [] then 0
    else
      var a, b := Nesting(items[|items| - 1]), DeepestOf(items[..|items| - 1]);
      if a < b then b else a
  }

  function DeepestIn(entries: seq<Item>): nat
    decreases entries, 0, |entries|
  {
    if entries == [] then 0
    else
      var a, b := Nesting(entries[|entries| - 1].value), DeepestIn(entries[..|entries| - 1]);
      if a < b then b else a
  }

  /** Every string in the tree, dictionary keys included. */
  function Strings(v: Value): set<string>
    decreases v
  {
    match v
    case Str(text) => {text}
    case Scalar => {}
    case List(items) => set i, s | 0 <= i < |items| && s in Strings(items[i]) :: s
    case Dict(entries) =>
      (set i | 0 <= i < |entries| :: entries[i].key)
      + set i, s | 0 <= i < |entries| && s in Strings(entries[i].value) :: s
  }

  lemma {:induction false} DeepestOfAtMost(items: seq<Value>, most: nat)
    ensures DeepestOf(items) <= most <==> forall i :: 0 <= i < |items| ==> Nesting(items[i]) <= most
  {
    if items != [] {
      var init := items[..|items| - 1];
      DeepestOfAtMost(init, most);
      assert forall i :: 0 <= i < |init| ==> init[i] == items[i];
    }
  }

  lemma {:induction false} DeepestInAtMost(entries: seq<Item>, most: nat)
    ensures DeepestIn(entries) <= most
            <==> forall i :: 0 <= i < |entries| ==> Nesting(entries[i].value) <= most
  {
    if entries != [] {
      var init := entries[..|entries| - 1];
      DeepestInAtMost(init, most);
      assert forall i :: 0 <= i < |init| ==> init[i] == entries[i];
    }
  }

  ghost predicate StringsFit(v: Value) {
    forall s :: s in Strings(v) ==> |s| <= MAX_PARAMS_STRING_CHARS
  }

  lemma {:induction false} CheckFrom(v: Value, depth: nat)
    requires 1 <= depth <= MAX_PARAMS_DEPTH + 1
    ensures CheckValue(v, depth) <==> Nesting(v) <= MAX_PARAMS_DEPTH + 1 - depth && StringsFit(v)
    decreases v
  {
    match v
    case Str(_) =>
    case Scalar =>
    case List(items) =>
      if depth <= MAX_PARAMS_DEPTH {
        DeepestOfAtMost(items, MAX_PARAMS_DEPTH - depth);
        forall i | 0 <= i < |items|
          ensures CheckValue(items[i], depth + 1)
                  <==> Nesting(items[i]) <= MAX_PARAMS_DEPTH - depth && StringsFit(items[i])
        {
          CheckFrom(items[i], depth + 1);
        }
        ListStringsFit(items);
      }
    case Dict(entries) =>
      if depth <= MAX_PARAMS_DEPTH {
        DeepestInAtMost(entries, MAX_PARAMS_DEPTH - depth);
        forall i | 0 <= i < |entries|
          ensures CheckValue(entries[i].value, depth + 1)
                  <==> Nesting(entries[i].value) <= MAX_PARAMS_DEPTH - depth
                       && StringsFit(entries[i].value)
        {
          CheckFrom(entries[i].value, depth + 1);
        }
        DictStringsFit(entries);
      }
  }

  lemma ListStringsFit(items: seq<Value>)
    ensures StringsFit(List(items)) <==> forall i :: 0 <= i < |items| ==> StringsFit(items[i])
  {
  }

  lemma DictStringsFit(entries: seq<Item>)
    ensures StringsFit(Dict(entries)) <==>
            forall i :: 0 <= i < |entries| ==>
              |entries[i].key| <= MAX_PARAMS_STRING_CHARS && StringsFit(entries[i].value)
  {
  }

  /** The check of a whole params value is exact: accepted if and only if containers are nested at
      most four deep and no string anywhere in it is longer than 8192 characters. */
  lemma CheckIsExact(v: Value)
    ensures CheckValue(v, 1) <==> Nesting(v) <= 4 && forall s :: s in Strings(v) ==> |s| <= 8192
  {
    CheckFrom(v, 1);
  }
}
