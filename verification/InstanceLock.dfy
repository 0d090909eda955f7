/** instance_lock.py: the Redis lease that keeps a second coordinator from starting. */
module InstanceLock {
  import opened Prelude

  /** The value and expiry of the lock key. */
  datatype Held = Held(token: nat, until: Time)

  type Key = Option<Held>

  predicate IsHeld(key: Key, now: Time) {
    key.Some? && now < key.value.until
  }

  predicate IsHeldBy(key: Key, token: nat, now: Time) {
    IsHeld(key, now) && key.value.token == token
  }

  /** SET key token NX EX ttl */
  function AfterSet(key: Key, token: nat, ttl: Time, now: Time): (Key, bool) {
    if IsHeld(key, now) then (key, false) else (Some(Held(token, now + ttl)), true)
  }

  /** The _REFRESH script. */
  function AfterRefresh(key: Key, token: nat, ttl: Time, now: Time): (Key, bool) {
    if IsHeldBy(key, token, now) then (Some(Held(token, now + ttl)), true) else (key, false)
  }

  /** The _RELEASE script. */
  function AfterRelease(key: Key, token: nat, now: Time): Key {
    if IsHeldBy(key, token, now) then None else key
  }

  /* ---- Any number of processes ---- */

  /** `leases`: for each process, its last success plus the TTL, until it releases. */
  datatype State = State(key: Key, leases: map<nat, Time>, now: Time)

  datatype Action =
    | Take(process: nat)      // SET NX, from acquire or from the refresh loop
    | Extend(process: nat)    // the refresh script
    | Release(process: nat)   // the release script
    | Tick(elapsed: Time)     // time passes; any process may stall
    | Lose                    // Redis loses the key (a restart)

  function Step(s: State, a: Action, ttl: Time): State {
    match a
    case Take(p) =>
      var (key, ok) := AfterSet(s.key, p, ttl, s.now);
      s.(key := key, leases := if ok then s.leases[p := s.now + ttl] else s.leases)
    case Extend(p) =>
      var (key, ok) := AfterRefresh(s.key, p, ttl, s.now);
      s.(key := key, leases := if ok then s.leases[p := s.now + ttl] else s.leases)
    case Release(p) => s.(key := AfterRelease(s.key, p, s.now), leases := s.leases - {p})
    case Tick(elapsed) => s.(now := s.now + if elapsed < 0.0 then 0.0 else elapsed)
    case Lose => s.(key := None)
  }

  function Run(s: State, actions: seq<Action>, ttl: Time): State
    decreases |actions|
  {
    if actions == [] then s else Run(Step(s, actions[0], ttl), actions[1..], ttl)
  }

  predicate HasLease(s: State, p: nat) {
    p in s.leases && s.now < s.leases[p]
  }

  predicate Overlap(s: State, p: nat, q: nat) {
    p != q && HasLease(s, p) && HasLease(s, q)
  }

  /** A running lease is the key's own. */
  ghost predicate LeasesOk(s: State) {
    forall p :: HasLease(s, p) ==> s.key == Some(Held(p, s.leases[p]))
  }

  lemma {:induction false} RunKeepsLeases(s: State, actions: seq<Action>, ttl: Time)
    requires LeasesOk(s) && Lose !in actions
    ensures LeasesOk(Run(s, actions, ttl))
    decreases |actions|
  {
    if actions != [] {
      assert actions[0] in actions;
      assert LeasesOk(Step(s, actions[0], ttl));
      RunKeepsLeases(Step(s, actions[0], ttl), actions[1..], ttl);
    }
  }

  const START := State(None, map[], 0.0)

  /** No two processes ever hold overlapping leases in a run, however they interleave and stall;
      `mayLose` is whether Redis may lose the key on the way. */
  ghost predicate NeverOverlaps(ttl: Time, mayLose: bool) {
    forall actions: seq<Action>, p, q :: (mayLose || Lose !in actions) ==>
      !Overlap(Run(START, actions, ttl), p, q)
  }

  /** Exclusion holds exactly as long as Redis keeps the key. */
  lemma LeasesExclude(ttl: Time, mayLose: bool)
    requires ttl > 0.0
    ensures NeverOverlaps(ttl, mayLose) <==> !mayLose
  {
    if mayLose {
      var actions := [Take(0), Lose, Take(1)];
      var s1 := Step(START, Take(0), ttl);
      var s2 := Step(s1, Lose, ttl);
      var s3 := Step(s2, Take(1), ttl);
      assert actions[1..] == [Lose, Take(1)] && actions[1..][1..] == [Take(1)]
             && actions[1..][1..][1..] == [];
      assert Run(START, actions, ttl) == Run(s1, actions[1..], ttl) == Run(s2, [Take(1)], ttl)
             == Run(s3, [], ttl) == s3;
      assert Overlap(Run(START, actions, ttl), 0, 1);
    } else {
      forall actions: seq<Action>, p, q | Lose !in actions
        ensures !Overlap(Run(START, actions, ttl), p, q)
      {
        RunKeepsLeases(START, actions, ttl);
      }
    }
  }

  /** Nothing another process does changes the holder's key while its lease runs. */
  lemma OnlyTheHolderChangesIt(s: State, holder: nat, p: nat, ttl: Time)
    requires LeasesOk(s) && HasLease(s, holder) && p != holder
    ensures forall a :: a in {Take(p), Extend(p), Release(p)} ==>
              Step(s, a, ttl).key == s.key && HasLease(Step(s, a, ttl), holder)
              && Step(s, a, ttl).leases[holder] == s.leases[holder]
  {
  }

  lemma {:induction false} RunAppend(s: State, actions: seq<Action>, a: Action, ttl: Time)
    ensures Run(s, actions + [a], ttl) == Step(Run(s, actions, ttl), a, ttl)
    decreases |actions|
  {
    if actions == [] {
      assert actions + [a] == [a];
      assert Run(s, [a], ttl) == Run(Step(s, a, ttl), [], ttl);
    } else {
      assert (actions + [a])[1..] == actions[1..] + [a];
      RunAppend(Step(s, actions[0], ttl), actions[1..], a, ttl);
    }
  }

  lemma HolderOwnsKey(actions: seq<Action>, ttl: Time, holder: nat)
    requires Lose !in actions && HasLease(Run(START, actions, ttl), holder)
    ensures var s := Run(START, actions, ttl); s.key == Some(Held(holder, s.leases[holder]))
  {
    RunKeepsLeases(START, actions, ttl);
  }

  /** Once the holder releases, the next SET NX of any process succeeds at once. */
  lemma ReleaseFreesKey(actions: seq<Action>, ttl: Time, holder: nat, p: nat)
    requires Lose !in actions && HasLease(Run(START, actions, ttl), holder)
    ensures var s := Run(START, actions, ttl);
            var t := Run(START, actions + [Release(holder), Take(p)], ttl);
            && t.now == s.now && t.key == Some(Held(p, s.now + ttl))
            && t.leases == (s.leases - {holder})[p := s.now + ttl]
  {
    HolderOwnsKey(actions, ttl, holder);
    RunAppend(START, actions, Release(holder), ttl);
    RunAppend(START, actions + [Release(holder)], Take(p), ttl);
    assert actions + [Release(holder)] + [Take(p)] == actions + [Release(holder), Take(p)];
  }

  /** The holder's refresh renews its lease for a full TTL from now. */
  lemma HolderExtends(actions: seq<Action>, ttl: Time, holder: nat)
    requires Lose !in actions && HasLease(Run(START, actions, ttl), holder)
    ensures var s := Run(START, actions, ttl); var t := Run(START, actions + [Extend(holder)], ttl);
            && t.now == s.now && t.key == Some(Held(holder, s.now + ttl))
            && t.leases == s.leases[holder := s.now + ttl]
  {
    HolderOwnsKey(actions, ttl, holder);
    RunAppend(START, actions, Extend(holder), ttl);
  }

  /** A lapsed or lost key is free for everyone; a refresh comes too late then, only taking it back
      helps. */
  lemma LapsedKeyIsFree(s: State, ttl: Time, p: nat)
    requires s.key.Some? ==> s.now >= s.key.value.until
    ensures Step(s, Take(p), ttl)
            == s.(key := Some(Held(p, s.now + ttl)), leases := s.leases[p := s.now + ttl])
    ensures Step(s, Extend(p), ttl) == s && Step(s, Release(p), ttl).key == s.key
  {
  }

  /* ---- The bounded wait of acquire ---- */

  /** One SET NX of the polling loop: when it is sent, when Redis runs it, when the reply is in. */
  datatype Attempt = Attempt(sent: Time, executed: Time, replied: Time)

  datatype Acquisition = Acquired(attempt: nat) | Raised(attempt: nat) | Polling

  /** The loop's sleep(1) lasts at least a second; every reply takes at most `delay`. */
  ghost predicate IsSchedule(schedule: seq<Attempt>, startedAt: Time, delay: Time) {
    && (schedule != [] ==> schedule[0].sent == startedAt)
    && (forall i :: 0 <= i < |schedule| ==>
          schedule[i].sent <= schedule[i].executed <= schedule[i].replied <= schedule[i].sent + delay)
    && (forall i :: 0 < i < |schedule| ==> schedule[i - 1].replied + 1.0 <= schedule[i].sent)
  }

  /** The key as it stands when Redis runs the k-th attempt, whoever has written it. */
  type Keys = nat -> Key

  /** What the loop makes of the attempts from the k-th on. */
  function Poll(keys: Keys, schedule: seq<Attempt>, startedAt: Time, wait: Time, k: nat): Acquisition
    decreases |schedule| - k
  {
    if k >= |schedule| then Polling
    else if !IsHeld(keys(k), schedule[k].executed) then Acquired(k)
    else if schedule[k].replied >= startedAt + wait then Raised(k)
    else Poll(keys, schedule, startedAt, wait, k + 1)
  }

  /** Every attempt from `k` up to `m` found the key held and came back before the deadline. */
  ghost predicate KeepsPolling(keys: Keys, schedule: seq<Attempt>, deadline: Time, k: nat, m: nat)
    requires m <= |schedule|
  {
    forall i :: k <= i < m ==> IsHeld(keys(i), schedule[i].executed) && schedule[i].replied < deadline
  }

  /** Whatever others do to the key: acquired at the first attempt that finds it free, raised at the
      first one that finds it held and comes back after the wait. */
  lemma {:induction false} AcquireOutcome(keys: Keys, schedule: seq<Attempt>, startedAt: Time,
                                          wait: Time, k: nat, m: nat)
    requires k <= m < |schedule|
    ensures Poll(keys, schedule, startedAt, wait, k) == Acquired(m) <==>
            KeepsPolling(keys, schedule, startedAt + wait, k, m)
            && !IsHeld(keys(m), schedule[m].executed)
    ensures Poll(keys, schedule, startedAt, wait, k) == Raised(m) <==>
            KeepsPolling(keys, schedule, startedAt + wait, k, m)
            && IsHeld(keys(m), schedule[m].executed) && schedule[m].replied >= startedAt + wait
    decreases m - k
  {
    if k < m {
      AcquireOutcome(keys, schedule, startedAt, wait, k + 1, m);
    } else {
      LaterAttempts(keys, schedule, startedAt, wait, k + 1);
    }
  }

  lemma {:induction false} LaterAttempts(keys: Keys, schedule: seq<Attempt>, startedAt: Time,
                                         wait: Time, k: nat)
    ensures var r := Poll(keys, schedule, startedAt, wait, k);
            !r.Polling? ==> k <= r.attempt < |schedule|
    decreases |schedule| - k
  {
    if k < |schedule| {
      LaterAttempts(keys, schedule, startedAt, wait, k + 1);
    }
  }

  /** Nobody takes or extends the key after our start, so whatever lease a crashed predecessor left
      runs out within the TTL. */
  ghost predicate Crashed(keys: Keys, startedAt: Time, ttl: Time) {
    forall k :: keys(k).Some? ==> keys(k).value.until <= startedAt + ttl
  }

  /** Is every reply quick enough for the key of a crashed predecessor to expire first? */
  predicate IsPrompt(wait: Time, ttl: Time, delay: Time) {
    if ttl > 1.0 then delay <= wait - ttl else delay < wait
  }

  lemma {:induction false} AttemptsSpread(schedule: seq<Attempt>, startedAt: Time, delay: Time, k: nat)
    requires IsSchedule(schedule, startedAt, delay) && k < |schedule|
    ensures schedule[k].sent >= startedAt + k as real
  {
    if k > 0 {
      AttemptsSpread(schedule, startedAt, delay, k - 1);
    }
  }

  lemma {:induction false} PromptRepliesNeverRaise(keys: Keys, schedule: seq<Attempt>, startedAt: Time,
                                                   wait: Time, ttl: Time, delay: Time, k: nat)
    requires Crashed(keys, startedAt, ttl) && IsSchedule(schedule, startedAt, delay)
    requires ttl > 0.0 && IsPrompt(wait, ttl, delay)
    ensures !Poll(keys, schedule, startedAt, wait, k).Raised?
    decreases |schedule| - k
  {
    if k < |schedule| {
      AttemptsSpread(schedule, startedAt, delay, k);
      PromptRepliesNeverRaise(keys, schedule, startedAt, wait, ttl, delay, k + 1);
    }
  }

  ghost predicate NeverRaises(wait: Time, ttl: Time, delay: Time) {
    forall keys: Keys, schedule: seq<Attempt>, startedAt: Time ::
      Crashed(keys, startedAt, ttl) && IsSchedule(schedule, startedAt, delay) ==>
        !Poll(keys, schedule, startedAt, wait, 0).Raised?
  }

  /** The slow reply that makes acquire give up although the key is about to expire. */
  lemma SlowReplyRaises(wait: Time, ttl: Time, delay: Time)
    requires ttl > 0.0 && delay >= 0.0 && !IsPrompt(wait, ttl, delay)
    ensures !NeverRaises(wait, ttl, delay)
  {
    var keys: Keys := _ => Some(Held(0, ttl));
    if delay >= wait {
      var schedule := [Attempt(0.0, 0.0, delay)];
      assert IsSchedule(schedule, 0.0, delay);
      assert Poll(keys, schedule, 0.0, wait, 0).Raised?;
    } else {
      var slack := delay - (wait - ttl);
      var early := if slack < ttl - 1.0 then slack else ttl - 1.0;
      var late := Attempt(ttl - early, ttl - early, ttl - early + delay);
      var schedule := [Attempt(0.0, 0.0, 0.0), late];
      assert IsSchedule(schedule, 0.0, delay);
      assert Poll(keys, schedule, 0.0, wait, 1) == Raised(1);
      assert Poll(keys, schedule, 0.0, wait, 0) == Raised(1);
    }
  }

  /** After a crashed predecessor acquire never raises exactly when every reply is at least as
      quick as the wait is longer than the TTL (or than no time at all, when the key is gone by the
      second attempt anyway). */
  lemma BoundedWait(wait: Time, ttl: Time, delay: Time)
    requires ttl > 0.0 && delay >= 0.0
    ensures NeverRaises(wait, ttl, delay) <==> IsPrompt(wait, ttl, delay)
  {
    if IsPrompt(wait, ttl, delay) {
      forall keys: Keys, schedule: seq<Attempt>, startedAt: Time
        | Crashed(keys, startedAt, ttl) && IsSchedule(schedule, startedAt, delay)
        ensures !Poll(keys, schedule, startedAt, wait, 0).Raised?
      {
        PromptRepliesNeverRaise(keys, schedule, startedAt, wait, ttl, delay, 0);
      }
    } else {
      SlowReplyRaises(wait, ttl, delay);
    }
  }

  lemma {:induction false} FreeKeyIsTaken(keys: Keys, schedule: seq<Attempt>, startedAt: Time, wait: Time,
                                          k: nat, m: nat)
    requires k <= m < |schedule| && !IsHeld(keys(m), schedule[m].executed)
    requires !Poll(keys, schedule, startedAt, wait, k).Raised?
    ensures Poll(keys, schedule, startedAt, wait, k).Acquired?
    decreases m - k
  {
    if k < m && IsHeld(keys(k), schedule[k].executed) {
      FreeKeyIsTaken(keys, schedule, startedAt, wait, k + 1, m);
    }
  }

  /** With such replies the lock is acquired after at most ttl + 1 attempts. */
  lemma AlwaysAcquires(keys: Keys, schedule: seq<Attempt>, startedAt: Time, wait: Time, ttl: Time,
                       delay: Time)
    requires Crashed(keys, startedAt, ttl) && IsSchedule(schedule, startedAt, delay)
    requires ttl > 0.0 && IsPrompt(wait, ttl, delay) && |schedule| as real >= ttl + 1.0
    ensures Poll(keys, schedule, startedAt, wait, 0).Acquired?
  {
    PromptRepliesNeverRaise(keys, schedule, startedAt, wait, ttl, delay, 0);
    AttemptsSpread(schedule, startedAt, delay, |schedule| - 1);
    FreeKeyIsTaken(keys, schedule, startedAt, wait, 0, |schedule| - 1);
  }

  class RedisKey {
    var held: Key

    constructor (held: Key)
      ensures this.held == held
    {
      this.held := held;
    }

    method SetNx(token: nat, ttl: Time, now: Time) returns (ok: bool)
      modifies this
      ensures (held, ok) == AfterSet(old(held), token, ttl, now)
    {
      ok := held.None? || now >= held.value.until;
      if ok {
        held := Some(Held(token, now + ttl));
      }
    }

    method Refresh(token: nat, ttl: Time, now: Time) returns (ok: bool)
      modifies this
      ensures (held, ok) == AfterRefresh(old(held), token, ttl, now)
    {
      ok := held.Some? && now < held.value.until && held.value.token == token;
      if ok {
        held := Some(Held(token, now + ttl));
      }
    }

    method Release(token: nat, now: Time)
      modifies this
      ensures held == AfterRelease(old(held), token, now)
    {
      if held.Some? && now < held.value.until && held.value.token == token {
        held := None;
      }
    }
  }

  class SingleInstanceLock {
    const token: nat
    const ttl: Time
    const wait: Time
    var refreshing: bool

    constructor (token: nat, ttl: Time, wait: Time)
      ensures this.token == token && this.ttl == ttl && this.wait == wait && !refreshing
    {
      this.token, this.ttl, this.wait, refreshing := token, ttl, wait, false;
    }

    /** acquire, while others may write the key between the attempts (`keys`). */
    method Acquire(redis: RedisKey, startedAt: Time, schedule: seq<Attempt>, keys: Keys)
      returns (r: Acquisition)
      modifies this, redis
      ensures r == Poll(keys, schedule, startedAt, wait, 0)
      ensures r.Acquired? ==>
                && r.attempt < |schedule|
                && redis.held == Some(Held(token, schedule[r.attempt].executed + ttl))
      ensures r.Raised? ==> r.attempt < |schedule| && redis.held == keys(r.attempt)
      ensures refreshing == (old(refreshing) || r.Acquired?)
    {
      var deadline := startedAt + wait;
      var k := 0;
      while k < |schedule|
        invariant k <= |schedule| && refreshing == old(refreshing)
        invariant Poll(keys, schedule, startedAt, wait, 0) == Poll(keys, schedule, startedAt, wait, k)
      {
        redis.held := keys(k);
        var ok := redis.SetNx(token, ttl, schedule[k].executed);
        if ok {
          refreshing := true;
          return Acquired(k);
        }
        if schedule[k].replied >= deadline {
          return Raised(k);
        }
        k := k + 1;
      }
      return Polling;
    }

    /** One round of _refresh_loop: extend the lease, or take the key back if it vanished. The two
        commands run at their own times, and `between` is the key as others left it meanwhile. */
    method RefreshOnce(redis: RedisKey, extendAt: Time, takeAt: Time, between: Key)
      returns (kept: bool)
      modifies redis
      ensures kept <==> IsHeldBy(old(redis.held), token, extendAt) || !IsHeld(between, takeAt)
      ensures IsHeldBy(old(redis.held), token, extendAt) ==>
                redis.held == Some(Held(token, extendAt + ttl))
      ensures !IsHeldBy(old(redis.held), token, extendAt) ==>
                redis.held == if kept then Some(Held(token, takeAt + ttl)) else between
    {
      kept := redis.Refresh(token, ttl, extendAt);
      if kept {
        return;
      }
      redis.held := between;
      kept := redis.SetNx(token, ttl, takeAt);
    }

    method Release(redis: RedisKey, now: Time)
      modifies this, redis
      ensures !refreshing && redis.held == AfterRelease(old(redis.held), token, now)
    {
      refreshing := false;
      redis.Release(token, now);
    }
  }
}
