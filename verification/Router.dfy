/** router.py: picking nodes among the candidates. Suspension and score are whatever the reputation
    system and the random noise make of them. */
module Router {
  import opened Prelude
  import opened Registry
  import opened Connections
  import opened Coordinator

  /** The entry names node n, lists the task type, and is official if only official nodes will do. */
  predicate EntryServes(entry: Entry, taskType: string, trust: Trust, n: NodeId) {
    && "node_id" in entry && entry["node_id"] == Text(n)
    && "capabilities" in entry && entry["capabilities"].Texts?
    && taskType in entry["capabilities"].texts
    && (trust == Any || ("trust" in entry && entry["trust"] == Text("official")))
  }

  /** Node n is connected and one of the entries read says that it can do the job. */
  ghost predicate Serves(pool: Pool, job: Job, nodes: seq<Entry>, n: NodeId) {
    && n in pool.connections
    && exists i :: 0 <= i < |nodes| && EntryServes(nodes[i], job.taskType, job.trust, n)
  }

  lemma IsCandidateExactly(pool: Pool, job: Job, entry: Entry, n: NodeId)
    ensures IsCandidate(pool, job, entry) && IdIn(entry).value == n
            <==> n in pool.connections && EntryServes(entry, job.taskType, job.trust, n)
  {
  }

  /** _candidates finds exactly the connected nodes whose entries can do the job: every one of them for
      trust 'any', the official ones for trust 'official'. */
  lemma CandidatesExactly(pool: Pool, job: Job, nodes: seq<Entry>, n: NodeId)
    ensures n in Candidates(pool, job, nodes) <==> Serves(pool, job, nodes, n)
  {
    forall i | 0 <= i < |nodes|
      ensures IsCandidate(pool, job, nodes[i]) && IdIn(nodes[i]).value == n
              <==> n in pool.connections && EntryServes(nodes[i], job.taskType, job.trust, n)
    {
      IsCandidateExactly(pool, job, nodes[i], n);
    }
  }

  /** Candidates that are not suspended, in the order their entries were read. */
  function Eligible(pool: Pool, job: Job, nodes: seq<Entry>, suspended: NodeId -> bool): seq<NodeId> {
    if nodes == [] then []
    else
      var e := nodes[|nodes| - 1];
      Eligible(pool, job, nodes[..|nodes| - 1], suspended)
      + (if IsCandidate(pool, job, e) && !suspended(IdIn(e).value) then [IdIn(e).value] else [])
  }

  lemma {:induction false} EligibleAreCandidates(pool: Pool, job: Job, nodes: seq<Entry>,
                                                 suspended: NodeId -> bool, n: NodeId)
    ensures n in Eligible(pool, job, nodes, suspended) <==>
            n in Candidates(pool, job, nodes) && !suspended(n)
  {
    if nodes != [] {
      var init, e := nodes[..|nodes| - 1], nodes[|nodes| - 1];
      EligibleAreCandidates(pool, job, init, suspended, n);
      assert forall i :: 0 <= i < |init| ==> init[i] == nodes[i];
      assert Candidates(pool, job, nodes) == Candidates(pool, job, init)
             + if IsCandidate(pool, job, e) then {IdIn(e).value} else {} by {
        forall m | m in Candidates(pool, job, init)
          ensures m in Candidates(pool, job, nodes)
        {
          var i :| 0 <= i < |init| && IsCandidate(pool, job, init[i]) && IdIn(init[i]).value == m;
          assert IsCandidate(pool, job, nodes[i]) && IdIn(nodes[i]).value == m;
        }
      }
    }
  }

  /** The two filtering loops keep exactly the connected, capable, trusted and unsuspended nodes. */
  lemma EligibleExactly(pool: Pool, job: Job, nodes: seq<Entry>, suspended: NodeId -> bool, n: NodeId)
    ensures n in Eligible(pool, job, nodes, suspended) <==>
            Serves(pool, job, nodes, n) && !suspended(n)
  {
    EligibleAreCandidates(pool, job, nodes, suspended, n);
    CandidatesExactly(pool, job, nodes, n);
  }

  /** Entries of different nodes give different nodes. */
  lemma {:induction false} EligibleDiffer(pool: Pool, job: Job, nodes: seq<Entry>,
                                          suspended: NodeId -> bool)
    requires DistinctIds(nodes)
    ensures Distinct(Eligible(pool, job, nodes, suspended))
  {
    if nodes != [] {
      var init, e := nodes[..|nodes| - 1], nodes[|nodes| - 1];
      EligibleDiffer(pool, job, init, suspended);
      EligibleAreCandidates(pool, job, init, suspended, IdIn(e).value);
      assert IdIn(e).value !in Candidates(pool, job, init);
    }
  }

  /** find_best_node: a best eligible node that is not excluded, if there is any. */
  method FindBestNode(pool: Pool, job: Job, nodes: seq<Entry>, exclude: set<NodeId>,
                      suspended: NodeId -> bool, score: NodeId -> real)
    returns (best: Option<NodeId>)
    ensures best.Some? ==>
              && Serves(pool, job, nodes, best.value) && !suspended(best.value)
              && best.value !in exclude
              && forall n :: Serves(pool, job, nodes, n) && !suspended(n) && n !in exclude ==>
                   score(n) <= score(best.value)
    ensures best.None? ==>
              forall n :: Serves(pool, job, nodes, n) ==> suspended(n) || n in exclude
  {
    var eligible := Eligible(pool, job, nodes, suspended);
    forall n
      ensures n in eligible <==> Serves(pool, job, nodes, n) && !suspended(n)
    {
      EligibleExactly(pool, job, nodes, suspended, n);
    }
    best := None;
    var i := 0;
    while i < |eligible|
      invariant i <= |eligible|
      invariant best.None? ==> forall j :: 0 <= j < i ==> eligible[j] in exclude
      invariant best.Some? ==>
                  && best.value in eligible && best.value !in exclude
                  && forall j :: 0 <= j < i && eligible[j] !in exclude ==>
                       score(eligible[j]) <= score(best.value)
    {
      if eligible[i] !in exclude && (best.None? || score(eligible[i]) > score(best.value)) {
        best := Some(eligible[i]);
      }
      i := i + 1;
    }
  }

  /** Insert into a list that is ordered by falling score, behind equal scores. */
  function Insert(n: NodeId, sorted: seq<NodeId>, score: NodeId -> real): seq<NodeId> {
    if sorted == [] then [n]
    else if score(n) > score(sorted[|sorted| - 1]) then
      Insert(n, sorted[..|sorted| - 1], score) + [sorted[|sorted| - 1]]
    else sorted + [n]
  }

  ghost predicate Falling(s: seq<NodeId>, score: NodeId -> real) {
    forall i, j :: 0 <= i < j < |s| ==> score(s[i]) >= score(s[j])
  }

  lemma {:induction false} InsertAdds(n: NodeId, sorted: seq<NodeId>, score: NodeId -> real)
    ensures multiset(Insert(n, sorted, score)) == multiset(sorted) + multiset{n}
  {
    if sorted != [] {
      var init, last := sorted[..|sorted| - 1], sorted[|sorted| - 1];
      assert sorted == init + [last];
      if score(n) > score(last) {
        InsertAdds(n, init, score);
      }
    }
  }

  lemma {:induction false} InsertKeepsOrder(n: NodeId, sorted: seq<NodeId>, score: NodeId -> real)
    requires Falling(sorted, score)
    ensures Falling(Insert(n, sorted, score), score)
  {
    if sorted != [] && score(n) > score(sorted[|sorted| - 1]) {
      var init, last := sorted[..|sorted| - 1], sorted[|sorted| - 1];
      InsertKeepsOrder(n, init, score);
      var r := Insert(n, init, score);
      forall i | 0 <= i < |r|
        ensures score(r[i]) >= score(last)
      {
        InsertAdds(n, init, score);
        assert r[i] in multiset(init) + multiset{n};
        assert r[i] == n || r[i] in init;
      }
    }
  }

  /** The ids of score `v`, in order. */
  function WithScore(ids: seq<NodeId>, v: real, score: NodeId -> real): seq<NodeId> {
    if ids == [] then []
    else WithScore(ids[..|ids| - 1], v, score)
         + (if score(ids[|ids| - 1]) == v then [ids[|ids| - 1]] else [])
  }

  lemma {:induction false} WithScoreAppend(a: seq<NodeId>, n: NodeId, v: real, score: NodeId -> real)
    ensures WithScore(a + [n], v, score) == WithScore(a, v, score) + (if score(n) == v then [n] else [])
  {
    assert (a + [n])[..|a|] == a;
  }

  /** Insertion puts the id behind all of its score. */
  lemma {:induction false} InsertIsStable(n: NodeId, sorted: seq<NodeId>, v: real, score: NodeId -> real)
    ensures WithScore(Insert(n, sorted, score), v, score)
            == WithScore(sorted, v, score) + (if score(n) == v then [n] else [])
  {
    if sorted != [] && score(n) > score(sorted[|sorted| - 1]) {
      var init, last := sorted[..|sorted| - 1], sorted[|sorted| - 1];
      InsertIsStable(n, init, v, score);
      WithScoreAppend(Insert(n, init, score), last, v, score);
    } else {
      WithScoreAppend(sorted, n, v, score);
    }
  }

  /** scored.sort(key=..., reverse=True): ids of one score stay in the order they had. */
  method SortByScore(ids: seq<NodeId>, score: NodeId -> real) returns (sorted: seq<NodeId>)
    ensures Falling(sorted, score) && multiset(sorted) == multiset(ids)
    ensures forall v :: WithScore(sorted, v, score) == WithScore(ids, v, score)
  {
    sorted := [];
    var i := 0;
    while i < |ids|
      invariant i <= |ids| && Falling(sorted, score) && multiset(sorted) == multiset(ids[..i])
      invariant forall v :: WithScore(sorted, v, score) == WithScore(ids[..i], v, score)
    {
      InsertAdds(ids[i], sorted, score);
      InsertKeepsOrder(ids[i], sorted, score);
      assert ids[..i + 1] == ids[..i] + [ids[i]];
      forall v
        ensures WithScore(Insert(ids[i], sorted, score), v, score) == WithScore(ids[..i + 1], v, score)
      {
        InsertIsStable(ids[i], sorted, v, score);
        WithScoreAppend(ids[..i], ids[i], v, score);
      }
      sorted := Insert(ids[i], sorted, score);
      i := i + 1;
    }
    assert ids[..i] == ids;
  }

  lemma Reordered(a: seq<NodeId>, b: seq<NodeId>)
    requires Distinct(a) && multiset(a) == multiset(b)
    ensures Distinct(b)
  {
    DistinctByCount(a);
    forall x | x in b
      ensures multiset(b)[x] == 1
    {
      assert x in multiset(b);
      assert x in a;
    }
    DistinctByCount(b);
  }

  /** find_nodes_for_split: as many of the best eligible nodes as are needed. */
  method FindNodesForSplit(pool: Pool, job: Job, nodes: seq<Entry>, needed: nat,
                           suspended: NodeId -> bool, score: NodeId -> real)
    returns (chosen: seq<NodeId>)
    ensures var eligible := Eligible(pool, job, nodes, suspended);
            && |chosen| == (if |eligible| < needed then |eligible| else needed)
            && multiset(chosen) <= multiset(eligible)
            && Falling(chosen, score)
            && forall n, c :: n in multiset(eligible) - multiset(chosen) && c in chosen ==>
                 score(n) <= score(c)
    ensures forall n :: n in chosen ==> Serves(pool, job, nodes, n) && !suspended(n)
    ensures forall n :: Serves(pool, job, nodes, n) && !suspended(n) && n !in chosen ==>
              |chosen| == needed && forall c :: c in chosen ==> score(n) <= score(c)
    ensures DistinctIds(nodes) ==> Distinct(chosen)
  {
    var eligible := Eligible(pool, job, nodes, suspended);
    var sorted := SortByScore(eligible, score);
    assert |multiset(sorted)| == |multiset(eligible)|;
    var k := if |sorted| < needed then |sorted| else needed;
    chosen := sorted[..k];
    FirstAreBest(sorted, k, score);
    if DistinctIds(nodes) {
      EligibleDiffer(pool, job, nodes, suspended);
      Reordered(eligible, sorted);
    }
    forall n
      ensures n in multiset(sorted) <==> Serves(pool, job, nodes, n) && !suspended(n)
    {
      EligibleExactly(pool, job, nodes, suspended, n);
      assert n in multiset(sorted) <==> n in multiset(eligible);
    }
    forall n | n in chosen
      ensures n in multiset(sorted)
    {
      assert n in sorted;
    }
  }

  /** The front of an ordered list against what is left of it. */
  lemma FirstAreBest(sorted: seq<NodeId>, k: nat, score: NodeId -> real)
    requires Falling(sorted, score) && k <= |sorted|
    ensures Falling(sorted[..k], score)
    ensures multiset(sorted) == multiset(sorted[..k]) + multiset(sorted[k..])
    ensures forall n, c :: n in multiset(sorted) - multiset(sorted[..k]) && c in sorted[..k] ==>
              score(n) <= score(c)
  {
    assert sorted == sorted[..k] + sorted[k..];
    forall n, c | n in multiset(sorted[k..]) && c in sorted[..k]
      ensures score(n) <= score(c)
    {
      var i :| 0 <= i < |sorted[k..]| && sorted[k..][i] == n;
      var j :| 0 <= j < k && sorted[..k][j] == c;
      assert sorted[k + i] == n && sorted[j] == c;
    }
  }
}
