/** ws_manager.py: the pool of live node connections. */
module Connections {
  import opened Prelude
  import opened Registry

  /** The three dictionaries of WSConnectionManager. */
  datatype Pool = Pool(connections: map<NodeId, Conn>, nodeInfo: map<NodeId, Entry>,
                       nodeAccount: map<NodeId, Account>)
  {
    function Attach(nodeId: NodeId, conn: Conn, info: Entry, account: Option<Account>): Pool {
      Pool(connections[nodeId := conn], nodeInfo[nodeId := info],
           if account.Some? then nodeAccount[nodeId := account.value] else nodeAccount)
    }

    /** The connection an attach replaces, if it is another one. */
    function Replaced(nodeId: NodeId, conn: Conn): Option<Conn> {
      var previous := Get(connections, nodeId);
      if previous == Some(conn) then None else previous
    }

    /** `conn` is None where the program passes None: then an absent node "matches". */
    predicate IsLive(nodeId: NodeId, conn: Option<Conn>) {
      Get(connections, nodeId) == conn
    }

    function Remove(nodeId: NodeId): Pool {
      Pool(connections - {nodeId}, nodeInfo - {nodeId}, nodeAccount - {nodeId})
    }

    function Detach(nodeId: NodeId, conn: Option<Conn>): Pool {
      if IsLive(nodeId, conn) then Remove(nodeId) else this
    }

    function AccountNodes(account: Account): set<NodeId> {
      set n | n in nodeAccount && nodeAccount[n] == account
    }

    predicate ExceedsNodeLimit(account: Account, nodeId: NodeId, limit: int) {
      |AccountNodes(account) - {nodeId}| >= limit
    }
  }

  const EMPTY_POOL := Pool(map[], map[], map[])

  /* ---- Latest connection wins, over any sequence of calls ---- */

  datatype Call =
    | Attach(nodeId: NodeId, conn: Conn, info: Entry, account: Option<Account>)
    | Detach(nodeId: NodeId, socket: Option<Conn>)

  function Apply(p: Pool, c: Call): Pool {
    match c
    case Attach(nodeId, conn, info, account) => p.Attach(nodeId, conn, info, account)
    case Detach(nodeId, socket) => p.Detach(nodeId, socket)
  }

  /** The pool after the given calls, starting empty. */
  function After(calls: seq<Call>): Pool {
    if calls == [] then EMPTY_POOL
    else Apply(After(calls[..|calls| - 1]), calls[|calls| - 1])
  }

  /** Call `i` is the last attach of its node, and nobody detached that connection since. */
  ghost predicate LastAttached(calls: seq<Call>, i: nat, nodeId: NodeId, conn: Conn) {
    && i < |calls| && calls[i].Attach? && calls[i].nodeId == nodeId && calls[i].conn == conn
    && (forall j :: i < j < |calls| && calls[j].nodeId == nodeId ==>
          calls[j].Detach? && calls[j].socket != Some(conn))
  }

  /** A connection is live exactly when it is its node's last attached, not yet detached one. */
  lemma {:induction false} LatestConnectionWins(calls: seq<Call>, nodeId: NodeId, conn: Conn)
    ensures Get(After(calls).connections, nodeId) == Some(conn) <==>
            exists i: nat :: LastAttached(calls, i, nodeId, conn)
  {
    if calls == [] {
      return;
    }
    var m := |calls| - 1;
    var before, last := calls[..m], calls[m];
    LatestConnectionWins(before, nodeId, conn);
    if last.nodeId != nodeId || (last.Detach? && last.socket != Some(conn)) {
      forall i: nat
        ensures LastAttached(before, i, nodeId, conn) <==> LastAttached(calls, i, nodeId, conn)
      {
        assert i < m ==> before[i] == calls[i];
        if LastAttached(calls, i, nodeId, conn) {
          assert forall j :: i < j < m ==> before[j] == calls[j];
        }
      }
    } else if last.Attach? && last.conn == conn {
      assert LastAttached(calls, m, nodeId, conn);
    } else {
      assert forall i: nat :: i < m ==> !LastAttached(calls, i, nodeId, conn);
    }
  }

  /** A live connection's node has the info of that connection's attach, and the account it named. */
  lemma {:induction false} LatestInfo(calls: seq<Call>, i: nat, nodeId: NodeId, conn: Conn)
    requires LastAttached(calls, i, nodeId, conn)
    ensures Get(After(calls).connections, nodeId) == Some(conn)
    ensures Get(After(calls).nodeInfo, nodeId) == Some(calls[i].info)
    ensures calls[i].account.Some? ==> Get(After(calls).nodeAccount, nodeId) == calls[i].account
    decreases |calls|
  {
    var before := calls[..|calls| - 1];
    if i < |calls| - 1 {
      assert before[i] == calls[i];
      assert forall j :: i < j < |before| ==> before[j] == calls[j];
      LatestInfo(before, i, nodeId, conn);
    }
  }

  /** The public info of a node comes and goes with its connection; so does its account, as long
      as every attach names one (the coordinator's does). */
  lemma {:induction false} SameKeys(calls: seq<Call>)
    ensures After(calls).nodeInfo.Keys == After(calls).connections.Keys
    ensures After(calls).nodeAccount.Keys <= After(calls).connections.Keys
    ensures (forall i :: 0 <= i < |calls| && calls[i].Attach? ==> calls[i].account.Some?) ==>
              After(calls).nodeAccount.Keys == After(calls).connections.Keys
  {
    if calls != [] {
      SameKeys(calls[..|calls| - 1]);
    }
  }

  /** A connection that was replaced never tears down its successor's state. */
  lemma ReplacedDetachIsIdle(p: Pool, nodeId: NodeId, earlier: Conn, conn: Conn, info: Entry,
                             account: Option<Account>)
    requires earlier != conn
    ensures var q := p.Attach(nodeId, conn, info, account); q.Detach(nodeId, Some(earlier)) == q
  {
  }

  lemma AddThenRemove<K, V>(m: map<K, V>, k: K, v: V)
    ensures m[k := v] - {k} == m - {k}
    ensures k !in m ==> m - {k} == m
  {
  }

  /** Rolling back an attach leaves the node offline; if it was offline, the pool is restored. */
  lemma Rollback(p: Pool, nodeId: NodeId, conn: Conn, info: Entry, account: Account)
    ensures p.Attach(nodeId, conn, info, Some(account)).Detach(nodeId, Some(conn))
            == p.Remove(nodeId)
    ensures nodeId !in p.connections && nodeId !in p.nodeInfo && nodeId !in p.nodeAccount ==>
              p.Remove(nodeId) == p
  {
    AddThenRemove(p.connections, nodeId, conn);
    AddThenRemove(p.nodeInfo, nodeId, info);
    AddThenRemove(p.nodeAccount, nodeId, account);
  }

  class WSConnectionManager {
    var connections: map<NodeId, Conn>
    var nodeInfo: map<NodeId, Entry>
    var nodeAccount: map<NodeId, Account>

    constructor ()
      ensures View() == EMPTY_POOL
    {
      connections, nodeInfo, nodeAccount := map[], map[], map[];
    }

    function View(): Pool
      reads this
    {
      Pool(connections, nodeInfo, nodeAccount)
    }

    method Attach(nodeId: NodeId, conn: Conn, info: Entry, account: Option<Account>)
      returns (replaced: Option<Conn>)
      modifies this
      ensures View() == old(View()).Attach(nodeId, conn, info, account)
      ensures replaced == old(View()).Replaced(nodeId, conn)
    {
      var previous := Get(connections, nodeId);
      connections := connections[nodeId := conn];
      nodeInfo := nodeInfo[nodeId := info];
      if account.Some? {
        nodeAccount := nodeAccount[nodeId := account.value];
      }
      replaced := if previous != Some(conn) then previous else None;
    }

    method Detach(nodeId: NodeId, conn: Option<Conn>) returns (wasLive: bool)
      modifies this
      ensures wasLive == old(View()).IsLive(nodeId, conn)
      ensures View() == old(View()).Detach(nodeId, conn)
    {
      if Get(connections, nodeId) != conn {
        return false;
      }
      connections := connections - {nodeId};
      nodeInfo := nodeInfo - {nodeId};
      nodeAccount := nodeAccount - {nodeId};
      return true;
    }

    method ExceedsNodeLimit(account: Account, nodeId: NodeId, limit: int) returns (exceeds: bool)
      ensures exceeds <==>
              |set n | n in nodeAccount && nodeAccount[n] == account && n != nodeId| >= limit
      ensures exceeds == View().ExceedsNodeLimit(account, nodeId, limit)
    {
      var others := set n | n in nodeAccount && nodeAccount[n] == account && n != nodeId;
      assert others == View().AccountNodes(account) - {nodeId};
      exceeds := |others| >= limit;
    }
  }
}
