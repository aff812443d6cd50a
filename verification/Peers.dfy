/** The collector's peer and connection index. */
module Peers {
  import opened Basics
  import opened Envelopes

  datatype ConnState = ConnState(
    peerAlias: nat,
    remoteAddr: string,
    localAddr: string,
    direction: string,
    transport: string,
    security: string,
    muxer: string,
    openedAtNs: int)

  datatype PeerState = PeerState(peerId: PeerId, connections: map<nat, ConnState>, firstSeenNs: int, lastSeenNs: int)

  datatype Index = Index(peers: map<nat, PeerState>, conns: map<nat, nat>)

  const EMPTY := Index(map[], map[])

  function UpsertPeer(x: Index, alias: nat, id: PeerId): Index {
    var ps := if alias in x.peers then x.peers[alias] else PeerState(id, map[], 0, 0);
    x.(peers := x.peers[alias := ps.(peerId := id)])
  }

  function UpsertConnection(x: Index, conn: nat, cs: ConnState): Index {
    if cs.peerAlias !in x.peers then x else
      var ps := x.peers[cs.peerAlias];
      var now := cs.openedAtNs;
      Index(
        x.peers[cs.peerAlias := PeerState(
          ps.peerId,
          ps.connections[conn := cs],
          if ps.firstSeenNs == 0 || now < ps.firstSeenNs then now else ps.firstSeenNs,
          if now > ps.lastSeenNs then now else ps.lastSeenNs)],
        x.conns[conn := cs.peerAlias])
  }

  function CloseConnection(x: Index, conn: nat): Index {
    if conn !in x.conns then x else
      var p := x.conns[conn];
      var conns := x.conns - {conn};
      if p !in x.peers then x.(conns := conns) else
        var left := x.peers[p].connections - {conn};
        if left == map[] then Index(x.peers - {p}, conns)
        else Index(x.peers[p := x.peers[p].(connections := left)], conns)
  }

  /** The two maps are mutual inverses: a connection is filed under exactly the peer it points to. */
  ghost predicate Agrees(x: Index) {
    && (forall c :: c in x.conns ==> x.conns[c] in x.peers && c in x.peers[x.conns[c]].connections)
    && (forall p, c :: p in x.peers && c in x.peers[p].connections ==>
          c in x.conns && x.conns[c] == p && x.peers[p].connections[c].peerAlias == p)
  }

  /** The peers that are listed: those with at least one connection. */
  ghost function Listed(x: Index): set<nat> {
    set p | p in x.peers && x.peers[p].connections != map[]
  }

  /** Re-announcing a connection keeps the index consistent exactly when it does not move to another known peer. */
  lemma UpsertConnectionAgrees(x: Index, conn: nat, cs: ConnState)
    requires Agrees(x)
    ensures Agrees(UpsertConnection(x, conn, cs)) <==>
      (cs.peerAlias in x.peers && conn in x.conns ==> x.conns[conn] == cs.peerAlias)
  {
    var y := UpsertConnection(x, conn, cs);
    if cs.peerAlias in x.peers && conn in x.conns && x.conns[conn] != cs.peerAlias {
      var p := x.conns[conn];
      assert p in y.peers && conn in y.peers[p].connections && y.conns[conn] != p;
    } else {
      forall c | c in y.conns
        ensures y.conns[c] in y.peers && c in y.peers[y.conns[c]].connections
      {
        assert c != conn ==> c in x.conns && y.conns[c] == x.conns[c];
      }
    }
  }

  /** Announcing a peer changes neither connections nor consistency. */
  lemma UpsertPeerAgrees(x: Index, alias: nat, id: PeerId)
    requires Agrees(x)
    ensures var y := UpsertPeer(x, alias, id);
      && Agrees(y) && y.conns == x.conns && y.peers.Keys == x.peers.Keys + {alias}
      && (forall p :: p in y.peers ==>
            y.peers[p].connections == (if p in x.peers then x.peers[p].connections else map[]) &&
            y.peers[p].peerId == (if p == alias then id else x.peers[p].peerId))
  {
  }

  /** Closing undoes opening: the connection is gone, other connections are untouched, and a peer without
      connections left disappears. */
  lemma CloseConnectionAgrees(x: Index, conn: nat)
    requires Agrees(x)
    ensures var y := CloseConnection(x, conn);
      && Agrees(y) && y.conns == x.conns - {conn}
      && (forall p :: p in x.peers && x.peers[p].connections != map[] ==>
            (p in y.peers <==> exists c :: c in x.peers[p].connections && c != conn))
      && (forall c :: c in y.conns ==>
            y.peers[y.conns[c]].peerId == x.peers[x.conns[c]].peerId &&
            y.peers[y.conns[c]].connections[c] == x.peers[x.conns[c]].connections[c])
  {
    CloseAgrees(x, conn);
    forall p | p in x.peers && x.peers[p].connections != map[]
      ensures p in CloseConnection(x, conn).peers <==> exists c :: c in x.peers[p].connections && c != conn
    {
      StaysListed(x, conn, p);
    }
  }

  lemma CloseAgrees(x: Index, conn: nat)
    requires Agrees(x)
    ensures var y := CloseConnection(x, conn);
      && Agrees(y) && y.conns == x.conns - {conn}
      && (forall c :: c in y.conns ==>
            y.peers[y.conns[c]].peerId == x.peers[x.conns[c]].peerId &&
            y.peers[y.conns[c]].connections[c] == x.peers[x.conns[c]].connections[c])
  {
    var y := CloseConnection(x, conn);
    forall c | c in y.conns
      ensures y.conns[c] in y.peers && c in y.peers[y.conns[c]].connections
      ensures y.peers[y.conns[c]].peerId == x.peers[x.conns[c]].peerId
      ensures y.peers[y.conns[c]].connections[c] == x.peers[x.conns[c]].connections[c]
    {
      OtherStays(x, conn, c);
    }
    forall p, c | p in y.peers && c in y.peers[p].connections
      ensures c in y.conns && y.conns[c] == p && y.peers[p].connections[c].peerAlias == p
    {
      OtherIsFiled(x, conn, p, c);
    }
  }

  /** Any other connection stays where it is. */
  lemma OtherStays(x: Index, conn: nat, c: nat)
    requires Agrees(x) && c in x.conns && c != conn
    ensures var y := CloseConnection(x, conn);
      && c in y.conns && y.conns[c] == x.conns[c] && y.conns[c] in y.peers && c in y.peers[y.conns[c]].connections
      && y.peers[y.conns[c]].peerId == x.peers[x.conns[c]].peerId
      && y.peers[y.conns[c]].connections[c] == x.peers[x.conns[c]].connections[c]
  {
    if conn in x.conns && x.conns[c] == x.conns[conn] {
      assert c in x.peers[x.conns[conn]].connections - {conn};
    }
  }

  lemma OtherIsFiled(x: Index, conn: nat, p: nat, c: nat)
    requires Agrees(x)
    requires var y := CloseConnection(x, conn); p in y.peers && c in y.peers[p].connections
    ensures var y := CloseConnection(x, conn);
      c in y.conns && y.conns[c] == p && y.peers[p].connections[c].peerAlias == p
  {
    assert p in x.peers && c in x.peers[p].connections;
  }

  /** A peer with connections stays known exactly when another one is left. */
  lemma StaysListed(x: Index, conn: nat, p: nat)
    requires Agrees(x) && p in x.peers && x.peers[p].connections != map[]
    ensures p in CloseConnection(x, conn).peers <==> exists c :: c in x.peers[p].connections && c != conn
  {
    var left := x.peers[p].connections - {conn};
    assert left == map[] <==> forall c :: c in x.peers[p].connections ==> c == conn by {
      assert left == map[] <==> left.Keys == {};
      assert forall c :: c in left.Keys <==> c in x.peers[p].connections && c != conn;
    }
    if conn !in x.peers[p].connections {
      assert left == x.peers[p].connections;
    }
  }

  // ---- The index as a flat table ---------------------------------------------------------------

  /** A connection with the peer it belongs to; seen-times are not part of it. */
  datatype Entry = Entry(alias: nat, id: PeerId, state: ConnState)

  function EntryOf(x: Index, c: nat): Option<Entry> {
    if c in x.conns && x.conns[c] in x.peers && c in x.peers[x.conns[c]].connections
    then Some(Entry(x.conns[c], x.peers[x.conns[c]].peerId, x.peers[x.conns[c]].connections[c]))
    else None
  }

  /** The connection table an index stands for. */
  function Flat(x: Index): map<nat, Entry> {
    map c | c in x.conns && EntryOf(x, c).Some? :: EntryOf(x, c).value
  }

  lemma FlatIsAll(x: Index)
    requires Agrees(x)
    ensures Flat(x).Keys == x.conns.Keys
    ensures forall c :: c in x.conns ==> EntryOf(x, c) == Some(Flat(x)[c])
  {
  }

  /** Announcing a peer under the identity its connections already have changes no entry. */
  lemma FlatUpsertPeer(x: Index, alias: nat, id: PeerId)
    requires Agrees(x)
    requires forall c :: c in Flat(x) && Flat(x)[c].alias == alias ==> Flat(x)[c].id == id
    ensures var y := UpsertPeer(x, alias, id);
      Agrees(y) && Flat(y) == Flat(x) && alias in y.peers && y.peers[alias].peerId == id
  {
    var y := UpsertPeer(x, alias, id);
    UpsertPeerAgrees(x, alias, id);
    FlatIsAll(x);
    FlatIsAll(y);
    forall c | c in x.conns
      ensures Flat(y)[c] == Flat(x)[c]
    {
      assert EntryOf(y, c) == EntryOf(x, c);
    }
  }

  lemma EntryAfterUpsert(x: Index, c: nat, cs: ConnState, d: nat)
    requires cs.peerAlias in x.peers
    ensures EntryOf(UpsertConnection(x, c, cs), d) ==
      if d == c then Some(Entry(cs.peerAlias, x.peers[cs.peerAlias].peerId, cs)) else EntryOf(x, d)
  {
  }

  /** A new or re-announced connection of a known peer sets its entry. */
  lemma FlatUpsertConnection(x: Index, c: nat, cs: ConnState)
    requires Agrees(x) && cs.peerAlias in x.peers
    requires c in x.conns ==> x.conns[c] == cs.peerAlias
    ensures var y := UpsertConnection(x, c, cs);
      Agrees(y) && Flat(y) == Flat(x)[c := Entry(cs.peerAlias, x.peers[cs.peerAlias].peerId, cs)]
  {
    UpsertConnectionAgrees(x, c, cs);
    FlatUpsert(x, c, cs);
  }

  lemma FlatUpsert(x: Index, c: nat, cs: ConnState)
    requires cs.peerAlias in x.peers
    ensures Flat(UpsertConnection(x, c, cs)) == Flat(x)[c := Entry(cs.peerAlias, x.peers[cs.peerAlias].peerId, cs)]
  {
  }

  lemma FlatCloseConnection(x: Index, c: nat)
    requires Agrees(x)
    ensures var y := CloseConnection(x, c); Agrees(y) && Flat(y) == Flat(x) - {c}
  {
    CloseAgrees(x, c);
    FlatShrinks(x, c, CloseConnection(x, c));
  }

  lemma FlatShrinks(x: Index, c: nat, y: Index)
    requires Agrees(x) && Agrees(y) && y.conns == x.conns - {c}
    requires forall d :: d in y.conns ==>
      y.peers[y.conns[d]].peerId == x.peers[x.conns[d]].peerId &&
      y.peers[y.conns[d]].connections[d] == x.peers[x.conns[d]].connections[d]
    ensures Flat(y) == Flat(x) - {c}
  {
    FlatIsAll(x);
    FlatIsAll(y);
    forall d | d in y.conns
      ensures Flat(y)[d] == Flat(x)[d]
    {
      assert EntryOf(y, d) == EntryOf(x, d);
    }
  }

  /** The connections of a listed peer are the entries with its alias. */
  lemma ConnectionsFromFlat(x: Index, y: Index, a: nat)
    requires Agrees(x) && Agrees(y) && Flat(x) == Flat(y) && a in Listed(x)
    ensures a in Listed(y) && x.peers[a].peerId == y.peers[a].peerId && x.peers[a].connections == y.peers[a].connections
  {
    FlatIsAll(x);
    FlatIsAll(y);
    assert x.peers[a].connections.Keys != {};
    var k :| k in x.peers[a].connections.Keys;
    assert EntryOf(x, k) == EntryOf(y, k) && x.conns[k] == a;
    var f, g := x.peers[a].connections, y.peers[a].connections;
    forall c
      ensures c in f <==> c in g
      ensures c in f ==> f[c] == g[c]
    {
      assert c in f ==> c in x.conns && x.conns[c] == a && EntryOf(x, c) == EntryOf(y, c);
      assert c in g ==> c in y.conns && y.conns[c] == a && EntryOf(x, c) == EntryOf(y, c);
    }
  }

  datatype Op = Peer(alias: nat, id: PeerId) | Open(conn: nat, cs: ConnState) | Close(conn: nat) | Clear

  function Apply(x: Index, op: Op): Index {
    match op
    case Peer(alias, id) => UpsertPeer(x, alias, id)
    case Open(conn, cs) => UpsertConnection(x, conn, cs)
    case Close(conn) => CloseConnection(x, conn)
    case Clear => EMPTY
  }

  function ApplyAll(x: Index, ops: seq<Op>): Index {
    if ops == [] then x else Apply(ApplyAll(x, ops[..|ops| - 1]), ops[|ops| - 1])
  }

  /** Over every run in which a connection alias always names the same peer, the maps stay inverses and the
      listed peers are exactly the peers some connection points to. */
  lemma {:induction false} IndexAgreesOverRuns(ops: seq<Op>, owner: nat -> nat)
    requires forall i :: 0 <= i < |ops| && ops[i].Open? ==> ops[i].cs.peerAlias == owner(ops[i].conn)
    ensures var x := ApplyAll(EMPTY, ops);
      && Agrees(x)
      && (forall c :: c in x.conns ==> x.conns[c] == owner(c))
      && Listed(x) == x.conns.Values
    decreases |ops|
  {
    if ops != [] {
      var n := |ops| - 1;
      var before := ApplyAll(EMPTY, ops[..n]);
      IndexAgreesOverRuns(ops[..n], owner);
      match ops[n]
      case Peer(_, _) =>
      case Open(conn, cs) => UpsertConnectionAgrees(before, conn, cs);
      case Close(conn) => CloseConnectionAgrees(before, conn);
      case Clear =>
    }
    ListedArePointedTo(ApplyAll(EMPTY, ops));
  }

  lemma ListedArePointedTo(x: Index)
    requires Agrees(x)
    ensures Listed(x) == x.conns.Values
  {
    forall p | p in Listed(x)
      ensures p in x.conns.Values
    {
      assert x.peers[p].connections.Keys != {};
      var c :| c in x.peers[p].connections.Keys;
      assert x.conns[c] == p;
    }
  }

  // ---- Seen-times ----------------------------------------------------------------------------------------------

  /** The operation opens a connection of this peer. */
  predicate OpensFor(op: Op, p: nat) {
    op.Open? && op.cs.peerAlias == p
  }

  /** The peer is known all along. */
  ghost predicate StaysKnown(x: Index, ops: seq<Op>, p: nat) {
    forall k :: 0 <= k <= |ops| ==> p in ApplyAll(x, ops[..k]).peers
  }

  /** The latest opening, and zero if there is none that is positive. */
  ghost predicate IsLatest(ops: seq<Op>, p: nat, t: int) {
    && t >= 0 && (forall i :: 0 <= i < |ops| && OpensFor(ops[i], p) ==> ops[i].cs.openedAtNs <= t)
    && (t > 0 ==> exists i :: 0 <= i < |ops| && OpensFor(ops[i], p) && ops[i].cs.openedAtNs == t)
  }

  /** The earliest opening, and zero if there is none. */
  ghost predicate IsEarliest(ops: seq<Op>, p: nat, t: int) {
    && (forall i :: 0 <= i < |ops| && OpensFor(ops[i], p) ==> t != 0 && t <= ops[i].cs.openedAtNs)
    && (t != 0 ==> exists i :: 0 <= i < |ops| && OpensFor(ops[i], p) && ops[i].cs.openedAtNs == t)
  }

  lemma SeenStep(x: Index, op: Op, p: nat)
    requires p in x.peers && p in Apply(x, op).peers
    ensures var ps, qs := x.peers[p], Apply(x, op).peers[p];
      if OpensFor(op, p)
      then qs.lastSeenNs == (if op.cs.openedAtNs > ps.lastSeenNs then op.cs.openedAtNs else ps.lastSeenNs)
        && qs.firstSeenNs == (if ps.firstSeenNs == 0 || op.cs.openedAtNs < ps.firstSeenNs then op.cs.openedAtNs
                              else ps.firstSeenNs)
      else qs.lastSeenNs == ps.lastSeenNs && qs.firstSeenNs == ps.firstSeenNs
  {
  }

  lemma LatestStep(ops: seq<Op>, op: Op, all: seq<Op>, p: nat, t: int)
    requires IsLatest(ops, p, t) && all == ops + [op]
    ensures IsLatest(all, p, if OpensFor(op, p) && op.cs.openedAtNs > t then op.cs.openedAtNs else t)
  {
    assert all[|ops|] == op && forall i :: 0 <= i < |ops| ==> all[i] == ops[i];
    if t > 0 {
      var i :| 0 <= i < |ops| && OpensFor(ops[i], p) && ops[i].cs.openedAtNs == t;
      assert OpensFor(all[i], p);
    }
  }

  lemma EarliestStep(ops: seq<Op>, op: Op, all: seq<Op>, p: nat, t: int)
    requires IsEarliest(ops, p, t) && all == ops + [op] && (OpensFor(op, p) ==> op.cs.openedAtNs != 0)
    ensures IsEarliest(all, p,
      if OpensFor(op, p) && (t == 0 || op.cs.openedAtNs < t) then op.cs.openedAtNs else t)
  {
    assert all[|ops|] == op && forall i :: 0 <= i < |ops| ==> all[i] == ops[i];
    if t != 0 {
      var i :| 0 <= i < |ops| && OpensFor(ops[i], p) && ops[i].cs.openedAtNs == t;
      assert OpensFor(all[i], p);
    }
  }

  lemma KnownBefore(x: Index, ops: seq<Op>, p: nat)
    requires StaysKnown(x, ops, p) && ops != []
    ensures StaysKnown(x, ops[..|ops| - 1], p) && p in ApplyAll(x, ops).peers
  {
    var pre := ops[..|ops| - 1];
    forall k | 0 <= k <= |pre|
      ensures p in ApplyAll(x, pre[..k]).peers
    {
      assert pre[..k] == ops[..k];
    }
    assert ops[..|ops|] == ops;
  }

  /** Over every run in which a newly announced peer stays known, it was last seen at its latest opening, and, if no
      opening is at time zero, which stands for none, first seen at its earliest. */
  lemma {:induction false} SeenTimes(x: Index, ops: seq<Op>, p: nat)
    requires StaysKnown(x, ops, p) && p in x.peers && x.peers[p].firstSeenNs == 0 && x.peers[p].lastSeenNs == 0
    ensures p in ApplyAll(x, ops).peers && IsLatest(ops, p, ApplyAll(x, ops).peers[p].lastSeenNs)
    ensures (forall i :: 0 <= i < |ops| && OpensFor(ops[i], p) ==> ops[i].cs.openedAtNs != 0) ==>
      IsEarliest(ops, p, ApplyAll(x, ops).peers[p].firstSeenNs)
    decreases |ops|
  {
    if ops == [] {
      assert ApplyAll(x, ops) == x;
    } else {
      var n := |ops| - 1;
      KnownBefore(x, ops, p);
      SeenTimes(x, ops[..n], p);
      var before := ApplyAll(x, ops[..n]);
      assert ops == ops[..n] + [ops[n]];
      SeenStep(before, ops[n], p);
      LatestStep(ops[..n], ops[n], ops, p, before.peers[p].lastSeenNs);
      if forall i :: 0 <= i < |ops| && OpensFor(ops[i], p) ==> ops[i].cs.openedAtNs != 0 {
        EarliestStep(ops[..n], ops[n], ops, p, before.peers[p].firstSeenNs);
      }
    }
  }

  lemma CountStep(listed: set<nat>, todo: set<nat>, p: nat)
    requires p in todo
    ensures |listed - (todo - {p})| == |listed - todo| + if p in listed then 1 else 0
  {
    if p in listed {
      assert listed - (todo - {p}) == (listed - todo) + {p};
    } else {
      assert listed - (todo - {p}) == listed - todo;
    }
  }

  class PeerMap {
    var peers: map<nat, PeerState>
    var conns: map<nat, nat>

    ghost function Value(): Index
      reads this
    {
      Index(peers, conns)
    }

    constructor ()
      ensures Value() == EMPTY
    {
      peers, conns := map[], map[];
    }

    method UpsertPeerState(alias: nat, id: PeerId)
      modifies this
      ensures Value() == UpsertPeer(old(Value()), alias, id)
    {
      if alias !in peers {
        peers := peers[alias := PeerState(id, map[], 0, 0)];
      }
      peers := peers[alias := peers[alias].(peerId := id)];
    }

    method UpsertConnectionState(conn: nat, cs: ConnState)
      modifies this
      ensures Value() == UpsertConnection(old(Value()), conn, cs)
    {
      var p := cs.peerAlias;
      if p !in peers {
        return;
      }
      var ps := peers[p];
      ps := ps.(connections := ps.connections[conn := cs]);
      conns := conns[conn := p];
      var now := cs.openedAtNs;
      if ps.firstSeenNs == 0 || now < ps.firstSeenNs {
        ps := ps.(firstSeenNs := now);
      }
      if now > ps.lastSeenNs {
        ps := ps.(lastSeenNs := now);
      }
      peers := peers[p := ps];
    }

    method Close(conn: nat)
      modifies this
      ensures Value() == CloseConnection(old(Value()), conn)
    {
      if conn !in conns {
        return;
      }
      var p := conns[conn];
      conns := conns - {conn};
      if p !in peers {
        return;
      }
      var ps := peers[p].(connections := peers[p].connections - {conn});
      if |ps.connections| == 0 {
        peers := peers - {p};
      } else {
        peers := peers[p := ps];
      }
    }

    /** Collects the peers that have connections, in whatever order the map yields them. */
    method ListPeers() returns (result: seq<(nat, PeerState)>)
      ensures forall p :: p in Listed(Value()) <==> (p in peers && (p, peers[p]) in result)
      ensures forall i :: 0 <= i < |result| ==> result[i].0 in peers && result[i].1 == peers[result[i].0]
      ensures forall i, j :: 0 <= i < j < |result| ==> result[i].0 != result[j].0
    {
      result := [];
      var all := peers;
      var todo := all.Keys;
      while todo != {}
        invariant todo <= all.Keys
        invariant forall p :: p in all && p !in todo ==> (all[p].connections != map[] <==> (p, all[p]) in result)
        invariant forall i :: 0 <= i < |result| ==>
          result[i].0 in all && result[i].0 !in todo && result[i].1 == all[result[i].0]
        invariant forall i, j :: 0 <= i < j < |result| ==> result[i].0 != result[j].0
        decreases |todo|
      {
        var p :| p in todo;
        todo := todo - {p};
        if |all[p].connections| > 0 {
          result := result + [(p, all[p])];
        }
      }
    }

    method Count() returns (n: nat)
      ensures n == |Listed(Value())|
    {
      n := 0;
      var all := peers;
      var todo := all.Keys;
      ghost var listed := Listed(Value());
      while todo != {}
        invariant todo <= all.Keys && n == |listed - todo|
        decreases |todo|
      {
        var p :| p in todo;
        CountStep(listed, todo, p);
        if |all[p].connections| > 0 {
          n := n + 1;
        }
        todo := todo - {p};
      }
      assert listed - {} == listed;
    }

    method ClearAll()
      modifies this
      ensures Value() == EMPTY
    {
      peers, conns := map[], map[];
    }
  }
}
