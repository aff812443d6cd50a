/** The collector's alias state as a mirror of the probe: what replaying the log, and what a snapshot, rebuilds. */
module Mirror {
  import opened Basics
  import opened Envelopes
  import opened Processor
  import opened Probe
  import Peers

  /** Applying envelopes to the alias state one by one. */
  function Replay(a: Aliases, es: seq<Envelope>): Aliases {
    if es == [] then a else ApplyAlias(Replay(a, es[..|es| - 1]), es[|es| - 1].payload)
  }

  lemma {:induction false} ReplayAppend(a: Aliases, es: seq<Envelope>, fs: seq<Envelope>)
    ensures Replay(a, es + fs) == Replay(Replay(a, es), fs)
    decreases |fs|
  {
    if fs == [] {
      assert es + fs == es;
    } else {
      var all := es + fs;
      assert all[..|all| - 1] == es + fs[..|fs| - 1];
      ReplayAppend(a, es, fs[..|fs| - 1]);
    }
  }

  // ---- Matching ------------------------------------------------------------------------------------

  function StringMap(strings: seq<string>): map<nat, string> {
    map i: nat | i < |strings| :: strings[i]
  }

  function Protocols(strings: seq<string>, streams: map<nat, StreamInfo>): map<nat, string> {
    map a | a in streams :: Text(StringMap(strings), streams[a].protocolId)
  }

  /** What the collector should report about a tracked connection. */
  function Truth(w: TrackedConn, openedAtNs: int): Peers.ConnState {
    Peers.ConnState(w.peerAlias, w.conn.remoteAddr, w.conn.localAddr, DirectionText(w.conn.direction),
                    w.conn.transport, w.conn.security, w.conn.muxer, openedAtNs)
  }

  /** The connection table the collector should have. */
  function Expected(connById: map<nat, TrackedConn>, infos: map<nat, ConnectionInfo>): map<nat, Peers.Entry> {
    map c | c in connById && c in infos ::
      Peers.Entry(connById[c].peerAlias, connById[c].conn.remotePeer, Truth(connById[c], infos[c].openedAtNs))
  }

  /** The alias state holds exactly the probe's strings, open streams and tracked connections, the latter filed
      under the right peer and described as they are. */
  ghost predicate Matches(a: Aliases, p: State) {
    && a.strings == StringMap(p.table.strings)
    && a.protocols == Protocols(p.table.strings, p.net.streamUpserts)
    && Peers.Agrees(a.peers)
    && Peers.Flat(a.peers) == Expected(p.net.connById, p.net.connectionUpserts)
  }

  /** One row of the peer list, without its seen-times. */
  datatype PeerRow = PeerRow(id: PeerId, connections: map<nat, Peers.ConnState>)

  /** What a user of the collector can see of the alias state: strings, stream protocols, connections with their
      peer aliases, and the listed peers with their identity and connections. */
  datatype View = View(
    strings: map<nat, string>, protocols: map<nat, string>, conns: map<nat, nat>, peers: map<nat, PeerRow>)

  ghost function PeerRows(x: Peers.Index): map<nat, PeerRow> {
    map a | a in Peers.Listed(x) :: PeerRow(x.peers[a].peerId, x.peers[a].connections)
  }

  ghost function ViewOf(a: Aliases): View {
    View(a.strings, a.protocols, a.peers.conns, PeerRows(a.peers))
  }

  /** Indexes with the same table list the same peers with the same connections. */
  lemma SameTableSameRows(x: Peers.Index, y: Peers.Index)
    requires Peers.Agrees(x) && Peers.Agrees(y) && Peers.Flat(x) == Peers.Flat(y)
    ensures x.conns == y.conns && PeerRows(x) == PeerRows(y)
  {
    Peers.FlatIsAll(x);
    Peers.FlatIsAll(y);
    forall c | c in x.conns
      ensures x.conns[c] == y.conns[c]
    {
      assert Peers.EntryOf(x, c) == Peers.EntryOf(y, c);
    }
    forall a | a in Peers.Listed(x)
      ensures a in Peers.Listed(y) && PeerRows(x)[a] == PeerRows(y)[a]
    {
      Peers.ConnectionsFromFlat(x, y, a);
    }
    forall a | a in Peers.Listed(y)
      ensures a in Peers.Listed(x)
    {
      Peers.ConnectionsFromFlat(y, x, a);
    }
  }

  /** All mirrors of one probe look the same. */
  lemma MirrorsLookAlike(a: Aliases, b: Aliases, p: State)
    requires Matches(a, p) && Matches(b, p)
    ensures ViewOf(a) == ViewOf(b)
  {
    SameTableSameRows(a.peers, b.peers);
  }

  // ---- Single emissions ----------------------------------------------------------------------------

  lemma ProtocolsSurvive(strings: seq<string>, more: seq<string>, streams: map<nat, StreamInfo>, next: nat)
    requires ValidStreams(strings, streams, next) && strings <= more
    ensures Protocols(more, streams) == Protocols(strings, streams)
  {
  }

  lemma ProtocolAdded(strings: seq<string>, streams: map<nat, StreamInfo>, info: StreamInfo)
    ensures Protocols(strings, streams[info.streamAlias := info])
         == Protocols(strings, streams)[info.streamAlias := Text(StringMap(strings), info.protocolId)]
  {
  }

  lemma ProtocolsRemoved(strings: seq<string>, streams: map<nat, StreamInfo>, gone: set<nat>)
    ensures Protocols(strings, streams - gone) == Protocols(strings, streams) - gone
  {
  }

  lemma StringDefMatches(a: Aliases, p: State, now: Time, s: string)
    requires Valid(p) && Matches(a, p) && s !in p.table.ids
    ensures Matches(ApplyAlias(a, StringDef(|p.table.strings|, s)), Intern(p, now, s))
  {
    var strings := p.table.strings;
    assert StringMap(strings + [s]) == StringMap(strings)[|strings| := s];
    ProtocolsSurvive(strings, strings + [s], p.net.streamUpserts, p.net.nextStream);
  }

  /** Entries with a peer's alias carry that peer's identity. */
  lemma AliasNamesPeer(strings: seq<string>, n: Net, id: PeerId)
    requires ValidNet(strings, n) && id in n.peers
    ensures forall c | c in Expected(n.connById, n.connectionUpserts) ::
      Expected(n.connById, n.connectionUpserts)[c].alias == n.peers[id] ==>
        Expected(n.connById, n.connectionUpserts)[c].id == id
  {
  }

  // ---- Whole operations ----------------------------------------------------------------------------

  /** What the probe emitted on the way from p to q. */
  function Emitted(p: State, q: State): seq<Envelope>
    requires |p.log| <= |q.log|
  {
    q.log[|p.log|..]
  }

  /** q follows p, and a mirror of p that applies what was emitted in between is a mirror of q. */
  ghost predicate Carries(a: Aliases, p: State, q: State) {
    Extends(p, q) && Valid(q) && Matches(Replay(a, Emitted(p, q)), q)
  }

  lemma Compose(a: Aliases, p: State, q: State, r: State)
    requires Carries(a, p, q) && Carries(Replay(a, Emitted(p, q)), q, r)
    ensures Carries(a, p, r)
    ensures Replay(a, Emitted(p, r)) == Replay(Replay(a, Emitted(p, q)), Emitted(q, r))
  {
    assert Emitted(p, r) == Emitted(p, q) + Emitted(q, r);
    ReplayAppend(a, Emitted(p, q), Emitted(q, r));
  }

  lemma NothingEmitted(a: Aliases, p: State, q: State)
    requires Extends(p, q) && Valid(q) && q.log == p.log && Matches(a, q)
    ensures Carries(a, p, q) && Replay(a, Emitted(p, q)) == a
  {
  }

  /** Only the log, the strings and the peers of the start matter. */
  lemma SameStart(a: Aliases, p: State, p0: State, q: State)
    requires p0.log == p.log && p0.table == p.table && p0.net.peers == p.net.peers && Carries(a, p0, q)
    ensures Carries(a, p, q)
  {
  }

  lemma OneEmitted(a: Aliases, p: State, q: State, x: Payload)
    requires |q.log| == |p.log| + 1 && q.log[|p.log|].payload == x
    ensures Replay(a, Emitted(p, q)) == ApplyAlias(a, x)
  {
  }

  lemma TwoEmitted(a: Aliases, p: State, q: State, x: Payload, y: Payload)
    requires |q.log| == |p.log| + 2 && q.log[|p.log|].payload == x && q.log[|p.log| + 1].payload == y
    ensures Replay(a, Emitted(p, q)) == ApplyAlias(ApplyAlias(a, x), y)
  {
    var e, f := q.log[|p.log|], q.log[|p.log| + 1];
    assert Emitted(p, q) == [e] + [f];
    ReplayAppend(a, [e], [f]);
    assert [e][..0] == [] && [f][..0] == [];
  }

  lemma InternCarries(a: Aliases, p: State, now: Time, s: string)
    requires Valid(p) && Matches(a, p)
    ensures Carries(a, p, Intern(p, now, s))
  {
    var q := Intern(p, now, s);
    InternValid(p, now, s);
    if s in p.table.ids {
      NothingEmitted(a, p, q);
    } else {
      StringDefMatches(a, p, now, s);
      OneEmitted(a, p, q, StringDef(|p.table.strings|, s));
    }
  }

  lemma InternConnCarries(a: Aliases, p: State, now: Time, conn: Conn)
    requires Valid(p) && Matches(a, p)
    ensures var q := InternConn(p, now, conn);
      && Carries(a, p, q)
      && q.net == p.net
      && conn.transport in q.table.ids && conn.security in q.table.ids && conn.muxer in q.table.ids
  {
    var p1 := Intern(p, now, conn.transport);
    var p2 := Intern(p1, now, conn.security);
    var p3 := Intern(p2, now, conn.muxer);
    InternValid(p, now, conn.transport);
    InternValid(p1, now, conn.security);
    InternValid(p2, now, conn.muxer);
    InternCarries(a, p, now, conn.transport);
    var a1 := Replay(a, Emitted(p, p1));
    InternCarries(a1, p1, now, conn.security);
    var a2 := Replay(a1, Emitted(p1, p2));
    InternCarries(a2, p2, now, conn.muxer);
    Compose(a1, p1, p2, p3);
    Compose(a, p, p1, p3);
  }

  /** The peer index after the two announcements of a new connection. */
  lemma AnnouncementsFile(x: Peers.Index, strings: seq<string>, n: Net, w: TrackedConn, info: ConnectionInfo)
    requires ValidNet(strings, n) && w.connId !in n.connById && Describes(strings, n.peers, w, info)
    requires Peers.Agrees(x) && Peers.Flat(x) == Expected(n.connById, n.connectionUpserts)
    ensures var y := Peers.UpsertConnection(Peers.UpsertPeer(x, w.peerAlias, w.conn.remotePeer), w.connId,
                                            Describe(StringMap(strings), info));
      && Peers.Agrees(y)
      && Peers.Flat(y) == Expected(n.connById[w.connId := w], n.connectionUpserts[w.connId := info])
  {
    var cs := Truth(w, info.openedAtNs);
    assert Describe(StringMap(strings), info) == cs;
    AliasNamesPeer(strings, n, w.conn.remotePeer);
    Peers.FlatUpsertPeer(x, w.peerAlias, w.conn.remotePeer);
    var m := Peers.UpsertPeer(x, w.peerAlias, w.conn.remotePeer);
    Peers.FlatIsAll(m);
    Peers.FlatUpsertConnection(m, w.connId, cs);
    ExpectedGrows(n.connById, n.connectionUpserts, w, info);
  }

  lemma ExpectedGrows(
      connById: map<nat, TrackedConn>, infos: map<nat, ConnectionInfo>, w: TrackedConn, info: ConnectionInfo)
    ensures Expected(connById[w.connId := w], infos[w.connId := info])
         == Expected(connById, infos)[w.connId :=
              Peers.Entry(w.peerAlias, w.conn.remotePeer, Truth(w, info.openedAtNs))]
  {
  }

  lemma ExpectedShrinks(connById: map<nat, TrackedConn>, infos: map<nat, ConnectionInfo>, id: nat)
    ensures Expected(connById - {id}, infos - {id}) == Expected(connById, infos) - {id}
  {
  }

  lemma TrackReplays(
      a: Aliases, p: State, now: Time, conn: Conn, connId: nat, openedAtNs: int, n: Net, info: ConnectionInfo,
      q: State)
    requires n == WithPeer(p.net, conn.remotePeer) && info == InfoFor(p.table, n, conn, connId, openedAtNs)
    requires q == Track(p, now, conn, connId, openedAtNs)
    ensures |q.log| == |p.log| + 2
    ensures q.table == p.table && q.net == File(n, TrackedConn(conn, connId, info.peerAlias), info)
    ensures Replay(a, Emitted(p, q)) == a.(peers := Peers.UpsertConnection(
      Peers.UpsertPeer(a.peers, info.peerAlias, conn.remotePeer), connId, Describe(a.strings, info)))
  {
    TwoEmitted(a, p, q, PeerUpsert(info.peerAlias, conn.remotePeer), ConnectionUpsert(info));
  }

  lemma FiledMatches(a: Aliases, p: State, n: Net, w: TrackedConn, info: ConnectionInfo, b: Aliases, q: State)
    requires Matches(a, p) && ValidNet(p.table.strings, n)
    requires n == p.net.(peers := n.peers, nextPeer := n.nextPeer)
    requires w.connId !in n.connById && Describes(p.table.strings, n.peers, w, info)
    requires q.table == p.table && q.net == File(n, w, info)
    requires b == a.(peers := Peers.UpsertConnection(
      Peers.UpsertPeer(a.peers, w.peerAlias, w.conn.remotePeer), w.connId, Describe(a.strings, info)))
    ensures Matches(b, q)
  {
    AnnouncementsFile(a.peers, p.table.strings, n, w, info);
  }

  lemma TrackMatches(a: Aliases, p: State, now: Time, conn: Conn, connId: nat, openedAtNs: int, q: State)
    requires Valid(p) && Matches(a, p)
    requires conn.key !in p.net.conns && connId !in p.net.connById && connId < p.net.nextConn
    requires conn.transport in p.table.ids && conn.security in p.table.ids && conn.muxer in p.table.ids
    requires q == Track(p, now, conn, connId, openedAtNs)
    ensures |q.log| == |p.log| + 2 && Matches(Replay(a, Emitted(p, q)), q)
  {
    var n := WithPeer(p.net, conn.remotePeer);
    var info := InfoFor(p.table, n, conn, connId, openedAtNs);
    WithPeerValid(p.table.strings, p.net, conn.remotePeer);
    InfoDescribes(p.table, n, conn, connId, openedAtNs);
    TrackReplays(a, p, now, conn, connId, openedAtNs, n, info, q);
    FiledMatches(a, p, n, TrackedConn(conn, connId, info.peerAlias), info, Replay(a, Emitted(p, q)), q);
  }

  lemma TrackCarries(a: Aliases, p: State, now: Time, conn: Conn, connId: nat, openedAtNs: int)
    requires Valid(p) && Matches(a, p)
    requires conn.key !in p.net.conns && connId !in p.net.connById && connId < p.net.nextConn
    requires conn.transport in p.table.ids && conn.security in p.table.ids && conn.muxer in p.table.ids
    ensures Carries(a, p, Track(p, now, conn, connId, openedAtNs))
  {
    TrackMatches(a, p, now, conn, connId, openedAtNs, Track(p, now, conn, connId, openedAtNs));
    TrackValid(p, now, conn, connId, openedAtNs);
  }

  lemma ConnectedCarries(a: Aliases, p: State, now: Time, conn: Conn, openedAtNs: int)
    requires Valid(p) && Matches(a, p)
    ensures Carries(a, p, Connected(p, now, conn, openedAtNs))
    ensures Connected(p, now, conn, openedAtNs).net.nextStream == p.net.nextStream
  {
    var p0 := SpendConnId(p);
    var q := InternConn(p0, now, conn);
    assert Valid(p0) && Matches(a, p0);
    InternConnCarries(a, p0, now, conn);
    if conn.key in q.net.conns {
      SameStart(a, p, p0, q);
    } else {
      var r := Track(q, now, conn, p.net.nextConn, openedAtNs);
      TrackCarries(Replay(a, Emitted(p0, q)), q, now, conn, p.net.nextConn, openedAtNs);
      Compose(a, p0, q, r);
      SameStart(a, p, p0, r);
    }
  }

  lemma AddStreamCarries(a: Aliases, p: State, now: Time, info: StreamInfo)
    requires Valid(p) && Matches(a, p)
    requires info.streamAlias < p.net.nextStream && info.protocolId < |p.table.strings|
    ensures Carries(a, p, AddStream(p, now, info))
  {
    var q := AddStream(p, now, info);
    OneEmitted(a, p, q, StreamUpsert(info));
    ProtocolAdded(p.table.strings, p.net.streamUpserts, info);
    assert Matches(Replay(a, Emitted(p, q)), q);
    AddStreamValid(p, now, info);
  }

  lemma OpenStreamCarries(
    a: Aliases, p: State, now: Time, conn: Conn, streamId: nat, protocol: string, dir: Direction, openedAtNs: int)
    requires Valid(p) && Matches(a, p) && streamId < p.net.nextStream
    ensures Carries(a, p, OpenStream(p, now, conn, streamId, protocol, dir, openedAtNs))
  {
    var q := Intern(p, now, protocol);
    InternValid(p, now, protocol);
    InternCarries(a, p, now, protocol);
    var info := StreamInfo(streamId, ConnIdOf(q.net, conn.key), dir, IdOf(q.table, protocol), openedAtNs);
    AddStreamCarries(Replay(a, Emitted(p, q)), q, now, info);
    Compose(a, p, q, AddStream(q, now, info));
  }

  lemma WrapCarries(a: Aliases, p: State, now: Time, conn: Conn, protocol: string, dir: Direction, openedAtNs: int)
    requires Valid(p) && Matches(a, p)
    ensures Carries(a, p, WrapStream(p, now, conn, protocol, dir, openedAtNs))
  {
    var p0 := SpendStreamId(p);
    var r := WrapStream(p, now, conn, protocol, dir, openedAtNs);
    assert Valid(p0) && Matches(a, p0);
    if conn.key in p0.net.conns {
      OpenStreamCarries(a, p0, now, conn, p.net.nextStream, protocol, dir, openedAtNs);
    } else {
      var p1 := Connected(p0, now, conn, openedAtNs);
      ConnectedCarries(a, p0, now, conn, openedAtNs);
      OpenStreamCarries(Replay(a, Emitted(p0, p1)), p1, now, conn, p.net.nextStream, protocol, dir, openedAtNs);
      Compose(a, p0, p1, r);
    }
    SameStart(a, p, p0, r);
  }

  lemma CloseCarries(a: Aliases, p: State, now: Time, streamId: nat, reason: CloseReason)
    requires Valid(p) && Matches(a, p)
    ensures Carries(a, p, CloseStream(p, now, streamId, reason))
  {
    var q := CloseStream(p, now, streamId, reason);
    OneEmitted(a, p, q, StreamClosed(streamId, reason));
    ProtocolsRemoved(p.table.strings, p.net.streamUpserts, {streamId});
  }

  lemma ChunkCarries(a: Aliases, p: State, now: Time, streamId: nat, dir: Direction, data: seq<Byte>)
    requires Valid(p) && Matches(a, p)
    ensures Carries(a, p, ReadOrWrite(p, now, streamId, dir, data))
  {
    OneEmitted(a, p, ReadOrWrite(p, now, streamId, dir, data), StreamChunk(streamId, dir, data));
  }

  /** Closing streams one after the other removes exactly those streams. */
  lemma {:induction false} ReplayCloses(a: Aliases, es: seq<Envelope>, order: seq<nat>)
    requires |es| == |order|
    requires forall i :: 0 <= i < |es| ==> es[i].payload == StreamClosed(order[i], ConnClosed)
    ensures Replay(a, es) == a.(protocols := a.protocols - (set s | s in order))
    decreases |es|
  {
    if es == [] {
      assert a.protocols - (set s | s in order) == a.protocols;
    } else {
      var n := |es| - 1;
      ReplayCloses(a, es[..n], order[..n]);
      assert (set s | s in order) == (set s | s in order[..n]) + {order[n]} by {
        assert order == order[..n] + [order[n]];
      }
    }
  }

  /** Replaying the closes of some streams and then of a connection. */
  lemma ReplayDisconnect(a: Aliases, log: seq<Envelope>, order: seq<nat>, id: nat)
    requires |log| == |order| + 1 && log[|order|].payload == ConnectionClosed(id)
    requires forall i :: 0 <= i < |order| ==> log[i].payload == StreamClosed(order[i], ConnClosed)
    ensures Replay(a, log) ==
      Aliases(a.strings, a.protocols - (set s | s in order), Peers.CloseConnection(a.peers, id))
  {
    var es, last := log[..|order|], log[|order|];
    assert log == es + [last];
    ReplayAppend(a, es, [last]);
    ReplayCloses(a, es, order);
    assert [last][..0] == [];
  }

  lemma DisconnectEmits(p: State, now: Time, key: string, order: seq<nat>, id: nat, r: State)
    requires key in p.net.conns && id == p.net.conns[key].connId && r == Disconnected(p, now, key, order)
    ensures r.table == p.table && r.net == Forget(p.net, key, id) && p.log <= r.log
    ensures var es := Emitted(p, r);
      && |es| == |order| + 1 && es[|order|].payload == ConnectionClosed(id)
      && forall i :: 0 <= i < |order| ==> es[i].payload == StreamClosed(order[i], ConnClosed)
  {
    DisconnectLog(p.log, now, order, id);
  }

  lemma OrderListsStreams(n: Net, id: nat, order: seq<nat>)
    requires forall a :: a in order <==> a in StreamsOf(n, id)
    ensures (set s | s in order) == StreamsOf(n, id)
  {
  }

  lemma DisconnectReplays(a: Aliases, p: State, now: Time, key: string, order: seq<nat>, id: nat, r: State)
    requires key in p.net.conns && id == p.net.conns[key].connId
    requires forall s :: s in order <==> s in StreamsOf(p.net, id)
    requires r == Disconnected(p, now, key, order)
    ensures p.log <= r.log && r.table == p.table && r.net == Forget(p.net, key, id)
    ensures Replay(a, Emitted(p, r)) ==
      Aliases(a.strings, a.protocols - StreamsOf(p.net, id), Peers.CloseConnection(a.peers, id))
  {
    DisconnectEmits(p, now, key, order, id, r);
    ReplayDisconnect(a, Emitted(p, r), order, id);
    OrderListsStreams(p.net, id, order);
  }

  lemma ForgottenMatches(a: Aliases, p: State, key: string, id: nat, b: Aliases, r: State)
    requires Valid(p) && Matches(a, p) && key in p.net.conns && id == p.net.conns[key].connId
    requires b == Aliases(a.strings, a.protocols - StreamsOf(p.net, id), Peers.CloseConnection(a.peers, id))
    requires r.table == p.table && r.net == Forget(p.net, key, id)
    ensures Matches(b, r)
  {
    ProtocolsRemoved(p.table.strings, p.net.streamUpserts, StreamsOf(p.net, id));
    Peers.FlatCloseConnection(a.peers, id);
    ExpectedShrinks(p.net.connById, p.net.connectionUpserts, id);
  }

  lemma DisconnectMatches(a: Aliases, p: State, now: Time, key: string, order: seq<nat>, id: nat, r: State)
    requires Valid(p) && Matches(a, p) && key in p.net.conns && id == p.net.conns[key].connId
    requires forall s :: s in order <==> s in StreamsOf(p.net, id)
    requires r == Disconnected(p, now, key, order)
    ensures p.log <= r.log && Matches(Replay(a, Emitted(p, r)), r)
  {
    DisconnectReplays(a, p, now, key, order, id, r);
    ForgottenMatches(a, p, key, id, Replay(a, Emitted(p, r)), r);
  }

  lemma DisconnectCarries(a: Aliases, p: State, now: Time, key: string, order: seq<nat>)
    requires Valid(p) && Matches(a, p) && CanDo(p, Disconnect(key, order))
    ensures Carries(a, p, Disconnected(p, now, key, order))
  {
    if key !in p.net.conns {
      NothingEmitted(a, p, p);
    } else {
      DisconnectMatches(a, p, now, key, order, p.net.conns[key].connId, Disconnected(p, now, key, order));
      DisconnectedValid(p, now, key, order);
    }
  }

  /** Every probe operation: a mirror that applies what the operation emitted is a mirror again. */
  lemma OperationCarries(a: Aliases, p: State, now: Time, op: Op)
    requires Valid(p) && Matches(a, p) && CanDo(p, op)
    ensures Carries(a, p, Do(p, now, op))
  {
    match op
    case Connect(conn, atNs) => ConnectedCarries(a, p, now, conn, atNs);
    case Wrap(conn, protocol, dir, atNs) => WrapCarries(a, p, now, conn, protocol, dir, atNs);
    case Chunk(streamId, dir, data) => ChunkCarries(a, p, now, streamId, dir, data);
    case Close(streamId, reason) => CloseCarries(a, p, now, streamId, reason);
    case Disconnect(key, order) => DisconnectCarries(a, p, now, key, order);
  }
}
