/** The probe's tracked state, the operations that change it, and the log of envelopes they emit. */
module Probe {
  import opened Basics
  import opened Envelopes
  import Interner

  /** A libp2p connection, as far as it is reported. */
  datatype Conn = Conn(
    key: string, remotePeer: PeerId, remoteAddr: string, localAddr: string, direction: Direction,
    transport: string, security: string, muxer: string)

  datatype TrackedConn = TrackedConn(conn: Conn, connId: nat, peerAlias: nat)

  /** What the wrapped network tracks. */
  datatype Net = Net(
    peers: map<PeerId, nat>,
    conns: map<string, TrackedConn>,
    connById: map<nat, TrackedConn>,
    connectionUpserts: map<nat, ConnectionInfo>,
    streamUpserts: map<nat, StreamInfo>,
    nextPeer: nat,
    nextConn: nat,
    nextStream: nat)

  /** Interned strings, tracked network, and everything emitted so far. */
  datatype State = State(table: Interner.Table, net: Net, log: seq<Envelope>)

  const START := State(Interner.NO_STRINGS, Net(map[], map[], map[], map[], map[], 0, 0, 0), [])

  /** Wall-clock time of each emission, by sequence number. */
  type Time = nat -> int

  function Append(log: seq<Envelope>, now: Time, payload: Payload): seq<Envelope> {
    log + [Envelope(|log| + 1, now(|log| + 1), payload)]
  }

  function AppendAll(log: seq<Envelope>, now: Time, payloads: seq<Payload>): seq<Envelope> {
    if payloads == [] then log
    else Append(AppendAll(log, now, payloads[..|payloads| - 1]), now, payloads[|payloads| - 1])
  }

  function Emit(p: State, now: Time, payload: Payload): State {
    State(p.table, p.net, Append(p.log, now, payload))
  }

  function Intern(p: State, now: Time, s: string): State {
    if s in p.table.ids then p
    else State(Interner.Allocate(p.table, s), p.net, Append(p.log, now, StringDef(|p.table.strings|, s)))
  }

  function IdOf(table: Interner.Table, s: string): nat {
    if s in table.ids then table.ids[s] else 0
  }

  function InternConn(p: State, now: Time, conn: Conn): State {
    Intern(Intern(Intern(p, now, conn.transport), now, conn.security), now, conn.muxer)
  }

  /** A peer keeps its alias for good; a new one gets the next. */
  function WithPeer(n: Net, id: PeerId): Net {
    if id in n.peers then n else n.(peers := n.peers[id := n.nextPeer], nextPeer := n.nextPeer + 1)
  }

  function AliasOf(n: Net, id: PeerId): nat {
    if id in n.peers then n.peers[id] else 0
  }

  function InfoFor(table: Interner.Table, n: Net, conn: Conn, connId: nat, openedAtNs: int): ConnectionInfo {
    ConnectionInfo(connId, AliasOf(n, conn.remotePeer), conn.remoteAddr, conn.localAddr, conn.direction,
                   IdOf(table, conn.transport), IdOf(table, conn.security), IdOf(table, conn.muxer), openedAtNs)
  }

  function File(n: Net, w: TrackedConn, info: ConnectionInfo): Net {
    n.(conns := n.conns[w.conn.key := w], connById := n.connById[w.connId := w],
       connectionUpserts := n.connectionUpserts[w.connId := info])
  }

  /** Files a connection that is not tracked yet, and announces its peer and itself. */
  function Track(p: State, now: Time, conn: Conn, connId: nat, openedAtNs: int): State {
    var n := WithPeer(p.net, conn.remotePeer);
    var info := InfoFor(p.table, n, conn, connId, openedAtNs);
    var w := TrackedConn(conn, connId, info.peerAlias);
    State(p.table, File(n, w, info),
          Append(Append(p.log, now, PeerUpsert(info.peerAlias, conn.remotePeer)), now, ConnectionUpsert(info)))
  }

  function SpendConnId(p: State): State {
    p.(net := p.net.(nextConn := p.net.nextConn + 1))
  }

  function SpendStreamId(p: State): State {
    p.(net := p.net.(nextStream := p.net.nextStream + 1))
  }

  /** Connected: a connection id is spent and its strings interned even when the connection is tracked already. */
  function Connected(p: State, now: Time, conn: Conn, openedAtNs: int): State {
    var q := InternConn(SpendConnId(p), now, conn);
    if conn.key in q.net.conns then q else Track(q, now, conn, p.net.nextConn, openedAtNs)
  }

  function AddStream(p: State, now: Time, info: StreamInfo): State {
    State(p.table, p.net.(streamUpserts := p.net.streamUpserts[info.streamAlias := info]),
          Append(p.log, now, StreamUpsert(info)))
  }

  function ConnIdOf(n: Net, key: string): nat {
    if key in n.conns then n.conns[key].connId else 0
  }

  /** Opens a stream on a connection that is tracked. */
  function OpenStream(
      p: State, now: Time, conn: Conn, streamId: nat, protocol: string, dir: Direction, openedAtNs: int): State {
    var q := Intern(p, now, protocol);
    AddStream(q, now, StreamInfo(streamId, ConnIdOf(q.net, conn.key), dir, IdOf(q.table, protocol), openedAtNs))
  }

  function Tracked(p: State, now: Time, conn: Conn, openedAtNs: int): State {
    if conn.key in p.net.conns then p else Connected(p, now, conn, openedAtNs)
  }

  /** Wrapping a stream tracks its connection first when nobody has announced it. */
  function WrapStream(p: State, now: Time, conn: Conn, protocol: string, dir: Direction, openedAtNs: int): State {
    OpenStream(Tracked(SpendStreamId(p), now, conn, openedAtNs), now, conn, p.net.nextStream, protocol, dir, openedAtNs)
  }

  function CloseStream(p: State, now: Time, streamId: nat, reason: CloseReason): State {
    State(p.table, p.net.(streamUpserts := p.net.streamUpserts - {streamId}),
          Append(p.log, now, StreamClosed(streamId, reason)))
  }

  function ReadOrWrite(p: State, now: Time, streamId: nat, dir: Direction, data: seq<Byte>): State {
    Emit(p, now, StreamChunk(streamId, dir, data))
  }

  /** The open streams of a connection. */
  function StreamsOf(n: Net, connId: nat): set<nat> {
    set a | a in n.streamUpserts && n.streamUpserts[a].connAlias == connId
  }

  function Forget(n: Net, key: string, id: nat): Net {
    n.(conns := n.conns - {key}, connById := n.connById - {id}, connectionUpserts := n.connectionUpserts - {id},
       streamUpserts := n.streamUpserts - StreamsOf(n, id))
  }

  /** Between the two locked sections of a disconnect: the connection is out of the maps, its streams are not. */
  function Untracked(p: State, key: string): State {
    if key !in p.net.conns then p else
      var id := p.net.conns[key].connId;
      State(p.table, p.net.(conns := p.net.conns - {key}, connById := p.net.connById - {id},
                            connectionUpserts := p.net.connectionUpserts - {id}), p.log)
  }

  /** What the maps hold while the connection with this key, if any, is being disconnected. */
  function Actual(p: State, leaving: Option<string>): State {
    match leaving
    case None => p
    case Some(key) => Untracked(p, key)
  }

  function Closes(order: seq<nat>): seq<Payload> {
    seq(|order|, i requires 0 <= i < |order| => StreamClosed(order[i], ConnClosed))
  }

  /** Disconnected: `order` is the order in which the map yields the connection's streams. */
  function Disconnected(p: State, now: Time, key: string, order: seq<nat>): State {
    if key !in p.net.conns then p else
      var id := p.net.conns[key].connId;
      State(p.table, Forget(p.net, key, id), Append(AppendAll(p.log, now, Closes(order)), now, ConnectionClosed(id)))
  }

  datatype Op =
    | Connect(conn: Conn, atNs: int)
    | Wrap(conn: Conn, protocol: string, dir: Direction, atNs: int)
    | Chunk(streamId: nat, dir: Direction, data: seq<Byte>)
    | Close(streamId: nat, reason: CloseReason)
    | Disconnect(key: string, order: seq<nat>)

  /** The order of a disconnect lists the connection's streams. */
  ghost predicate CanDo(p: State, op: Op) {
    (op.Disconnect? && op.key in p.net.conns) ==>
      && (forall a :: a in op.order <==> a in StreamsOf(p.net, p.net.conns[op.key].connId))
      && (forall i, j :: 0 <= i < j < |op.order| ==> op.order[i] != op.order[j])
  }

  function Do(p: State, now: Time, op: Op): State {
    match op
    case Connect(conn, atNs) => Connected(p, now, conn, atNs)
    case Wrap(conn, protocol, dir, atNs) => WrapStream(p, now, conn, protocol, dir, atNs)
    case Chunk(streamId, dir, data) => ReadOrWrite(p, now, streamId, dir, data)
    case Close(streamId, reason) => CloseStream(p, now, streamId, reason)
    case Disconnect(key, order) => Disconnected(p, now, key, order)
  }

  // ---- What every operation keeps ------------------------------------------------------------------

  /** A tracked connection is described by the envelope kept for it. */
  ghost predicate Describes(strings: seq<string>, peers: map<PeerId, nat>, w: TrackedConn, info: ConnectionInfo) {
    && info.connAlias == w.connId && info.peerAlias == w.peerAlias
    && w.conn.remotePeer in peers && peers[w.conn.remotePeer] == w.peerAlias
    && info.remoteAddr == w.conn.remoteAddr && info.localAddr == w.conn.localAddr
    && info.direction == w.conn.direction
    && info.transportId < |strings| && strings[info.transportId] == w.conn.transport
    && info.securityId < |strings| && strings[info.securityId] == w.conn.security
    && info.muxerId < |strings| && strings[info.muxerId] == w.conn.muxer
  }

  /** Aliases are given out once. */
  ghost predicate ValidPeers(peers: map<PeerId, nat>, nextPeer: nat) {
    && (forall a :: a in peers ==> peers[a] < nextPeer)
    && (forall a, b :: a in peers && b in peers && peers[a] == peers[b] ==> a == b)
  }

  /** The two connection maps are views of one set of connections. */
  ghost predicate ValidConns(conns: map<string, TrackedConn>, connById: map<nat, TrackedConn>, nextConn: nat) {
    && (forall k :: k in conns ==>
          (var w := conns[k]; w.conn.key == k && w.connId in connById && connById[w.connId] == w))
    && (forall c :: c in connById ==>
          (var w := connById[c]; w.connId == c < nextConn && w.conn.key in conns && conns[w.conn.key] == w))
  }

  ghost predicate ValidInfos(
    strings: seq<string>, peers: map<PeerId, nat>, connById: map<nat, TrackedConn>, infos: map<nat, ConnectionInfo>)
  {
    && infos.Keys == connById.Keys
    && (forall c :: c in connById ==> Describes(strings, peers, connById[c], infos[c]))
  }

  ghost predicate ValidStreams(strings: seq<string>, streams: map<nat, StreamInfo>, nextStream: nat) {
    forall a :: a in streams ==>
      (var st := streams[a]; st.streamAlias == a < nextStream && st.protocolId < |strings|)
  }

  ghost predicate ValidNet(strings: seq<string>, n: Net) {
    && ValidPeers(n.peers, n.nextPeer)
    && ValidConns(n.conns, n.connById, n.nextConn)
    && ValidInfos(strings, n.peers, n.connById, n.connectionUpserts)
    && ValidStreams(strings, n.streamUpserts, n.nextStream)
  }

  ghost predicate Valid(p: State) {
    Interner.Inverse(p.table) && Numbered(p.log) && ValidNet(p.table.strings, p.net)
  }

  /** The probe only ever appends to its log, and what it has said about strings and peers stands. */
  ghost predicate Extends(p: State, q: State) {
    && p.log <= q.log && p.table.strings <= q.table.strings
    && (forall a :: a in p.net.peers ==> a in q.net.peers && q.net.peers[a] == p.net.peers[a])
  }

  lemma {:induction false} AppendAllAppends(log: seq<Envelope>, now: Time, payloads: seq<Payload>)
    ensures var all := AppendAll(log, now, payloads);
      && |all| == |log| + |payloads| && log <= all && (Numbered(log) ==> Numbered(all))
      && forall i :: 0 <= i < |payloads| ==> all[|log| + i].payload == payloads[i]
    decreases |payloads|
  {
    if payloads != [] {
      AppendAllAppends(log, now, payloads[..|payloads| - 1]);
    }
  }

  lemma InternValid(p: State, now: Time, s: string)
    requires Valid(p)
    ensures var q := Intern(p, now, s);
      && Valid(q) && Extends(p, q) && q.net == p.net
      && s in q.table.ids && IdOf(q.table, s) < |q.table.strings| && q.table.strings[IdOf(q.table, s)] == s
      && (forall t :: t in p.table.ids ==> t in q.table.ids)
  {
    if s !in p.table.ids {
      Interner.AllocateKeepsInverse(p.table, s);
      MoreStringsValid(p.table.strings, p.table.strings + [s], p.net);
    }
  }

  lemma MoreStringsValid(strings: seq<string>, more: seq<string>, n: Net)
    requires ValidNet(strings, n) && strings <= more
    ensures ValidNet(more, n)
  {
  }

  lemma WithPeerValid(strings: seq<string>, n: Net, id: PeerId)
    requires ValidNet(strings, n)
    ensures var m := WithPeer(n, id);
      && ValidNet(strings, m) && id in m.peers && m == n.(peers := m.peers, nextPeer := m.nextPeer)
      && (forall a :: a in n.peers ==> a in m.peers && m.peers[a] == n.peers[a])
  {
    if id !in n.peers {
      PeerAdded(n.peers, n.nextPeer, id);
      InfosSurvive(strings, n.peers, n.peers[id := n.nextPeer], n.connById, n.connectionUpserts);
    }
  }

  lemma PeerAdded(peers: map<PeerId, nat>, nextPeer: nat, id: PeerId)
    requires ValidPeers(peers, nextPeer) && id !in peers
    ensures ValidPeers(peers[id := nextPeer], nextPeer + 1)
  {
  }

  lemma InfosSurvive(
    strings: seq<string>, peers: map<PeerId, nat>, more: map<PeerId, nat>,
    connById: map<nat, TrackedConn>, infos: map<nat, ConnectionInfo>)
    requires ValidInfos(strings, peers, connById, infos)
    requires forall a :: a in peers ==> a in more && more[a] == peers[a]
    ensures ValidInfos(strings, more, connById, infos)
  {
  }

  lemma InfoDescribes(table: Interner.Table, n: Net, conn: Conn, connId: nat, openedAtNs: int)
    requires Interner.Inverse(table) && conn.remotePeer in n.peers
    requires conn.transport in table.ids && conn.security in table.ids && conn.muxer in table.ids
    ensures var info := InfoFor(table, n, conn, connId, openedAtNs);
      Describes(table.strings, n.peers, TrackedConn(conn, connId, info.peerAlias), info)
  {
  }

  lemma FileValid(strings: seq<string>, n: Net, w: TrackedConn, info: ConnectionInfo)
    requires ValidNet(strings, n) && w.conn.key !in n.conns && w.connId !in n.connById && w.connId < n.nextConn
    requires Describes(strings, n.peers, w, info)
    ensures ValidNet(strings, File(n, w, info))
  {
    ConnAdded(n.conns, n.connById, n.nextConn, w);
    InfoAdded(strings, n.peers, n.connById, n.connectionUpserts, w, info);
  }

  lemma ConnAdded(conns: map<string, TrackedConn>, connById: map<nat, TrackedConn>, nextConn: nat, w: TrackedConn)
    requires ValidConns(conns, connById, nextConn)
    requires w.conn.key !in conns && w.connId !in connById && w.connId < nextConn
    ensures ValidConns(conns[w.conn.key := w], connById[w.connId := w], nextConn)
  {
  }

  lemma InfoAdded(
    strings: seq<string>, peers: map<PeerId, nat>, connById: map<nat, TrackedConn>, infos: map<nat, ConnectionInfo>,
    w: TrackedConn, info: ConnectionInfo)
    requires ValidInfos(strings, peers, connById, infos) && Describes(strings, peers, w, info)
    ensures ValidInfos(strings, peers, connById[w.connId := w], infos[w.connId := info])
  {
  }

  lemma TrackValid(p: State, now: Time, conn: Conn, connId: nat, openedAtNs: int)
    requires Valid(p) && conn.key !in p.net.conns && connId !in p.net.connById && connId < p.net.nextConn
    requires conn.transport in p.table.ids && conn.security in p.table.ids && conn.muxer in p.table.ids
    ensures Valid(Track(p, now, conn, connId, openedAtNs)) && Extends(p, Track(p, now, conn, connId, openedAtNs))
  {
    WithPeerValid(p.table.strings, p.net, conn.remotePeer);
    var n := WithPeer(p.net, conn.remotePeer);
    var info := InfoFor(p.table, n, conn, connId, openedAtNs);
    InfoDescribes(p.table, n, conn, connId, openedAtNs);
    FiledValid(p, n, TrackedConn(conn, connId, info.peerAlias), info, Track(p, now, conn, connId, openedAtNs));
  }

  lemma FiledValid(p: State, n: Net, w: TrackedConn, info: ConnectionInfo, q: State)
    requires Interner.Inverse(p.table) && ValidNet(p.table.strings, n)
    requires w.conn.key !in n.conns && w.connId !in n.connById && w.connId < n.nextConn
    requires Describes(p.table.strings, n.peers, w, info)
    requires forall a :: a in p.net.peers ==> a in n.peers && n.peers[a] == p.net.peers[a]
    requires q.table == p.table && q.net == File(n, w, info) && p.log <= q.log && Numbered(q.log)
    ensures Valid(q) && Extends(p, q)
  {
    FileValid(p.table.strings, n, w, info);
  }

  lemma ConnRemoved(conns: map<string, TrackedConn>, connById: map<nat, TrackedConn>, nextConn: nat, key: string)
    requires ValidConns(conns, connById, nextConn) && key in conns
    ensures ValidConns(conns - {key}, connById - {conns[key].connId}, nextConn)
  {
  }

  lemma InfoRemoved(
    strings: seq<string>, peers: map<PeerId, nat>, connById: map<nat, TrackedConn>, infos: map<nat, ConnectionInfo>,
    id: nat)
    requires ValidInfos(strings, peers, connById, infos)
    ensures ValidInfos(strings, peers, connById - {id}, infos - {id})
  {
  }

  lemma ForgetValid(strings: seq<string>, n: Net, key: string)
    requires ValidNet(strings, n) && key in n.conns
    ensures ValidNet(strings, Forget(n, key, n.conns[key].connId))
  {
    ConnRemoved(n.conns, n.connById, n.nextConn, key);
    InfoRemoved(strings, n.peers, n.connById, n.connectionUpserts, n.conns[key].connId);
  }

  lemma UntrackedValid(p: State, key: string)
    requires Valid(p)
    ensures Valid(Untracked(p, key))
  {
    if key in p.net.conns {
      ConnRemoved(p.net.conns, p.net.connById, p.net.nextConn, key);
      InfoRemoved(p.table.strings, p.net.peers, p.net.connById, p.net.connectionUpserts, p.net.conns[key].connId);
    }
  }

  /** The log of a disconnect: the closes of the streams, then of the connection. */
  lemma DisconnectLog(log: seq<Envelope>, now: Time, order: seq<nat>, id: nat)
    ensures var all := Append(AppendAll(log, now, Closes(order)), now, ConnectionClosed(id));
      && |all| == |log| + |order| + 1 && log <= all && (Numbered(log) ==> Numbered(all))
      && all[|log| + |order|].payload == ConnectionClosed(id)
      && forall i :: 0 <= i < |order| ==> all[|log| + i].payload == StreamClosed(order[i], ConnClosed)
  {
    AppendAllAppends(log, now, Closes(order));
    var all := AppendAll(log, now, Closes(order));
    forall i | 0 <= i < |order|
      ensures all[|log| + i].payload == StreamClosed(order[i], ConnClosed)
    {
      assert all[|log| + i].payload == Closes(order)[i];
    }
  }

  lemma DisconnectedValid(p: State, now: Time, key: string, order: seq<nat>)
    requires Valid(p)
    ensures Valid(Disconnected(p, now, key, order)) && Extends(p, Disconnected(p, now, key, order))
  {
    if key in p.net.conns {
      var id := p.net.conns[key].connId;
      ForgetValid(p.table.strings, p.net, key);
      DisconnectLog(p.log, now, order, id);
      assert Disconnected(p, now, key, order).net == Forget(p.net, key, id);
    }
  }

  lemma AddStreamValid(p: State, now: Time, info: StreamInfo)
    requires Valid(p) && info.streamAlias < p.net.nextStream && info.protocolId < |p.table.strings|
    ensures Valid(AddStream(p, now, info)) && Extends(p, AddStream(p, now, info))
  {
  }
}
