/** The wrapped network as the object it is: tracked maps updated in place, envelopes sent through the emitter. */
module Network {
  import opened Basics
  import opened Envelopes
  import opened Probe
  import opened Snapshot
  import Interner
  import Ring
  import Sorting

  class StringInterner {
    const emitter: Ring.Emitter
    var strings: seq<string>
    var stringIds: map<string, nat>

    ghost function Table(): Interner.Table
      reads this
    {
      Interner.Table(strings, stringIds)
    }

    constructor (emitter: Ring.Emitter)
      ensures this.emitter == emitter && Table() == Interner.NO_STRINGS
    {
      this.emitter := emitter;
      strings, stringIds := [], map[];
    }

    /** A new string gets the next id, and its definition is emitted. */
    method Intern(s: string, now: Time) returns (id: nat)
      requires emitter.Valid() && Interner.Inverse(Table())
      modifies this, emitter, emitter.buffer
      ensures emitter.Valid() && emitter.closed == old(emitter.closed) && emitter.buffer == old(emitter.buffer)
      ensures Interner.Inverse(Table()) && Table() == Interner.Interned(old(Table()), s) && old(strings) <= strings
      ensures id < |strings| && strings[id] == s
      ensures emitter.log ==
        if s in old(stringIds) || emitter.closed then old(emitter.log)
        else Append(old(emitter.log), now, StringDef(id, s))
    {
      if s in stringIds {
        return stringIds[s];
      }
      Interner.AllocateKeepsInverse(Table(), s);
      id := |strings|;
      strings := strings + [s];
      stringIds := stringIds[s := id];
      var _ := emitter.Emit(StringDef(id, s), now(emitter.nextSeq));
    }
  }

  class WrappedNetwork {
    const emitter: Ring.Emitter
    const interner: StringInterner
    var peers: map<PeerId, nat>
    var conns: map<string, TrackedConn>
    var connById: map<nat, TrackedConn>
    var connectionUpserts: map<nat, ConnectionInfo>
    var streamUpserts: map<nat, StreamInfo>
    var nextPeer: nat
    var nextConn: nat
    var nextStream: nat
    /** Everything that was to be emitted: the emitter's log, until the emitter is closed. */
    ghost var told: seq<Envelope>

    /** The emitter is in order, and the interner uses it too. */
    ghost predicate Ready()
      reads this, interner, emitter, emitter.buffer
    {
      && emitter.Valid() && interner.emitter == emitter && Interner.Inverse(interner.Table())
      && (emitter.closed || told == emitter.log)
    }

    /** The emitter stays open or closed, and a closed one emits nothing. */
    twostate predicate Obeyed()
      reads this, emitter
    {
      && emitter.buffer == old(emitter.buffer) && emitter.closed == old(emitter.closed)
      && (emitter.closed ==> emitter.log == old(emitter.log))
    }

    ghost function Value(): State
      reads this, interner
    {
      State(interner.Table(),
            Net(peers, conns, connById, connectionUpserts, streamUpserts, nextPeer, nextConn, nextStream), told)
    }

    constructor (ringSize: int)
      ensures Ready() && fresh(interner) && fresh(emitter) && fresh(emitter.buffer) && Value() == START
    {
      var e := new Ring.Emitter(ringSize);
      emitter := e;
      interner := new StringInterner(e);
      peers, conns, connById, connectionUpserts, streamUpserts := map[], map[], map[], map[], map[];
      nextPeer, nextConn, nextStream := 0, 0, 0;
      told := [];
    }

    /** Sends one payload through the emitter; the clock is read once per sequence number. */
    method Send(payload: Payload, now: Time)
      requires Ready()
      modifies this`told, emitter, emitter.buffer
      ensures Ready() && Obeyed()
      ensures told == Append(old(told), now, payload)
    {
      var _ := emitter.Emit(payload, now(emitter.nextSeq));
      told := Append(told, now, payload);
    }

    method InternString(s: string, now: Time) returns (id: nat)
      requires Ready()
      modifies this`told, interner, emitter, emitter.buffer
      ensures Ready() && Obeyed()
      ensures Value() == Intern(old(Value()), now, s)
      ensures id == IdOf(Value().table, s)
    {
      if s !in interner.stringIds {
        told := Append(told, now, StringDef(|interner.strings|, s));
      }
      id := interner.Intern(s, now);
    }

    method InternConnStrings(conn: Conn, now: Time) returns (transportId: nat, securityId: nat, muxerId: nat)
      requires Ready()
      modifies this, interner, emitter, emitter.buffer
      ensures Ready() && Obeyed()
      ensures Value() == InternConn(old(Value()), now, conn)
      ensures transportId == IdOf(Value().table, conn.transport)
      ensures securityId == IdOf(Value().table, conn.security) && muxerId == IdOf(Value().table, conn.muxer)
    {
      transportId := InternString(conn.transport, now);
      ghost var p1 := Value();
      securityId := InternString(conn.security, now);
      ghost var p2 := Value();
      muxerId := InternString(conn.muxer, now);
      IdsStand(p1, p2, now, conn.transport, conn.security);
      IdsStand(p2, Value(), now, conn.transport, conn.muxer);
      IdsStand(p2, Value(), now, conn.security, conn.muxer);
    }

    method TrackConn(conn: Conn, info: ConnectionInfo) returns (w: TrackedConn)
      modifies this`conns, this`connById, this`connectionUpserts
      ensures w == TrackedConn(conn, info.connAlias, info.peerAlias)
      ensures Value() == old(Value()).(net := File(old(Value()).net, w, info))
    {
      w := TrackedConn(conn, info.connAlias, info.peerAlias);
      conns := conns[conn.key := w];
      connById := connById[info.connAlias := w];
      connectionUpserts := connectionUpserts[info.connAlias := info];
    }

    method PeerAlias(id: PeerId) returns (alias: nat)
      modifies this`peers, this`nextPeer
      ensures Value() == old(Value()).(net := WithPeer(old(Value()).net, id))
      ensures alias == AliasOf(Value().net, id)
    {
      if id !in peers {
        peers := peers[id := nextPeer];
        nextPeer := nextPeer + 1;
      }
      alias := peers[id];
    }

    /** Tracks the connection unless it is tracked already; nothing about it is emitted yet but its strings. */
    method ConnectionUpsertFor(conn: Conn, connId: nat, openedAtNs: int, now: Time)
      returns (w: TrackedConn, info: Option<ConnectionInfo>)
      requires Ready()
      modifies this, interner, emitter, emitter.buffer
      ensures Ready() && Obeyed()
      ensures var q := InternConn(old(Value()), now, conn);
        if conn.key in q.net.conns then Value() == q && info == None && w == q.net.conns[conn.key]
        else
          var n := WithPeer(q.net, conn.remotePeer);
          && info == Some(InfoFor(q.table, n, conn, connId, openedAtNs))
          && w == TrackedConn(conn, connId, info.value.peerAlias)
          && Value() == State(q.table, File(n, w, info.value), q.log)
    {
      var transportId, securityId, muxerId := InternConnStrings(conn, now);
      if conn.key in conns {
        return conns[conn.key], None;
      }
      var alias := PeerAlias(conn.remotePeer);
      var upsert := ConnectionInfo(connId, alias, conn.remoteAddr, conn.localAddr, conn.direction,
                                   transportId, securityId, muxerId, openedAtNs);
      w := TrackConn(conn, upsert);
      info := Some(upsert);
    }

    /** A new connection, announced after its peer. */
    method Connected(conn: Conn, openedAtNs: int, now: Time)
      requires Ready()
      modifies this, interner, emitter, emitter.buffer
      ensures Ready() && Obeyed()
      ensures Value() == Probe.Connected(old(Value()), now, conn, openedAtNs)
    {
      var connId := nextConn;
      nextConn := nextConn + 1;
      assert Value() == SpendConnId(old(Value()));
      var w, info := ConnectionUpsertFor(conn, connId, openedAtNs, now);
      if info.Some? {
        Announce(w, conn.remotePeer, info.value, now);
      }
    }

    method Announce(w: TrackedConn, id: PeerId, info: ConnectionInfo, now: Time)
      requires Ready()
      modifies this`told, emitter, emitter.buffer
      ensures Ready() && Obeyed()
      ensures Value() == old(Value()).(log :=
        Append(Append(old(told), now, PeerUpsert(w.peerAlias, id)), now, ConnectionUpsert(info)))
    {
      Send(PeerUpsert(w.peerAlias, id), now);
      Send(ConnectionUpsert(info), now);
    }

    /** Announces a stream of a tracked connection. */
    method OpenStream(conn: Conn, streamId: nat, protocol: string, dir: Direction, openedAtNs: int, now: Time)
      requires Ready()
      modifies this, interner, emitter, emitter.buffer
      ensures Ready() && Obeyed()
      ensures Value() == Probe.OpenStream(old(Value()), now, conn, streamId, protocol, dir, openedAtNs)
    {
      var connId := if conn.key in conns then conns[conn.key].connId else 0;
      var protocolId := InternString(protocol, now);
      var info := StreamInfo(streamId, connId, dir, protocolId, openedAtNs);
      streamUpserts := streamUpserts[streamId := info];
      Send(StreamUpsert(info), now);
    }

    method EnsureTracked(conn: Conn, openedAtNs: int, now: Time)
      requires Ready()
      modifies this, interner, emitter, emitter.buffer
      ensures Ready() && Obeyed()
      ensures Value() == Tracked(old(Value()), now, conn, openedAtNs)
    {
      if conn.key !in conns {
        Connected(conn, openedAtNs, now);
      }
    }

    method WrapStream(conn: Conn, protocol: string, dir: Direction, openedAtNs: int, now: Time) returns (streamId: nat)
      requires Ready()
      modifies this, interner, emitter, emitter.buffer
      ensures Ready() && Obeyed()
      ensures streamId == old(nextStream)
      ensures Value() == Probe.WrapStream(old(Value()), now, conn, protocol, dir, openedAtNs)
    {
      streamId := nextStream;
      nextStream := nextStream + 1;
      ghost var p0 := Value();
      assert p0 == SpendStreamId(old(Value()));
      EnsureTracked(conn, openedAtNs, now);
      ghost var p1 := Value();
      assert p1 == Tracked(p0, now, conn, openedAtNs);
      OpenStream(conn, streamId, protocol, dir, openedAtNs, now);
    }

    /** Read and Write report what passed; Close and Reset forget the stream and say so. */
    method EmitChunk(streamId: nat, dir: Direction, data: seq<Byte>, now: Time)
      requires Ready()
      modifies this`told, emitter, emitter.buffer
      ensures Ready() && Obeyed()
      ensures Value() == ReadOrWrite(old(Value()), now, streamId, dir, data)
    {
      Send(StreamChunk(streamId, dir, data), now);
    }

    method EmitClosed(streamId: nat, reason: CloseReason, now: Time)
      requires Ready()
      modifies this, interner, emitter, emitter.buffer
      ensures Ready() && Obeyed()
      ensures Value() == Probe.CloseStream(old(Value()), now, streamId, reason)
    {
      streamUpserts := streamUpserts - {streamId};
      Send(StreamClosed(streamId, reason), now);
    }

    /** Removes the connection's streams, in whatever order the map yields them. */
    method RemoveStreamsForConn(connId: nat) returns (aliases: seq<nat>)
      modifies this`streamUpserts
      ensures streamUpserts == old(streamUpserts) - StreamsOf(old(Value().net), connId)
      ensures forall a :: a in aliases <==> a in StreamsOf(old(Value().net), connId)
      ensures forall i, j :: 0 <= i < j < |aliases| ==> aliases[i] != aliases[j]
    {
      aliases := [];
      var all := streamUpserts;
      var todo := all.Keys;
      while todo != {}
        invariant todo <= all.Keys
        invariant forall a :: a in aliases <==> a in all && a !in todo && all[a].connAlias == connId
        invariant forall i, j :: 0 <= i < j < |aliases| ==> aliases[i] != aliases[j]
        invariant streamUpserts == all - (set a | a in all && a !in todo && all[a].connAlias == connId)
        decreases |todo|
      {
        var a :| a in todo;
        todo := todo - {a};
        if all[a].connAlias == connId {
          aliases := aliases + [a];
          streamUpserts := streamUpserts - {a};
        }
      }
      assert (set a | a in all && a !in todo && all[a].connAlias == connId) == StreamsOf(old(Value().net), connId);
    }

    method RemoveAndGetConn(key: string) returns (w: Option<TrackedConn>)
      modifies this`conns, this`connById, this`connectionUpserts
      ensures w == Lookup(old(conns), key)
      ensures w.None? ==> Value() == old(Value())
      ensures w.Some? ==>
        && conns == old(conns) - {key} && connById == old(connById) - {w.value.connId}
        && connectionUpserts == old(connectionUpserts) - {w.value.connId}
    {
      if key !in conns {
        return None;
      }
      var c := conns[key];
      conns := conns - {key};
      connById := connById - {c.connId};
      connectionUpserts := connectionUpserts - {c.connId};
      w := Some(c);
    }

    method SendCloses(order: seq<nat>, now: Time)
      requires Ready()
      modifies this`told, emitter, emitter.buffer
      ensures Ready() && Obeyed()
      ensures told == AppendAll(old(told), now, Closes(order))
    {
      for i := 0 to |order|
        invariant Ready() && Obeyed()
        invariant told == AppendAll(old(told), now, Closes(order[..i]))
      {
        Send(StreamClosed(order[i], ConnClosed), now);
        assert Closes(order[..i + 1])[..i] == Closes(order[..i]);
      }
      assert order[..|order|] == order;
    }

    /** A lost connection takes its streams along. The returned order is the one the closes were emitted in. */
    method Disconnected(key: string, now: Time) returns (order: seq<nat>)
      requires Ready()
      modifies this, emitter, emitter.buffer
      ensures Ready() && Obeyed()
      ensures CanDo(old(Value()), Disconnect(key, order))
      ensures Value() == Probe.Disconnected(old(Value()), now, key, order)
    {
      var w;
      w, order := Untrack(key);
      if w.Some? {
        SendGone(order, w.value.connId, now);
      }
    }

    /** The connection and its streams leave the maps. */
    method Untrack(key: string) returns (w: Option<TrackedConn>, order: seq<nat>)
      modifies this`conns, this`connById, this`connectionUpserts, this`streamUpserts
      ensures w == Lookup(old(conns), key) && CanDo(old(Value()), Disconnect(key, order))
      ensures Value() == old(Value()).(net :=
        if w.None? then old(Value().net) else Forget(old(Value().net), key, w.value.connId))
    {
      order := [];
      w := RemoveAndGetConn(key);
      if w.Some? {
        order := RemoveStreamsForConn(w.value.connId);
      }
    }

    method SendGone(order: seq<nat>, connId: nat, now: Time)
      requires Ready()
      modifies this`told, emitter, emitter.buffer
      ensures Ready() && Obeyed()
      ensures told == Append(AppendAll(old(told), now, Closes(order)), now, ConnectionClosed(connId))
    {
      SendCloses(order, now);
      Send(ConnectionClosed(connId), now);
    }

    /** What the probe tracks now, sorted by alias. */
    method Snapshot() returns (snap: Snap)
      requires Valid(Value())
      ensures SnapshotOf(Value(), snap)
    {
      var ps := SortedPeers(peers);
      var cs := SortedConnections(connectionUpserts);
      var ss := SortedStreams(streamUpserts);
      snap := Snap(interner.strings, ps, cs, ss);
    }
  }

  function PeerKey(t: TrackedPeer): int { t.alias }

  function ConnKey(c: ConnectionInfo): int { c.connAlias }

  function StreamKey(st: StreamInfo): int { st.streamAlias }

  method SortedPeers(peers: map<PeerId, nat>) returns (xs: seq<TrackedPeer>)
    requires Injective(peers)
    ensures forall t :: t in xs <==> t.id in peers && peers[t.id] == t.alias
    ensures forall i, j :: 0 <= i < j < |xs| ==> xs[i].alias < xs[j].alias
  {
    var all: seq<TrackedPeer> := [];
    var todo := peers.Keys;
    while todo != {}
      invariant todo <= peers.Keys
      invariant forall t :: t in all <==> t.id in peers && t.id !in todo && peers[t.id] == t.alias
      invariant forall i, j :: 0 <= i < j < |all| ==> all[i].id != all[j].id
      decreases |todo|
    {
      var id :| id in todo;
      todo := todo - {id};
      all := all + [TrackedPeer(peers[id], id)];
    }
    assert forall i :: 0 <= i < |all| ==> all[i] in all;
    xs := Sorting.SortBy(all, PeerKey);
    assert forall i, j :: 0 <= i < j < |xs| ==> PeerKey(xs[i]) < PeerKey(xs[j]);
  }

  method SortedConnections(conns: map<nat, ConnectionInfo>) returns (xs: seq<ConnectionInfo>)
    requires forall c :: c in conns ==> conns[c].connAlias == c
    ensures forall c :: c in xs <==> c.connAlias in conns && conns[c.connAlias] == c
    ensures forall i, j :: 0 <= i < j < |xs| ==> xs[i].connAlias < xs[j].connAlias
  {
    var all: seq<ConnectionInfo> := [];
    var todo := conns.Keys;
    while todo != {}
      invariant todo <= conns.Keys
      invariant forall c :: c in all <==> c.connAlias in conns && c.connAlias !in todo && conns[c.connAlias] == c
      invariant forall i, j :: 0 <= i < j < |all| ==> all[i].connAlias != all[j].connAlias
      decreases |todo|
    {
      var id :| id in todo;
      todo := todo - {id};
      assert forall i :: 0 <= i < |all| ==> all[i] in all;
      all := all + [conns[id]];
    }
    xs := Sorting.SortBy(all, ConnKey);
    assert forall i, j :: 0 <= i < j < |xs| ==> ConnKey(xs[i]) < ConnKey(xs[j]);
  }

  method SortedStreams(streams: map<nat, StreamInfo>) returns (xs: seq<StreamInfo>)
    requires forall a :: a in streams ==> streams[a].streamAlias == a
    ensures forall st :: st in xs <==> st.streamAlias in streams && streams[st.streamAlias] == st
    ensures forall i, j :: 0 <= i < j < |xs| ==> xs[i].streamAlias < xs[j].streamAlias
  {
    var all: seq<StreamInfo> := [];
    var todo := streams.Keys;
    while todo != {}
      invariant todo <= streams.Keys
      invariant forall st :: st in all <==>
        st.streamAlias in streams && st.streamAlias !in todo && streams[st.streamAlias] == st
      invariant forall i, j :: 0 <= i < j < |all| ==> all[i].streamAlias != all[j].streamAlias
      decreases |todo|
    {
      var id :| id in todo;
      todo := todo - {id};
      assert forall i :: 0 <= i < |all| ==> all[i] in all;
      all := all + [streams[id]];
    }
    xs := Sorting.SortBy(all, StreamKey);
    assert forall i, j :: 0 <= i < j < |xs| ==> StreamKey(xs[i]) < StreamKey(xs[j]);
  }

  /** The envelopes that replay a snapshot. */
  method SnapshotEnvelopes(snap: Snap) returns (envs: seq<Envelope>)
    ensures envs == EnvelopesOf(snap)
  {
    envs := [Plain(SnapshotStart)];
    ghost var strings, peers := StringDefs(snap.strings), PeerUpserts(snap.peers);
    ghost var conns, streams := ConnectionUpserts(snap.connections), StreamUpserts(snap.streams);
    ghost var head := envs;
    for i := 0 to |snap.strings|
      invariant envs == head + strings[..i]
    {
      envs := envs + [Plain(StringDef(i, snap.strings[i]))];
    }
    head := envs;
    for i := 0 to |snap.peers|
      invariant envs == head + peers[..i]
    {
      envs := envs + [Plain(PeerUpsert(snap.peers[i].alias, snap.peers[i].id))];
    }
    head := envs;
    for i := 0 to |snap.connections|
      invariant envs == head + conns[..i]
    {
      envs := envs + [Plain(ConnectionUpsert(snap.connections[i]))];
    }
    head := envs;
    for i := 0 to |snap.streams|
      invariant envs == head + streams[..i]
    {
      envs := envs + [Plain(StreamUpsert(snap.streams[i]))];
    }
    envs := envs + [Plain(SnapshotEnd)];
  }

  /** Snapshots are byte-stable: one state has one snapshot. */
  lemma SnapshotIsUnique(p: State, s: Snap, t: Snap)
    requires SnapshotOf(p, s) && SnapshotOf(p, t)
    ensures s == t
  {
    Sorting.AscendingIsUnique(s.peers, t.peers, PeerKey);
    Sorting.AscendingIsUnique(s.connections, t.connections, ConnKey);
    Sorting.AscendingIsUnique(s.streams, t.streams, StreamKey);
  }

  /** Interning another string leaves earlier ids as they are. */
  lemma IdsStand(p: State, q: State, now: Time, s: string, t: string)
    requires q == Intern(p, now, t) && s in p.table.ids
    ensures s in q.table.ids && IdOf(q.table, s) == IdOf(p.table, s)
  {
  }
}
