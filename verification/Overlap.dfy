/** What every log says stays true of the probe, so replaying an overlapping stretch of it over a snapshot is
    harmless. */
module Overlap {
  import opened Basics
  import opened Envelopes
  import opened Processor
  import opened Probe
  import opened Mirror
  import opened Snapshot

  /** Every connection the log ever announced. */
  function ConnsTold(log: seq<Envelope>): map<nat, ConnectionInfo> {
    if log == [] then map[] else
      var before, p := ConnsTold(log[..|log| - 1]), log[|log| - 1].payload;
      if p.ConnectionUpsert? then before[p.conn.connAlias := p.conn] else before
  }

  /** Every stream the log ever announced. */
  function StreamsTold(log: seq<Envelope>): map<nat, StreamInfo> {
    if log == [] then map[] else
      var before, p := StreamsTold(log[..|log| - 1]), log[|log| - 1].payload;
      if p.StreamUpsert? then before[p.stream.streamAlias := p.stream] else before
  }

  function BookOf(p: State): Book {
    Book(p.table.strings, p.net.peers, ConnsTold(p.log), StreamsTold(p.log))
  }

  /** Ids not yet given out have not been used. */
  ghost predicate Fresh(b: Book, nextConn: nat, nextStream: nat) {
    && (forall c :: c in b.conns ==> c < nextConn)
    && (forall s :: s in b.streams ==> s < nextStream)
  }

  /** The streams and connections the log leaves open are the tracked ones. */
  ghost predicate OpenAsTold(log: seq<Envelope>, n: Net) {
    && Open({}, log, StreamTouch) == n.streamUpserts.Keys
    && Open({}, log, ConnTouch) == n.connById.Keys
  }

  /** No alias is announced twice. */
  ghost predicate AnnouncedOnce(log: seq<Envelope>, i: nat)
    requires i < |log|
  {
    && (log[i].payload.ConnectionUpsert? ==> log[i].payload.conn.connAlias !in ConnsTold(log[..i]))
    && (log[i].payload.StreamUpsert? ==> log[i].payload.stream.streamAlias !in StreamsTold(log[..i]))
  }

  /** The log is consistent with itself and with what the probe tracks. */
  ghost predicate Told(p: State) {
    && Consistent(BookOf(p), p.log)
    && (forall i :: 0 <= i < |p.log| ==> AnnouncedOnce(p.log, i))
    && BookFor(BookOf(p), p)
    && Fresh(BookOf(p), p.net.nextConn, p.net.nextStream)
    && OpenAsTold(p.log, p.net)
  }

  /** The book only ever grows. */
  ghost predicate Grows(b: Book, c: Book) {
    && b.strings <= c.strings
    && (forall x :: x in b.peers ==> x in c.peers && c.peers[x] == b.peers[x])
    && (forall x :: x in b.conns ==> x in c.conns && c.conns[x] == b.conns[x])
    && (forall x :: x in b.streams ==> x in c.streams && c.streams[x] == b.streams[x])
  }

  /** An emission that states what is in the book, keeping strings in order and introducing connections. */
  ghost predicate Says(c: Book, log: seq<Envelope>, count: nat, p: Payload) {
    && Known(c, p) && (p.StringDef? ==> p.id == count) && Refers(p, count)
    && (p.ConnectionUpsert? ==>
          log != [] && log[|log| - 1].payload.PeerUpsert? && log[|log| - 1].payload.peerAlias == p.conn.peerAlias)
  }

  lemma SoundStays(b: Book, c: Book, log: seq<Envelope>, e: Envelope, i: nat)
    requires i < |log| && Sound(b, log, i) && Grows(b, c)
    ensures Sound(c, log + [e], i)
  {
    assert (log + [e])[..i] == log[..i] && (log + [e])[i] == log[i];
  }

  lemma OneMoreConsistent(b: Book, c: Book, log: seq<Envelope>, e: Envelope)
    requires Consistent(b, log) && Grows(b, c) && Says(c, log, |b.strings|, e.payload)
    requires |c.strings| == |b.strings| + if e.payload.StringDef? then 1 else 0
    ensures Consistent(c, log + [e])
  {
    var all := log + [e];
    assert all[..|log|] == log;
    forall i | 0 <= i < |all|
      ensures Sound(c, all, i)
    {
      if i < |log| {
        SoundStays(b, c, log, e, i);
      }
    }
    CountStep(all, |log|);
    assert all[..|all|] == all;
  }

  lemma BookAppend(log: seq<Envelope>, e: Envelope)
    ensures ConnsTold(log + [e]) ==
      if e.payload.ConnectionUpsert? then ConnsTold(log)[e.payload.conn.connAlias := e.payload.conn] else ConnsTold(log)
    ensures StreamsTold(log + [e]) ==
      if e.payload.StreamUpsert?
      then StreamsTold(log)[e.payload.stream.streamAlias := e.payload.stream] else StreamsTold(log)
    ensures forall touch :: Open({}, log + [e], touch) == Touched(Open({}, log, touch), touch(e.payload))
  {
    assert (log + [e])[..|log|] == log;
  }

  lemma OneMoreOnce(log: seq<Envelope>, e: Envelope)
    requires forall i :: 0 <= i < |log| ==> AnnouncedOnce(log, i)
    requires e.payload.ConnectionUpsert? ==> e.payload.conn.connAlias !in ConnsTold(log)
    requires e.payload.StreamUpsert? ==> e.payload.stream.streamAlias !in StreamsTold(log)
    ensures forall i :: 0 <= i <= |log| ==> AnnouncedOnce(log + [e], i)
  {
    var all := log + [e];
    forall i | 0 <= i <= |log|
      ensures AnnouncedOnce(all, i)
    {
      assert all[..i] == log[..i];
      if i < |log| {
        assert AnnouncedOnce(log, i) && all[i] == log[i];
      } else {
        assert log[..i] == log;
      }
    }
  }

  /** An announcement uses an id that was given out and not announced before. */
  ghost predicate FreshAlias(log: seq<Envelope>, n: Net, p: Payload) {
    && (p.ConnectionUpsert? ==> p.conn.connAlias !in ConnsTold(log) && p.conn.connAlias < n.nextConn)
    && (p.StreamUpsert? ==> p.stream.streamAlias !in StreamsTold(log) && p.stream.streamAlias < n.nextStream)
  }

  /** One emission keeps the log true, provided it states what the probe tracks and reuses no alias. */
  lemma TellOne(p: State, q: State, e: Envelope)
    requires Told(p) && Extends(p, q) && q.log == p.log + [e]
    requires p.net.nextConn <= q.net.nextConn && p.net.nextStream <= q.net.nextStream
    requires FreshAlias(p.log, q.net, e.payload) && Says(BookOf(q), p.log, |p.table.strings|, e.payload)
    requires |q.table.strings| == |p.table.strings| + if e.payload.StringDef? then 1 else 0
    requires forall c :: c in q.net.connectionUpserts ==>
      c in BookOf(q).conns && BookOf(q).conns[c] == q.net.connectionUpserts[c]
    requires forall s :: s in q.net.streamUpserts ==>
      s in BookOf(q).streams && BookOf(q).streams[s] == q.net.streamUpserts[s]
    requires q.net.streamUpserts.Keys == Touched(p.net.streamUpserts.Keys, StreamTouch(e.payload))
    requires q.net.connById.Keys == Touched(p.net.connById.Keys, ConnTouch(e.payload))
    ensures Told(q)
  {
    BookAppend(p.log, e);
    var b, c := BookOf(p), BookOf(q);
    assert Grows(b, c);
    OneMoreConsistent(b, c, p.log, e);
    OneMoreOnce(p.log, e);
  }

  // ---- Every operation keeps the log true ------------------------------------------------------------

  /** The operation announced no connection and no stream. */
  ghost predicate SameTold(p: State, q: State) {
    ConnsTold(q.log) == ConnsTold(p.log) && StreamsTold(q.log) == StreamsTold(p.log)
  }

  lemma InternTells(p: State, now: Time, s: string)
    requires Valid(p) && Told(p)
    ensures var q := Intern(p, now, s); Told(q) && SameTold(p, q) && Valid(q) && q.net == p.net
  {
    InternValid(p, now, s);
    if s !in p.table.ids {
      var q := Intern(p, now, s);
      BookAppend(p.log, q.log[|p.log|]);
      TellOne(p, q, q.log[|p.log|]);
    }
  }

  lemma PeerTold(p: State, now: Time, n: Net, id: PeerId, q: State)
    requires Told(p) && n == p.net.(peers := n.peers, nextPeer := n.nextPeer) && id in n.peers
    requires forall a :: a in p.net.peers ==> a in n.peers && n.peers[a] == p.net.peers[a]
    requires q == State(p.table, n, Append(p.log, now, PeerUpsert(AliasOf(n, id), id)))
    ensures Told(q) && SameTold(p, q)
  {
    BookAppend(p.log, q.log[|p.log|]);
    TellOne(p, q, q.log[|p.log|]);
  }

  lemma ConnTold(p: State, now: Time, w: TrackedConn, info: ConnectionInfo, q: State)
    requires Told(p) && info.connAlias == w.connId && Refers(ConnectionUpsert(info), |p.table.strings|)
    requires w.connId !in ConnsTold(p.log) && w.connId < p.net.nextConn
    requires p.log != [] && p.log[|p.log| - 1].payload.PeerUpsert?
    requires p.log[|p.log| - 1].payload.peerAlias == info.peerAlias
    requires q == State(p.table, File(p.net, w, info), Append(p.log, now, ConnectionUpsert(info)))
    ensures Told(q) && StreamsTold(q.log) == StreamsTold(p.log)
  {
    BookAppend(p.log, q.log[|p.log|]);
    TellOne(p, q, q.log[|p.log|]);
  }

  lemma TrackTells(p: State, now: Time, conn: Conn, connId: nat, openedAtNs: int)
    requires Valid(p) && Told(p) && connId !in ConnsTold(p.log) && connId < p.net.nextConn
    requires conn.transport in p.table.ids && conn.security in p.table.ids && conn.muxer in p.table.ids
    ensures var q := Track(p, now, conn, connId, openedAtNs); Told(q) && StreamsTold(q.log) == StreamsTold(p.log)
  {
    var n := WithPeer(p.net, conn.remotePeer);
    var info := InfoFor(p.table, n, conn, connId, openedAtNs);
    var m := State(p.table, n, Append(p.log, now, PeerUpsert(info.peerAlias, conn.remotePeer)));
    WithPeerValid(p.table.strings, p.net, conn.remotePeer);
    InfoDescribes(p.table, n, conn, connId, openedAtNs);
    PeerTold(p, now, n, conn.remotePeer, m);
    ConnTold(m, now, TrackedConn(conn, connId, info.peerAlias), info, Track(p, now, conn, connId, openedAtNs));
  }

  lemma AddStreamTells(p: State, now: Time, info: StreamInfo)
    requires Told(p) && info.streamAlias !in StreamsTold(p.log) && info.streamAlias < p.net.nextStream
    requires info.protocolId < |p.table.strings|
    ensures Told(AddStream(p, now, info))
  {
    var q := AddStream(p, now, info);
    BookAppend(p.log, q.log[|p.log|]);
    TellOne(p, q, q.log[|p.log|]);
  }

  lemma CloseTells(p: State, now: Time, streamId: nat, reason: CloseReason)
    requires Told(p)
    ensures Told(CloseStream(p, now, streamId, reason))
  {
    var q := CloseStream(p, now, streamId, reason);
    BookAppend(p.log, q.log[|p.log|]);
    TellOne(p, q, q.log[|p.log|]);
  }

  lemma ChunkTells(p: State, now: Time, streamId: nat, dir: Direction, data: seq<Byte>)
    requires Told(p)
    ensures Told(ReadOrWrite(p, now, streamId, dir, data))
  {
    var q := ReadOrWrite(p, now, streamId, dir, data);
    BookAppend(p.log, q.log[|p.log|]);
    TellOne(p, q, q.log[|p.log|]);
  }

  /** Closing the streams of a connection one after the other. */
  function CloseEach(p: State, now: Time, order: seq<nat>): State {
    if order == [] then p
    else CloseStream(CloseEach(p, now, order[..|order| - 1]), now, order[|order| - 1], ConnClosed)
  }

  lemma {:induction false} CloseEachShape(p: State, now: Time, order: seq<nat>)
    ensures var q := CloseEach(p, now, order);
      && q.table == p.table
      && q.net == p.net.(streamUpserts := p.net.streamUpserts - (set s | s in order))
      && q.log == AppendAll(p.log, now, Closes(order))
    decreases |order|
  {
    if order == [] {
      assert p.net.streamUpserts - (set s | s in order) == p.net.streamUpserts;
    } else {
      var n := |order| - 1;
      CloseEachShape(p, now, order[..n]);
      assert Closes(order)[..n] == Closes(order[..n]);
      OneMoreGone(p.net.streamUpserts, order, n);
    }
  }

  lemma OneMoreGone(streams: map<nat, StreamInfo>, order: seq<nat>, n: nat)
    requires |order| == n + 1
    ensures streams - (set s | s in order) == streams - (set s | s in order[..n]) - {order[n]}
  {
  }

  lemma {:induction false} CloseEachTells(p: State, now: Time, order: seq<nat>)
    requires Told(p)
    ensures Told(CloseEach(p, now, order))
    decreases |order|
  {
    if order != [] {
      var n := |order| - 1;
      CloseEachTells(p, now, order[..n]);
      CloseTells(CloseEach(p, now, order[..n]), now, order[n], ConnClosed);
    }
  }

  lemma ConnectionClosedTells(p: State, now: Time, key: string, id: nat, q: State)
    requires Told(p) && id in p.net.connById
    requires q == State(p.table, p.net.(conns := p.net.conns - {key}, connById := p.net.connById - {id},
                                        connectionUpserts := p.net.connectionUpserts - {id}),
                        Append(p.log, now, ConnectionClosed(id)))
    ensures Told(q)
  {
    BookAppend(p.log, q.log[|p.log|]);
    TellOne(p, q, q.log[|p.log|]);
  }

  lemma DisconnectShape(p: State, now: Time, key: string, order: seq<nat>, id: nat, m: State, q: State)
    requires key in p.net.conns && id == p.net.conns[key].connId
    requires forall a :: a in order <==> a in StreamsOf(p.net, id)
    requires m == CloseEach(p, now, order) && q == Disconnected(p, now, key, order)
    ensures m.net.connById == p.net.connById
    ensures q == State(m.table, m.net.(conns := m.net.conns - {key}, connById := m.net.connById - {id},
                                       connectionUpserts := m.net.connectionUpserts - {id}),
                       Append(m.log, now, ConnectionClosed(id)))
  {
    CloseEachShape(p, now, order);
    OrderListsStreams(p.net, id, order);
  }

  lemma DisconnectTells(p: State, now: Time, key: string, order: seq<nat>)
    requires Valid(p) && Told(p) && CanDo(p, Disconnect(key, order))
    ensures Told(Disconnected(p, now, key, order))
  {
    if key in p.net.conns {
      var id, m, q := p.net.conns[key].connId, CloseEach(p, now, order), Disconnected(p, now, key, order);
      DisconnectShape(p, now, key, order, id, m, q);
      CloseEachTells(p, now, order);
      ConnectionClosedTells(m, now, key, id, q);
    }
  }

  // ---- Snapshots over the log --------------------------------------------------------------------------

  /** A told connection was announced somewhere, with the strings of its time. */
  lemma {:induction false} WhereTold(log: seq<Envelope>, c: nat) returns (i: nat)
    requires c in ConnsTold(log)
    ensures i < |log| && log[i].payload == ConnectionUpsert(ConnsTold(log)[c]) && ConnsTold(log)[c].connAlias == c
    decreases |log|
  {
    var n := |log| - 1;
    if log[n].payload.ConnectionUpsert? && log[n].payload.conn.connAlias == c {
      i := n;
    } else {
      i := WhereTold(log[..n], c);
    }
  }

  lemma {:induction false} WhereStreamTold(log: seq<Envelope>, s: nat) returns (i: nat)
    requires s in StreamsTold(log)
    ensures i < |log| && log[i].payload == StreamUpsert(StreamsTold(log)[s]) && StreamsTold(log)[s].streamAlias == s
    decreases |log|
  {
    var n := |log| - 1;
    if log[n].payload.StreamUpsert? && log[n].payload.stream.streamAlias == s {
      i := n;
    } else {
      i := WhereStreamTold(log[..n], s);
    }
  }

  /** An announcement before position `at` refers to strings that were defined by then. */
  lemma RefersEarly(b: Book, log: seq<Envelope>, at: nat, i: nat)
    requires Consistent(b, log) && i < at <= |log|
    ensures Refers(log[i].payload, StringCount(log[..at]))
  {
    assert Sound(b, log, i);
    CountGrows(log, i, at);
  }

  /** The lens of a snapshot whose strings were read when the log had reached position `at`. */
  ghost function ReadLens(b: Book, log: seq<Envelope>, at: nat): Lens
    requires at <= |log|
  {
    Lens(b, StringCount(log[..at]), Later(log, ConnTouch, at), Later(log, StreamTouch, at))
  }

  lemma ReadCovers(b: Book, log: seq<Envelope>, at: nat, n: Net)
    requires Consistent(b, log) && at <= |log| && b.conns == ConnsTold(log) && b.streams == StreamsTold(log)
    requires forall c :: c in n.connectionUpserts ==> c in b.conns && b.conns[c] == n.connectionUpserts[c]
    requires forall s :: s in n.streamUpserts ==> s in b.streams && b.streams[s] == n.streamUpserts[s]
    ensures Covers(ReadLens(b, log, at), n)
  {
    var k := ReadLens(b, log, at);
    forall c | c in n.connectionUpserts
      ensures c in k.conns || Refers(ConnectionUpsert(n.connectionUpserts[c]), k.known)
    {
      var i := WhereTold(log, c);
      if i < at {
        RefersEarly(b, log, at, i);
      } else {
        assert ConnTouch(log[i].payload) == Opened(c);
      }
    }
    forall s | s in n.streamUpserts
      ensures s in k.streams || Refers(StreamUpsert(n.streamUpserts[s]), k.known)
    {
      var i := WhereStreamTold(log, s);
      if i < at {
        RefersEarly(b, log, at, i);
      } else {
        assert StreamTouch(log[i].payload) == Opened(s);
      }
    }
  }

  lemma ReadWeakens(b: Book, log: seq<Envelope>, at: nat, h: nat, a: Aliases)
    requires h <= at <= |log| && Canon(ReadLens(b, log, at), a)
    ensures Canon(LensAt(b, log, StringCount(log[..at]), h), a)
  {
    CountGrows(log, h, at);
    var k, l := ReadLens(b, log, at), LensAt(b, log, StringCount(log[..at]), h);
    assert k.conns <= l.conns && k.streams <= l.streams;
  }

  lemma LensEnds(b: Book, log: seq<Envelope>, at: nat)
    requires Consistent(b, log) && at <= |log|
    ensures LensAt(b, log, StringCount(log[..at]), |log|) == Settled(b)
  {
    CountGrows(log, at, |log|);
    assert log[..|log|] == log;
  }

  /** The alias state mirrors the probe, with or without the connection that is being disconnected. */
  ghost predicate Tracks(a: Aliases, p: State, leaving: Option<string>) {
    Matches(a, p) || Matches(a, Actual(p, leaving))
  }

  lemma ActualValid(p: State, leaving: Option<string>)
    requires Valid(p) && Told(p)
    ensures Valid(Actual(p, leaving)) && BookFor(BookOf(p), Actual(p, leaving))
  {
    if leaving.Some? {
      UntrackedValid(p, leaving.value);
    }
  }

  /** The snapshot's outcome, expressed through the lens of the moment its strings were read. */
  lemma SnapshotRead(p: State, leaving: Option<string>, at: nat, snap: Snap, a: Aliases, f: Aliases)
    requires Valid(p) && Told(p) && at <= |p.log| && f == Replay(a, EnvelopesOf(snap))
    requires StringCount(p.log[..at]) <= |p.table.strings|
    requires snap.strings == p.table.strings[..StringCount(p.log[..at])] && ListsNet(Actual(p, leaving).net, snap)
    ensures Canon(ReadLens(BookOf(p), p.log, at), f) && AllPeers(BookOf(p), f.peers)
    ensures SameOpen(f, Actual(p, leaving).net)
  {
    var b, q := BookOf(p), Actual(p, leaving);
    var k := ReadLens(b, p.log, at);
    ActualValid(p, leaving);
    ReadCovers(b, p.log, at, q.net);
    SnapshotLists(k, q, snap);
    SnapshotRebuilds(k, a, snap, q.net.connById.Keys, q.net.streamUpserts.Keys, f);
  }

  /** Replaying the log from h on over a state with the probe's actual streams and connections: nothing but the
      connection that is leaving can be in doubt. */
  lemma OverlapOpens(p: State, leaving: Option<string>, h: nat, streams: set<nat>, conns: set<nat>)
    requires Told(p) && h <= |p.log|
    requires streams == p.net.streamUpserts.Keys && conns == Actual(p, leaving).net.connById.Keys
    ensures Open(streams, p.log[h..], StreamTouch) == p.net.streamUpserts.Keys
    ensures var open := Open(conns, p.log[h..], ConnTouch);
      open == p.net.connById.Keys || open == Actual(p, leaving).net.connById.Keys
  {
    Absorbed(p.log, StreamTouch, h, streams);
    Absorbed(p.log, ConnTouch, h, conns);
    var open, all := Open(conns, p.log[h..], ConnTouch), p.net.connById.Keys;
    assert Open(streams, p.log[h..], StreamTouch) == streams;
    if leaving.Some? && leaving.value in p.net.conns {
      var id := p.net.conns[leaving.value].connId;
      assert conns == all - {id};
      assert forall a :: a != id ==> (a in open <==> a in all);
      assert open == if id in open then all + {id} else all - {id};
    } else {
      assert conns == all && open == all;
    }
  }

  lemma CanonTracks(p: State, leaving: Option<string>, x: Aliases)
    requires Valid(p) && Told(p) && Canon(Settled(BookOf(p)), x)
    requires x.protocols.Keys == p.net.streamUpserts.Keys
    requires x.peers.conns.Keys == p.net.connById.Keys || x.peers.conns.Keys == Actual(p, leaving).net.connById.Keys
    ensures Tracks(x, p, leaving)
  {
    ActualValid(p, leaving);
    ActualStreams(p, leaving);
    if x.peers.conns.Keys == p.net.connById.Keys {
      CanonMatches(BookOf(p), x, p);
    } else {
      CanonMatches(BookOf(p), x, Actual(p, leaving));
    }
  }

  lemma ActualStreams(p: State, leaving: Option<string>)
    ensures Actual(p, leaving).net.streamUpserts == p.net.streamUpserts
  {
  }

  /** A snapshot, its strings read when the log had reached position `at` and its maps now, followed by the log from
      any position up to `at`, gives a mirror of the probe. */
  lemma OverlapIsAbsorbed(p: State, leaving: Option<string>, at: nat, h: nat, snap: Snap, a: Aliases, f: Aliases)
    requires Valid(p) && Told(p) && h <= at <= |p.log| && f == Replay(a, EnvelopesOf(snap))
    requires StringCount(p.log[..at]) <= |p.table.strings|
    requires snap.strings == p.table.strings[..StringCount(p.log[..at])] && ListsNet(Actual(p, leaving).net, snap)
    ensures Tracks(Replay(f, p.log[h..]), p, leaving)
  {
    var b := BookOf(p);
    SnapshotRead(p, leaving, at, snap, a, f);
    ReadWeakens(b, p.log, at, h, f);
    CanonReplay(b, StringCount(p.log[..at]), f, p.log, h, |p.log|);
    assert p.log[h..|p.log|] == p.log[h..];
    LensEnds(b, p.log, at);
    OverlapOpens(p, leaving, h, f.protocols.Keys, f.peers.conns.Keys);
    CanonTracks(p, leaving, Replay(f, p.log[h..]));
  }
}
