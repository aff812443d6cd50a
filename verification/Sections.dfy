/** The probe's operations as the locked sections they consist of: what other threads can see of them in between. */
module Sections {
  import opened Basics
  import opened Envelopes
  import opened Processor
  import opened Probe
  import opened Mirror
  import opened Overlap
  import Peers

  /** The probe, and the key of the connection it is in the middle of disconnecting. */
  datatype Host = Host(state: State, leaving: Option<string>)

  const START_HOST := Host(Probe.START, None)

  /** Each section changes the maps in one go; what it emits follows before the next section begins. */
  datatype Section =
    | SpendConn
    | SpendStream
    | InternOne(s: string)
    | TrackConn(conn: Conn, connId: nat, atNs: int)
    | AnnounceStream(streamId: nat, connId: nat, protocol: string, dir: Direction, atNs: int)
    | PassChunk(streamId: nat, dir: Direction, data: seq<Byte>)
    | DropStream(streamId: nat, reason: CloseReason)
    | Untrack(key: string)
    | DropStreams(order: seq<nat>)

  /** A disconnect finishes before anything else happens; announcements use interned strings and fresh ids. */
  ghost predicate CanRun(h: Host, sec: Section) {
    var p := h.state;
    && (sec.DropStreams? <==> h.leaving.Some?)
    && match sec
       case TrackConn(conn, connId, _) =>
         && conn.key !in p.net.conns && connId !in ConnsTold(p.log) && connId < p.net.nextConn
         && conn.transport in p.table.ids && conn.security in p.table.ids && conn.muxer in p.table.ids
       case AnnounceStream(streamId, _, protocol, _, _) =>
         protocol in p.table.ids && streamId !in StreamsTold(p.log) && streamId < p.net.nextStream
       case Untrack(key) => key in p.net.conns
       case DropStreams(order) => CanDo(p, Disconnect(h.leaving.value, order))
       case _ => true
  }

  function Act(h: Host, now: Time, sec: Section): Host {
    var p := h.state;
    match sec
    case SpendConn => h.(state := SpendConnId(p))
    case SpendStream => h.(state := SpendStreamId(p))
    case InternOne(s) => h.(state := Intern(p, now, s))
    case TrackConn(conn, connId, atNs) => h.(state := Track(p, now, conn, connId, atNs))
    case AnnounceStream(streamId, connId, protocol, dir, atNs) =>
      h.(state := AddStream(p, now, StreamInfo(streamId, connId, dir, IdOf(p.table, protocol), atNs)))
    case PassChunk(streamId, dir, data) => h.(state := ReadOrWrite(p, now, streamId, dir, data))
    case DropStream(streamId, reason) => h.(state := CloseStream(p, now, streamId, reason))
    case Untrack(key) => h.(leaving := Some(key))
    case DropStreams(order) =>
      if h.leaving.None? then h else Host(Disconnected(p, now, h.leaving.value, order), None)
  }

  /** State, log and mirror fit together. */
  ghost predicate ProbeOk(p: State) {
    Valid(p) && Told(p) && Matches(Replay(NO_ALIASES, p.log), p)
  }

  ghost predicate HostOk(h: Host) {
    ProbeOk(h.state) && (h.leaving.Some? ==> h.leaving.value in h.state.net.conns)
  }

  /** What the section emits carries a mirror along. */
  ghost predicate Moves(a: Aliases, p: State, q: State) {
    p.log <= q.log && Matches(Replay(a, Emitted(p, q)), q)
  }

  lemma CarriesMoves(a: Aliases, p: State, q: State)
    requires Carries(a, p, q)
    ensures Moves(a, p, q) && Valid(q)
  {
  }

  lemma QuietMoves(a: Aliases, p: State, q: State)
    requires Matches(a, q) && q.log == p.log
    ensures Moves(a, p, q)
  {
    assert Emitted(p, q) == [];
  }

  lemma SpendMoves(a: Aliases, p: State, q: State)
    requires Valid(p) && Told(p) && Matches(a, p) && (q == SpendConnId(p) || q == SpendStreamId(p))
    ensures Moves(a, p, q) && Valid(q) && Told(q)
  {
    assert Emitted(p, q) == [];
  }

  lemma TrackMoves(a: Aliases, p: State, now: Time, conn: Conn, connId: nat, atNs: int)
    requires Valid(p) && Told(p) && Matches(a, p) && CanRun(Host(p, None), TrackConn(conn, connId, atNs))
    ensures var q := Track(p, now, conn, connId, atNs); Moves(a, p, q) && Valid(q) && Told(q)
  {
    TrackCarries(a, p, now, conn, connId, atNs);
    CarriesMoves(a, p, Track(p, now, conn, connId, atNs));
    TrackTells(p, now, conn, connId, atNs);
  }

  lemma StreamMoves(a: Aliases, p: State, now: Time, info: StreamInfo)
    requires Valid(p) && Told(p) && Matches(a, p) && info.protocolId < |p.table.strings|
    requires info.streamAlias !in StreamsTold(p.log) && info.streamAlias < p.net.nextStream
    ensures var q := AddStream(p, now, info); Moves(a, p, q) && Valid(q) && Told(q)
  {
    AddStreamCarries(a, p, now, info);
    CarriesMoves(a, p, AddStream(p, now, info));
    AddStreamTells(p, now, info);
  }

  lemma InternMoves(a: Aliases, p: State, now: Time, s: string)
    requires Valid(p) && Told(p) && Matches(a, p)
    ensures var q := Intern(p, now, s); Moves(a, p, q) && Valid(q) && Told(q)
  {
    InternCarries(a, p, now, s);
    CarriesMoves(a, p, Intern(p, now, s));
    InternTells(p, now, s);
  }

  lemma DropMoves(a: Aliases, p: State, now: Time, streamId: nat, reason: CloseReason)
    requires Valid(p) && Told(p) && Matches(a, p)
    ensures var q := CloseStream(p, now, streamId, reason); Moves(a, p, q) && Valid(q) && Told(q)
  {
    CloseCarries(a, p, now, streamId, reason);
    CarriesMoves(a, p, CloseStream(p, now, streamId, reason));
    CloseTells(p, now, streamId, reason);
  }

  lemma ChunkMoves(a: Aliases, p: State, now: Time, streamId: nat, dir: Direction, data: seq<Byte>)
    requires Valid(p) && Told(p) && Matches(a, p)
    ensures var q := ReadOrWrite(p, now, streamId, dir, data); Moves(a, p, q) && Valid(q) && Told(q)
  {
    ChunkCarries(a, p, now, streamId, dir, data);
    CarriesMoves(a, p, ReadOrWrite(p, now, streamId, dir, data));
    ChunkTells(p, now, streamId, dir, data);
  }

  /** Sections other than those of a disconnect. */
  lemma PlainMoves(a: Aliases, h: Host, now: Time, sec: Section, q: State)
    requires Valid(h.state) && Told(h.state) && Matches(a, h.state) && CanRun(h, sec) && h.leaving.None?
    requires !sec.Untrack? && q == Act(h, now, sec).state
    ensures Moves(a, h.state, q) && Valid(q) && Told(q)
  {
    var p := h.state;
    match sec
    case InternOne(s) => InternMoves(a, p, now, s);
    case TrackConn(conn, connId, atNs) => TrackMoves(a, p, now, conn, connId, atNs);
    case AnnounceStream(streamId, connId, protocol, dir, atNs) =>
      StreamMoves(a, p, now, StreamInfo(streamId, connId, dir, IdOf(p.table, protocol), atNs));
    case PassChunk(streamId, dir, data) => ChunkMoves(a, p, now, streamId, dir, data);
    case DropStream(streamId, reason) => DropMoves(a, p, now, streamId, reason);
    case _ => SpendMoves(a, p, q);
  }

  // ---- The second half of a disconnect -------------------------------------------------------------------

  /** A connection the collector does not have is closed without effect. */
  lemma CloseAbsent(x: Peers.Index, expected: map<nat, Peers.Entry>, id: nat)
    requires Peers.Agrees(x) && Peers.Flat(x) == expected && id !in expected
    ensures Peers.CloseConnection(x, id) == x
  {
    Peers.FlatIsAll(x);
  }

  lemma AbsentMatches(a: Aliases, p: State, key: string, id: nat, b: Aliases, r: State)
    requires key in p.net.conns && id == p.net.conns[key].connId && Matches(a, Untracked(p, key))
    requires b == Aliases(a.strings, a.protocols - StreamsOf(p.net, id), Peers.CloseConnection(a.peers, id))
    requires r.table == p.table && r.net == Forget(p.net, key, id)
    ensures Matches(b, r)
  {
    var u := Untracked(p, key);
    CloseAbsent(a.peers, Expected(u.net.connById, u.net.connectionUpserts), id);
    ProtocolsRemoved(p.table.strings, p.net.streamUpserts, StreamsOf(p.net, id));
  }

  /** The closes of a disconnect leave a mirror, whether or not the connection itself was mirrored before. */
  lemma DisconnectMoves(a: Aliases, p: State, now: Time, key: string, order: seq<nat>, r: State)
    requires Valid(p) && Told(p) && key in p.net.conns && Tracks(a, p, Some(key))
    requires CanDo(p, Disconnect(key, order)) && r == Disconnected(p, now, key, order)
    ensures Moves(a, p, r)
  {
    var id := p.net.conns[key].connId;
    if Matches(a, p) {
      DisconnectMatches(a, p, now, key, order, id, r);
    } else {
      DisconnectReplays(a, p, now, key, order, id, r);
      AbsentMatches(a, p, key, id, Replay(a, Emitted(p, r)), r);
    }
  }

  // ---- Every section -------------------------------------------------------------------------------------

  /** Whoever tracks the probe and applies what a section emits tracks it afterwards. */
  lemma SectionCarries(a: Aliases, h: Host, now: Time, sec: Section, g: Host)
    requires HostOk(h) && CanRun(h, sec) && Tracks(a, h.state, h.leaving) && g == Act(h, now, sec)
    ensures h.state.log <= g.state.log && Tracks(Replay(a, Emitted(h.state, g.state)), g.state, g.leaving)
  {
    match sec
    case DropStreams(order) => DisconnectMoves(a, h.state, now, h.leaving.value, order, g.state);
    case Untrack(_) => QuietMoves(a, h.state, g.state);
    case _ => PlainMoves(a, h, now, sec, g.state);
  }

  lemma SectionTells(h: Host, now: Time, sec: Section, g: Host)
    requires HostOk(h) && CanRun(h, sec) && g == Act(h, now, sec)
    ensures Valid(g.state) && Told(g.state)
  {
    match sec
    case DropStreams(order) =>
      DisconnectedValid(h.state, now, h.leaving.value, order);
      DisconnectTells(h.state, now, h.leaving.value, order);
    case Untrack(_) =>
    case _ => PlainMoves(Replay(NO_ALIASES, h.state.log), h, now, sec, g.state);
  }

  lemma MirrorMoves(a: Aliases, p: State, q: State)
    requires a == Replay(NO_ALIASES, p.log) && Moves(a, p, q)
    ensures Matches(Replay(NO_ALIASES, q.log), q)
  {
    assert q.log == p.log + Emitted(p, q);
    ReplayAppend(NO_ALIASES, p.log, Emitted(p, q));
  }

  /** Every section keeps the probe's state, log and mirror in step. */
  lemma SectionKeepsHost(h: Host, now: Time, sec: Section, g: Host)
    requires HostOk(h) && CanRun(h, sec) && g == Act(h, now, sec)
    ensures HostOk(g) && h.state.log <= g.state.log
  {
    var a := Replay(NO_ALIASES, h.state.log);
    SectionTells(h, now, sec, g);
    match sec
    case DropStreams(order) =>
      DisconnectMoves(a, h.state, now, h.leaving.value, order, g.state);
      MirrorMoves(a, h.state, g.state);
    case Untrack(_) =>
    case _ =>
      PlainMoves(a, h, now, sec, g.state);
      MirrorMoves(a, h.state, g.state);
  }

  // ---- Operations consist of sections --------------------------------------------------------------------

  function ActAll(h: Host, now: Time, secs: seq<Section>): Host
    decreases |secs|
  {
    if secs == [] then h else ActAll(Act(h, now, secs[0]), now, secs[1..])
  }

  ghost predicate CanRunAll(h: Host, now: Time, secs: seq<Section>)
    decreases |secs|
  {
    secs == [] || (CanRun(h, secs[0]) && CanRunAll(Act(h, now, secs[0]), now, secs[1..]))
  }

  /** The sections lead from one probe to the other. */
  ghost predicate Leads(p: State, now: Time, secs: seq<Section>, q: State) {
    CanRunAll(Host(p, None), now, secs) && ActAll(Host(p, None), now, secs) == Host(q, None)
  }

  lemma {:induction false} LeadsOn(p: State, now: Time, secs: seq<Section>, q: State, more: seq<Section>, r: State)
    requires Leads(p, now, secs, q) && Leads(q, now, more, r)
    ensures Leads(p, now, secs + more, r)
  {
    ConcatRuns(Host(p, None), now, secs, more);
  }

  lemma {:induction false} ConcatRuns(h: Host, now: Time, secs: seq<Section>, more: seq<Section>)
    requires CanRunAll(h, now, secs) && CanRunAll(ActAll(h, now, secs), now, more)
    ensures CanRunAll(h, now, secs + more)
    ensures ActAll(h, now, secs + more) == ActAll(ActAll(h, now, secs), now, more)
    decreases |secs|
  {
    if secs == [] {
      assert secs + more == more;
    } else {
      ConcatRuns(Act(h, now, secs[0]), now, secs[1..], more);
      assert (secs + more)[1..] == secs[1..] + more;
    }
  }

  lemma OneLeads(p: State, now: Time, sec: Section, q: State)
    requires CanRun(Host(p, None), sec) && Act(Host(p, None), now, sec) == Host(q, None)
    ensures Leads(p, now, [sec], q)
  {
    assert [sec][1..] == [];
  }

  lemma InternConnLeads(p: State, now: Time, conn: Conn) returns (secs: seq<Section>)
    ensures Leads(p, now, secs, InternConn(p, now, conn))
  {
    var p1 := Intern(p, now, conn.transport);
    var p2 := Intern(p1, now, conn.security);
    var p3 := Intern(p2, now, conn.muxer);
    OneLeads(p, now, InternOne(conn.transport), p1);
    OneLeads(p1, now, InternOne(conn.security), p2);
    OneLeads(p2, now, InternOne(conn.muxer), p3);
    LeadsOn(p1, now, [InternOne(conn.security)], p2, [InternOne(conn.muxer)], p3);
    secs := [InternOne(conn.transport)] + ([InternOne(conn.security)] + [InternOne(conn.muxer)]);
    LeadsOn(p, now, [InternOne(conn.transport)], p1, [InternOne(conn.security)] + [InternOne(conn.muxer)], p3);
  }

  lemma InternConnKeeps(p: State, now: Time, conn: Conn, q: State)
    requires Valid(p) && Told(p) && q == InternConn(p, now, conn)
    ensures q.net == p.net && ConnsTold(q.log) == ConnsTold(p.log) && StreamsTold(q.log) == StreamsTold(p.log)
    ensures conn.transport in q.table.ids && conn.security in q.table.ids && conn.muxer in q.table.ids
  {
    var p1 := Intern(p, now, conn.transport);
    var p2 := Intern(p1, now, conn.security);
    InternTells(p, now, conn.transport);
    InternValid(p, now, conn.transport);
    InternTells(p1, now, conn.security);
    InternValid(p1, now, conn.security);
    InternTells(p2, now, conn.muxer);
    InternValid(p2, now, conn.muxer);
  }

  lemma ConnectLeads(p: State, now: Time, conn: Conn, atNs: int) returns (secs: seq<Section>)
    requires Valid(p) && Told(p)
    ensures Leads(p, now, secs, Connected(p, now, conn, atNs))
    ensures StreamsTold(Connected(p, now, conn, atNs).log) == StreamsTold(p.log)
    ensures Connected(p, now, conn, atNs).net.nextStream == p.net.nextStream
  {
    var p0 := SpendConnId(p);
    var q := InternConn(p0, now, conn);
    assert Valid(p0) && Told(p0);
    OneLeads(p, now, SpendConn, p0);
    var interns := InternConnLeads(p0, now, conn);
    LeadsOn(p, now, [SpendConn], p0, interns, q);
    secs := [SpendConn] + interns;
    InternConnKeeps(p0, now, conn, q);
    if conn.key !in q.net.conns {
      var track, r := TrackConn(conn, p.net.nextConn, atNs), Track(q, now, conn, p.net.nextConn, atNs);
      TrackedLog(q, now, conn, p.net.nextConn, atNs, r);
      OneLeads(q, now, track, r);
      LeadsOn(p, now, secs, q, [track], r);
      secs := secs + [track];
    }
  }

  lemma TrackedLog(q: State, now: Time, conn: Conn, connId: nat, atNs: int, r: State)
    requires r == Track(q, now, conn, connId, atNs)
    ensures StreamsTold(r.log) == StreamsTold(q.log)
  {
    BookAppend(q.log, r.log[|q.log|]);
    BookAppend(q.log + [r.log[|q.log|]], r.log[|q.log| + 1]);
  }

  lemma StreamLeads(p: State, now: Time, conn: Conn, streamId: nat, protocol: string, dir: Direction, atNs: int)
    returns (secs: seq<Section>)
    requires Valid(p) && Told(p) && streamId < p.net.nextStream && streamId !in StreamsTold(p.log)
    ensures Leads(p, now, secs, OpenStream(p, now, conn, streamId, protocol, dir, atNs))
  {
    var q := Intern(p, now, protocol);
    InternTells(p, now, protocol);
    InternValid(p, now, protocol);
    OneLeads(p, now, InternOne(protocol), q);
    var announce := AnnounceStream(streamId, ConnIdOf(q.net, conn.key), protocol, dir, atNs);
    var r := OpenStream(p, now, conn, streamId, protocol, dir, atNs);
    OneLeads(q, now, announce, r);
    secs := [InternOne(protocol)] + [announce];
    LeadsOn(p, now, [InternOne(protocol)], q, [announce], r);
  }

  lemma {:induction false} LeadsOk(h: Host, now: Time, secs: seq<Section>)
    requires HostOk(h) && CanRunAll(h, now, secs)
    ensures HostOk(ActAll(h, now, secs))
    decreases |secs|
  {
    if secs != [] {
      SectionKeepsHost(h, now, secs[0], Act(h, now, secs[0]));
      LeadsOk(Act(h, now, secs[0]), now, secs[1..]);
    }
  }

  lemma WrapLeads(
      p: State, now: Time, conn: Conn, protocol: string, dir: Direction, atNs: int) returns (secs: seq<Section>)
    requires ProbeOk(p)
    ensures Leads(p, now, secs, WrapStream(p, now, conn, protocol, dir, atNs))
  {
    var p0 := SpendStreamId(p);
    var p1, r := Tracked(p0, now, conn, atNs), WrapStream(p, now, conn, protocol, dir, atNs);
    SpendMoves(Replay(NO_ALIASES, p.log), p, p0);
    OneLeads(p, now, SpendStream, p0);
    secs := [SpendStream];
    if conn.key !in p0.net.conns {
      var connect := ConnectLeads(p0, now, conn, atNs);
      LeadsOn(p, now, secs, p0, connect, p1);
      secs := secs + connect;
    }
    LeadsOk(Host(p, None), now, secs);
    var open := StreamLeads(p1, now, conn, p.net.nextStream, protocol, dir, atNs);
    LeadsOn(p, now, secs, p1, open, r);
    secs := secs + open;
  }

  lemma DisconnectLeads(p: State, now: Time, key: string, order: seq<nat>) returns (secs: seq<Section>)
    requires CanDo(p, Disconnect(key, order))
    ensures Leads(p, now, secs, Disconnected(p, now, key, order))
  {
    secs := [];
    if key in p.net.conns {
      secs := [Untrack(key)] + [DropStreams(order)];
      assert secs[1..] == [DropStreams(order)] && [DropStreams(order)][1..] == [];
      assert ActAll(Host(p, Some(key)), now, [DropStreams(order)]) == Host(Disconnected(p, now, key, order), None);
    }
  }

  /** Every operation is a run of sections that leads to the same probe and the same log. */
  lemma OperationIsSections(p: State, now: Time, op: Op) returns (secs: seq<Section>)
    requires ProbeOk(p) && CanDo(p, op)
    ensures Leads(p, now, secs, Do(p, now, op))
  {
    match op
    case Connect(conn, atNs) => secs := ConnectLeads(p, now, conn, atNs);
    case Wrap(conn, protocol, dir, atNs) => secs := WrapLeads(p, now, conn, protocol, dir, atNs);
    case Chunk(streamId, dir, data) =>
      secs := [PassChunk(streamId, dir, data)];
      OneLeads(p, now, PassChunk(streamId, dir, data), ReadOrWrite(p, now, streamId, dir, data));
    case Close(streamId, reason) =>
      secs := [DropStream(streamId, reason)];
      OneLeads(p, now, DropStream(streamId, reason), CloseStream(p, now, streamId, reason));
    case Disconnect(key, order) => secs := DisconnectLeads(p, now, key, order);
  }
}
