/** Snapshots of the probe's state, and why replaying one, even overlapped by older log entries, rebuilds the mirror. */
module Snapshot {
  import opened Basics
  import opened Envelopes
  import opened Processor
  import opened Probe
  import opened Mirror
  import Peers

  datatype TrackedPeer = TrackedPeer(alias: nat, id: PeerId)

  datatype Snap = Snap(
    strings: seq<string>, peers: seq<TrackedPeer>, connections: seq<ConnectionInfo>, streams: seq<StreamInfo>)

  /** Snapshot envelopes carry no sequence number. */
  function Plain(p: Payload): Envelope {
    Envelope(0, 0, p)
  }

  function StringDefs(strings: seq<string>): seq<Envelope> {
    seq(|strings|, i requires 0 <= i < |strings| => Plain(StringDef(i, strings[i])))
  }

  function PeerUpserts(peers: seq<TrackedPeer>): seq<Envelope> {
    seq(|peers|, i requires 0 <= i < |peers| => Plain(PeerUpsert(peers[i].alias, peers[i].id)))
  }

  function ConnectionUpserts(conns: seq<ConnectionInfo>): seq<Envelope> {
    seq(|conns|, i requires 0 <= i < |conns| => Plain(ConnectionUpsert(conns[i])))
  }

  function StreamUpserts(streams: seq<StreamInfo>): seq<Envelope> {
    seq(|streams|, i requires 0 <= i < |streams| => Plain(StreamUpsert(streams[i])))
  }

  /** Definitions come before their uses: strings, then peers, then connections, then streams. */
  function EnvelopesOf(s: Snap): seq<Envelope> {
    [Plain(SnapshotStart)]
    + (StringDefs(s.strings) + (PeerUpserts(s.peers) + (ConnectionUpserts(s.connections) + StreamUpserts(s.streams))))
    + [Plain(SnapshotEnd)]
  }

  /** The snapshot lists exactly the peers, connections and streams the probe tracks, in order of alias. */
  ghost predicate ListsNet(n: Net, s: Snap) {
    && (forall t :: t in s.peers <==> t.id in n.peers && n.peers[t.id] == t.alias)
    && (forall c :: c in s.connections <==> c.connAlias in n.connectionUpserts && n.connectionUpserts[c.connAlias] == c)
    && (forall st :: st in s.streams <==> st.streamAlias in n.streamUpserts && n.streamUpserts[st.streamAlias] == st)
    && (forall i, j :: 0 <= i < j < |s.peers| ==> s.peers[i].alias < s.peers[j].alias)
    && (forall i, j :: 0 <= i < j < |s.connections| ==> s.connections[i].connAlias < s.connections[j].connAlias)
    && (forall i, j :: 0 <= i < j < |s.streams| ==> s.streams[i].streamAlias < s.streams[j].streamAlias)
  }

  /** The snapshot of one instant. */
  ghost predicate SnapshotOf(p: State, s: Snap) {
    s.strings == p.table.strings && ListsNet(p.net, s)
  }

  // ---- Which aliases are open ------------------------------------------------------------------------

  datatype Touch = Opened(alias: nat) | Shut(alias: nat) | Neither

  function StreamTouch(p: Payload): Touch {
    match p
    case StreamUpsert(st) => Opened(st.streamAlias)
    case StreamClosed(a, _) => Shut(a)
    case _ => Neither
  }

  function ConnTouch(p: Payload): Touch {
    match p
    case ConnectionUpsert(c) => Opened(c.connAlias)
    case ConnectionClosed(c) => Shut(c)
    case _ => Neither
  }

  function Touched(open: set<nat>, t: Touch): set<nat> {
    match t
    case Opened(a) => open + {a}
    case Shut(a) => open - {a}
    case Neither => open
  }

  /** The aliases open after some envelopes. */
  function Open(open: set<nat>, es: seq<Envelope>, touch: Payload -> Touch): set<nat> {
    if es == [] then open
    else Touched(Open(open, es[..|es| - 1], touch), touch(es[|es| - 1].payload))
  }

  /** Replaying part of a log over some other set: at any moment each alias is as the log left it there, or as it
      was in the set. */
  lemma {:induction false} Sandwich(es: seq<Envelope>, touch: Payload -> Touch, h: nat, k: nat, open: set<nat>, a: nat)
    requires h <= k <= |es|
    ensures var here := a in Open(open, es[h..k], touch);
      here == (a in Open({}, es[..k], touch)) || here == (a in open)
    decreases k
  {
    if h < k {
      Sandwich(es, touch, h, k - 1, open, a);
      assert es[h..k][..k - h - 1] == es[h..k - 1] && es[..k][..k - 1] == es[..k - 1];
      assert es[h..k][k - h - 1] == es[..k][k - 1] == es[k - 1];
    } else {
      assert es[h..k] == [];
    }
  }

  /** ... so a set that agrees with the log's outcome keeps agreeing: the overlap is absorbed. */
  lemma Absorbed(es: seq<Envelope>, touch: Payload -> Touch, h: nat, open: set<nat>)
    requires h <= |es|
    ensures forall a :: (a in open <==> a in Open({}, es, touch)) ==>
      (a in Open(open, es[h..], touch) <==> a in Open({}, es, touch))
  {
    assert es[h..|es|] == es[h..] && es[..|es|] == es;
    forall a: nat
      ensures (a in open <==> a in Open({}, es, touch)) ==>
        (a in Open(open, es[h..], touch) <==> a in Open({}, es, touch))
    {
      Sandwich(es, touch, h, |es|, open, a);
    }
  }

  // ---- Canonical values ------------------------------------------------------------------------------

  /** Everything the probe ever said: aliases are never reused, so each has one meaning. */
  datatype Book = Book(
    strings: seq<string>, peers: map<PeerId, nat>, conns: map<nat, ConnectionInfo>, streams: map<nat, StreamInfo>)

  /** What is expected of an alias state: how many of the strings it knows, and which connections and streams may
      still be described with strings it did not know, because their announcement is yet to come. */
  datatype Lens = Lens(book: Book, known: nat, conns: set<nat>, streams: set<nat>)

  /** The envelope repeats something in the book. */
  ghost predicate Known(b: Book, p: Payload) {
    match p
    case SnapshotStart => false
    case SnapshotEnd => false
    case StringDef(id, value) => id < |b.strings| && b.strings[id] == value
    case PeerUpsert(alias, id) => id in b.peers && b.peers[id] == alias
    case ConnectionUpsert(c) => c.connAlias in b.conns && b.conns[c.connAlias] == c
    case StreamUpsert(st) => st.streamAlias in b.streams && b.streams[st.streamAlias] == st
    case _ => true
  }

  ghost predicate CanonStreams(k: Lens, protocols: map<nat, string>) {
    forall s :: s in protocols ==>
      s in k.book.streams
      && (s in k.streams || protocols[s] == Text(StringMap(k.book.strings), k.book.streams[s].protocolId))
  }

  ghost predicate CanonPeers(b: Book, x: Peers.Index) {
    forall q :: q in x.peers ==> x.peers[q].peerId in b.peers && b.peers[x.peers[q].peerId] == q
  }

  ghost predicate CanonConn(k: Lens, c: nat, state: Peers.ConnState) {
    && c in k.book.conns && state.peerAlias == k.book.conns[c].peerAlias
    && (c in k.conns || state == Describe(StringMap(k.book.strings), k.book.conns[c]))
  }

  ghost predicate CanonConns(k: Lens, x: Peers.Index) {
    forall c :: c in x.conns ==> Peers.EntryOf(x, c).Some? && CanonConn(k, c, Peers.EntryOf(x, c).value.state)
  }

  ghost predicate CanonIndex(k: Lens, x: Peers.Index) {
    Peers.Agrees(x) && CanonPeers(k.book, x) && CanonConns(k, x)
  }

  /** Every entry of the alias state has the one value the book gives it. */
  ghost predicate Canon(k: Lens, a: Aliases) {
    && k.known <= |k.book.strings| && a.strings == StringMap(k.book.strings[..k.known])
    && CanonStreams(k, a.protocols)
    && CanonIndex(k, a.peers)
  }

  ghost predicate Injective(peers: map<PeerId, nat>) {
    forall i, j :: i in peers && j in peers && peers[i] == peers[j] ==> i == j
  }

  /** The strings the envelope refers to are among the first n. */
  ghost predicate Refers(p: Payload, n: nat) {
    match p
    case ConnectionUpsert(c) => c.transportId < n && c.securityId < n && c.muxerId < n
    case StreamUpsert(st) => st.protocolId < n
    case _ => true
  }

  /** Whether the envelope announces this connection or stream. */
  predicate Announces(p: Payload, touch: Payload -> Touch, a: nat) {
    touch(p) == Opened(a)
  }

  /** The lens after an envelope: a definition adds a string, an announcement with known strings settles its alias. */
  ghost predicate Sharpens(k: Lens, p: Payload, l: Lens) {
    && l.book == k.book
    && l.known == (if p.StringDef? && p.id >= k.known then p.id + 1 else k.known)
    && (p.StringDef? ==> p.id <= k.known)
    && (forall c :: c in k.conns ==> c in l.conns || Announces(p, ConnTouch, c))
    && (forall s :: s in k.streams ==> s in l.streams || Announces(p, StreamTouch, s))
    && (p.ConnectionUpsert? ==> p.conn.connAlias in l.conns || Refers(p, k.known))
    && (p.StreamUpsert? ==> p.stream.streamAlias in l.streams || Refers(p, k.known))
  }

  lemma PeerStaysCanon(k: Lens, l: Lens, x: Peers.Index, alias: nat, id: PeerId)
    requires Injective(k.book.peers) && CanonIndex(k, x) && l.book == k.book && k.conns <= l.conns
    requires id in k.book.peers && k.book.peers[id] == alias
    ensures var y := Peers.UpsertPeer(x, alias, id);
      CanonIndex(l, y) && y.conns == x.conns && alias in y.peers
  {
    Peers.UpsertPeerAgrees(x, alias, id);
  }

  lemma ConnStaysCanon(k: Lens, l: Lens, x: Peers.Index, c: nat, cs: Peers.ConnState)
    requires CanonIndex(k, x) && l.book == k.book && CanonConn(l, c, cs) && cs.peerAlias in x.peers
    requires forall d :: d in k.conns ==> d in l.conns || d == c
    ensures var y := Peers.UpsertConnection(x, c, cs);
      CanonIndex(l, y) && y.conns.Keys == x.conns.Keys + {c}
  {
    Peers.UpsertConnectionAgrees(x, c, cs);
    var y := Peers.UpsertConnection(x, c, cs);
    forall d | d in y.conns
      ensures Peers.EntryOf(y, d) ==
        if d == c then Some(Peers.Entry(cs.peerAlias, x.peers[cs.peerAlias].peerId, cs)) else Peers.EntryOf(x, d)
    {
      Peers.EntryAfterUpsert(x, c, cs, d);
    }
  }

  lemma CloseStaysCanon(k: Lens, l: Lens, x: Peers.Index, c: nat)
    requires CanonIndex(k, x) && l.book == k.book && k.conns <= l.conns
    ensures var y := Peers.CloseConnection(x, c);
      CanonIndex(l, y) && y.conns.Keys == x.conns.Keys - {c}
  {
    Peers.CloseConnectionAgrees(x, c);
  }

  /** Known strings read the same whether or not later ones are defined. */
  lemma KnownText(strings: seq<string>, n: nat, id: nat)
    requires id < n <= |strings|
    ensures Text(StringMap(strings[..n]), id) == Text(StringMap(strings), id)
  {
  }

  lemma KnownDescription(k: Lens, strings: map<nat, string>, c: ConnectionInfo)
    requires k.known <= |k.book.strings| && strings == StringMap(k.book.strings[..k.known])
    requires c.connAlias in k.book.conns && k.book.conns[c.connAlias] == c
    requires c.connAlias in k.conns || Refers(ConnectionUpsert(c), k.known)
    ensures CanonConn(k, c.connAlias, Describe(strings, c))
  {
    if Refers(ConnectionUpsert(c), k.known) {
      KnownText(k.book.strings, k.known, c.transportId);
      KnownText(k.book.strings, k.known, c.securityId);
      KnownText(k.book.strings, k.known, c.muxerId);
    }
  }

  lemma CanonIndexStep(k: Lens, a: Aliases, p: Payload, l: Lens)
    requires Injective(k.book.peers) && Canon(k, a) && Known(k.book, p) && Sharpens(k, p, l)
    requires p.ConnectionUpsert? ==> p.conn.peerAlias in a.peers.peers
    ensures var x := ApplyAlias(a, p).peers;
      && CanonIndex(l, x)
      && x.conns.Keys == Touched(a.peers.conns.Keys, ConnTouch(p))
      && (p.PeerUpsert? ==> p.peerAlias in x.peers)
  {
    match p
    case PeerUpsert(alias, id) => PeerStaysCanon(k, l, a.peers, alias, id);
    case ConnectionUpsert(c) =>
      KnownDescription(l, a.strings, c);
      ConnStaysCanon(k, l, a.peers, c.connAlias, Describe(a.strings, c));
    case ConnectionClosed(c) => CloseStaysCanon(k, l, a.peers, c);
    case _ =>
  }

  lemma CanonStreamStep(k: Lens, a: Aliases, p: Payload, l: Lens)
    requires Canon(k, a) && Known(k.book, p) && Sharpens(k, p, l)
    ensures var x := ApplyAlias(a, p);
      && l.known <= |l.book.strings| && x.strings == StringMap(l.book.strings[..l.known])
      && CanonStreams(l, x.protocols)
      && x.protocols.Keys == Touched(a.protocols.Keys, StreamTouch(p))
  {
    match p
    case StreamUpsert(st) =>
      if Refers(p, k.known) {
        KnownText(k.book.strings, k.known, st.protocolId);
      }
    case StringDef(id, value) =>
      assert StringMap(k.book.strings[..k.known])[id := value] == StringMap(l.book.strings[..l.known]);
    case _ =>
  }

  /** An envelope that repeats the book keeps the state canonical and opens or closes exactly its alias. */
  lemma CanonStep(k: Lens, a: Aliases, p: Payload, l: Lens, y: Aliases)
    requires Injective(k.book.peers) && Canon(k, a) && Known(k.book, p) && Sharpens(k, p, l) && y == ApplyAlias(a, p)
    requires p.ConnectionUpsert? ==> p.conn.peerAlias in a.peers.peers
    ensures Canon(l, y)
    ensures y.protocols.Keys == Touched(a.protocols.Keys, StreamTouch(p))
    ensures y.peers.conns.Keys == Touched(a.peers.conns.Keys, ConnTouch(p))
    ensures p.PeerUpsert? ==> p.peerAlias in y.peers.peers
  {
    CanonIndexStep(k, a, p, l);
    CanonStreamStep(k, a, p, l);
  }

  /** The book is the probe's, and holds what the probe tracks now. */
  ghost predicate BookFor(b: Book, p: State) {
    && b.strings == p.table.strings && b.peers == p.net.peers
    && (forall c :: c in p.net.connectionUpserts ==> c in b.conns && b.conns[c] == p.net.connectionUpserts[c])
    && (forall s :: s in p.net.streamUpserts ==> s in b.streams && b.streams[s] == p.net.streamUpserts[s])
  }

  /** Exactly the probe's streams and connections are open. */
  ghost predicate SameOpen(a: Aliases, n: Net) {
    a.protocols.Keys == n.streamUpserts.Keys && a.peers.conns.Keys == n.connById.Keys
  }

  /** All strings known, nothing left to settle. */
  function Settled(b: Book): Lens {
    Lens(b, |b.strings|, {}, {})
  }

  lemma CanonEntry(b: Book, x: Peers.Index, strings: seq<string>, n: Net, c: nat)
    requires ValidNet(strings, n) && b.strings == strings && b.peers == n.peers
    requires c in n.connById && c in x.conns && c in b.conns && b.conns[c] == n.connectionUpserts[c]
    requires CanonIndex(Settled(b), x)
    ensures Peers.EntryOf(x, c) == Some(Expected(n.connById, n.connectionUpserts)[c])
  {
    var w, info, e := n.connById[c], n.connectionUpserts[c], Peers.EntryOf(x, c).value;
    assert Describes(strings, n.peers, w, info);
    assert e.state == Describe(StringMap(strings), info) == Truth(w, info.openedAtNs);
    assert x.peers[e.alias].peerId == e.id && e.alias == w.peerAlias;
  }

  lemma CanonMatches(b: Book, a: Aliases, p: State)
    requires Valid(p) && BookFor(b, p) && Canon(Settled(b), a) && SameOpen(a, p.net)
    ensures Matches(a, p)
  {
    assert b.strings[..|b.strings|] == b.strings;
    CanonProtocols(b, a.protocols, p.net.streamUpserts);
    CanonTable(b, a.peers, p.table.strings, p.net);
  }

  lemma CanonProtocols(b: Book, protocols: map<nat, string>, streams: map<nat, StreamInfo>)
    requires CanonStreams(Settled(b), protocols) && protocols.Keys == streams.Keys
    requires forall s :: s in streams ==> s in b.streams && b.streams[s] == streams[s]
    ensures protocols == Protocols(b.strings, streams)
  {
  }

  lemma CanonTable(b: Book, x: Peers.Index, strings: seq<string>, n: Net)
    requires ValidNet(strings, n) && b.strings == strings && b.peers == n.peers && x.conns.Keys == n.connById.Keys
    requires forall c :: c in n.connectionUpserts ==> c in b.conns && b.conns[c] == n.connectionUpserts[c]
    requires CanonIndex(Settled(b), x)
    ensures Peers.Flat(x) == Expected(n.connById, n.connectionUpserts)
  {
    var expected := Expected(n.connById, n.connectionUpserts);
    assert expected.Keys == n.connById.Keys;
    forall c | c in expected
      ensures Peers.EntryOf(x, c) == Some(expected[c])
    {
      CanonEntry(b, x, strings, n, c);
    }
    TableFromEntries(x, expected);
  }

  lemma TableFromEntries(x: Peers.Index, expected: map<nat, Peers.Entry>)
    requires x.conns.Keys == expected.Keys
    requires forall c :: c in expected ==> Peers.EntryOf(x, c) == Some(expected[c])
    ensures Peers.Flat(x) == expected
  {
  }

  // ---- Replaying a stretch of the log over a canonical state -------------------------------------------

  /** How many strings some envelopes define. */
  function StringCount(es: seq<Envelope>): nat {
    if es == [] then 0 else StringCount(es[..|es| - 1]) + if es[|es| - 1].payload.StringDef? then 1 else 0
  }

  /** The envelope repeats the book, defines the next string, refers to strings defined before it, and announces a
      connection right after its peer. */
  ghost predicate Sound(b: Book, es: seq<Envelope>, i: nat)
    requires i < |es|
  {
    var p, count := es[i].payload, StringCount(es[..i]);
    && Known(b, p) && (p.StringDef? ==> p.id == count) && Refers(p, count)
    && (p.ConnectionUpsert? ==>
          i > 0 && es[i - 1].payload.PeerUpsert? && es[i - 1].payload.peerAlias == p.conn.peerAlias)
  }

  ghost predicate Consistent(b: Book, es: seq<Envelope>) {
    StringCount(es) == |b.strings| && forall i :: 0 <= i < |es| ==> Sound(b, es, i)
  }

  ghost predicate AllPeers(b: Book, x: Peers.Index) {
    forall id :: id in b.peers ==> b.peers[id] in x.peers
  }

  /** The aliases announced from position i on. */
  ghost function Later(es: seq<Envelope>, touch: Payload -> Touch, i: nat): set<nat> {
    set j | i <= j < |es| && touch(es[j].payload).Opened? :: touch(es[j].payload).alias
  }

  function Max(a: nat, b: nat): nat {
    if a < b then b else a
  }

  /** What to expect of a state that knew n strings and has been told the log up to position i. */
  ghost function LensAt(b: Book, es: seq<Envelope>, n: nat, i: nat): Lens
    requires i <= |es|
  {
    Lens(b, Max(n, StringCount(es[..i])), Later(es, ConnTouch, i), Later(es, StreamTouch, i))
  }

  lemma LaterStep(es: seq<Envelope>, touch: Payload -> Touch, i: nat)
    requires i < |es|
    ensures forall a :: a in Later(es, touch, i) <==> a in Later(es, touch, i + 1) || Announces(es[i].payload, touch, a)
  {
  }

  lemma CountStep(es: seq<Envelope>, i: nat)
    requires i < |es|
    ensures StringCount(es[..i + 1]) == StringCount(es[..i]) + if es[i].payload.StringDef? then 1 else 0
  {
    assert es[..i + 1][..i] == es[..i];
  }

  lemma {:induction false} CountGrows(es: seq<Envelope>, i: nat, j: nat)
    requires i <= j <= |es|
    ensures StringCount(es[..i]) <= StringCount(es[..j])
    decreases j
  {
    if i < j {
      CountGrows(es, i, j - 1);
      CountStep(es, j - 1);
    }
  }

  /** Each envelope of a consistent log sharpens the lens. */
  lemma LensSharpens(b: Book, es: seq<Envelope>, n: nat, i: nat)
    requires Consistent(b, es) && i < |es|
    ensures Sharpens(LensAt(b, es, n, i), es[i].payload, LensAt(b, es, n, i + 1)) && Known(b, es[i].payload)
  {
    assert Sound(b, es, i);
    CountStep(es, i);
    LaterStep(es, ConnTouch, i);
    LaterStep(es, StreamTouch, i);
  }

  lemma ReplayLast(a: Aliases, es: seq<Envelope>, h: nat, k: nat)
    requires h < k <= |es|
    ensures Replay(a, es[h..k]) == ApplyAlias(Replay(a, es[h..k - 1]), es[k - 1].payload)
  {
    assert es[h..k][..k - h - 1] == es[h..k - 1] && es[h..k][k - h - 1] == es[k - 1];
  }

  lemma OpenLast(open: set<nat>, es: seq<Envelope>, touch: Payload -> Touch, h: nat, k: nat)
    requires h < k <= |es|
    ensures Open(open, es[h..k], touch) == Touched(Open(open, es[h..k - 1], touch), touch(es[k - 1].payload))
  {
    assert es[h..k][..k - h - 1] == es[h..k - 1] && es[h..k][k - h - 1] == es[k - 1];
  }

  /** The connection's peer is known when it is announced. */
  ghost predicate Ready(x: Peers.Index, p: Payload) {
    p.ConnectionUpsert? ==> p.conn.peerAlias in x.peers
  }

  /** The state after some envelopes: canonical, with the right aliases open. */
  ghost predicate Follows(k: Lens, a: Aliases, es: seq<Envelope>, x: Aliases) {
    && Canon(k, x)
    && x.protocols.Keys == Open(a.protocols.Keys, es, StreamTouch)
    && x.peers.conns.Keys == Open(a.peers.conns.Keys, es, ConnTouch)
  }

  lemma FollowsStep(k: Lens, l: Lens, a: Aliases, es: seq<Envelope>, h: nat, i: nat, x: Aliases, y: Aliases)
    requires h < i <= |es| && Injective(k.book.peers) && Known(k.book, es[i - 1].payload)
    requires Sharpens(k, es[i - 1].payload, l)
    requires x == Replay(a, es[h..i - 1]) && y == Replay(a, es[h..i])
    requires Follows(k, a, es[h..i - 1], x) && Ready(x.peers, es[i - 1].payload)
    ensures Follows(l, a, es[h..i], y)
    ensures es[i - 1].payload.PeerUpsert? ==> es[i - 1].payload.peerAlias in y.peers.peers
  {
    ReplayLast(a, es, h, i);
    CanonStep(k, x, es[i - 1].payload, l, y);
    OpenLast(a.protocols.Keys, es, StreamTouch, h, i);
    OpenLast(a.peers.conns.Keys, es, ConnTouch, h, i);
  }

  lemma PeerIsThere(b: Book, a: Aliases, es: seq<Envelope>, h: nat, i: nat, x: Aliases)
    requires h < i <= |es| && Consistent(b, es) && AllPeers(b, a.peers) && x == Replay(a, es[h..i - 1])
    requires h < i - 1 && es[i - 2].payload.PeerUpsert? ==> es[i - 2].payload.peerAlias in x.peers.peers
    ensures Ready(x.peers, es[i - 1].payload)
  {
    assert Sound(b, es, i - 1);
    if es[i - 1].payload.ConnectionUpsert? {
      assert Sound(b, es, i - 2);
      if h == i - 1 {
        assert es[h..i - 1] == [];
      }
    }
  }

  /** Replaying the log from h on over a canonical state that knows all peers keeps it canonical, and settles what
      was not. */
  lemma {:induction false} CanonReplay(b: Book, n: nat, a: Aliases, es: seq<Envelope>, h: nat, i: nat)
    requires h <= i <= |es|
    requires Injective(b.peers) && Canon(LensAt(b, es, n, h), a) && AllPeers(b, a.peers) && Consistent(b, es)
    ensures Follows(LensAt(b, es, n, i), a, es[h..i], Replay(a, es[h..i]))
    ensures h < i && es[i - 1].payload.PeerUpsert? ==>
      es[i - 1].payload.peerAlias in Replay(a, es[h..i]).peers.peers
    decreases i
  {
    if h == i {
      assert es[h..i] == [];
    } else {
      CanonReplay(b, n, a, es, h, i - 1);
      LensSharpens(b, es, n, i - 1);
      PeerIsThere(b, a, es, h, i, Replay(a, es[h..i - 1]));
      FollowsStep(LensAt(b, es, n, i - 1), LensAt(b, es, n, i), a, es, h, i,
                  Replay(a, es[h..i - 1]), Replay(a, es[h..i]));
    }
  }

  // ---- Replaying a snapshot ----------------------------------------------------------------------------

  lemma {:induction false} ReplayStrings(strings: seq<string>, k: nat)
    requires k <= |strings|
    ensures Replay(NO_ALIASES, StringDefs(strings)[..k]) == Aliases(StringMap(strings[..k]), map[], Peers.EMPTY)
  {
    if k == 0 {
      assert StringMap(strings[..0]) == map[];
    } else {
      ReplayStrings(strings, k - 1);
      var es := StringDefs(strings)[..k];
      assert es[..k - 1] == StringDefs(strings)[..k - 1];
      assert StringMap(strings[..k]) == StringMap(strings[..k - 1])[k - 1 := strings[k - 1]];
    }
  }

  /** The envelope can be applied without sharpening the lens. */
  ghost predicate FitsLens(k: Lens, p: Payload) {
    Known(k.book, p) && !p.ConnectionClosed? && !p.StringDef? && Sharpens(k, p, k)
  }

  /** Peers, connections and streams of a snapshot, in this order, over the strings alone. */
  lemma {:induction false} CanonUpserts(k: Lens, a: Aliases, es: seq<Envelope>, i: nat)
    requires i <= |es| && Injective(k.book.peers) && Canon(k, a)
    requires forall j :: 0 <= j < |es| ==> FitsLens(k, es[j].payload) && Ready(a.peers, es[j].payload)
    ensures var x := Replay(a, es[0..i]);
      && Follows(k, a, es[0..i], x)
      && a.peers.peers.Keys <= x.peers.peers.Keys
      && (forall j :: 0 <= j < i && es[j].payload.PeerUpsert? ==> es[j].payload.peerAlias in x.peers.peers)
  {
    if i == 0 {
      assert es[0..i] == [];
    } else {
      CanonUpserts(k, a, es, i - 1);
      var x, y := Replay(a, es[0..i - 1]), Replay(a, es[0..i]);
      assert FitsLens(k, es[i - 1].payload);
      FollowsStep(k, k, a, es, 0, i, x, y);
      ReplayLast(a, es, 0, i);
      PeersStay(x, es[i - 1].payload);
    }
  }

  lemma PeersStay(x: Aliases, p: Payload)
    requires !p.ConnectionClosed? && !p.SnapshotStart?
    ensures x.peers.peers.Keys <= ApplyAlias(x, p).peers.peers.Keys
  {
  }

  lemma {:induction false} OnlyOpened(open: set<nat>, es: seq<Envelope>, touch: Payload -> Touch, k: nat)
    requires k <= |es| && forall i :: 0 <= i < |es| ==> !touch(es[i].payload).Shut?
    ensures forall a :: a in Open(open, es[..k], touch) <==>
      a in open || exists i :: 0 <= i < k && touch(es[i].payload) == Opened(a)
  {
    if k > 0 {
      OnlyOpened(open, es, touch, k - 1);
      assert es[..k][..k - 1] == es[..k - 1] && es[..k][k - 1] == es[k - 1];
    }
  }

  lemma StringsPhase(a: Aliases, strings: seq<string>)
    ensures Replay(a, [Plain(SnapshotStart)] + StringDefs(strings)) == Aliases(StringMap(strings), map[], Peers.EMPTY)
  {
    var start := [Plain(SnapshotStart)];
    assert start[..0] == [];
    ReplayAppend(a, start, StringDefs(strings));
    ReplayStrings(strings, |strings|);
    assert StringDefs(strings)[..|strings|] == StringDefs(strings) && strings[..|strings|] == strings;
  }

  lemma AllUpserts(k: Lens, a: Aliases, es: seq<Envelope>, y: Aliases)
    requires Injective(k.book.peers) && Canon(k, a) && y == Replay(a, es)
    requires forall j :: 0 <= j < |es| ==> FitsLens(k, es[j].payload) && Ready(a.peers, es[j].payload)
    ensures Follows(k, a, es, y)
    ensures a.peers.peers.Keys <= y.peers.peers.Keys
    ensures forall j :: 0 <= j < |es| && es[j].payload.PeerUpsert? ==> es[j].payload.peerAlias in y.peers.peers
  {
    CanonUpserts(k, a, es, |es|);
    assert es[0..|es|] == es;
  }

  lemma {:induction false} NothingOpened(open: set<nat>, es: seq<Envelope>, touch: Payload -> Touch)
    requires forall i :: 0 <= i < |es| ==> touch(es[i].payload).Neither?
    ensures Open(open, es, touch) == open
    decreases |es|
  {
    if es != [] {
      NothingOpened(open, es[..|es| - 1], touch);
    }
  }

  lemma PeersAllThere(b: Book, peers: seq<TrackedPeer>, es: seq<Envelope>, x: Peers.Index)
    requires forall t :: t in peers <==> t.id in b.peers && b.peers[t.id] == t.alias
    requires es == PeerUpserts(peers)
    requires forall i :: 0 <= i < |es| && es[i].payload.PeerUpsert? ==> es[i].payload.peerAlias in x.peers
    ensures AllPeers(b, x)
  {
    forall id | id in b.peers
      ensures b.peers[id] in x.peers
    {
      var t := TrackedPeer(b.peers[id], id);
      assert t in peers;
      var i :| 0 <= i < |peers| && peers[i] == t;
      assert es[i].payload == PeerUpsert(t.alias, t.id);
    }
  }

  lemma PeersPhase(k: Lens, x: Aliases, peers: seq<TrackedPeer>, y: Aliases)
    requires Injective(k.book.peers) && Canon(k, x) && y == Replay(x, PeerUpserts(peers))
    requires forall t :: t in peers <==> t.id in k.book.peers && k.book.peers[t.id] == t.alias
    ensures Canon(k, y) && AllPeers(k.book, y.peers)
    ensures y.protocols.Keys == x.protocols.Keys && y.peers.conns.Keys == x.peers.conns.Keys
  {
    var es := PeerUpserts(peers);
    PeersFit(k, x, peers, es);
    AllUpserts(k, x, es, y);
    PeersOpenNothing(x, peers, es);
    PeersAllThere(k.book, peers, es, y.peers);
  }

  lemma PeersFit(k: Lens, x: Aliases, peers: seq<TrackedPeer>, es: seq<Envelope>)
    requires es == PeerUpserts(peers)
    requires forall t :: t in peers <==> t.id in k.book.peers && k.book.peers[t.id] == t.alias
    ensures forall j :: 0 <= j < |es| ==> FitsLens(k, es[j].payload) && Ready(x.peers, es[j].payload)
  {
    forall j | 0 <= j < |es|
      ensures FitsLens(k, es[j].payload) && Ready(x.peers, es[j].payload)
    {
      assert peers[j] in peers && es[j].payload == PeerUpsert(peers[j].alias, peers[j].id);
    }
  }

  lemma PeersOpenNothing(x: Aliases, peers: seq<TrackedPeer>, es: seq<Envelope>)
    requires es == PeerUpserts(peers)
    ensures Open(x.protocols.Keys, es, StreamTouch) == x.protocols.Keys
    ensures Open(x.peers.conns.Keys, es, ConnTouch) == x.peers.conns.Keys
  {
    assert forall i :: 0 <= i < |es| ==> es[i].payload == PeerUpsert(peers[i].alias, peers[i].id);
    NothingOpened(x.protocols.Keys, es, StreamTouch);
    NothingOpened(x.peers.conns.Keys, es, ConnTouch);
  }

  ghost function ConnAliases(conns: seq<ConnectionInfo>): set<nat> {
    set i | 0 <= i < |conns| :: conns[i].connAlias
  }

  ghost function StreamAliases(streams: seq<StreamInfo>): set<nat> {
    set i | 0 <= i < |streams| :: streams[i].streamAlias
  }

  lemma AllOpened(open: set<nat>, es: seq<Envelope>, touch: Payload -> Touch, aliases: set<nat>)
    requires forall i :: 0 <= i < |es| ==> touch(es[i].payload).Opened?
    requires aliases == set i | 0 <= i < |es| :: touch(es[i].payload).alias
    ensures Open(open, es, touch) == open + aliases
  {
    OnlyOpened(open, es, touch, |es|);
    assert es[..|es|] == es;
    forall a | a in aliases
      ensures exists i :: 0 <= i < |es| && touch(es[i].payload) == Opened(a)
    {
      var i :| 0 <= i < |es| && touch(es[i].payload).alias == a;
      assert touch(es[i].payload) == Opened(a);
    }
  }

  lemma ConnsOpen(open: set<nat>, conns: seq<ConnectionInfo>, es: seq<Envelope>)
    requires es == ConnectionUpserts(conns)
    ensures Open(open, es, ConnTouch) == open + ConnAliases(conns)
  {
    assert forall i :: 0 <= i < |es| ==> es[i].payload == ConnectionUpsert(conns[i]);
    AllOpened(open, es, ConnTouch, ConnAliases(conns));
  }

  lemma StreamsOpen(open: set<nat>, streams: seq<StreamInfo>, es: seq<Envelope>)
    requires es == StreamUpserts(streams)
    ensures Open(open, es, StreamTouch) == open + StreamAliases(streams)
  {
    assert forall i :: 0 <= i < |es| ==> es[i].payload == StreamUpsert(streams[i]);
    AllOpened(open, es, StreamTouch, StreamAliases(streams));
  }

  /** A listed connection: known, of a known peer, and described with known strings or announced again later. */
  ghost predicate ConnFits(k: Lens, c: ConnectionInfo) {
    && Known(k.book, ConnectionUpsert(c)) && c.peerAlias in k.book.peers.Values
    && (c.connAlias in k.conns || Refers(ConnectionUpsert(c), k.known))
  }

  ghost predicate StreamFits(k: Lens, st: StreamInfo) {
    Known(k.book, StreamUpsert(st)) && (st.streamAlias in k.streams || Refers(StreamUpsert(st), k.known))
  }

  lemma ConnsReady(k: Lens, x: Peers.Index, conns: seq<ConnectionInfo>, es: seq<Envelope>)
    requires AllPeers(k.book, x) && es == ConnectionUpserts(conns)
    requires forall i :: 0 <= i < |conns| ==> ConnFits(k, conns[i])
    ensures forall i :: 0 <= i < |es| ==>
      es[i].payload.ConnectionUpsert? && FitsLens(k, es[i].payload) && Ready(x, es[i].payload)
  {
    assert forall i :: 0 <= i < |es| ==> es[i].payload == ConnectionUpsert(conns[i]);
  }

  lemma ConnsPhase(k: Lens, x: Aliases, conns: seq<ConnectionInfo>, y: Aliases)
    requires Injective(k.book.peers) && Canon(k, x) && AllPeers(k.book, x.peers)
    requires y == Replay(x, ConnectionUpserts(conns)) && forall i :: 0 <= i < |conns| ==> ConnFits(k, conns[i])
    ensures Canon(k, y) && AllPeers(k.book, y.peers) && y.protocols.Keys == x.protocols.Keys
    ensures y.peers.conns.Keys == x.peers.conns.Keys + ConnAliases(conns)
  {
    var es := ConnectionUpserts(conns);
    ConnsReady(k, x.peers, conns, es);
    AllUpserts(k, x, es, y);
    NothingOpened(x.protocols.Keys, es, StreamTouch);
    ConnsOpen(x.peers.conns.Keys, conns, es);
  }

  lemma StreamsPhase(k: Lens, x: Aliases, streams: seq<StreamInfo>, y: Aliases)
    requires Injective(k.book.peers) && Canon(k, x) && AllPeers(k.book, x.peers)
    requires y == Replay(x, StreamUpserts(streams)) && forall i :: 0 <= i < |streams| ==> StreamFits(k, streams[i])
    ensures Canon(k, y) && AllPeers(k.book, y.peers) && y.peers.conns.Keys == x.peers.conns.Keys
    ensures y.protocols.Keys == x.protocols.Keys + StreamAliases(streams)
  {
    var es := StreamUpserts(streams);
    assert forall i :: 0 <= i < |es| ==> es[i].payload == StreamUpsert(streams[i]);
    AllUpserts(k, x, es, y);
    NothingOpened(x.peers.conns.Keys, es, ConnTouch);
    StreamsOpen(x.protocols.Keys, streams, es);
  }

  lemma SnapshotPhases(a: Aliases, s: Snap, x0: Aliases, x1: Aliases, x2: Aliases, f: Aliases)
    requires x0 == Aliases(StringMap(s.strings), map[], Peers.EMPTY)
    requires x1 == Replay(x0, PeerUpserts(s.peers))
    requires x2 == Replay(x1, ConnectionUpserts(s.connections))
    requires f == Replay(x2, StreamUpserts(s.streams))
    ensures Replay(a, EnvelopesOf(s)) == f
  {
    var head, last := [Plain(SnapshotStart)] + StringDefs(s.strings), Plain(SnapshotEnd);
    StringsPhase(a, s.strings);
    ReplayInFive(a, head, PeerUpserts(s.peers), ConnectionUpserts(s.connections), StreamUpserts(s.streams), last);
    assert EnvelopesOf(s) == [Plain(SnapshotStart)]
      + (StringDefs(s.strings) + (PeerUpserts(s.peers) + (ConnectionUpserts(s.connections) + StreamUpserts(s.streams))))
      + [last];
    Regrouped([Plain(SnapshotStart)], StringDefs(s.strings), PeerUpserts(s.peers),
              ConnectionUpserts(s.connections), StreamUpserts(s.streams), [last]);
  }

  lemma Regrouped<T>(a: seq<T>, b: seq<T>, c: seq<T>, d: seq<T>, e: seq<T>, f: seq<T>)
    ensures a + (b + (c + (d + e))) + f == (a + b) + (c + (d + (e + f)))
  {
  }

  lemma ReplayInFive(
    a: Aliases, head: seq<Envelope>, ps: seq<Envelope>, cs: seq<Envelope>, ss: seq<Envelope>, last: Envelope)
    requires last.payload == SnapshotEnd
    ensures Replay(a, head + (ps + (cs + (ss + [last])))) == Replay(Replay(Replay(Replay(a, head), ps), cs), ss)
  {
    var x0 := Replay(a, head);
    var x1 := Replay(x0, ps);
    ReplayAppend(a, head, ps + (cs + (ss + [last])));
    ReplayAppend(x0, ps, cs + (ss + [last]));
    ReplayAppend(x1, cs, ss + [last]);
    ReplayAppend(Replay(x1, cs), ss, [last]);
    assert [last][..0] == [];
  }

  /** What a snapshot lists, in terms of the lens: known things, all peers, and these connections and streams. */
  ghost predicate Lists(k: Lens, s: Snap, conns: set<nat>, streams: set<nat>) {
    && k.known <= |k.book.strings| && s.strings == k.book.strings[..k.known] && Injective(k.book.peers)
    && (forall t :: t in s.peers <==> t.id in k.book.peers && k.book.peers[t.id] == t.alias)
    && (forall i :: 0 <= i < |s.connections| ==> ConnFits(k, s.connections[i]))
    && (forall i :: 0 <= i < |s.streams| ==> StreamFits(k, s.streams[i]))
    && conns == ConnAliases(s.connections)
    && streams == StreamAliases(s.streams)
  }

  lemma PeersRebuilt(k: Lens, s: Snap, x0: Aliases, x1: Aliases)
    requires k.known <= |k.book.strings| && s.strings == k.book.strings[..k.known] && Injective(k.book.peers)
    requires forall t :: t in s.peers <==> t.id in k.book.peers && k.book.peers[t.id] == t.alias
    requires x0 == Aliases(StringMap(s.strings), map[], Peers.EMPTY) && x1 == Replay(x0, PeerUpserts(s.peers))
    ensures Canon(k, x1) && AllPeers(k.book, x1.peers) && x1.protocols.Keys == {} && x1.peers.conns.Keys == {}
  {
    PeersPhase(k, x0, s.peers, x1);
  }

  lemma PhasesRebuild(
    k: Lens, s: Snap, conns: set<nat>, streams: set<nat>, x0: Aliases, x1: Aliases, x2: Aliases, f: Aliases)
    requires Lists(k, s, conns, streams)
    requires x0 == Aliases(StringMap(s.strings), map[], Peers.EMPTY)
    requires x1 == Replay(x0, PeerUpserts(s.peers))
    requires x2 == Replay(x1, ConnectionUpserts(s.connections))
    requires f == Replay(x2, StreamUpserts(s.streams))
    ensures Canon(k, f) && AllPeers(k.book, f.peers) && f.protocols.Keys == streams && f.peers.conns.Keys == conns
  {
    PeersRebuilt(k, s, x0, x1);
    RestRebuilt(k, s.connections, s.streams, x1, x2, f);
  }

  lemma RestRebuilt(
    k: Lens, conns: seq<ConnectionInfo>, streams: seq<StreamInfo>, x1: Aliases, x2: Aliases, f: Aliases)
    requires Injective(k.book.peers) && Canon(k, x1) && AllPeers(k.book, x1.peers)
    requires x1.protocols.Keys == {} && x1.peers.conns.Keys == {}
    requires x2 == Replay(x1, ConnectionUpserts(conns)) && forall i :: 0 <= i < |conns| ==> ConnFits(k, conns[i])
    requires f == Replay(x2, StreamUpserts(streams)) && forall i :: 0 <= i < |streams| ==> StreamFits(k, streams[i])
    ensures Canon(k, f) && AllPeers(k.book, f.peers)
    ensures f.protocols.Keys == StreamAliases(streams) && f.peers.conns.Keys == ConnAliases(conns)
  {
    ConnsRebuilt(k, conns, x1, x2);
    StreamsRebuilt(k, streams, x2, f);
  }

  lemma ConnsRebuilt(k: Lens, conns: seq<ConnectionInfo>, x1: Aliases, x2: Aliases)
    requires Injective(k.book.peers) && Canon(k, x1) && AllPeers(k.book, x1.peers) && x1.peers.conns.Keys == {}
    requires x2 == Replay(x1, ConnectionUpserts(conns)) && forall i :: 0 <= i < |conns| ==> ConnFits(k, conns[i])
    ensures Canon(k, x2) && AllPeers(k.book, x2.peers)
    ensures x2.protocols.Keys == x1.protocols.Keys && x2.peers.conns.Keys == ConnAliases(conns)
  {
    ConnsPhase(k, x1, conns, x2);
  }

  lemma StreamsRebuilt(k: Lens, streams: seq<StreamInfo>, x2: Aliases, f: Aliases)
    requires Injective(k.book.peers) && Canon(k, x2) && AllPeers(k.book, x2.peers) && x2.protocols.Keys == {}
    requires f == Replay(x2, StreamUpserts(streams)) && forall i :: 0 <= i < |streams| ==> StreamFits(k, streams[i])
    ensures Canon(k, f) && AllPeers(k.book, f.peers)
    ensures f.protocols.Keys == StreamAliases(streams) && f.peers.conns.Keys == x2.peers.conns.Keys
  {
    StreamsPhase(k, x2, streams, f);
  }

  /** Applying a snapshot to any state at all rebuilds a canonical one that knows every peer. */
  lemma SnapshotRebuilds(k: Lens, a: Aliases, s: Snap, conns: set<nat>, streams: set<nat>, f: Aliases)
    requires Lists(k, s, conns, streams) && f == Replay(a, EnvelopesOf(s))
    ensures Canon(k, f) && AllPeers(k.book, f.peers) && f.protocols.Keys == streams && f.peers.conns.Keys == conns
  {
    var x0 := Aliases(StringMap(s.strings), map[], Peers.EMPTY);
    var x1 := Replay(x0, PeerUpserts(s.peers));
    var x2 := Replay(x1, ConnectionUpserts(s.connections));
    SnapshotPhases(a, s, x0, x1, x2, Replay(x2, StreamUpserts(s.streams)));
    PhasesRebuild(k, s, conns, streams, x0, x1, x2, f);
  }

  lemma ConnectionsListed(b: Book, p: State, s: Snap)
    requires Valid(p) && BookFor(b, p) && ListsNet(p.net, s)
    ensures forall i :: 0 <= i < |s.connections| ==>
      Known(b, ConnectionUpsert(s.connections[i])) && s.connections[i].peerAlias in b.peers.Values
    ensures p.net.connById.Keys == ConnAliases(s.connections)
  {
    forall i | 0 <= i < |s.connections|
      ensures Known(b, ConnectionUpsert(s.connections[i])) && s.connections[i].peerAlias in b.peers.Values
      ensures s.connections[i].connAlias in p.net.connById
    {
      var c := s.connections[i];
      assert c in s.connections && c.connAlias in p.net.connById;
      assert Describes(p.table.strings, p.net.peers, p.net.connById[c.connAlias], c);
    }
    forall c | c in p.net.connById
      ensures c in ConnAliases(s.connections)
    {
      assert Describes(p.table.strings, p.net.peers, p.net.connById[c], p.net.connectionUpserts[c]);
      assert p.net.connectionUpserts[c] in s.connections;
    }
  }

  lemma StreamsListed(b: Book, p: State, s: Snap)
    requires Valid(p) && BookFor(b, p) && ListsNet(p.net, s)
    ensures forall i :: 0 <= i < |s.streams| ==> Known(b, StreamUpsert(s.streams[i]))
    ensures p.net.streamUpserts.Keys == StreamAliases(s.streams)
  {
    forall i | 0 <= i < |s.streams|
      ensures Known(b, StreamUpsert(s.streams[i]))
      ensures s.streams[i].streamAlias in p.net.streamUpserts
    {
      assert s.streams[i] in s.streams;
    }
    forall a | a in p.net.streamUpserts
      ensures a in StreamAliases(s.streams)
    {
      assert p.net.streamUpserts[a].streamAlias == a;
      assert p.net.streamUpserts[a] in s.streams;
    }
  }

  // ---- Snapshot and log ------------------------------------------------------------------------------

  /** A run of probe operations, one after the other. */
  ghost predicate History(p: State, now: Time, ops: seq<Op>)
    decreases |ops|
  {
    if ops == [] then p == START else
      var n := |ops| - 1;
      exists before :: History(before, now, ops[..n]) && Does(before, now, ops[n], p)
  }

  ghost predicate Does(before: State, now: Time, op: Op, p: State) {
    CanDo(before, op) && p == Do(before, now, op)
  }

  lemma StartMatches()
    ensures Valid(START) && Matches(NO_ALIASES, START)
  {
  }

  /** Replaying the whole log mirrors the probe after every run. */
  lemma {:induction false} LogMirrorsProbe(p: State, now: Time, ops: seq<Op>)
    requires History(p, now, ops)
    ensures Valid(p) && Matches(Replay(NO_ALIASES, p.log), p)
    decreases |ops|
  {
    if ops == [] {
      StartMatches();
    } else {
      var n := |ops| - 1;
      var before :| History(before, now, ops[..n]) && Does(before, now, ops[n], p);
      LogMirrorsProbe(before, now, ops[..n]);
      var a := Replay(NO_ALIASES, before.log);
      OperationCarries(a, before, now, ops[n]);
      assert p.log == before.log + Emitted(before, p);
      ReplayAppend(NO_ALIASES, before.log, Emitted(before, p));
    }
  }

  /** What is tracked is described with known strings, or its announcement is still to come. */
  ghost predicate Covers(k: Lens, n: Net) {
    && (forall c :: c in n.connectionUpserts ==>
          c in k.conns || Refers(ConnectionUpsert(n.connectionUpserts[c]), k.known))
    && (forall s :: s in n.streamUpserts ==>
          s in k.streams || Refers(StreamUpsert(n.streamUpserts[s]), k.known))
  }

  lemma ListedFit(k: Lens, n: Net, s: Snap)
    requires ListsNet(n, s) && Covers(k, n)
    requires forall i :: 0 <= i < |s.connections| ==>
      Known(k.book, ConnectionUpsert(s.connections[i])) && s.connections[i].peerAlias in k.book.peers.Values
    requires forall i :: 0 <= i < |s.streams| ==> Known(k.book, StreamUpsert(s.streams[i]))
    ensures forall i :: 0 <= i < |s.connections| ==> ConnFits(k, s.connections[i])
    ensures forall i :: 0 <= i < |s.streams| ==> StreamFits(k, s.streams[i])
  {
    forall i | 0 <= i < |s.connections|
      ensures ConnFits(k, s.connections[i])
    {
      assert s.connections[i] in s.connections;
    }
    forall i | 0 <= i < |s.streams|
      ensures StreamFits(k, s.streams[i])
    {
      assert s.streams[i] in s.streams;
    }
  }

  /** A snapshot lists what its lens expects. */
  lemma SnapshotLists(k: Lens, p: State, s: Snap)
    requires Valid(p) && BookFor(k.book, p) && ListsNet(p.net, s) && Covers(k, p.net)
    requires k.known <= |k.book.strings| && s.strings == k.book.strings[..k.known]
    ensures Lists(k, s, p.net.connById.Keys, p.net.streamUpserts.Keys)
  {
    ConnectionsListed(k.book, p, s);
    StreamsListed(k.book, p, s);
    ListedFit(k, p.net, s);
  }

  lemma SettledCovers(b: Book, p: State)
    requires Valid(p) && BookFor(b, p)
    ensures Covers(Settled(b), p.net)
  {
    forall c | c in p.net.connectionUpserts
      ensures Refers(ConnectionUpsert(p.net.connectionUpserts[c]), |b.strings|)
    {
      assert Describes(p.table.strings, p.net.peers, p.net.connById[c], p.net.connectionUpserts[c]);
    }
  }

  lemma SnapshotMatches(b: Book, p: State, s: Snap, a: Aliases, f: Aliases)
    requires Valid(p) && BookFor(b, p) && SnapshotOf(p, s) && f == Replay(a, EnvelopesOf(s))
    ensures Matches(f, p)
  {
    SettledCovers(b, p);
    assert b.strings[..|b.strings|] == b.strings;
    SnapshotLists(Settled(b), p, s);
    SnapshotRebuilds(Settled(b), a, s, p.net.connById.Keys, p.net.streamUpserts.Keys, f);
    CanonMatches(b, f, p);
  }

  /** After every run of probe operations, a collector in whatever state that applies the current snapshot shows
      the same strings, stream protocols, connections and peers as one that applied the whole log. */
  lemma SnapshotEqualsLog(p: State, now: Time, ops: seq<Op>, s: Snap, a: Aliases)
    requires History(p, now, ops) && SnapshotOf(p, s)
    ensures ViewOf(Replay(a, EnvelopesOf(s))) == ViewOf(Replay(NO_ALIASES, p.log))
  {
    LogMirrorsProbe(p, now, ops);
    var b := Book(p.table.strings, p.net.peers, p.net.connectionUpserts, p.net.streamUpserts);
    SnapshotMatches(b, p, s, a, Replay(a, EnvelopesOf(s)));
    MirrorsLookAlike(Replay(a, EnvelopesOf(s)), Replay(NO_ALIASES, p.log), p);
  }
}
