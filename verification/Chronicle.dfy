/** What the probe tracks and logs, and what a collector shows of it, told from nothing but the list of operations. */
module Chronicle {
  import opened Basics
  import opened Envelopes
  import opened Processor
  import opened Probe
  import opened Mirror
  import opened Snapshot
  import Interner
  import Peers

  /** How many streams were wrapped: the next one gets this alias. */
  function Wraps(ops: seq<Op>): nat {
    if ops == [] then 0 else Wraps(ops[..|ops| - 1]) + if ops[|ops| - 1].Wrap? then 1 else 0
  }

  /** The operation names the connection with this key, as a connect or as the connection of a stream. */
  predicate Opens(op: Op, key: string) {
    (op.Connect? || op.Wrap?) && op.conn.key == key
  }

  predicate Ends(op: Op, key: string) {
    op.Disconnect? && op.key == key
  }

  /** The operation closes the stream with this alias, wrapped on the connection with this key. */
  predicate Closing(op: Op, alias: nat, key: string) {
    (op.Close? && op.streamId == alias) || Ends(op, key)
  }

  /** Operation i wrapped a stream, and nothing has closed the stream or its connection since. */
  ghost predicate StillOpen(ops: seq<Op>, i: nat) {
    && i < |ops| && ops[i].Wrap?
    && forall j :: i < j < |ops| ==> !Closing(ops[j], Wraps(ops[..i]), ops[i].conn.key)
  }

  /** Operation i made the connection known that it names, and nothing has disconnected it since. */
  ghost predicate Introduced(ops: seq<Op>, i: nat) {
    && i < |ops| && (ops[i].Connect? || ops[i].Wrap?)
    && (forall j :: i < j < |ops| ==> !Ends(ops[j], ops[i].conn.key))
    && (forall j :: 0 <= j < i && Opens(ops[j], ops[i].conn.key) ==> EndedBetween(ops, j, i, ops[i].conn.key))
  }

  ghost predicate EndedBetween(ops: seq<Op>, j: nat, i: nat, key: string) {
    exists k :: j < k < i <= |ops| && Ends(ops[k], key)
  }

  // ---- Streams -------------------------------------------------------------------------------------------------

  /** The stream is tracked as the operation said, under the alias of its connection. */
  ghost predicate StreamTold(p: State, op: Op, alias: nat) {
    && op.Wrap? && alias in p.net.streamUpserts && op.conn.key in p.net.conns
    && var st := p.net.streamUpserts[alias];
      && st.connAlias == p.net.conns[op.conn.key].connId
      && st.direction == op.dir && st.openedAtNs == op.atNs
      && st.protocolId < |p.table.strings| && p.table.strings[st.protocolId] == op.protocol
  }

  ghost predicate Names(ops: seq<Op>, i: nat, alias: nat) {
    StillOpen(ops, i) && Wraps(ops[..i]) == alias
  }

  ghost predicate StreamsAgree(ops: seq<Op>, p: State) {
    && p.net.nextStream == Wraps(ops)
    && (forall i: nat :: StillOpen(ops, i) ==> StreamTold(p, ops[i], Wraps(ops[..i])))
    && (forall a :: a in p.net.streamUpserts ==> exists i: nat :: Names(ops, i, a))
  }

  /** One operation more: what was open stays so unless it is closed. */
  lemma OpenStep(ops: seq<Op>, op: Op, all: seq<Op>, i: nat)
    requires all == ops + [op] && i < |ops|
    ensures all[..i] == ops[..i] && all[i] == ops[i]
    ensures StillOpen(all, i) <==>
      StillOpen(ops, i) && ops[i].Wrap? && !Closing(op, Wraps(ops[..i]), ops[i].conn.key)
  {
    assert all[..i] == ops[..i];
    assert forall j :: 0 <= j < |ops| ==> all[j] == ops[j];
    assert all[|ops|] == op;
  }

  lemma OpenNow(ops: seq<Op>, op: Op, all: seq<Op>)
    requires all == ops + [op]
    ensures all[..|ops|] == ops && all[|ops|] == op && Wraps(all) == Wraps(ops) + if op.Wrap? then 1 else 0
    ensures StillOpen(all, |ops|) <==> op.Wrap?
  {
  }

  /** What the operations other than a disconnect leave as it is. */
  ghost predicate Stays(p: State, q: State) {
    && p.table.strings <= q.table.strings
    && (forall k :: k in p.net.conns ==> k in q.net.conns && q.net.conns[k] == p.net.conns[k])
  }

  lemma InternStays(p: State, now: Time, s: string)
    ensures Stays(p, Intern(p, now, s)) && Intern(p, now, s).net == p.net
  {
  }

  lemma ConnectStays(p: State, now: Time, conn: Conn, atNs: int)
    ensures var q := Connected(p, now, conn, atNs);
      && Stays(p, q) && conn.key in q.net.conns
      && q.net.streamUpserts == p.net.streamUpserts && q.net.nextStream == p.net.nextStream
  {
    var a, b := SpendConnId(p), InternConn(SpendConnId(p), now, conn);
    InternConnStays(a, now, conn, b);
    if conn.key !in p.net.conns {
      TrackStays(b, now, conn, p.net.nextConn, atNs);
    }
  }

  lemma InternConnStays(p: State, now: Time, conn: Conn, q: State)
    requires q == InternConn(p, now, conn)
    ensures Stays(p, q) && q.net == p.net
  {
    var b := Intern(p, now, conn.transport);
    var c := Intern(b, now, conn.security);
    InternStays(p, now, conn.transport);
    InternStays(b, now, conn.security);
    InternStays(c, now, conn.muxer);
  }

  lemma TrackStays(p: State, now: Time, conn: Conn, connId: nat, atNs: int)
    requires conn.key !in p.net.conns
    ensures var q := Track(p, now, conn, connId, atNs);
      && Stays(p, q) && conn.key in q.net.conns
      && q.net.streamUpserts == p.net.streamUpserts && q.net.nextStream == p.net.nextStream
  {
  }

  lemma TrackedStays(p: State, now: Time, conn: Conn, atNs: int)
    ensures var q := Tracked(p, now, conn, atNs);
      && Stays(p, q) && conn.key in q.net.conns
      && q.net.streamUpserts == p.net.streamUpserts && q.net.nextStream == p.net.nextStream
  {
    ConnectStays(p, now, conn, atNs);
  }

  lemma InternedReads(p: State, now: Time, s: string)
    requires Interner.Inverse(p.table)
    ensures var q := Intern(p, now, s); IdOf(q.table, s) < |q.table.strings| && q.table.strings[IdOf(q.table, s)] == s
  {
  }

  lemma OpenedTold(p: State, now: Time, op: Op, streamId: nat)
    requires Interner.Inverse(p.table) && op.Wrap? && op.conn.key in p.net.conns
    ensures var q := OpenStream(p, now, op.conn, streamId, op.protocol, op.dir, op.atNs);
      && Stays(p, q) && StreamTold(q, op, streamId) && q.net.nextStream == p.net.nextStream
      && q.net.streamUpserts.Keys == p.net.streamUpserts.Keys + {streamId}
      && (forall a :: a in p.net.streamUpserts && a != streamId ==>
            q.net.streamUpserts[a] == p.net.streamUpserts[a])
  {
    InternedReads(p, now, op.protocol);
    InternStays(p, now, op.protocol);
  }

  lemma TrackedValid(p: State, now: Time, conn: Conn, atNs: int)
    requires Valid(p)
    ensures Valid(Tracked(p, now, conn, atNs))
  {
    if conn.key !in p.net.conns {
      var a := SpendConnId(p);
      InternValid(a, now, conn.transport);
      var b := Intern(a, now, conn.transport);
      InternValid(b, now, conn.security);
      var c := Intern(b, now, conn.security);
      InternValid(c, now, conn.muxer);
      TrackValid(Intern(c, now, conn.muxer), now, conn, p.net.nextConn, atNs);
    }
  }

  /** Wrapping: the stream is filed under the connection it was wrapped on, and nothing else changes. */
  lemma WrapTold(p: State, now: Time, op: Op, q: State)
    requires Valid(p) && op.Wrap? && q == Do(p, now, op)
    ensures Stays(p, q) && StreamTold(q, op, p.net.nextStream) && q.net.nextStream == p.net.nextStream + 1
    ensures q.net.streamUpserts.Keys == p.net.streamUpserts.Keys + {p.net.nextStream}
    ensures forall a :: a in p.net.streamUpserts && a != p.net.nextStream ==>
      q.net.streamUpserts[a] == p.net.streamUpserts[a]
  {
    var a := SpendStreamId(p);
    var b := Tracked(a, now, op.conn, op.atNs);
    TrackedStays(a, now, op.conn, op.atNs);
    TrackedValid(a, now, op.conn, op.atNs);
    OpenedTold(b, now, op, p.net.nextStream);
  }

  /** A stream is told as before as long as its entry, the connections and the strings stay. */
  lemma ToldStays(p: State, q: State, op: Op, alias: nat)
    requires StreamTold(p, op, alias) && Stays(p, q)
    requires alias in q.net.streamUpserts && q.net.streamUpserts[alias] == p.net.streamUpserts[alias]
    ensures StreamTold(q, op, alias)
  {
  }

  /** A disconnect forgets exactly the streams that were wrapped on the connection. */
  lemma DisconnectTold(p: State, now: Time, key: string, order: seq<nat>, op: Op, alias: nat, q: State)
    requires ValidConns(p.net.conns, p.net.connById, p.net.nextConn)
    requires StreamTold(p, op, alias) && q == Disconnected(p, now, key, order)
    ensures op.conn.key != key ==> StreamTold(q, op, alias)
    ensures op.conn.key == key ==> alias !in q.net.streamUpserts
  {
    if op.conn.key != key && key in p.net.conns {
      DifferentIds(p.net, op.conn.key, key);
    }
  }

  lemma DifferentIds(n: Net, k: string, l: string)
    requires ValidConns(n.conns, n.connById, n.nextConn) && k in n.conns && l in n.conns && k != l
    ensures n.conns[k].connId != n.conns[l].connId
  {
  }

  lemma CloseStays(p: State, now: Time, streamId: nat, reason: CloseReason, o: Op, alias: nat)
    requires StreamTold(p, o, alias) && streamId != alias
    ensures StreamTold(CloseStream(p, now, streamId, reason), o, alias)
  {
  }

  lemma WrappedStays(p: State, now: Time, op: Op, o: Op, alias: nat, q: State)
    requires Valid(p) && StreamTold(p, o, alias) && op.Wrap? && q == Do(p, now, op) && alias < p.net.nextStream
    ensures StreamTold(q, o, alias)
  {
    WrapTold(p, now, op, q);
    ToldStays(p, q, o, alias);
  }

  lemma ConnectedStays(p: State, now: Time, conn: Conn, atNs: int, o: Op, alias: nat)
    requires StreamTold(p, o, alias)
    ensures StreamTold(Connected(p, now, conn, atNs), o, alias)
  {
    ConnectStays(p, now, conn, atNs);
    ToldStays(p, Connected(p, now, conn, atNs), o, alias);
  }

  lemma UnwrappedStays(p: State, now: Time, op: Op, o: Op, alias: nat, q: State)
    requires ValidConns(p.net.conns, p.net.connById, p.net.nextConn) && StreamTold(p, o, alias)
    requires !op.Wrap? && q == Do(p, now, op) && !Closing(op, alias, o.conn.key)
    ensures StreamTold(q, o, alias)
  {
    match op
    case Connect(conn, atNs) => ConnectedStays(p, now, conn, atNs, o, alias);
    case Chunk(_, _, _) => ToldStays(p, q, o, alias);
    case Close(streamId, reason) => CloseStays(p, now, streamId, reason, o, alias);
    case Disconnect(key, order) => DisconnectTold(p, now, key, order, o, alias, q);
  }

  lemma StreamStays(p: State, now: Time, op: Op, o: Op, alias: nat, q: State)
    requires Valid(p) && StreamTold(p, o, alias) && q == Do(p, now, op) && !Closing(op, alias, o.conn.key)
    requires alias < p.net.nextStream
    ensures StreamTold(q, o, alias)
  {
    if op.Wrap? {
      WrappedStays(p, now, op, o, alias, q);
    } else {
      UnwrappedStays(p, now, op, o, alias, q);
    }
  }

  /** Where a tracked alias comes from. */
  lemma StreamKeys(p: State, now: Time, op: Op, q: State)
    requires Valid(p) && q == Do(p, now, op)
    ensures q.net.streamUpserts.Keys <= p.net.streamUpserts.Keys + if op.Wrap? then {p.net.nextStream} else {}
    ensures q.net.nextStream == p.net.nextStream + if op.Wrap? then 1 else 0
    ensures op.Close? ==> op.streamId !in q.net.streamUpserts
  {
    match op
    case Connect(conn, atNs) => ConnectStays(p, now, conn, atNs);
    case Wrap(_, _, _, _) => WrapTold(p, now, op, q);
    case _ =>
  }

  /** A tracked stream was wrapped by an operation that is still in force. */
  lemma StreamNamed(ops: seq<Op>, op: Op, all: seq<Op>, p: State, now: Time, q: State, a: nat)
    requires StreamsAgree(ops, p) && ValidConns(p.net.conns, p.net.connById, p.net.nextConn)
    requires q == Do(p, now, op) && all == ops + [op] && a in q.net.streamUpserts
    requires q.net.streamUpserts.Keys <= p.net.streamUpserts.Keys + if op.Wrap? then {p.net.nextStream} else {}
    requires op.Close? ==> op.streamId != a
    ensures exists i: nat :: Names(all, i, a)
  {
    OpenNow(ops, op, all);
    if op.Wrap? && a == p.net.nextStream {
      assert Names(all, |ops|, a);
    } else {
      var i: nat :| Names(ops, i, a);
      OpenStep(ops, op, all, i);
      NotClosed(p, now, op, ops[i], a, q);
      assert Names(all, i, a);
    }
  }

  lemma NotClosed(p: State, now: Time, op: Op, o: Op, a: nat, q: State)
    requires ValidConns(p.net.conns, p.net.connById, p.net.nextConn) && StreamTold(p, o, a)
    requires q == Do(p, now, op) && a in q.net.streamUpserts && (op.Close? ==> op.streamId != a)
    ensures !Closing(op, a, o.conn.key)
  {
    if op.Disconnect? {
      DisconnectTold(p, now, op.key, op.order, o, a, q);
    }
  }

  lemma {:induction false} WrapsGrow(ops: seq<Op>, i: nat)
    requires i < |ops| && ops[i].Wrap?
    ensures Wraps(ops[..i]) < Wraps(ops)
    decreases |ops|
  {
    var n := |ops| - 1;
    if i < n {
      assert ops[..n][..i] == ops[..i];
      WrapsGrow(ops[..n], i);
    }
  }

  lemma StreamsStep(ops: seq<Op>, op: Op, all: seq<Op>, p: State, now: Time, q: State)
    requires StreamsAgree(ops, p) && Valid(p) && q == Do(p, now, op) && all == ops + [op]
    ensures StreamsAgree(all, q)
  {
    StreamKeys(p, now, op, q);
    OpenNow(ops, op, all);
    forall i: nat | StillOpen(all, i)
      ensures StreamTold(q, all[i], Wraps(all[..i]))
    {
      if i == |ops| {
        WrapTold(p, now, op, q);
      } else {
        OpenStep(ops, op, all, i);
        WrapsGrow(ops, i);
        StreamStays(p, now, op, ops[i], Wraps(ops[..i]), q);
      }
    }
    forall a | a in q.net.streamUpserts
      ensures exists i: nat :: Names(all, i, a)
    {
      StreamNamed(ops, op, all, p, now, q, a);
    }
  }

  // ---- Connections ---------------------------------------------------------------------------------------------

  /** How many connection ids were spent: one by every connect, and one by every wrap that introduces a connection. */
  ghost function IdsSpent(ops: seq<Op>): nat {
    if ops == [] then 0 else
      var n := |ops| - 1;
      IdsSpent(ops[..n]) + if ops[n].Connect? || (ops[n].Wrap? && Introduced(ops, n)) then 1 else 0
  }

  /** The connection is tracked under this id as the operation described it. */
  ghost predicate ConnTold(p: State, op: Op, id: nat) {
    && (op.Connect? || op.Wrap?) && op.conn.key in p.net.conns
    && var w := p.net.conns[op.conn.key];
      && w.conn == op.conn && w.connId == id && w.connId in p.net.connectionUpserts
      && p.net.connectionUpserts[w.connId].openedAtNs == op.atNs
  }

  ghost predicate ConnsAgree(ops: seq<Op>, p: State) {
    && p.net.nextConn == IdsSpent(ops)
    && (forall i: nat :: Introduced(ops, i) ==> ConnTold(p, ops[i], IdsSpent(ops[..i])))
    && (forall k :: k in p.net.conns ==> exists i: nat :: Introduces(ops, i, k))
  }

  ghost predicate Introduces(ops: seq<Op>, i: nat, key: string) {
    Introduced(ops, i) && ops[i].conn.key == key
  }

  lemma EndedStep(ops: seq<Op>, op: Op, all: seq<Op>, j: nat, i: nat, key: string)
    requires all == ops + [op] && j < i <= |ops|
    ensures EndedBetween(all, j, i, key) <==> EndedBetween(ops, j, i, key)
  {
    if EndedBetween(all, j, i, key) {
      var k :| j < k < i <= |all| && Ends(all[k], key);
      assert ops[k] == all[k];
    }
    if EndedBetween(ops, j, i, key) {
      var k :| j < k < i <= |ops| && Ends(ops[k], key);
      assert ops[k] == all[k];
    }
  }

  lemma IntroducedStep(ops: seq<Op>, op: Op, all: seq<Op>, i: nat)
    requires all == ops + [op] && i < |ops|
    ensures all[i] == ops[i]
    ensures Introduced(all, i) <==> Introduced(ops, i) && !Ends(op, ops[i].conn.key)
  {
    assert forall j :: 0 <= j < |ops| ==> all[j] == ops[j];
    assert all[|ops|] == op;
    if ops[i].Connect? || ops[i].Wrap? {
      forall j | 0 <= j < i
        ensures EndedBetween(all, j, i, ops[i].conn.key) <==> EndedBetween(ops, j, i, ops[i].conn.key)
      {
        EndedStep(ops, op, all, j, i, ops[i].conn.key);
      }
    }
  }

  /** A connection that was named and not disconnected since was introduced by some operation. */
  lemma {:induction false} FirstSince(ops: seq<Op>, j: nat, key: string) returns (i: nat)
    requires j < |ops| && Opens(ops[j], key) && forall k :: j < k < |ops| ==> !Ends(ops[k], key)
    ensures Introduces(ops, i, key)
    decreases j
  {
    if Introduced(ops, j) {
      i := j;
    } else {
      var h :| 0 <= h < j && Opens(ops[h], key) && !EndedBetween(ops, h, j, key);
      i := FirstSince(ops, h, key);
    }
  }

  lemma IntroducedNow(ops: seq<Op>, op: Op, all: seq<Op>, p: State)
    requires ConnsAgree(ops, p) && all == ops + [op]
    ensures Introduced(all, |ops|) <==> (op.Connect? || op.Wrap?) && op.conn.key !in p.net.conns
  {
    assert all[|ops|] == op && forall j :: 0 <= j < |ops| ==> all[j] == ops[j];
    if op.Connect? || op.Wrap? {
      var key := op.conn.key;
      if key in p.net.conns {
        var i: nat :| Introduces(ops, i, key);
        EndedStep(ops, op, all, i, |ops|, key);
      } else {
        forall j | 0 <= j < |ops| && Opens(all[j], key)
          ensures EndedBetween(all, j, |ops|, key)
        {
          NotIntroduced(ops, p, j, key);
          EndedStep(ops, op, all, j, |ops|, key);
        }
      }
    }
  }

  lemma NotIntroduced(ops: seq<Op>, p: State, j: nat, key: string)
    requires ConnsAgree(ops, p) && key !in p.net.conns && j < |ops| && Opens(ops[j], key)
    ensures EndedBetween(ops, j, |ops|, key)
  {
    if !EndedBetween(ops, j, |ops|, key) {
      var i := FirstSince(ops, j, key);
    }
  }

  lemma ConnDisconnect(p: State, now: Time, key: string, order: seq<nat>, o: Op, id: nat)
    requires ValidConns(p.net.conns, p.net.connById, p.net.nextConn) && ConnTold(p, o, id) && o.conn.key != key
    ensures ConnTold(Disconnected(p, now, key, order), o, id)
  {
    if key in p.net.conns {
      DifferentIds(p.net, o.conn.key, key);
    }
  }

  /** Ids of described connections have been spent. */
  ghost predicate Spent(n: Net) {
    forall c :: c in n.connectionUpserts ==> c < n.nextConn
  }

  lemma ValidSpent(p: State)
    requires Valid(p)
    ensures Spent(p.net)
  {
  }

  lemma TrackAdds(p: State, now: Time, conn: Conn, connId: nat, atNs: int)
    requires connId !in p.net.connectionUpserts && conn.key !in p.net.conns
    ensures var q := Track(p, now, conn, connId, atNs);
      && q.net.conns.Keys == p.net.conns.Keys + {conn.key}
      && q.net.conns[conn.key].conn == conn && q.net.conns[conn.key].connId == connId
      && connId in q.net.connectionUpserts && q.net.connectionUpserts[connId].openedAtNs == atNs
      && (forall k :: k in p.net.conns ==> q.net.conns[k] == p.net.conns[k])
      && (forall c :: c in p.net.connectionUpserts ==>
            c in q.net.connectionUpserts && q.net.connectionUpserts[c] == p.net.connectionUpserts[c])
  {
  }

  /** Connecting introduces an unknown connection as described, and leaves the known ones alone. */
  lemma ConnectAdds(p: State, now: Time, op: Op, o: Op, id: nat, q: State)
    requires Spent(p.net) && (op.Connect? || op.Wrap?) && q == Connected(p, now, op.conn, op.atNs)
    ensures q.net.conns.Keys == p.net.conns.Keys + {op.conn.key} && q.net.nextConn == p.net.nextConn + 1
    ensures op.conn.key !in p.net.conns ==> ConnTold(q, op, p.net.nextConn)
    ensures ConnTold(p, o, id) ==> ConnTold(q, o, id)
  {
    var b := InternConn(SpendConnId(p), now, op.conn);
    InternConnStays(SpendConnId(p), now, op.conn, b);
    if op.conn.key !in p.net.conns {
      TrackAdds(b, now, op.conn, p.net.nextConn, op.atNs);
    }
  }

  lemma WrapAdds(p: State, now: Time, op: Op, o: Op, id: nat, q: State)
    requires Spent(p.net) && op.Wrap? && q == Do(p, now, op)
    ensures q.net.conns.Keys == p.net.conns.Keys + {op.conn.key}
    ensures op.conn.key !in p.net.conns ==> ConnTold(q, op, p.net.nextConn)
    ensures ConnTold(p, o, id) ==> ConnTold(q, o, id)
    ensures q.net.nextConn == p.net.nextConn + if op.Connect? || op.conn.key !in p.net.conns then 1 else 0
  {
    var a := SpendStreamId(p);
    assert ConnTold(p, o, id) ==> ConnTold(a, o, id);
    var b := Tracked(a, now, op.conn, op.atNs);
    if op.conn.key !in p.net.conns {
      ConnectAdds(a, now, op, o, id, b);
    }
    InternStays(b, now, op.protocol);
    assert q.net.conns == b.net.conns && q.net.connectionUpserts == b.net.connectionUpserts;
  }

  lemma OpAdds(p: State, now: Time, op: Op, o: Op, id: nat, q: State)
    requires Spent(p.net) && (op.Connect? || op.Wrap?) && q == Do(p, now, op)
    ensures q.net.conns.Keys == p.net.conns.Keys + {op.conn.key}
    ensures op.conn.key !in p.net.conns ==> ConnTold(q, op, p.net.nextConn)
    ensures ConnTold(p, o, id) ==> ConnTold(q, o, id)
    ensures q.net.nextConn == p.net.nextConn + if op.Connect? || op.conn.key !in p.net.conns then 1 else 0
  {
    if op.Connect? {
      ConnectAdds(p, now, op, o, id, q);
    } else {
      WrapAdds(p, now, op, o, id, q);
    }
  }

  lemma ConnStays(p: State, now: Time, op: Op, o: Op, id: nat, q: State)
    requires Spent(p.net) && ValidConns(p.net.conns, p.net.connById, p.net.nextConn)
    requires ConnTold(p, o, id) && q == Do(p, now, op) && !Ends(op, o.conn.key)
    ensures ConnTold(q, o, id)
  {
    match op
    case Chunk(_, _, _) =>
    case Close(_, _) =>
    case Disconnect(key, order) => ConnDisconnect(p, now, key, order, o, id);
    case _ => OpAdds(p, now, op, o, id, q);
  }

  lemma ConnKeys(p: State, now: Time, op: Op, q: State)
    requires Spent(p.net) && q == Do(p, now, op)
    ensures q.net.conns.Keys <= p.net.conns.Keys + if op.Connect? || op.Wrap? then {op.conn.key} else {}
    ensures op.Disconnect? ==> op.key !in q.net.conns
    ensures q.net.nextConn == p.net.nextConn
      + if op.Connect? || (op.Wrap? && op.conn.key !in p.net.conns) then 1 else 0
  {
    if op.Connect? || op.Wrap? {
      OpAdds(p, now, op, op, 0, q);
    }
  }

  lemma ConnIntroduced(ops: seq<Op>, op: Op, all: seq<Op>, p: State, q: State, k: string)
    requires ConnsAgree(ops, p) && all == ops + [op] && k in q.net.conns
    requires q.net.conns.Keys <= p.net.conns.Keys + if op.Connect? || op.Wrap? then {op.conn.key} else {}
    requires op.Disconnect? ==> op.key != k
    ensures exists i: nat :: Introduces(all, i, k)
  {
    IntroducedNow(ops, op, all, p);
    if k in p.net.conns {
      var i: nat :| Introduces(ops, i, k);
      IntroducedStep(ops, op, all, i);
      assert Introduces(all, i, k);
    } else {
      assert all[|ops|] == op;
      assert Introduces(all, |ops|, k);
    }
  }

  lemma IdsStep(ops: seq<Op>, op: Op, all: seq<Op>)
    requires all == ops + [op]
    ensures all[|ops|] == op && forall i :: 0 <= i <= |ops| ==> all[..i] == ops[..i]
    ensures IdsSpent(all) == IdsSpent(ops) + if op.Connect? || (op.Wrap? && Introduced(all, |ops|)) then 1 else 0
  {
    assert all[..|ops|] == ops;
  }

  lemma IntroducedTold(ops: seq<Op>, op: Op, all: seq<Op>, p: State, now: Time, q: State, i: nat)
    requires ConnsAgree(ops, p) && q == Do(p, now, op) && all == ops + [op] && Introduced(all, i)
    requires Spent(p.net) && ValidConns(p.net.conns, p.net.connById, p.net.nextConn)
    ensures ConnTold(q, all[i], IdsSpent(all[..i]))
  {
    IdsStep(ops, op, all);
    if i == |ops| {
      IntroducedNow(ops, op, all, p);
      assert ops[..i] == ops;
      OpAdds(p, now, op, op, 0, q);
    } else {
      IntroducedStep(ops, op, all, i);
      ConnStays(p, now, op, ops[i], IdsSpent(ops[..i]), q);
    }
  }

  lemma ConnsStep(ops: seq<Op>, op: Op, all: seq<Op>, p: State, now: Time, q: State)
    requires ConnsAgree(ops, p) && q == Do(p, now, op) && all == ops + [op]
    requires Spent(p.net) && ValidConns(p.net.conns, p.net.connById, p.net.nextConn)
    ensures ConnsAgree(all, q)
  {
    ConnKeys(p, now, op, q);
    IntroducedNow(ops, op, all, p);
    IdsStep(ops, op, all);
    forall i: nat | Introduced(all, i)
      ensures ConnTold(q, all[i], IdsSpent(all[..i]))
    {
      IntroducedTold(ops, op, all, p, now, q, i);
    }
    forall k | k in q.net.conns
      ensures exists i: nat :: Introduces(all, i, k)
    {
      ConnIntroduced(ops, op, all, p, q, k);
    }
  }

  // ---- Whole runs ----------------------------------------------------------------------------------------------

  lemma StartTold(p: State, ops: seq<Op>)
    requires p == START && ops == []
    ensures StreamsAgree(ops, p) && ConnsAgree(ops, p)
  {
  }

  lemma StepTold(ops: seq<Op>, op: Op, all: seq<Op>, p: State, now: Time, q: State)
    requires StreamsAgree(ops, p) && ConnsAgree(ops, p) && Valid(p) && q == Do(p, now, op) && all == ops + [op]
    ensures StreamsAgree(all, q) && ConnsAgree(all, q)
  {
    ValidSpent(p);
    StreamsStep(ops, op, all, p, now, q);
    ConnsStep(ops, op, all, p, now, q);
  }

  lemma EveryRunIsValid(p: State, now: Time, ops: seq<Op>)
    requires History(p, now, ops)
    ensures Valid(p)
  {
    LogMirrorsProbe(p, now, ops);
  }

  lemma {:induction false} EveryRunIsTold(p: State, now: Time, ops: seq<Op>)
    requires History(p, now, ops)
    ensures StreamsAgree(ops, p) && ConnsAgree(ops, p)
    decreases |ops|
  {
    if ops == [] {
      StartTold(p, ops);
    } else {
      var n := |ops| - 1;
      var before := LastOp(p, now, ops);
      EveryRunIsTold(before, now, ops[..n]);
      EveryRunIsValid(before, now, ops[..n]);
      Unsnoc(ops);
      StepTold(ops[..n], ops[n], ops, before, now, p);
    }
  }

  lemma Unsnoc(ops: seq<Op>)
    requires ops != []
    ensures ops == ops[..|ops| - 1] + [ops[|ops| - 1]]
  {
  }

  lemma LastOp(p: State, now: Time, ops: seq<Op>) returns (before: State)
    requires History(p, now, ops) && ops != []
    ensures var n := |ops| - 1; History(before, now, ops[..n]) && Does(before, now, ops[n], p)
  {
    var n := |ops| - 1;
    before :| History(before, now, ops[..n]) && Does(before, now, ops[n], p);
  }

  /** After every run, the open streams are exactly those that some operation wrapped and nothing has closed since, and
      each is filed under the connection it was wrapped on, with the protocol, direction and time it was given. */
  lemma StreamsAreTold(p: State, now: Time, ops: seq<Op>)
    requires History(p, now, ops)
    ensures forall a :: a in p.net.streamUpserts <==> exists i: nat :: Names(ops, i, a)
    ensures forall i: nat :: StillOpen(ops, i) ==> StreamTold(p, ops[i], Wraps(ops[..i]))
  {
    EveryRunIsTold(p, now, ops);
  }

  /** After every run, the tracked connections are exactly those that some operation introduced and nothing has
      disconnected since, each with the description and time of that operation. */
  lemma ConnectionsAreTold(p: State, now: Time, ops: seq<Op>)
    requires History(p, now, ops)
    ensures forall k :: k in p.net.conns <==> exists i: nat :: Introduces(ops, i, k)
    ensures forall i: nat :: Introduced(ops, i) ==> ConnTold(p, ops[i], IdsSpent(ops[..i]))
  {
    EveryRunIsTold(p, now, ops);
  }

  /** The stream was wrapped on the connection with this key and is still open. */
  ghost predicate OpenOn(ops: seq<Op>, key: string, alias: nat) {
    exists i: nat :: Names(ops, i, alias) && ops[i].conn.key == key
  }

  /** The log goes on with the closes of these streams, in this order, and then of the connection. */
  ghost predicate SaysClosed(log: seq<Envelope>, more: seq<Envelope>, order: seq<nat>, connId: nat) {
    && |more| == |log| + |order| + 1 && log <= more
    && (forall i :: 0 <= i < |order| ==> more[|log| + i].payload == StreamClosed(order[i], ConnClosed))
    && more[|log| + |order|].payload == ConnectionClosed(connId)
  }

  /** In every run, a disconnect closes exactly the still open streams that were wrapped on that connection, each once,
      and then the connection. */
  lemma DisconnectClosesExactly(p: State, now: Time, ops: seq<Op>, key: string, order: seq<nat>)
    requires History(p, now, ops) && CanDo(p, Disconnect(key, order)) && key in p.net.conns
    ensures forall a :: a in order <==> OpenOn(ops, key, a)
    ensures forall i, j :: 0 <= i < j < |order| ==> order[i] != order[j]
    ensures SaysClosed(p.log, Do(p, now, Disconnect(key, order)).log, order, p.net.conns[key].connId)
  {
    RunOfStreams(p, now, ops);
    ClosesThat(p, now, ops, key, order);
  }

  lemma ClosesThat(p: State, now: Time, ops: seq<Op>, key: string, order: seq<nat>)
    requires StreamsAgree(ops, p) && ValidConns(p.net.conns, p.net.connById, p.net.nextConn) && key in p.net.conns
    requires CanDo(p, Disconnect(key, order))
    ensures forall a :: a in order <==> OpenOn(ops, key, a)
    ensures forall i, j :: 0 <= i < j < |order| ==> order[i] != order[j]
    ensures SaysClosed(p.log, Do(p, now, Disconnect(key, order)).log, order, p.net.conns[key].connId)
  {
    StreamsOfThat(p, ops, key, order);
    DisconnectSays(p, now, key, order);
  }

  lemma DisconnectSays(p: State, now: Time, key: string, order: seq<nat>)
    requires key in p.net.conns
    ensures SaysClosed(p.log, Disconnected(p, now, key, order).log, order, p.net.conns[key].connId)
  {
    DisconnectLog(p.log, now, order, p.net.conns[key].connId);
  }

  lemma RunOfStreams(p: State, now: Time, ops: seq<Op>)
    requires History(p, now, ops)
    ensures StreamsAgree(ops, p) && ValidConns(p.net.conns, p.net.connById, p.net.nextConn)
  {
    EveryRunIsTold(p, now, ops);
    EveryRunIsValid(p, now, ops);
  }

  lemma StreamsOfThat(p: State, ops: seq<Op>, key: string, order: seq<nat>)
    requires StreamsAgree(ops, p) && ValidConns(p.net.conns, p.net.connById, p.net.nextConn) && key in p.net.conns
    requires forall a :: a in order <==> a in StreamsOf(p.net, p.net.conns[key].connId)
    ensures forall a :: a in order <==> OpenOn(ops, key, a)
  {
    forall a
      ensures a in order <==> OpenOn(ops, key, a)
    {
      OnThatConnection(p, ops, key, a);
    }
  }

  lemma OnThatConnection(p: State, ops: seq<Op>, key: string, a: nat)
    requires StreamsAgree(ops, p) && ValidConns(p.net.conns, p.net.connById, p.net.nextConn) && key in p.net.conns
    ensures a in StreamsOf(p.net, p.net.conns[key].connId) <==> OpenOn(ops, key, a)
  {
    if a in p.net.streamUpserts {
      var i: nat :| Names(ops, i, a);
      if ops[i].conn.key != key {
        DifferentIds(p.net, ops[i].conn.key, key);
      }
    }
  }

  // ---- What the log says about traffic -------------------------------------------------------------------------

  /** Traffic, and the closes that streams ask for themselves. */
  predicate OfStreams(p: Payload) {
    p.StreamChunk? || (p.StreamClosed? && p.reason != ConnClosed)
  }

  function Said(log: seq<Envelope>): seq<Payload> {
    if log == [] then [] else
      var last := log[|log| - 1].payload;
      Said(log[..|log| - 1]) + if OfStreams(last) then [last] else []
  }

  function Asked(ops: seq<Op>): seq<Payload> {
    if ops == [] then [] else
      Asked(ops[..|ops| - 1]) + match ops[|ops| - 1]
        case Chunk(streamId, dir, data) => [StreamChunk(streamId, dir, data)]
        case Close(streamId, reason) => if reason == ConnClosed then [] else [StreamClosed(streamId, reason)]
        case _ => []
  }

  /** Every envelope carries the time of its own emission. */
  ghost predicate Stamped(log: seq<Envelope>, now: Time) {
    forall i :: 0 <= i < |log| ==> log[i].observedAtNs == now(i + 1)
  }

  /** The log grew by envelopes that are not of streams. */
  ghost predicate Silent(log: seq<Envelope>, more: seq<Envelope>, now: Time) {
    Said(more) == Said(log) && (Stamped(log, now) ==> Stamped(more, now))
  }

  lemma AppendSays(log: seq<Envelope>, now: Time, payload: Payload)
    ensures Said(Append(log, now, payload)) == Said(log) + if OfStreams(payload) then [payload] else []
    ensures Stamped(log, now) ==> Stamped(Append(log, now, payload), now)
  {
    var more := Append(log, now, payload);
    assert more[..|log|] == log;
  }

  lemma {:induction false} ClosesSilent(log: seq<Envelope>, now: Time, payloads: seq<Payload>)
    requires forall i :: 0 <= i < |payloads| ==> !OfStreams(payloads[i])
    ensures Silent(log, AppendAll(log, now, payloads), now)
    decreases |payloads|
  {
    if payloads != [] {
      var n := |payloads| - 1;
      ClosesSilent(log, now, payloads[..n]);
      AppendSays(AppendAll(log, now, payloads[..n]), now, payloads[n]);
    }
  }

  lemma InternSilent(p: State, now: Time, s: string)
    ensures Silent(p.log, Intern(p, now, s).log, now)
  {
    AppendSays(p.log, now, StringDef(|p.table.strings|, s));
  }

  lemma ConnectSilent(p: State, now: Time, conn: Conn, atNs: int)
    ensures Silent(p.log, Connected(p, now, conn, atNs).log, now)
  {
    var a := SpendConnId(p);
    var b := Intern(a, now, conn.transport);
    var c := Intern(b, now, conn.security);
    var d := Intern(c, now, conn.muxer);
    InternSilent(a, now, conn.transport);
    InternSilent(b, now, conn.security);
    InternSilent(c, now, conn.muxer);
    TrackSilent(d, now, conn, p.net.nextConn, atNs);
  }

  lemma TrackSilent(p: State, now: Time, conn: Conn, connId: nat, atNs: int)
    ensures Silent(p.log, Track(p, now, conn, connId, atNs).log, now)
  {
    var info := InfoFor(p.table, WithPeer(p.net, conn.remotePeer), conn, connId, atNs);
    AppendSays(p.log, now, PeerUpsert(info.peerAlias, conn.remotePeer));
    AppendSays(Append(p.log, now, PeerUpsert(info.peerAlias, conn.remotePeer)), now, ConnectionUpsert(info));
  }

  lemma WrapSilent(p: State, now: Time, op: Op)
    requires op.Wrap?
    ensures Silent(p.log, Do(p, now, op).log, now)
  {
    var a := SpendStreamId(p);
    var b := Tracked(a, now, op.conn, op.atNs);
    ConnectSilent(a, now, op.conn, op.atNs);
    InternSilent(b, now, op.protocol);
    var c := Intern(b, now, op.protocol);
    AppendSays(c.log, now, StreamUpsert(StreamInfo(
      p.net.nextStream, ConnIdOf(c.net, op.conn.key), op.dir, IdOf(c.table, op.protocol), op.atNs)));
  }

  lemma DisconnectSilent(p: State, now: Time, key: string, order: seq<nat>)
    ensures Silent(p.log, Disconnected(p, now, key, order).log, now)
  {
    if key in p.net.conns {
      ClosesSilent(p.log, now, Closes(order));
      AppendSays(AppendAll(p.log, now, Closes(order)), now, ConnectionClosed(p.net.conns[key].connId));
    }
  }

  lemma OpSays(p: State, now: Time, ops: seq<Op>, op: Op, all: seq<Op>, q: State)
    requires Said(p.log) == Asked(ops) && Stamped(p.log, now) && all == ops + [op] && q == Do(p, now, op)
    ensures Said(q.log) == Asked(all) && Stamped(q.log, now)
  {
    assert all[..|ops|] == ops && all[|ops|] == op;
    if op.Chunk? || op.Close? {
      AskedSays(p, now, op);
    } else {
      OthersSilent(p, now, op);
    }
  }

  lemma AskedSays(p: State, now: Time, op: Op)
    requires op.Chunk? || op.Close?
    ensures var q := Do(p, now, op);
      Said(q.log) == Said(p.log) + Asked([op]) && (Stamped(p.log, now) ==> Stamped(q.log, now))
  {
    assert [op][..0] == [];
    if op.Chunk? {
      AppendSays(p.log, now, StreamChunk(op.streamId, op.dir, op.data));
    } else {
      AppendSays(p.log, now, StreamClosed(op.streamId, op.reason));
    }
  }

  lemma OthersSilent(p: State, now: Time, op: Op)
    requires !op.Chunk? && !op.Close?
    ensures Silent(p.log, Do(p, now, op).log, now)
  {
    match op
    case Connect(conn, atNs) => ConnectSilent(p, now, conn, atNs);
    case Wrap(_, _, _, _) => WrapSilent(p, now, op);
    case Disconnect(key, order) => DisconnectSilent(p, now, key, order);
  }

  /** After every run, the log reports exactly the traffic that passed, with its stream, direction and bytes, and the
      closes that were asked for, in the order in which they happened; every envelope has the time of its emission. */
  lemma {:induction false} TrafficIsTold(p: State, now: Time, ops: seq<Op>)
    requires History(p, now, ops)
    ensures Said(p.log) == Asked(ops) && Stamped(p.log, now)
    decreases |ops|
  {
    if ops == [] {
      assert p == START;
    } else {
      var n := |ops| - 1;
      var before := LastOp(p, now, ops);
      TrafficIsTold(before, now, ops[..n]);
      Unsnoc(ops);
      OpSays(before, now, ops[..n], ops[n], ops, p);
    }
  }

  // ---- What a collector shows ----------------------------------------------------------------------------------

  /** The connection is listed under its peer, as the operation described it. */
  ghost predicate Shows(v: View, c: nat, op: Op) {
    && (op.Connect? || op.Wrap?) && c in v.conns && v.conns[c] in v.peers
    && var row := v.peers[v.conns[c]];
      && row.id == op.conn.remotePeer && c in row.connections
      && var cs := row.connections[c];
        && cs.remoteAddr == op.conn.remoteAddr && cs.localAddr == op.conn.localAddr
        && (op.conn.direction == In ==> cs.direction == "inbound")
        && (op.conn.direction == Out ==> cs.direction == "outbound")
        && (op.conn.direction == Unknown ==> cs.direction == "unknown")
        && cs.transport == op.conn.transport && cs.security == op.conn.security && cs.muxer == op.conn.muxer
        && cs.openedAtNs == op.atNs
  }

  lemma ShownConnection(a: Aliases, p: State, op: Op, c: nat)
    requires Matches(a, p) && ConnTold(p, op, c) && ValidConns(p.net.conns, p.net.connById, p.net.nextConn)
    ensures Shows(ViewOf(a), c, op)
  {
    var table := Expected(p.net.connById, p.net.connectionUpserts);
    Peers.FlatIsAll(a.peers);
    assert c in table;
    ShownEntry(a.peers, c, table[c], op);
  }

  /** An entry of the table that says what the operation said. */
  lemma ShownEntry(x: Peers.Index, c: nat, e: Peers.Entry, op: Op)
    requires (op.Connect? || op.Wrap?) && Peers.EntryOf(x, c) == Some(e) && e.id == op.conn.remotePeer
    requires e.state == Truth(TrackedConn(op.conn, c, e.state.peerAlias), op.atNs)
    ensures Shows(View(map[], map[], x.conns, PeerRows(x)), c, op)
  {
  }

  lemma ShownStream(a: Aliases, p: State, op: Op, alias: nat)
    requires Matches(a, p) && StreamTold(p, op, alias)
    ensures alias in a.protocols && a.protocols[alias] == op.protocol
  {
  }

  /** After every run, a collector that replays the log shows exactly the streams that are still open, each with the
      protocol it was wrapped with, and exactly the connections that are still up, each under its peer and as it was
      described by the operation that introduced it. */
  lemma ShownAsTold(p: State, now: Time, ops: seq<Op>, v: View)
    requires History(p, now, ops) && v == ViewOf(Replay(NO_ALIASES, p.log))
    ensures forall a :: a in v.protocols <==> exists i: nat :: Names(ops, i, a)
    ensures forall i: nat :: StillOpen(ops, i) ==>
      Wraps(ops[..i]) in v.protocols && v.protocols[Wraps(ops[..i])] == ops[i].protocol
    ensures forall i: nat :: Introduced(ops, i) ==> Shows(v, IdsSpent(ops[..i]), ops[i])
    ensures forall c :: c in v.conns ==> exists i: nat :: Introduced(ops, i) && Shows(v, c, ops[i])
  {
    var a := Replay(NO_ALIASES, p.log);
    MirrorOfRun(p, now, ops);
    StreamsShown(a, p, ops);
    ConnectionsShown(a, p, ops);
  }

  lemma MirrorOfRun(p: State, now: Time, ops: seq<Op>)
    requires History(p, now, ops)
    ensures StreamsAgree(ops, p) && ConnsAgree(ops, p) && ValidConns(p.net.conns, p.net.connById, p.net.nextConn)
    ensures Matches(Replay(NO_ALIASES, p.log), p)
  {
    EveryRunIsTold(p, now, ops);
    LogMirrorsProbe(p, now, ops);
  }

  lemma StreamsShown(a: Aliases, p: State, ops: seq<Op>)
    requires Matches(a, p) && StreamsAgree(ops, p)
    ensures forall s :: s in a.protocols <==> exists i: nat :: Names(ops, i, s)
    ensures forall i: nat :: StillOpen(ops, i) ==>
      Wraps(ops[..i]) in a.protocols && a.protocols[Wraps(ops[..i])] == ops[i].protocol
  {
    forall i: nat | StillOpen(ops, i)
      ensures Wraps(ops[..i]) in a.protocols && a.protocols[Wraps(ops[..i])] == ops[i].protocol
    {
      ShownStream(a, p, ops[i], Wraps(ops[..i]));
    }
  }

  lemma ConnectionsShown(a: Aliases, p: State, ops: seq<Op>)
    requires Matches(a, p) && ConnsAgree(ops, p) && ValidConns(p.net.conns, p.net.connById, p.net.nextConn)
    ensures forall i: nat :: Introduced(ops, i) ==> Shows(ViewOf(a), IdsSpent(ops[..i]), ops[i])
    ensures forall c :: c in a.peers.conns ==> exists i: nat :: Introduced(ops, i) && Shows(ViewOf(a), c, ops[i])
  {
    forall i: nat | Introduced(ops, i)
      ensures Shows(ViewOf(a), IdsSpent(ops[..i]), ops[i])
    {
      ShownConnection(a, p, ops[i], IdsSpent(ops[..i]));
    }
    forall c | c in a.peers.conns
      ensures exists i: nat :: Introduced(ops, i) && Shows(ViewOf(a), c, ops[i])
    {
      ShownIsIntroduced(a, p, ops, c);
    }
  }

  lemma ShownIsIntroduced(a: Aliases, p: State, ops: seq<Op>, c: nat)
    requires Matches(a, p) && ConnsAgree(ops, p) && ValidConns(p.net.conns, p.net.connById, p.net.nextConn)
    requires c in a.peers.conns
    ensures exists i: nat :: Introduced(ops, i) && Shows(ViewOf(a), c, ops[i])
  {
    Peers.FlatIsAll(a.peers);
    assert c in Expected(p.net.connById, p.net.connectionUpserts);
    var key := p.net.connById[c].conn.key;
    var i: nat :| Introduces(ops, i, key);
    ShownConnection(a, p, ops[i], IdsSpent(ops[..i]));
  }
}
