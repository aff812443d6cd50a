/** A collector can always catch up: from every reachable state some continuation leads there, refusing nothing. */
module Progress {
  import opened Basics
  import opened Envelopes
  import opened Processor
  import opened Probe
  import opened Mirror
  import opened Snapshot
  import opened Overlap
  import opened Sections
  import opened Resume
  import opened Delivery
  import opened Convergence

  // ---- Every probe has a snapshot ----------------------------------------------------------------------------

  lemma {:induction false} Largest(s: set<nat>) returns (m: nat)
    requires s != {}
    ensures m in s && forall k :: k in s ==> k <= m
    decreases |s|
  {
    var k :| k in s;
    m := k;
    if s - {k} != {} {
      var n := Largest(s - {k});
      if n > k {
        m := n;
      }
    }
    assert s == (s - {k}) + {k};
  }

  lemma {:induction false} InOrder(s: set<nat>) returns (xs: seq<nat>)
    ensures forall k :: k in xs <==> k in s
    ensures forall i, j :: 0 <= i < j < |xs| ==> xs[i] < xs[j]
    decreases |s|
  {
    if s == {} {
      xs := [];
    } else {
      var m := Largest(s);
      var rest := InOrder(s - {m});
      xs := rest + [m];
      assert forall i :: 0 <= i < |rest| ==> rest[i] in rest;
    }
  }

  lemma ListPeers(peers: map<PeerId, nat>) returns (xs: seq<TrackedPeer>)
    requires Injective(peers)
    ensures forall t :: t in xs <==> t.id in peers && peers[t.id] == t.alias
    ensures forall i, j :: 0 <= i < j < |xs| ==> xs[i].alias < xs[j].alias
  {
    var aliases := InOrder(peers.Values);
    assert forall i :: 0 <= i < |aliases| ==> aliases[i] in aliases;
    ghost var owner := map a | a in peers.Values :: var id :| id in peers && peers[id] == a; id;
    xs := seq(|aliases|, i requires 0 <= i < |aliases| => TrackedPeer(aliases[i], owner[aliases[i]]));
    forall t
      ensures t in xs <==> t.id in peers && peers[t.id] == t.alias
    {
      if t.id in peers && peers[t.id] == t.alias {
        assert t.alias in aliases;
        var i :| 0 <= i < |aliases| && aliases[i] == t.alias;
        assert xs[i] == t;
      }
    }
  }

  lemma ListConnections(conns: map<nat, ConnectionInfo>) returns (xs: seq<ConnectionInfo>)
    requires forall c :: c in conns ==> conns[c].connAlias == c
    ensures forall c :: c in xs <==> c.connAlias in conns && conns[c.connAlias] == c
    ensures forall i, j :: 0 <= i < j < |xs| ==> xs[i].connAlias < xs[j].connAlias
  {
    var keys := InOrder(conns.Keys);
    assert forall i :: 0 <= i < |keys| ==> keys[i] in keys;
    xs := seq(|keys|, i requires 0 <= i < |keys| => conns[keys[i]]);
    forall c
      ensures c in xs <==> c.connAlias in conns && conns[c.connAlias] == c
    {
      if c.connAlias in conns && conns[c.connAlias] == c {
        var i :| 0 <= i < |keys| && keys[i] == c.connAlias;
        assert xs[i] == c;
      }
    }
  }

  lemma ListStreams(streams: map<nat, StreamInfo>) returns (xs: seq<StreamInfo>)
    requires forall a :: a in streams ==> streams[a].streamAlias == a
    ensures forall st :: st in xs <==> st.streamAlias in streams && streams[st.streamAlias] == st
    ensures forall i, j :: 0 <= i < j < |xs| ==> xs[i].streamAlias < xs[j].streamAlias
  {
    var keys := InOrder(streams.Keys);
    assert forall i :: 0 <= i < |keys| ==> keys[i] in keys;
    xs := seq(|keys|, i requires 0 <= i < |keys| => streams[keys[i]]);
    forall st
      ensures st in xs <==> st.streamAlias in streams && streams[st.streamAlias] == st
    {
      if st.streamAlias in streams && streams[st.streamAlias] == st {
        var i :| 0 <= i < |keys| && keys[i] == st.streamAlias;
        assert xs[i] == st;
      }
    }
  }

  lemma SnapshotExists(p: State, strings: seq<string>) returns (snap: Snap)
    requires Valid(p)
    ensures snap.strings == strings && ListsNet(p.net, snap)
  {
    var peers := ListPeers(p.net.peers);
    forall c | c in p.net.connectionUpserts
      ensures p.net.connectionUpserts[c].connAlias == c
    {
      assert Describes(p.table.strings, p.net.peers, p.net.connById[c], p.net.connectionUpserts[c]);
    }
    var conns := ListConnections(p.net.connectionUpserts);
    var streams := ListStreams(p.net.streamUpserts);
    snap := Snap(strings, peers, conns, streams);
  }

  lemma OrderExists(p: State, key: string) returns (order: seq<nat>)
    requires key in p.net.conns
    ensures CanDo(p, Disconnect(key, order))
  {
    order := InOrder(StreamsOf(p.net, p.net.conns[key].connId));
  }

  // ---- Continuations -----------------------------------------------------------------------------------------

  /** Some continuation of the run leads to t. */
  ghost predicate From(lim: Limits, now: Time, steps: seq<Step>, t: System) {
    exists more :: Reachable(lim, now, t, steps + more)
  }

  lemma Then(lim: Limits, now: Time, steps: seq<Step>, t: System, step: Step, u: System)
    requires From(lim, now, steps, t) && Enabled(lim, t, step) && u == Next(lim, now, t, step)
    ensures From(lim, now, steps, u)
  {
    var more :| Reachable(lim, now, t, steps + more);
    var all := steps + (more + [step]);
    assert all[..|all| - 1] == steps + more && all[|all| - 1] == step;
    assert Reachable(lim, now, u, all);
  }

  /** Nothing but the traffic between sink and collector has moved. */
  ghost predicate SameProbe(t: System, u: System) {
    u.host == t.host && u.emitted == t.emitted && u.boot == t.boot && u.refused == t.refused
  }

  lemma {:induction false} DeliverAll(lim: Limits, now: Time, steps: seq<Step>, t: System) returns (u: System)
    requires From(lim, now, steps, t) && t.link.connected
    ensures From(lim, now, steps, u) && SameProbe(t, u) && u.link == t.link.(wire := [])
    decreases |t.link.wire|
  {
    if t.link.wire == [] {
      u := t;
    } else {
      var v := Next(lim, now, t, Deliver);
      Then(lim, now, steps, t, Deliver, v);
      u := DeliverAll(lim, now, steps, v);
    }
  }

  lemma {:induction false} DrainAll(lim: Limits, now: Time, steps: seq<Step>, t: System) returns (u: System)
    requires From(lim, now, steps, t) && t.link.connected
    ensures From(lim, now, steps, u) && SameProbe(t, u) && u.link == t.link.(wire := [], queue := [])
    decreases |t.link.queue|
  {
    var v := DeliverAll(lim, now, steps, t);
    if v.link.queue == [] {
      u := v;
    } else {
      var w := Next(lim, now, v, Pump);
      Then(lim, now, steps, v, Pump, w);
      u := DrainAll(lim, now, steps, w);
    }
  }

  lemma {:induction false} EmitAll(lim: Limits, now: Time, steps: seq<Step>, t: System) returns (u: System)
    requires From(lim, now, steps, t) && t.link.connected && lim.queue >= 1 && t.emitted <= |Saying(t)|
    ensures From(lim, now, steps, u) && SameProbe(t.(emitted := |Saying(t)|), u)
    ensures u.link == t.link.(wire := [], queue := [])
    decreases |Saying(t)| - t.emitted
  {
    var v := DrainAll(lim, now, steps, t);
    if v.emitted == |Saying(v)| {
      u := v;
    } else {
      var w := Next(lim, now, v, Emit);
      Then(lim, now, steps, v, Emit, w);
      u := EmitAll(lim, now, steps, w);
    }
  }

  lemma InvOf(lim: Limits, now: Time, steps: seq<Step>, t: System)
    requires From(lim, now, steps, t)
    ensures Inv(t)
  {
    var more :| Reachable(lim, now, t, steps + more);
    EveryRunKeepsInv(lim, now, t, steps + more);
  }

  /** A snapshot that is being read can be sent. */
  lemma FinishReading(lim: Limits, now: Time, steps: seq<Step>, t: System) returns (u: System)
    requires From(lim, now, steps, t) && t.link.reading.Some?
    requires t.link.reading.value.strings <= |t.host.state.table.strings|
    ensures From(lim, now, steps, u) && SameProbe(t, u) && u.link.connected && u.link.reading.None?
  {
    InvOf(lim, now, steps, t);
    var p := Actual(t.host.state, t.host.leaving);
    ActualValid(t.host.state, t.host.leaving);
    var snap := SnapshotExists(p, t.host.state.table.strings[..t.link.reading.value.strings]);
    u := Next(lim, now, t, SendSnapshot(snap));
    Then(lim, now, steps, t, SendSnapshot(snap), u);
  }

  /** A sink without a connection can attach, after giving up a catch-up it was in the middle of. */
  lemma Connect(lim: Limits, now: Time, steps: seq<Step>, t: System) returns (u: System)
    requires From(lim, now, steps, t)
    ensures From(lim, now, steps, u) && SameProbe(t, u) && u.link.connected && u.link.reading.None?
  {
    InvOf(lim, now, steps, t);
    if t.link.connected {
      u := t;
    } else {
      var v := Next(lim, now, t, Drop(0));
      Then(lim, now, steps, t, Drop(0), v);
      u := Next(lim, now, v, Attach);
      Then(lim, now, steps, v, Attach, u);
      if u.link.reading.Some? {
        u := FinishReading(lim, now, steps, u);
      }
    }
  }

  /** A disconnect that is half done can be finished. */
  lemma FinishDisconnect(lim: Limits, now: Time, steps: seq<Step>, t: System) returns (u: System)
    requires From(lim, now, steps, t) && t.emitted == |Saying(t)|
    ensures From(lim, now, steps, u) && u.host.leaving.None? && u.emitted <= |Saying(u)|
    ensures u.link == t.link && u.boot == t.boot && u.refused == t.refused
  {
    if t.host.leaving.None? {
      u := t;
    } else {
      InvOf(lim, now, steps, t);
      var order := OrderExists(t.host.state, t.host.leaving.value);
      u := Next(lim, now, t, Work(DropStreams(order)));
      Then(lim, now, steps, t, Work(DropStreams(order)), u);
      InvOf(lim, now, steps, u);
    }
  }

  /** From every reachable state some continuation leads to a collector that has caught up, without a restart and
      without another refusal. */
  lemma CanCatchUp(lim: Limits, now: Time, s: System, steps: seq<Step>) returns (t: System, more: seq<Step>)
    requires Reachable(lim, now, s, steps) && lim.queue >= 1
    ensures Reachable(lim, now, t, steps + more) && CaughtUp(t) && t.boot == s.boot && t.refused == s.refused
    ensures s.refused == {} ==> ViewOf(t.collector.core.aliases) == ViewOf(Replay(NO_ALIASES, Saying(t)))
  {
    assert steps + [] == steps;
    assert From(lim, now, steps, s);
    var a := Connect(lim, now, steps, s);
    InvOf(lim, now, steps, a);
    var b := EmitAll(lim, now, steps, a);
    var c := FinishDisconnect(lim, now, steps, b);
    t := EmitAll(lim, now, steps, c);
    InvOf(lim, now, steps, t);
    more :| Reachable(lim, now, t, steps + more);
    if s.refused == {} {
      CaughtUpMirrorsLog(lim, now, t, steps + more);
    }
  }

  /** Everything that is queued or said can be sent, and the collector then be restarted. */
  lemma DrainAndRestart(lim: Limits, now: Time, s: System, steps: seq<Step>) returns (a: System, more: seq<Step>)
    requires Reachable(lim, now, s, steps) && lim.queue >= 1
    ensures Reachable(lim, now, a, steps + more) && a.boot == s.boot && a.refused == s.refused
    ensures a.link == Link([], false, [], None) && a.collector == Collector(BLANK, None, [], [])
    ensures a.emitted == |Saying(a)|
  {
    assert steps + [] == steps;
    assert From(lim, now, steps, s);
    var b := Connect(lim, now, steps, s);
    InvOf(lim, now, steps, b);
    var c := EmitAll(lim, now, steps, b);
    a := Next(lim, now, c, RestartCollector(false));
    Then(lim, now, steps, c, RestartCollector(false), a);
    more :| Reachable(lim, now, a, steps + more);
  }

  /** From a collector whose catch-up has just begun to read a snapshot, one that has caught up can be reached. */
  lemma ReadAndCatchUp(lim: Limits, now: Time, b: System, steps: seq<Step>) returns (t: System, more: seq<Step>)
    requires Reachable(lim, now, b, steps) && lim.queue >= 1 && b.link.reading.Some? && b.emitted == |Saying(b)|
    requires b.link.reading.value.strings <= |b.host.state.table.strings|
    ensures Reachable(lim, now, t, steps + more) && CaughtUp(t) && t.boot == b.boot && t.refused == b.refused
  {
    assert steps + [] == steps;
    assert From(lim, now, steps, b);
    var c := FinishReading(lim, now, steps, b);
    var d := EmitAll(lim, now, steps, c);
    var e := FinishDisconnect(lim, now, steps, d);
    t := EmitAll(lim, now, steps, e);
    InvOf(lim, now, steps, t);
    more :| Reachable(lim, now, t, steps + more);
  }

  /** A blank collector is sent a snapshot. */
  lemma BlankReads(lim: Limits, now: Time, a: System, b: System)
    requires Enabled(lim, a, Attach) && b == Next(lim, now, a, Attach) && a.collector == Collector(BLANK, None, [], [])
    ensures SameProbe(a, b) && b.link.reading == Some(Reading(|a.host.state.table.strings|, |Saying(a)|))
  {
  }

  lemma OneFurther(lim: Limits, now: Time, a: System, steps: seq<Step>, step: Step, all: seq<Step>, b: System)
    requires Reachable(lim, now, a, steps) && Enabled(lim, a, step) && b == Next(lim, now, a, step)
    requires all == steps + [step]
    ensures Reachable(lim, now, b, all)
  {
    assert all[..|all| - 1] == steps && all[|all| - 1] == step;
  }

  lemma FromBlank(lim: Limits, now: Time, a: System, steps: seq<Step>) returns (t: System, last: seq<Step>)
    requires Reachable(lim, now, a, steps) && lim.queue >= 1 && a.emitted == |Saying(a)|
    requires a.link == Link([], false, [], None) && a.collector == Collector(BLANK, None, [], [])
    ensures Reachable(lim, now, t, (steps + [Attach]) + last)
    ensures CaughtUp(t) && t.boot == a.boot && t.refused == a.refused
    ensures ViewOf(t.collector.core.aliases) == ViewOf(Replay(NO_ALIASES, Saying(t)))
  {
    var b := Next(lim, now, a, Attach);
    BlankReads(lim, now, a, b);
    OneFurther(lim, now, a, steps, Attach, steps + [Attach], b);
    t, last := ReadAndCatchUp(lim, now, b, steps + [Attach]);
    SnapshotMakesUp(lim, now, a, steps, t, last);
  }

  lemma Regrouped(a: seq<Step>, b: seq<Step>, c: seq<Step>, d: seq<Step>)
    ensures ((a + b) + c) + d == a + (b + (c + d))
  {
  }

  /** Whatever this boot's queue has refused and the collector has passed over: from every reachable state some
      continuation, in which the collector is restarted once and the probe not at all, leads to a collector that shows
      what applying the boot's whole log in order would show. */
  lemma CanRecover(lim: Limits, now: Time, s: System, steps: seq<Step>) returns (t: System, more: seq<Step>)
    requires Reachable(lim, now, s, steps) && lim.queue >= 1
    ensures Reachable(lim, now, t, steps + more) && CaughtUp(t) && t.boot == s.boot && t.refused == s.refused
    ensures ViewOf(t.collector.core.aliases) == ViewOf(Replay(NO_ALIASES, Saying(t)))
  {
    var a, first := DrainAndRestart(lim, now, s, steps);
    var last;
    t, last := FromBlank(lim, now, a, steps + first);
    more := first + ([Attach] + last);
    Regrouped(steps, first, [Attach], last);
  }
}
