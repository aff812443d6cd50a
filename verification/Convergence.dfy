/** A collector that has caught up shows exactly what the probe tracks, if the queue has refused nothing since the last
    snapshot was read, nor anything from the head of the queue on before that. */
module Convergence {
  import opened Basics
  import opened Envelopes
  import opened Processor
  import opened Probe
  import opened Mirror
  import opened Snapshot
  import opened Overlap
  import opened Sections
  import opened Resume
  import opened Delivery

  /** Replaying the log from c on makes the alias state track the probe. */
  ghost predicate OnTrack(a: Aliases, c: nat, h: Host) {
    c <= |h.state.log| && Tracks(Replay(a, h.state.log[c..]), h.state, h.leaving)
  }

  lemma ReplayFront(a: Aliases, log: seq<Envelope>, c: nat)
    requires c < |log|
    ensures Replay(a, log[c..]) == Replay(ApplyAlias(a, log[c].payload), log[c + 1..])
  {
    var e := log[c];
    assert log[c..] == [e] + log[c + 1..];
    ReplayAppend(a, [e], log[c + 1..]);
    assert [e][..0] == [];
  }

  lemma OnTrackNext(a: Aliases, c: nat, h: Host)
    requires OnTrack(a, c, h) && c < |h.state.log|
    ensures OnTrack(ApplyAlias(a, h.state.log[c].payload), c + 1, h)
  {
    ReplayFront(a, h.state.log, c);
  }

  lemma ReplayFurther(a: Aliases, c: nat, p: State, q: State)
    requires c <= |p.log| && p.log <= q.log
    ensures Replay(a, q.log[c..]) == Replay(Replay(a, p.log[c..]), Emitted(p, q))
  {
    assert q.log[c..] == p.log[c..] + Emitted(p, q);
    ReplayAppend(a, p.log[c..], Emitted(p, q));
  }

  lemma OnTrackGrows(a: Aliases, c: nat, h: Host, now: Time, sec: Section, g: Host)
    requires OnTrack(a, c, h) && HostOk(h) && CanRun(h, sec) && g == Act(h, now, sec)
    ensures OnTrack(a, c, g)
  {
    SectionCarries(Replay(a, h.state.log[c..]), h, now, sec, g);
    ReplayFurther(a, c, h.state, g.state);
  }

  lemma OnTrackEnd(a: Aliases, h: Host)
    requires OnTrack(a, |h.state.log|, h) && h.leaving.None?
    ensures Matches(a, h.state)
  {
    assert h.state.log[|h.state.log|..] == [];
  }

  // ---- What is in flight ---------------------------------------------------------------------------------

  function RunCore(c: Core, es: seq<Envelope>): Core {
    if es == [] then c else ApplyCore(RunCore(c, es[..|es| - 1]), es[|es| - 1])
  }

  lemma {:induction false} RunAppend(c: Core, es: seq<Envelope>, fs: seq<Envelope>)
    ensures RunCore(c, es + fs) == RunCore(RunCore(c, es), fs)
    decreases |fs|
  {
    if fs == [] {
      assert es + fs == es;
    } else {
      var all := es + fs;
      assert all[..|all| - 1] == es + fs[..|fs| - 1];
      RunAppend(c, es, fs[..|fs| - 1]);
    }
  }

  /** The lowest cursor that the ring still covers. */
  function Least(ring: nat, emitted: nat): nat {
    if emitted <= ring then 0 else emitted - ring
  }

  /** A cursor from `least` on can be resumed from. */
  ghost predicate Good(c: Core, least: nat, h: Host) {
    c.cursor > 0 && c.cursor >= least ==> OnTrack(c.aliases, c.cursor, h)
  }

  /** However much of what is in flight arrives, the collector stays resumable. */
  ghost predicate AllGood(c: Core, es: seq<Envelope>, least: nat, h: Host) {
    forall k :: 0 <= k <= |es| ==> Good(RunCore(c, es[..k]), least, h)
  }

  /** After all that is in flight, the queue continues where the collector stands, or overlaps it. */
  ghost predicate Ahead(c: Core, queued: nat, emitted: nat, h: Host) {
    && queued <= emitted && Good(c, 0, h)
    && (if c.cursor == 0 then OnTrack(c.aliases, emitted - queued, h) else emitted - queued <= c.cursor)
  }

  lemma AllGoodFewer(c: Core, es: seq<Envelope>, least: nat, more: nat, h: Host)
    requires AllGood(c, es, least, h) && least <= more
    ensures AllGood(c, es, more, h)
  {
    forall k | 0 <= k <= |es|
      ensures Good(RunCore(c, es[..k]), more, h)
    {
      assert Good(RunCore(c, es[..k]), least, h);
    }
  }

  lemma AllGoodLast(c: Core, es: seq<Envelope>, e: Envelope, least: nat, h: Host)
    requires AllGood(c, es, least, h) && Good(ApplyCore(RunCore(c, es), e), least, h)
    ensures AllGood(c, es + [e], least, h)
  {
    var all := es + [e];
    forall k | 0 <= k <= |all|
      ensures Good(RunCore(c, all[..k]), least, h)
    {
      if k <= |es| {
        assert all[..k] == es[..k];
      } else {
        assert all[..k] == all && all[..|es|] == es;
      }
    }
  }

  lemma AllGoodPrefix(c: Core, es: seq<Envelope>, n: nat, least: nat, h: Host)
    requires AllGood(c, es, least, h) && n <= |es|
    ensures AllGood(c, es[..n], least, h)
  {
    forall k | 0 <= k <= n
      ensures Good(RunCore(c, es[..n][..k]), least, h)
    {
      assert es[..n][..k] == es[..k];
    }
  }

  lemma AllGoodFront(c: Core, e: Envelope, rest: seq<Envelope>, es: seq<Envelope>, d: Core, least: nat, h: Host)
    requires AllGood(c, es, least, h) && es == [e] + rest && d == ApplyCore(c, e)
    ensures AllGood(d, rest, least, h) && RunCore(c, es) == RunCore(d, rest)
  {
    assert [e][..0] == [];
    assert RunCore(c, [e]) == d;
    forall k | 0 <= k <= |rest|
      ensures Good(RunCore(d, rest[..k]), least, h)
    {
      assert es[..k + 1] == [e] + rest[..k];
      RunAppend(c, [e], rest[..k]);
    }
    RunAppend(c, [e], rest);
  }

  /** What is on track for h is so for g, wherever it stands. */
  ghost predicate CarriesTrack(a: Aliases, h: Host, g: Host) {
    forall k :: 0 <= k <= |h.state.log| && OnTrack(a, k, h) ==> OnTrack(a, k, g)
  }

  lemma SectionCarriesTrack(a: Aliases, h: Host, now: Time, sec: Section, g: Host)
    requires HostOk(h) && CanRun(h, sec) && g == Act(h, now, sec)
    ensures CarriesTrack(a, h, g)
  {
    forall k | 0 <= k <= |h.state.log| && OnTrack(a, k, h)
      ensures OnTrack(a, k, g)
    {
      OnTrackGrows(a, k, h, now, sec, g);
    }
  }

  lemma GoodGrows(c: Core, least: nat, h: Host, g: Host)
    requires Good(c, least, h) && CarriesTrack(c.aliases, h, g)
    ensures Good(c, least, g)
  {
  }

  lemma AheadGrows(c: Core, queued: nat, emitted: nat, h: Host, g: Host)
    requires Ahead(c, queued, emitted, h) && CarriesTrack(c.aliases, h, g)
    ensures Ahead(c, queued, emitted, g)
  {
  }

  lemma AllGoodGrows(c: Core, es: seq<Envelope>, least: nat, h: Host, now: Time, sec: Section, g: Host)
    requires AllGood(c, es, least, h) && HostOk(h) && CanRun(h, sec) && g == Act(h, now, sec)
    ensures AllGood(c, es, least, g)
  {
    forall k | 0 <= k <= |es|
      ensures Good(RunCore(c, es[..k]), least, g)
    {
      SectionCarriesTrack(RunCore(c, es[..k]).aliases, h, now, sec, g);
      GoodGrows(RunCore(c, es[..k]), least, h, g);
    }
  }

  /** The head of the queue, applied or skipped, keeps everything on track. */
  lemma PumpedIsGood(c: Core, queued: nat, emitted: nat, h: Host, e: Envelope, d: Core)
    requires Ahead(c, queued, emitted, h) && 0 < queued && emitted <= |h.state.log|
    requires Numbered(h.state.log) && Live(h.state.log) && e == h.state.log[emitted - queued] && d == ApplyCore(c, e)
    ensures Ahead(d, queued - 1, emitted, h)
  {
    var k := emitted - queued;
    if c.cursor == 0 || c.cursor == k {
      OnTrackNext(c.aliases, k, h);
    }
  }

  // ---- Catching up ---------------------------------------------------------------------------------------

  lemma NextIsGood(c: Core, es: seq<Envelope>, e: Envelope, all: seq<Envelope>, h: Host, d: Core, n: nat)
    requires Numbered(h.state.log) && Live(h.state.log) && AllGood(c, es, 0, h) && d == RunCore(c, es)
    requires d.cursor == n < |h.state.log| && OnTrack(d.aliases, n, h) && e == h.state.log[n] && all == es + [e]
    ensures AllGood(c, all, 0, h)
    ensures RunCore(c, all).cursor == n + 1 && OnTrack(RunCore(c, all).aliases, n + 1, h)
  {
    OnTrackNext(d.aliases, n, h);
    AllGoodLast(c, es, e, 0, h);
    assert all[..|es|] == es;
  }

  lemma NothingIsGood(c: Core, h: Host)
    requires OnTrack(c.aliases, c.cursor, h)
    ensures AllGood(c, [], 0, h)
  {
  }

  lemma OneMore(log: seq<Envelope>, c: nat, n: nat, before: seq<Envelope>, wire: seq<Envelope>)
    requires c < n <= |log| && before == log[c..n - 1] && wire == log[c..n]
    ensures wire == before + [log[n - 1]]
  {
  }

  lemma {:induction false} ReplayIsGood(c: Core, h: Host, n: nat, wire: seq<Envelope>)
    requires Numbered(h.state.log) && Live(h.state.log) && 0 < c.cursor <= n <= |h.state.log|
    requires OnTrack(c.aliases, c.cursor, h)
    requires wire == h.state.log[c.cursor..n]
    ensures AllGood(c, wire, 0, h) && RunCore(c, wire).cursor == n && OnTrack(RunCore(c, wire).aliases, n, h)
    decreases n
  {
    if n == c.cursor {
      assert wire == [];
      NothingIsGood(c, h);
    } else {
      var before, e := h.state.log[c.cursor..n - 1], h.state.log[n - 1];
      ReplayIsGood(c, h, n - 1, before);
      OneMore(h.state.log, c.cursor, n, before, wire);
      NextIsGood(c, before, e, wire, h, RunCore(c, before), n - 1);
    }
  }

  /** A snapshot resets, then only rebuilds: the cursor stays 0. */
  lemma {:induction false} SnapshotRuns(c: Core, es: seq<Envelope>, n: nat)
    requires es != [] && es[0].payload == SnapshotStart && 1 <= n <= |es|
    requires forall i :: 0 <= i < |es| ==> es[i].seqNo == 0
    ensures RunCore(c, es[..n]) == Core(Replay(c.aliases, es[..n]), 0)
  {
    assert es[..n][..n - 1] == es[..n - 1] && es[..n][n - 1] == es[n - 1];
    if n == 1 {
      assert es[..0] == [];
    } else {
      SnapshotRuns(c, es, n - 1);
    }
  }

  /** A snapshot whose strings were read when the log had reached position `at`, sent while the log from some
      position up to there is still queued: the cursor is reset, and the queue goes on from there. */
  lemma SnapshotIsGood(
      c: Core, least: nat, h: Host, snap: Snap, at: nat, queued: nat, emitted: nat, wire: seq<Envelope>)
    requires Good(c, least, h) && HostOk(h) && wire == EnvelopesOf(snap)
    requires queued <= emitted && emitted - queued <= at <= |h.state.log|
    requires StringCount(h.state.log[..at]) <= |h.state.table.strings|
    requires snap.strings == h.state.table.strings[..StringCount(h.state.log[..at])]
    requires ListsNet(Actual(h.state, h.leaving).net, snap)
    ensures AllGood(c, wire, least, h) && Ahead(RunCore(c, wire), queued, emitted, h)
  {
    SnapshotUnnumbered(snap);
    forall k | 0 <= k <= |wire|
      ensures Good(RunCore(c, wire[..k]), least, h)
    {
      if k > 0 {
        SnapshotRuns(c, wire, k);
      }
    }
    SnapshotRuns(c, wire, |wire|);
    assert wire[..|wire|] == wire;
    OverlapIsAbsorbed(h.state, h.leaving, at, emitted - queued, snap, c.aliases, Replay(c.aliases, wire));
  }

  // ---- Every step ----------------------------------------------------------------------------------------

  /** The queue reaches back at least to where the log stood when the snapshot's strings were read. */
  ghost predicate ReadingOk(r: Reading, queued: nat, emitted: nat, p: State) {
    && queued <= emitted && emitted - queued <= r.at <= |p.log|
    && r.strings == StringCount(p.log[..r.at]) <= |p.table.strings|
  }

  /** The collector stays resumable whatever prefix of the wire arrives, and the queue goes on from there. */
  ghost predicate Tracking(c: Core, link: Link, ring: nat, emitted: nat, h: Host) {
    && AllGood(c, link.wire, Least(ring, emitted), h)
    && (link.connected ==> Ahead(RunCore(c, link.wire), |link.queue|, emitted, h))
    && (link.reading.Some? ==> ReadingOk(link.reading.value, |link.queue|, emitted, h.state))
  }

  /** Every refused number lies below the head of the queue. */
  ghost predicate Clear(refused: set<nat>, queue: seq<Envelope>) {
    queue != [] ==> forall r :: r in refused ==> r < queue[0].seqNo
  }

  /** As long as nothing but `past` has been refused, the queue is clear of refusals and the collector on track. */
  ghost predicate Converging(ring: nat, past: set<nat>, s: System) {
    && past <= s.refused
    && (s.refused == past ==>
          && Clear(past, s.link.queue)
          && (Current(s) ==> Tracking(s.collector.core, s.link, ring, s.emitted, s.host)))
  }

  lemma {:induction false} QueueIsSuffix(
    queue: seq<Envelope>, log: seq<Envelope>, emitted: nat, refused: set<nat>, i: nat)
    requires QueueOk(queue, log, emitted, refused) && Clear(refused, queue) && i < |queue|
    ensures |queue| - i <= emitted && queue[i].seqNo == emitted - (|queue| - i) + 1
    decreases |queue| - i
  {
    if i > 0 {
      QueueIncreases(queue, log, emitted, refused, 0, i);
    }
    if i == |queue| - 1 {
      NoGap(queue[i].seqNo, emitted + 1, refused);
    } else {
      QueueIsSuffix(queue, log, emitted, refused, i + 1);
      NoGap(queue[i].seqNo, queue[i + 1].seqNo, refused);
    }
  }

  lemma QueueFits(queue: seq<Envelope>, log: seq<Envelope>, emitted: nat, refused: set<nat>)
    requires QueueOk(queue, log, emitted, refused) && Clear(refused, queue)
    ensures |queue| <= emitted <= |log| && (queue != [] ==> queue[0] == log[emitted - |queue|])
  {
    if queue != [] {
      QueueIsSuffix(queue, log, emitted, refused, 0);
    }
  }

  lemma ReadingGrows(r: Reading, queued: nat, emitted: nat, p: State, q: State)
    requires ReadingOk(r, queued, emitted, p) && p.log <= q.log && |p.table.strings| <= |q.table.strings|
    ensures ReadingOk(r, queued, emitted, q)
  {
    assert q.log[..r.at] == p.log[..r.at];
  }

  lemma StringsGrow(h: Host, now: Time, sec: Section, g: Host)
    requires g == Act(h, now, sec)
    ensures |h.state.table.strings| <= |g.state.table.strings|
  {
  }

  lemma WorkTracks(c: Core, link: Link, ring: nat, emitted: nat, h: Host, now: Time, sec: Section, g: Host)
    requires Tracking(c, link, ring, emitted, h) && HostOk(h) && CanRun(h, sec) && g == Act(h, now, sec)
    ensures Tracking(c, link, ring, emitted, g)
  {
    AllGoodGrows(c, link.wire, Least(ring, emitted), h, now, sec, g);
    if link.connected {
      SectionCarriesTrack(RunCore(c, link.wire).aliases, h, now, sec, g);
      AheadGrows(RunCore(c, link.wire), |link.queue|, emitted, h, g);
    }
    if link.reading.Some? {
      SectionKeepsHost(h, now, sec, g);
      StringsGrow(h, now, sec, g);
      ReadingGrows(link.reading.value, |link.queue|, emitted, h.state, g.state);
    }
  }

  lemma PumpTracks(c: Core, link: Link, ring: nat, emitted: nat, h: Host, e: Envelope, rest: seq<Envelope>)
    requires Tracking(c, link, ring, emitted, h) && link.connected && link.reading.None? && link.queue == [e] + rest
    requires emitted <= |h.state.log| && e == h.state.log[emitted - |link.queue|]
    requires Numbered(h.state.log) && Live(h.state.log)
    ensures Tracking(c, Link(rest, true, link.wire + [e], None), ring, emitted, h)
  {
    var d := RunCore(c, link.wire);
    PumpedIsGood(d, |link.queue|, emitted, h, e, ApplyCore(d, e));
    AllGoodLast(c, link.wire, e, Least(ring, emitted), h);
    assert (link.wire + [e])[..|link.wire|] == link.wire;
  }

  lemma StillGood(c: Core, es: seq<Envelope>, least: nat, h: Host)
    requires AllGood(c, es, least, h)
    ensures Good(c, least, h) && AllGood(c, [], least, h)
  {
    assert es[..0] == [];
  }

  lemma QuietTracks(c: Core, queue: seq<Envelope>, ring: nat, emitted: nat, h: Host)
    requires Good(c, Least(ring, emitted), h)
    ensures Tracking(c, Link(queue, false, [], None), ring, emitted, h)
  {
  }

  lemma ReplayTracks(c: Core, queue: seq<Envelope>, ring: nat, emitted: nat, h: Host)
    requires Good(c, Least(ring, emitted), h) && Numbered(h.state.log) && Live(h.state.log)
    requires 0 < c.cursor <= emitted <= |h.state.log| && emitted <= c.cursor + ring && |queue| <= emitted
    ensures Tracking(c, Link(queue, true, h.state.log[..emitted][c.cursor..], None), ring, emitted, h)
  {
    var wire := h.state.log[c.cursor..emitted];
    assert h.state.log[..emitted][c.cursor..] == wire;
    ReplayIsGood(c, h, emitted, wire);
    AllGoodFewer(c, wire, 0, Least(ring, emitted), h);
  }

  lemma ReadingStarts(p: State, queued: nat, emitted: nat)
    requires Told(p) && queued <= emitted <= |p.log|
    ensures ReadingOk(Reading(|p.table.strings|, |p.log|), queued, emitted, p)
  {
    assert p.log[..|p.log|] == p.log;
  }

  lemma AttachTracks(lim: Limits, s: System, c: Core)
    requires Inv(s) && Clear(s.refused, s.link.queue) && c.cursor <= s.emitted
    requires Replays(lim.ring, Log(s), c.cursor) ==> Good(c, Least(lim.ring, s.emitted), s.host)
    ensures Tracking(c, Catchup(lim.ring, s, c.cursor), lim.ring, s.emitted, s.host)
  {
    ProbeOkLive(s.host.state);
    QueueFits(s.link.queue, Saying(s), s.emitted, s.refused);
    ReplaysExactly(lim.ring, Log(s), c.cursor);
    if Replays(lim.ring, Log(s), c.cursor) {
      ReplayTracks(c, s.link.queue, lim.ring, s.emitted, s.host);
    } else {
      ReadingStarts(s.host.state, |s.link.queue|, s.emitted);
      QuietTracks(c, s.link.queue, lim.ring, s.emitted, s.host);
    }
  }

  lemma AttachConverges(lim: Limits, now: Time, past: set<nat>, s: System)
    requires Inv(s) && Converging(lim.ring, past, s) && Enabled(lim, s, Attach)
    ensures Converging(lim.ring, past, Next(lim, now, s, Attach))
  {
    if s.refused == past {
      var c := Greet(s.collector, s.boot).core;
      if Current(s) {
        StillGood(c, s.link.wire, Least(lim.ring, s.emitted), s.host);
      }
      AttachTracks(lim, s, c);
    }
  }

  lemma SnapshotConverges(lim: Limits, now: Time, past: set<nat>, s: System, snap: Snap)
    requires Inv(s) && Converging(lim.ring, past, s) && Enabled(lim, s, SendSnapshot(snap))
    ensures Converging(lim.ring, past, Next(lim, now, s, SendSnapshot(snap)))
  {
    if s.refused == past {
      var c, r, least := s.collector.core, s.link.reading.value, Least(lim.ring, s.emitted);
      StillGood(c, s.link.wire, least, s.host);
      SnapshotIsGood(c, least, s.host, snap, r.at, |s.link.queue|, s.emitted, EnvelopesOf(snap));
    }
  }

  lemma ClearRest(queue: seq<Envelope>, log: seq<Envelope>, emitted: nat, refused: set<nat>, rest: seq<Envelope>)
    requires QueueOk(queue, log, emitted, refused) && Clear(refused, queue) && queue != [] && rest == queue[1..]
    ensures Clear(refused, rest)
  {
    if rest != [] {
      assert Gap(queue[0].seqNo, queue[1].seqNo, refused);
    }
  }

  lemma QueuePumped(
      queue: seq<Envelope>, log: seq<Envelope>, emitted: nat, refused: set<nat>, e: Envelope, rest: seq<Envelope>)
    requires QueueOk(queue, log, emitted, refused) && Clear(refused, queue) && queue == [e] + rest
    ensures Clear(refused, rest) && |queue| <= emitted <= |log| && e == log[emitted - |queue|]
  {
    assert queue[0] == e && queue[1..] == rest;
    ClearRest(queue, log, emitted, refused, rest);
    QueueFits(queue, log, emitted, refused);
  }

  lemma PumpKeeps(
      c: Core, link: Link, ring: nat, emitted: nat, h: Host, refused: set<nat>, e: Envelope, rest: seq<Envelope>)
    requires QueueOk(link.queue, h.state.log, emitted, refused) && Numbered(h.state.log) && Live(h.state.log)
    requires Clear(refused, link.queue) && Tracking(c, link, ring, emitted, h)
    requires link.connected && link.reading.None? && link.queue == [e] + rest
    ensures Clear(refused, rest) && Tracking(c, Link(rest, true, link.wire + [e], None), ring, emitted, h)
  {
    QueuePumped(link.queue, h.state.log, emitted, refused, e, rest);
    PumpTracks(c, link, ring, emitted, h, e, rest);
  }

  lemma PumpConverges(ring: nat, past: set<nat>, s: System, e: Envelope, rest: seq<Envelope>)
    requires Orderly(s) && Numbered(Saying(s)) && Live(Saying(s)) && Converging(ring, past, s) && s.link.connected
    requires s.link.queue == [e] + rest
    ensures Converging(ring, past, s.(link := Link(rest, true, s.link.wire + [e], s.link.reading)))
  {
    if s.refused == past {
      PumpKeeps(s.collector.core, s.link, ring, s.emitted, s.host, past, e, rest);
    }
  }

  lemma DeliverConverges(ring: nat, past: set<nat>, s: System, e: Envelope, rest: seq<Envelope>)
    requires Converging(ring, past, s) && s.link.wire == [e] + rest
    ensures Converging(ring, past, s.(link := s.link.(wire := rest), collector := Receive(s.collector, e)))
  {
    if Current(s) && s.refused == past {
      var c := s.collector.core;
      AllGoodFront(c, e, rest, s.link.wire, ApplyCore(c, e), Least(ring, s.emitted), s.host);
    }
  }

  lemma WorkConverges(ring: nat, past: set<nat>, s: System, now: Time, sec: Section)
    requires Inv(s) && Converging(ring, past, s) && CanRun(s.host, sec)
    ensures Converging(ring, past, s.(host := Act(s.host, now, sec)))
  {
    if Current(s) && s.refused == past {
      WorkTracks(s.collector.core, s.link, ring, s.emitted, s.host, now, sec, Act(s.host, now, sec));
    }
  }

  lemma BreakConverges(ring: nat, past: set<nat>, s: System, queue: seq<Envelope>, kept: nat)
    requires Orderly(s) && Converging(ring, past, s) && kept <= |s.link.wire|
    requires queue == s.link.queue || (s.link.queue != [] && queue == s.link.queue[1..])
    ensures Converging(ring, past, s.(link := Link(queue, false, s.link.wire[..kept], None)))
  {
    if s.refused == past {
      if queue != s.link.queue {
        ClearRest(s.link.queue, Saying(s), s.emitted, s.refused, queue);
      }
      if Current(s) {
        AllGoodPrefix(s.collector.core, s.link.wire, kept, Least(ring, s.emitted), s.host);
      }
    }
  }

  lemma EmitTracks(c: Core, link: Link, ring: nat, emitted: nat, h: Host, e: Envelope)
    requires Tracking(c, link, ring, emitted, h)
    ensures Tracking(c, link.(queue := link.queue + [e]), ring, emitted + 1, h)
  {
    AllGoodFewer(c, link.wire, Least(ring, emitted), Least(ring, emitted + 1), h);
  }

  lemma ClearLast(queue: seq<Envelope>, log: seq<Envelope>, emitted: nat, refused: set<nat>, e: Envelope)
    requires QueueOk(queue, log, emitted, refused) && e.seqNo == emitted + 1
    ensures Clear(refused, queue) ==> Clear(refused, queue + [e])
  {
  }

  lemma QueuedConverges(ring: nat, past: set<nat>, s: System, e: Envelope, queue: seq<Envelope>)
    requires QueueOk(s.link.queue, Saying(s), s.emitted, s.refused) && Converging(ring, past, s)
    requires e.seqNo == s.emitted + 1 && queue == s.link.queue + [e]
    ensures Converging(ring, past, s.(emitted := s.emitted + 1, link := s.link.(queue := queue)))
  {
    ClearLast(s.link.queue, Saying(s), s.emitted, s.refused, e);
    if Current(s) && s.refused == past {
      EmitTracks(s.collector.core, s.link, ring, s.emitted, s.host, e);
    }
  }

  lemma RefusedConverges(ring: nat, past: set<nat>, s: System, more: set<nat>)
    requires QueueOk(s.link.queue, Saying(s), s.emitted, s.refused) && past <= s.refused
    requires more == s.refused + {s.emitted + 1}
    ensures Converging(ring, past, s.(emitted := s.emitted + 1, refused := more))
  {
    assert s.emitted + 1 in more && s.emitted + 1 !in s.refused;
  }

  lemma EmitConverges(lim: Limits, past: set<nat>, s: System, e: Envelope)
    requires QueueOk(s.link.queue, Saying(s), s.emitted, s.refused) && Converging(lim.ring, past, s)
    requires s.emitted < |Saying(s)| && e == Saying(s)[s.emitted] && e.seqNo == s.emitted + 1
    ensures Converging(lim.ring, past, Offer(lim, s))
  {
    if |s.link.queue| < lim.queue {
      QueuedConverges(lim.ring, past, s, e, s.link.queue + [e]);
    } else {
      RefusedConverges(lim.ring, past, s, s.refused + {e.seqNo});
    }
  }

  lemma RestartConverges(lim: Limits, now: Time, past: set<nat>, s: System, step: Step)
    requires Orderly(s) && Converging(lim.ring, past, s) && Enabled(lim, s, step)
    requires step.AttachFails? || (step.RestartProbe? && past == {}) || step.RestartCollector?
    ensures Converging(lim.ring, past, Next(lim, now, s, step))
  {
    if step.AttachFails? && Current(s) && s.refused == past {
      StillGood(s.collector.core, s.link.wire, Least(lim.ring, s.emitted), s.host);
      QuietTracks(s.collector.core, s.link.queue, lim.ring, s.emitted, s.host);
    }
    QuietTracks(BLANK, s.link.queue, lim.ring, s.emitted, s.host);
  }

  lemma ProbeConverges(lim: Limits, now: Time, past: set<nat>, s: System, step: Step)
    requires Inv(s) && Converging(lim.ring, past, s) && Enabled(lim, s, step) && (step.Work? || step.Emit?)
    ensures Converging(lim.ring, past, Next(lim, now, s, step))
  {
    ProbeOkLive(s.host.state);
    match step
    case Work(sec) => WorkConverges(lim.ring, past, s, now, sec);
    case Emit => EmitConverges(lim, past, s, Saying(s)[s.emitted]);
  }

  lemma TrafficConverges(lim: Limits, now: Time, past: set<nat>, s: System, step: Step)
    requires Orderly(s) && Numbered(Saying(s)) && Live(Saying(s)) && Converging(lim.ring, past, s)
    requires Enabled(lim, s, step)
    requires step.Pump? || step.PumpFails? || step.Deliver? || step.Drop?
    ensures Converging(lim.ring, past, Next(lim, now, s, step))
  {
    match step
    case Pump => PumpConverges(lim.ring, past, s, s.link.queue[0], s.link.queue[1..]);
    case PumpFails(kept) => BreakConverges(lim.ring, past, s, s.link.queue[1..], kept);
    case Deliver => DeliverConverges(lim.ring, past, s, s.link.wire[0], s.link.wire[1..]);
    case Drop(kept) => BreakConverges(lim.ring, past, s, s.link.queue, kept);
  }

  lemma AttemptConverges(lim: Limits, now: Time, past: set<nat>, s: System, step: Step)
    requires Inv(s) && Converging(lim.ring, past, s) && Enabled(lim, s, step) && (step.Attach? || step.SendSnapshot?)
    ensures Converging(lim.ring, past, Next(lim, now, s, step))
  {
    match step
    case Attach => AttachConverges(lim, now, past, s);
    case SendSnapshot(snap) => SnapshotConverges(lim, now, past, s, snap);
  }

  /** Every step of the boot, and its end if it began without refusals, keeps the collector on track. */
  lemma StepConverges(lim: Limits, now: Time, past: set<nat>, s: System, step: Step, t: System)
    requires Inv(s) && Converging(lim.ring, past, s) && Enabled(lim, s, step) && t == Next(lim, now, s, step)
    requires step.RestartProbe? ==> past == {}
    ensures Converging(lim.ring, past, t)
  {
    ProbeOkLive(s.host.state);
    if step.Work? || step.Emit? {
      ProbeConverges(lim, now, past, s, step);
    } else if step.Pump? || step.PumpFails? || step.Deliver? || step.Drop? {
      TrafficConverges(lim, now, past, s, step);
    } else if step.Attach? || step.SendSnapshot? {
      AttemptConverges(lim, now, past, s, step);
    } else {
      RestartConverges(lim, now, past, s, step);
    }
  }

  lemma {:induction false} EveryRunConverges(lim: Limits, now: Time, s: System, steps: seq<Step>)
    requires Reachable(lim, now, s, steps)
    ensures Inv(s) && Converging(lim.ring, {}, s)
    decreases |steps|
  {
    EveryRunKeepsInv(lim, now, s, steps);
    if steps != [] {
      var n := |steps| - 1;
      var before :|
        && Reachable(lim, now, before, steps[..n]) && Enabled(lim, before, steps[n])
        && s == Next(lim, now, before, steps[n]);
      EveryRunConverges(lim, now, before, steps[..n]);
      StepConverges(lim, now, {}, before, steps[n], s);
    }
  }

  lemma LastStep(lim: Limits, now: Time, s: System, steps: seq<Step>, more: seq<Step>) returns (before: System)
    requires Reachable(lim, now, s, steps + more) && more != []
    ensures var n := |more| - 1;
      && Reachable(lim, now, before, steps + more[..n]) && Enabled(lim, before, more[n])
      && s == Next(lim, now, before, more[n])
  {
    var all := steps + more;
    assert all[..|all| - 1] == steps + more[..|more| - 1] && all[|all| - 1] == more[|more| - 1];
    before :|
      && Reachable(lim, now, before, all[..|all| - 1]) && Enabled(lim, before, all[|all| - 1])
      && s == Next(lim, now, before, all[|all| - 1]);
  }

  lemma BootsGrow(lim: Limits, now: Time, s: System, step: Step)
    requires Enabled(lim, s, step)
    ensures s.boot <= Next(lim, now, s, step).boot
    ensures Next(lim, now, s, step).boot == s.boot <==> !step.RestartProbe?
  {
  }

  /** Once the collector is on track, every continuation within the boot keeps it there. */
  lemma {:induction false} ContinuationConverges(
      lim: Limits, now: Time, past: set<nat>, a: System, steps: seq<Step>, s: System, more: seq<Step>)
    requires Reachable(lim, now, a, steps) && Converging(lim.ring, past, a)
    requires Reachable(lim, now, s, steps + more)
    ensures Inv(s) && a.boot <= s.boot && (s.boot == a.boot ==> Converging(lim.ring, past, s))
    decreases |more|
  {
    EveryRunKeepsInv(lim, now, s, steps + more);
    if more == [] {
      assert steps + more == steps;
      SameStepsSameState(lim, now, a, s, steps);
    } else {
      var n := |more| - 1;
      var before := LastStep(lim, now, s, steps, more);
      ContinuationConverges(lim, now, past, a, steps, before, more[..n]);
      BootsGrow(lim, now, before, more[n]);
      if s.boot == a.boot {
        StepConverges(lim, now, past, before, more[n], s);
      }
    }
  }

  /** No disconnect is half done, and everything said has been emitted and applied: by sequence number, or because
      a connected collector has drained wire and queue after a snapshot. */
  predicate CaughtUp(s: System) {
    && Current(s) && s.host.leaving.None? && s.emitted == |Saying(s)|
    && (0 < s.collector.core.cursor == |Saying(s)| || (s.link.connected && s.link.queue == [] && s.link.wire == []))
  }

  /** In every run of locked sections, emissions, pumps, deliveries, broken connections, failed handshakes, replays,
      snapshots and restarts in which this boot's queue has refused nothing, a collector that has caught up shows the
      same strings, stream protocols, connections and peers as one that applied the boot's whole log in order. */
  lemma CaughtUpMirrorsLog(lim: Limits, now: Time, s: System, steps: seq<Step>)
    requires Reachable(lim, now, s, steps) && s.refused == {} && CaughtUp(s)
    ensures Matches(s.collector.core.aliases, s.host.state)
    ensures ViewOf(s.collector.core.aliases) == ViewOf(Replay(NO_ALIASES, Saying(s)))
  {
    EveryRunConverges(lim, now, s, steps);
    CaughtUpMatches(lim.ring, s);
    MirrorsLookAlike(s.collector.core.aliases, Replay(NO_ALIASES, Saying(s)), s.host.state);
  }

  lemma CaughtUpMatches(ring: nat, s: System)
    requires Inv(s) && Converging(ring, s.refused, s) && CaughtUp(s)
    ensures Matches(s.collector.core.aliases, s.host.state)
  {
    var c, h := s.collector.core, s.host;
    StillGood(c, s.link.wire, Least(ring, s.emitted), h);
    if c.cursor > 0 {
      OnTrackEnd(c.aliases, h);
    } else {
      assert RunCore(c, s.link.wire) == c;
      OnTrackEnd(c.aliases, h);
    }
  }

  /** A catch-up that finds the ring rolled past the cursor reads the strings of a snapshot. If by then only numbers
      below the head of the queue have been refused, the collector is on track from here on. */
  lemma ReadingConverges(lim: Limits, now: Time, s: System, t: System)
    requires Inv(s) && Enabled(lim, s, Attach) && t == Next(lim, now, s, Attach) && t.link.reading.Some?
    requires Clear(s.refused, s.link.queue)
    ensures Converging(lim.ring, s.refused, t)
  {
    AttachTracks(lim, s, Greet(s.collector, s.boot).core);
  }

  /** A snapshot makes up for what was refused before it: in every run, if all numbers this boot's queue has refused
      lay below its head when some snapshot's strings were read, a collector that has caught up since then shows what
      applying the boot's whole log in order would show. */
  lemma SnapshotMakesUp(
      lim: Limits, now: Time, a: System, steps: seq<Step>, s: System, more: seq<Step>)
    requires Reachable(lim, now, a, steps) && Enabled(lim, a, Attach) && Next(lim, now, a, Attach).link.reading.Some?
    requires Clear(a.refused, a.link.queue)
    requires Reachable(lim, now, s, (steps + [Attach]) + more) && s.boot == a.boot && s.refused == a.refused
    requires CaughtUp(s)
    ensures Matches(s.collector.core.aliases, s.host.state)
    ensures ViewOf(s.collector.core.aliases) == ViewOf(Replay(NO_ALIASES, Saying(s)))
  {
    var b, all := Next(lim, now, a, Attach), steps + [Attach];
    EveryRunKeepsInv(lim, now, a, steps);
    ReadingConverges(lim, now, a, b);
    assert all[..|all| - 1] == steps && all[|all| - 1] == Attach;
    ContinuationConverges(lim, now, a.refused, b, all, s, more);
    CaughtUpMatches(lim.ring, s);
    MirrorsLookAlike(s.collector.core.aliases, Replay(NO_ALIASES, Saying(s)), s.host.state);
  }
}
