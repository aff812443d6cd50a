/** What the collector remembers of everything it ever applied, over all runs and whatever the queue refuses. */
module Remembered {
  import opened Basics
  import opened Envelopes
  import opened Probe
  import opened Snapshot
  import opened Sections
  import opened Resume
  import opened Delivery

  /** Whatever is numbered in flight is the envelope of the log with that number. */
  ghost predicate FromLog(wire: seq<Envelope>, log: seq<Envelope>) {
    forall i :: 0 <= i < |wire| && wire[i].seqNo > 0 ==> wire[i].seqNo <= |log| && wire[i] == log[wire[i].seqNo - 1]
  }

  /** The number was applied, or is among the first n in flight. */
  ghost predicate Known(ever: seq<nat>, wire: seq<Envelope>, n: nat, k: nat) {
    k in ever || exists j :: 0 <= j < n <= |wire| && wire[j].seqNo == k
  }

  /** Nothing above k was applied, nor will be by what is in flight, before k itself. */
  ghost predicate Accounted(ever: seq<nat>, wire: seq<Envelope>, k: nat) {
    && (forall m :: m in ever && k <= m ==> k in ever)
    && (forall n :: 0 <= n < |wire| && k <= wire[n].seqNo ==> Known(ever, wire, n + 1, k))
  }

  ghost predicate AllAccounted(ever: seq<nat>, wire: seq<Envelope>, queue: seq<Envelope>) {
    forall i :: 0 <= i < |queue| ==> Accounted(ever, wire, queue[i].seqNo)
  }

  /** The ring has rolled past everything that was applied and lies above the cursor. */
  ghost predicate Rolled(ring: nat, ever: seq<nat>, cursor: nat, emitted: nat) {
    forall m :: m in ever && m > cursor ==> m + ring < emitted
  }

  /** A snapshot that is being read or on its way finds the ring rolled past everything that was applied. */
  ghost predicate Starts(ring: nat, ever: seq<nat>, link: Link, emitted: nat) {
    && (link.reading.Some? ==> Rolled(ring, ever, 0, emitted))
    && (forall i :: 0 <= i < |link.wire| && link.wire[i].payload.SnapshotStart? ==>
          i == 0 && Rolled(ring, ever, 0, emitted))
  }

  ghost predicate Within(ever: seq<nat>, emitted: nat) {
    forall m :: m in ever ==> m <= emitted
  }

  ghost predicate Kept(ring: nat, cursor: nat, ever: seq<nat>, link: Link, log: seq<Envelope>, emitted: nat) {
    && FromLog(link.wire, log)
    && Within(ever, emitted)
    && AllAccounted(ever, link.wire, link.queue)
    && Rolled(ring, ever, cursor, emitted)
    && Starts(ring, ever, link, emitted)
  }

  ghost predicate Remembers(ring: nat, s: System) {
    Current(s) ==> Kept(ring, s.collector.core.cursor, s.collector.ever, s.link, Saying(s), s.emitted)
  }

  // ---- One number ------------------------------------------------------------------------------------------

  lemma AccountedFront(c: Collector, e: Envelope, rest: seq<Envelope>, wire: seq<Envelope>, k: nat)
    requires Accounted(c.ever, wire, k) && wire == [e] + rest && k > 0 && Latest(c.ever, c.core.cursor)
    requires e.seqNo > 0 ==> !e.payload.SnapshotStart? && !e.payload.SnapshotEnd?
    ensures Accounted(Receive(c, e).ever, rest, k)
  {
    var ever := Receive(c, e).ever;
    assert wire[0] == e;
    assert k <= e.seqNo ==> Known(c.ever, wire, 1, k);
    if e.seqNo == k {
      assert ever == c.ever + [k] || c.core.cursor in c.ever;
      assert k in ever;
    }
    forall n | 0 <= n < |rest| && k <= rest[n].seqNo
      ensures Known(ever, rest, n + 1, k)
    {
      assert wire[n + 1] == rest[n] && Known(c.ever, wire, n + 2, k);
      if k !in ever {
        var j :| 0 <= j < n + 2 <= |wire| && wire[j].seqNo == k;
        assert rest[j - 1].seqNo == k;
      }
    }
  }

  lemma AccountedLast(ever: seq<nat>, wire: seq<Envelope>, e: Envelope, k: nat)
    requires Accounted(ever, wire, k) && e.seqNo < k
    ensures Accounted(ever, wire + [e], k)
  {
    var all := wire + [e];
    forall n | 0 <= n < |all| && k <= all[n].seqNo
      ensures Known(ever, all, n + 1, k)
    {
      assert all[n] == wire[n] && Known(ever, wire, n + 1, k);
      if k !in ever {
        var j :| 0 <= j < n + 1 <= |wire| && wire[j].seqNo == k;
        assert all[j].seqNo == k;
      }
    }
  }

  lemma AccountedPrefix(ever: seq<nat>, wire: seq<Envelope>, kept: nat, k: nat)
    requires Accounted(ever, wire, k) && kept <= |wire|
    ensures Accounted(ever, wire[..kept], k)
  {
    var part := wire[..kept];
    forall n | 0 <= n < kept && k <= part[n].seqNo
      ensures Known(ever, part, n + 1, k)
    {
      assert part[n] == wire[n] && Known(ever, wire, n + 1, k);
      if k !in ever {
        var j :| 0 <= j < n + 1 <= |wire| && wire[j].seqNo == k;
        assert part[j].seqNo == k;
      }
    }
  }

  lemma AccountedReplay(ever: seq<nat>, log: seq<Envelope>, cursor: nat, wire: seq<Envelope>, k: nat)
    requires Numbered(log) && cursor <= |log| && wire == log[cursor..] && cursor in ever
    requires forall m :: m in ever && k <= m ==> k in ever
    ensures Accounted(ever, wire, k)
  {
    assert forall i :: 0 <= i < |wire| ==> wire[i].seqNo == cursor + i + 1;
    forall n | 0 <= n < |wire| && k <= wire[n].seqNo
      ensures Known(ever, wire, n + 1, k)
    {
      if k > cursor {
        assert wire[k - cursor - 1].seqNo == k;
      }
    }
  }

  // ---- Every step ------------------------------------------------------------------------------------------

  lemma DeliverKeeps(
      ring: nat, c: Collector, link: Link, log: seq<Envelope>, emitted: nat, e: Envelope, rest: seq<Envelope>)
    requires Kept(ring, c.core.cursor, c.ever, link, log, emitted) && link.wire == [e] + rest && link.reading.None?
    requires Latest(c.ever, c.core.cursor) && e.seqNo <= emitted && Live(log)
    requires forall i :: 0 <= i < |link.queue| ==> link.queue[i].seqNo > 0
    ensures Kept(ring, Receive(c, e).core.cursor, Receive(c, e).ever, link.(wire := rest), log, emitted)
  {
    var ever := Receive(c, e).ever;
    assert link.wire[0] == e;
    assert forall i :: 0 <= i < |rest| ==> rest[i] == link.wire[i + 1];
    forall i | 0 <= i < |link.queue|
      ensures Accounted(ever, rest, link.queue[i].seqNo)
    {
      AccountedFront(c, e, rest, link.wire, link.queue[i].seqNo);
    }
  }

  lemma AllPrefix(ever: seq<nat>, wire: seq<Envelope>, kept: nat, queue: seq<Envelope>, rest: seq<Envelope>)
    requires AllAccounted(ever, wire, queue) && kept <= |wire| && forall e :: e in rest ==> e in queue
    ensures AllAccounted(ever, wire[..kept], rest)
  {
    forall i | 0 <= i < |rest|
      ensures Accounted(ever, wire[..kept], rest[i].seqNo)
    {
      assert rest[i] in queue;
      AccountedPrefix(ever, wire, kept, rest[i].seqNo);
    }
  }

  lemma BreakKeeps(
      ring: nat, cursor: nat, ever: seq<nat>, link: Link, log: seq<Envelope>, emitted: nat, queue: seq<Envelope>,
      kept: nat)
    requires Kept(ring, cursor, ever, link, log, emitted) && kept <= |link.wire|
    requires forall e :: e in queue ==> e in link.queue
    ensures Kept(ring, cursor, ever, Link(queue, false, link.wire[..kept], None), log, emitted)
  {
    AllPrefix(ever, link.wire, kept, link.queue, queue);
  }

  lemma AllLast(ever: seq<nat>, wire: seq<Envelope>, queue: seq<Envelope>, e: Envelope, rest: seq<Envelope>)
    requires AllAccounted(ever, wire, queue) && queue == [e] + rest
    requires forall i :: 0 < i < |queue| ==> e.seqNo < queue[i].seqNo
    ensures AllAccounted(ever, wire + [e], rest)
  {
    forall i | 0 <= i < |rest|
      ensures Accounted(ever, wire + [e], rest[i].seqNo)
    {
      assert rest[i] == queue[i + 1];
      AccountedLast(ever, wire, e, rest[i].seqNo);
    }
  }

  lemma PumpKeeps(
      ring: nat, cursor: nat, ever: seq<nat>, link: Link, log: seq<Envelope>, emitted: nat, refused: set<nat>,
      e: Envelope, rest: seq<Envelope>)
    requires Kept(ring, cursor, ever, link, log, emitted) && QueueOk(link.queue, log, emitted, refused) && Live(log)
    requires link.queue == [e] + rest
    ensures Kept(ring, cursor, ever, Link(rest, true, link.wire + [e], link.reading), log, emitted)
  {
    assert link.queue[0] == e && e == log[e.seqNo - 1];
    forall i | 0 < i < |link.queue|
      ensures e.seqNo < link.queue[i].seqNo
    {
      QueueIncreases(link.queue, log, emitted, refused, 0, i);
    }
    AllLast(ever, link.wire, link.queue, e, rest);
  }

  lemma EmitKeeps(ring: nat, cursor: nat, ever: seq<nat>, link: Link, log: seq<Envelope>, emitted: nat, e: Envelope)
    requires Kept(ring, cursor, ever, link, log, emitted) && e.seqNo == emitted + 1
    requires forall i :: 0 <= i < |link.wire| ==> link.wire[i].seqNo <= emitted
    ensures Kept(ring, cursor, ever, link, log, emitted + 1)
    ensures Kept(ring, cursor, ever, link.(queue := link.queue + [e]), log, emitted + 1)
  {
    assert Accounted(ever, link.wire, e.seqNo);
  }

  lemma AllReplay(ever: seq<nat>, queue: seq<Envelope>, log: seq<Envelope>, cursor: nat, wire: seq<Envelope>)
    requires AllAccounted(ever, [], queue) && Numbered(log) && cursor <= |log| && wire == log[cursor..]
    requires cursor in ever
    ensures AllAccounted(ever, wire, queue)
  {
    forall i | 0 <= i < |queue|
      ensures Accounted(ever, wire, queue[i].seqNo)
    {
      AccountedReplay(ever, log, cursor, wire, queue[i].seqNo);
    }
  }

  lemma ReplayKeeps(
      ring: nat, cursor: nat, ever: seq<nat>, queue: seq<Envelope>, log: seq<Envelope>, emitted: nat,
      wire: seq<Envelope>)
    requires Kept(ring, cursor, ever, Link(queue, false, [], None), log, emitted) && Numbered(log) && Live(log)
    requires emitted <= |log| && cursor <= emitted && wire == log[..emitted][cursor..] && cursor in ever
    ensures Kept(ring, cursor, ever, Link(queue, true, wire, None), log, emitted)
  {
    assert forall i :: 0 <= i < |wire| ==> wire[i] == log[cursor + i];
    AllReplay(ever, queue, log[..emitted], cursor, wire);
  }

  /** A snapshot is due only when everything that was applied has left the ring. */
  lemma ReadingKeeps(
      ring: nat, cursor: nat, ever: seq<nat>, queue: seq<Envelope>, log: seq<Envelope>, emitted: nat, r: Reading)
    requires Kept(ring, cursor, ever, Link(queue, false, [], None), log, emitted)
    requires cursor > 0 ==> cursor + ring < emitted
    ensures Kept(ring, cursor, ever, Link(queue, false, [], Some(r)), log, emitted)
  {
  }

  lemma CatchupKeeps(ring: nat, s: System, cursor: nat, ever: seq<nat>)
    requires Kept(ring, cursor, ever, Link(s.link.queue, false, [], None), Saying(s), s.emitted)
    requires Numbered(Saying(s)) && Live(Saying(s)) && Latest(ever, cursor) && cursor <= s.emitted <= |Saying(s)|
    ensures Kept(ring, cursor, ever, Catchup(ring, s, cursor), Saying(s), s.emitted)
  {
    ReplaysExactly(ring, Log(s), cursor);
    var link := Catchup(ring, s, cursor);
    if Replays(ring, Log(s), cursor) {
      ReplayKeeps(ring, cursor, ever, s.link.queue, Saying(s), s.emitted, link.wire);
    } else {
      ReadingKeeps(ring, cursor, ever, s.link.queue, Saying(s), s.emitted, link.reading.value);
    }
  }

  lemma SnapshotKeeps(
      ring: nat, cursor: nat, ever: seq<nat>, link: Link, log: seq<Envelope>, emitted: nat, wire: seq<Envelope>)
    requires Kept(ring, cursor, ever, link, log, emitted) && link.reading.Some? && link.wire == []
    requires forall i :: 0 <= i < |wire| ==> wire[i].seqNo == 0
    requires forall i :: 0 < i < |wire| ==> !wire[i].payload.SnapshotStart?
    requires forall i :: 0 <= i < |link.queue| ==> link.queue[i].seqNo > 0
    ensures Kept(ring, cursor, ever, Link(link.queue, true, wire, None), log, emitted)
  {
    forall i | 0 <= i < |link.queue|
      ensures Accounted(ever, wire, link.queue[i].seqNo)
    {
      assert Accounted(ever, link.wire, link.queue[i].seqNo);
    }
  }

  lemma OneStart(snap: Snap)
    ensures forall i :: 0 < i < |EnvelopesOf(snap)| ==> !EnvelopesOf(snap)[i].payload.SnapshotStart?
  {
  }

  lemma AttachRemembers(lim: Limits, now: Time, s: System)
    requires Remembers(lim.ring, s) && Orderly(s) && Enabled(lim, s, Attach)
    requires Numbered(Saying(s)) && Live(Saying(s))
    ensures Remembers(lim.ring, Next(lim, now, s, Attach))
  {
    var c := Greet(s.collector, s.boot);
    if Current(s) {
      assert s.link.wire[..0] == [];
      BreakKeeps(lim.ring, c.core.cursor, c.ever, s.link, Saying(s), s.emitted, s.link.queue, 0);
    }
    CatchupKeeps(lim.ring, s, c.core.cursor, c.ever);
  }

  lemma SnapshotRemembers(lim: Limits, now: Time, s: System, snap: Snap)
    requires Remembers(lim.ring, s) && Orderly(s) && Enabled(lim, s, SendSnapshot(snap))
    ensures Remembers(lim.ring, Next(lim, now, s, SendSnapshot(snap)))
  {
    var c := s.collector;
    SnapshotUnnumbered(snap);
    OneStart(snap);
    SnapshotKeeps(lim.ring, c.core.cursor, c.ever, s.link, Saying(s), s.emitted, EnvelopesOf(snap));
  }

  lemma BreakRemembers(ring: nat, s: System, queue: seq<Envelope>, kept: nat)
    requires Remembers(ring, s) && kept <= |s.link.wire| && forall e :: e in queue ==> e in s.link.queue
    ensures Remembers(ring, s.(link := Link(queue, false, s.link.wire[..kept], None)))
  {
    if Current(s) {
      var c := s.collector;
      BreakKeeps(ring, c.core.cursor, c.ever, s.link, Saying(s), s.emitted, queue, kept);
    }
  }

  lemma EmitRemembers(lim: Limits, s: System, e: Envelope)
    requires Remembers(lim.ring, s) && Orderly(s) && s.emitted < |Saying(s)| && e == Saying(s)[s.emitted]
    requires e.seqNo == s.emitted + 1
    ensures Remembers(lim.ring, Offer(lim, s))
  {
    if Current(s) {
      EmitKeeps(lim.ring, s.collector.core.cursor, s.collector.ever, s.link, Saying(s), s.emitted, e);
    }
  }

  lemma TrafficRemembers(lim: Limits, now: Time, s: System, step: Step)
    requires Remembers(lim.ring, s) && Orderly(s) && Enabled(lim, s, step) && Live(Saying(s))
    requires step.Pump? || step.PumpFails? || step.Deliver? || step.Drop?
    ensures Remembers(lim.ring, Next(lim, now, s, step))
  {
    var c, l, log := s.collector, s.link, Saying(s);
    match step
    case Pump =>
      PumpKeeps(lim.ring, c.core.cursor, c.ever, l, log, s.emitted, s.refused, l.queue[0], l.queue[1..]);
    case PumpFails(kept) => BreakRemembers(lim.ring, s, l.queue[1..], kept);
    case Deliver =>
      if Current(s) {
        DeliverKeeps(lim.ring, c, l, log, s.emitted, l.wire[0], l.wire[1..]);
      }
    case Drop(kept) => BreakRemembers(lim.ring, s, l.queue, kept);
  }

  lemma RestartRemembers(lim: Limits, now: Time, s: System, step: Step)
    requires Remembers(lim.ring, s) && Orderly(s) && Enabled(lim, s, step)
    requires step.AttachFails? || step.RestartProbe? || step.RestartCollector?
    ensures Remembers(lim.ring, Next(lim, now, s, step))
  {
    if step.AttachFails? {
      BreakRemembers(lim.ring, s, s.link.queue, 0);
      assert s.link.wire[..0] == [];
    }
  }

  lemma StepRemembers(lim: Limits, now: Time, s: System, step: Step)
    requires Remembers(lim.ring, s) && Orderly(s) && Enabled(lim, s, step)
    requires Numbered(Saying(s)) && Live(Saying(s))
    requires step.Work? ==> Saying(s) <= Act(s.host, now, step.sec).state.log
    ensures Remembers(lim.ring, Next(lim, now, s, step))
  {
    match step
    case Work(_) =>
    case Emit => EmitRemembers(lim, s, Saying(s)[s.emitted]);
    case Attach => AttachRemembers(lim, now, s);
    case SendSnapshot(snap) => SnapshotRemembers(lim, now, s, snap);
    case AttachFails => RestartRemembers(lim, now, s, step);
    case RestartProbe(_) => RestartRemembers(lim, now, s, step);
    case RestartCollector(_) => RestartRemembers(lim, now, s, step);
    case _ => TrafficRemembers(lim, now, s, step);
  }

  lemma {:induction false} EveryRunRemembers(lim: Limits, now: Time, s: System, steps: seq<Step>)
    requires Reachable(lim, now, s, steps)
    ensures Remembers(lim.ring, s)
    decreases |steps|
  {
    if steps == [] {
      assert !Current(s);
    } else {
      var n := |steps| - 1;
      var before :|
        && Reachable(lim, now, before, steps[..n]) && Enabled(lim, before, steps[n])
        && s == Next(lim, now, before, steps[n]);
      EveryRunRemembers(lim, now, before, steps[..n]);
      EveryRunKeepsInv(lim, now, before, steps[..n]);
      ProbeOkLive(before.host.state);
      StepKeepsHost(lim, now, before, steps[n]);
      StepRemembers(lim, now, before, steps[n]);
    }
  }

  /** In every run, whatever was refused: a queued number at or below one that was ever applied was applied itself. */
  lemma PassedWasApplied(lim: Limits, now: Time, s: System, steps: seq<Step>, i: nat, m: nat)
    requires Reachable(lim, now, s, steps) && Current(s) && i < |s.link.queue| && m in s.collector.ever
    ensures s.link.queue[i].seqNo <= m ==> s.link.queue[i].seqNo in s.collector.ever
  {
    EveryRunRemembers(lim, now, s, steps);
    assert Accounted(s.collector.ever, s.link.wire, s.link.queue[i].seqNo);
  }

  /** In every run: what was ever applied and lies above the cursor, because a snapshot has reset it since, has left
      the ring. */
  lemma AboveCursorRolledOut(lim: Limits, now: Time, s: System, steps: seq<Step>, m: nat)
    requires Reachable(lim, now, s, steps) && Current(s) && m in s.collector.ever && m > s.collector.core.cursor
    ensures m + lim.ring < s.emitted
  {
    EveryRunRemembers(lim, now, s, steps);
  }
}
