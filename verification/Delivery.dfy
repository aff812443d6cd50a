/** What the resume protocol guarantees about sequence numbers: increasing, and without holes but for refusals. */
module Delivery {
  import opened Basics
  import opened Envelopes
  import opened Probe
  import opened Snapshot
  import opened Overlap
  import opened Sections
  import opened Resume

  /** b comes after a, and everything in between was refused. */
  ghost predicate Gap(a: nat, b: nat, refused: set<nat>) {
    a < b && forall k :: a < k < b ==> k in refused
  }

  /** The cursor after one envelope. */
  function NextCursor(c: nat, e: Envelope): nat {
    if e.payload.SnapshotStart? then 0
    else if e.payload.SnapshotEnd? || e.seqNo <= c then c
    else e.seqNo
  }

  function End(c: nat, es: seq<Envelope>): nat {
    if es == [] then c else NextCursor(End(c, es[..|es| - 1]), es[|es| - 1])
  }

  /** The envelope is skipped, or follows the cursor without losing anything that was not refused. */
  ghost predicate Fits(c: nat, e: Envelope, refused: set<nat>) {
    c == 0 || NextCursor(c, e) <= c || Gap(c, e.seqNo, refused)
  }

  ghost predicate Covered(c: nat, es: seq<Envelope>, refused: set<nat>) {
    forall k :: 0 <= k < |es| ==> Fits(End(c, es[..k]), es[k], refused)
  }

  /** Nothing after the last applied envelope is missing that was not refused. */
  ghost predicate Complete(c: nat, emitted: nat, refused: set<nat>) {
    c == 0 || Gap(c, emitted + 1, refused)
  }

  lemma EndLast(c: nat, es: seq<Envelope>, e: Envelope)
    ensures End(c, es + [e]) == NextCursor(End(c, es), e)
  {
  }

  lemma {:induction false} EndAppend(c: nat, es: seq<Envelope>, fs: seq<Envelope>)
    ensures End(c, es + fs) == End(End(c, es), fs)
    decreases |fs|
  {
    if fs == [] {
      assert es + fs == es;
    } else {
      var all := es + fs;
      assert all[..|all| - 1] == es + fs[..|fs| - 1];
      EndAppend(c, es, fs[..|fs| - 1]);
    }
  }

  lemma CoveredLast(c: nat, es: seq<Envelope>, e: Envelope, refused: set<nat>)
    requires Covered(c, es, refused) && Fits(End(c, es), e, refused)
    ensures Covered(c, es + [e], refused)
  {
    var all := es + [e];
    forall k | 0 <= k < |all|
      ensures Fits(End(c, all[..k]), all[k], refused)
    {
      assert all[..k] == if k < |es| then es[..k] else es;
    }
  }

  lemma CoveredPrefix(c: nat, es: seq<Envelope>, n: nat, refused: set<nat>)
    requires n <= |es| && Covered(c, es, refused)
    ensures Covered(c, es[..n], refused)
  {
    forall k | 0 <= k < n
      ensures Fits(End(c, es[..n][..k]), es[..n][k], refused)
    {
      assert es[..n][..k] == es[..k];
    }
  }

  lemma CoveredFront(c: nat, es: seq<Envelope>, refused: set<nat>)
    requires es != [] && Covered(c, es, refused)
    ensures Fits(c, es[0], refused) && Covered(NextCursor(c, es[0]), es[1..], refused)
    ensures End(c, es) == End(NextCursor(c, es[0]), es[1..])
  {
    var d, rest := NextCursor(c, es[0]), es[1..];
    assert Fits(End(c, es[..0]), es[0], refused) && es[..0] == [];
    assert [es[0]][..0] == [];
    forall k | 0 <= k < |rest|
      ensures Fits(End(d, rest[..k]), rest[k], refused)
    {
      assert es[..k + 1] == [es[0]] + rest[..k];
      EndAppend(c, [es[0]], rest[..k]);
      assert Fits(End(c, es[..k + 1]), es[k + 1], refused);
    }
    assert es == [es[0]] + rest;
    EndAppend(c, [es[0]], rest);
  }

  // ---- The queue -----------------------------------------------------------------------------------------

  /** The queue holds envelopes of the log in order; all others from its head on were refused, and no envelope was
      refused before it was emitted. */
  ghost predicate QueueOk(queue: seq<Envelope>, log: seq<Envelope>, emitted: nat, refused: set<nat>) {
    && emitted <= |log|
    && (forall i :: 0 <= i < |queue| ==> 1 <= queue[i].seqNo <= emitted && queue[i] == log[queue[i].seqNo - 1])
    && (forall i :: 0 < i < |queue| ==> Gap(queue[i - 1].seqNo, queue[i].seqNo, refused))
    && (queue != [] ==> Gap(queue[|queue| - 1].seqNo, emitted + 1, refused))
    && (forall r :: r in refused ==> r <= emitted)
  }

  lemma {:induction false} QueueIncreases(
      queue: seq<Envelope>, log: seq<Envelope>, emitted: nat, refused: set<nat>, i: nat, j: nat)
    requires QueueOk(queue, log, emitted, refused) && i < j < |queue|
    ensures queue[i].seqNo < queue[j].seqNo
    decreases j - i
  {
    assert Gap(queue[j - 1].seqNo, queue[j].seqNo, refused);
    if i < j - 1 {
      QueueIncreases(queue, log, emitted, refused, i, j - 1);
    }
  }

  /** Log envelopes carry no snapshot markers. */
  ghost predicate Live(log: seq<Envelope>) {
    forall i :: 0 <= i < |log| ==> !log[i].payload.SnapshotStart? && !log[i].payload.SnapshotEnd?
  }

  /** A queue read from a fresh cursor is covered. */
  lemma {:induction false} QueueCovered(
      queue: seq<Envelope>, log: seq<Envelope>, emitted: nat, refused: set<nat>, n: nat)
    requires QueueOk(queue, log, emitted, refused) && Live(log) && n <= |queue|
    ensures Covered(0, queue[..n], refused)
    ensures End(0, queue[..n]) == if n == 0 then 0 else queue[n - 1].seqNo
  {
    if n > 0 {
      QueueCovered(queue, log, emitted, refused, n - 1);
      assert queue[..n] == queue[..n - 1] + [queue[n - 1]];
      EndLast(0, queue[..n - 1], queue[n - 1]);
      assert queue[n - 1] == log[queue[n - 1].seqNo - 1];
      assert n > 1 ==> Gap(queue[n - 2].seqNo, queue[n - 1].seqNo, refused);
      CoveredLast(0, queue[..n - 1], queue[n - 1], refused);
    }
  }

  /** Envelopes the cursor has passed change nothing. */
  lemma {:induction false} AllSkipped(c: nat, es: seq<Envelope>, refused: set<nat>)
    requires forall i :: 0 <= i < |es| ==> !es[i].payload.SnapshotStart? && es[i].seqNo <= c
    ensures End(c, es) == c && Covered(c, es, refused)
    decreases |es|
  {
    if es != [] {
      var n := |es| - 1;
      AllSkipped(c, es[..n], refused);
      assert es == es[..n] + [es[n]];
      CoveredLast(c, es[..n], es[n], refused);
    }
  }

  // ---- Catch-up ------------------------------------------------------------------------------------------

  lemma NextCovered(c: nat, es: seq<Envelope>, e: Envelope, refused: set<nat>)
    requires Covered(c, es, refused) && e.seqNo == End(c, es) + 1
    requires !e.payload.SnapshotStart? && !e.payload.SnapshotEnd?
    ensures Covered(c, es + [e], refused) && End(c, es + [e]) == e.seqNo
  {
    EndLast(c, es, e);
    CoveredLast(c, es, e, refused);
  }

  lemma {:induction false} ReplayCovered(log: seq<Envelope>, c: nat, n: nat, refused: set<nat>)
    requires Numbered(log) && Live(log) && c <= n <= |log|
    ensures Covered(c, log[c..n], refused) && End(c, log[c..n]) == n
    decreases n
  {
    if c < n {
      ReplayCovered(log, c, n - 1, refused);
      var es, e := log[c..n - 1], log[n - 1];
      assert log[c..n] == es + [e];
      NextCovered(c, es, e, refused);
    } else {
      assert log[c..n] == [];
    }
  }

  lemma {:induction false} UnnumberedCovered(es: seq<Envelope>, refused: set<nat>)
    requires forall i :: 0 <= i < |es| ==> es[i].seqNo == 0
    ensures Covered(0, es, refused) && End(0, es) == 0
    decreases |es|
  {
    if es != [] {
      var n := |es| - 1;
      UnnumberedCovered(es[..n], refused);
      assert es == es[..n] + [es[n]];
      CoveredLast(0, es[..n], es[n], refused);
    }
  }

  lemma SnapshotUnnumbered(s: Snap)
    ensures forall i :: 0 <= i < |EnvelopesOf(s)| ==> EnvelopesOf(s)[i].seqNo == 0
    ensures EnvelopesOf(s) != [] && EnvelopesOf(s)[0].payload == SnapshotStart
  {
  }

  lemma ResetCovered(c: nat, es: seq<Envelope>, refused: set<nat>)
    requires es != [] && es[0].payload == SnapshotStart
    requires forall i :: 0 <= i < |es| ==> es[i].seqNo == 0
    ensures Covered(c, es, refused) && End(c, es) == 0
  {
  }

  // ---- What every step keeps -----------------------------------------------------------------------------

  /** What is in flight, and then queued, continues from the cursor. */
  ghost predicate FlowOk(cursor: nat, link: Link, emitted: nat, refused: set<nat>) {
    && cursor <= emitted
    && Covered(cursor, link.wire, refused)
    && (forall i :: 0 <= i < |link.wire| ==> link.wire[i].seqNo <= emitted)
    && (link.connected ==>
          && Covered(cursor, link.wire + link.queue, refused)
          && Complete(End(cursor, link.wire + link.queue), emitted, refused))
  }

  ghost predicate Increasing(applied: seq<nat>, cursor: nat) {
    && (forall i, j :: 0 <= i < j < |applied| ==> applied[i] < applied[j])
    && cursor == (if applied == [] then 0 else applied[|applied| - 1])
    && (applied != [] ==> applied[0] > 0)
  }

  /** Between two applied envelopes only refused ones are missing. */
  ghost predicate Gapless(applied: seq<nat>, refused: set<nat>) {
    forall i :: 0 < i < |applied| ==> Gap(applied[i - 1], applied[i], refused)
  }

  /** The collector speaks with this very boot. */
  predicate Current(s: System) {
    s.collector.registered == Some(s.boot)
  }

  ghost predicate Sessions(s: System) {
    && (s.collector.registered.Some? ==> s.collector.registered.value <= s.boot)
    && (s.link.connected ==> Current(s))
    && (s.link.reading.Some? ==> Current(s) && !s.link.connected && s.link.wire == [])
  }

  /** A cursor that was not reset is the number applied last. */
  ghost predicate Latest(ever: seq<nat>, cursor: nat) {
    cursor > 0 ==> ever != [] && ever[|ever| - 1] == cursor
  }

  /** Queue, wire and applied numbers are in order. */
  ghost predicate Orderly(s: System) {
    && QueueOk(s.link.queue, Saying(s), s.emitted, s.refused)
    && Sessions(s)
    && Increasing(s.collector.applied, s.collector.core.cursor)
    && Latest(s.collector.ever, s.collector.core.cursor)
    && (Current(s) ==> FlowOk(s.collector.core.cursor, s.link, s.emitted, s.refused))
    && (Current(s) ==> Gapless(s.collector.applied, s.refused))
  }

  ghost predicate Inv(s: System) {
    HostOk(s.host) && Orderly(s)
  }

  lemma ProbeOkLive(p: State)
    requires ProbeOk(p)
    ensures Numbered(p.log) && Live(p.log)
  {
    forall i | 0 <= i < |p.log|
      ensures !p.log[i].payload.SnapshotStart? && !p.log[i].payload.SnapshotEnd?
    {
      assert Sound(BookOf(p), p.log, i);
    }
  }

  lemma StartOk()
    ensures HostOk(START_HOST)
  {
    StartMatches();
  }

  lemma QueueGrows(queue: seq<Envelope>, log: seq<Envelope>, emitted: nat, refused: set<nat>, e: Envelope)
    requires QueueOk(queue, log, emitted, refused) && emitted < |log| && Numbered(log) && e == log[emitted]
    ensures QueueOk(queue + [e], log, emitted + 1, refused)
    ensures QueueOk(queue, log, emitted + 1, refused + {e.seqNo})
  {
  }

  lemma QueuedFlows(cursor: nat, link: Link, emitted: nat, refused: set<nat>, e: Envelope)
    requires FlowOk(cursor, link, emitted, refused) && e.seqNo == emitted + 1
    requires !e.payload.SnapshotStart? && !e.payload.SnapshotEnd?
    ensures FlowOk(cursor, link.(queue := link.queue + [e]), emitted + 1, refused)
  {
    if link.connected {
      var all := link.wire + link.queue;
      assert link.wire + (link.queue + [e]) == all + [e];
      EndLast(cursor, all, e);
      CoveredLast(cursor, all, e, refused);
    }
  }

  lemma RefusedFlows(cursor: nat, link: Link, emitted: nat, refused: set<nat>, more: set<nat>)
    requires FlowOk(cursor, link, emitted, refused) && more == refused + {emitted + 1}
    ensures FlowOk(cursor, link, emitted + 1, more)
  {
  }

  lemma PumpFlows(cursor: nat, link: Link, emitted: nat, refused: set<nat>)
    requires FlowOk(cursor, link, emitted, refused) && link.connected
    requires link.queue != [] && link.queue[0].seqNo <= emitted
    ensures FlowOk(cursor, Link(link.queue[1..], true, link.wire + [link.queue[0]], link.reading), emitted, refused)
  {
    var all, sent := link.wire + link.queue, link.wire + [link.queue[0]];
    assert all == sent + link.queue[1..];
    assert all[..|sent|] == sent;
    CoveredPrefix(cursor, all, |sent|, refused);
  }

  lemma BreakFlows(cursor: nat, link: Link, kept: nat, emitted: nat, refused: set<nat>, queue: seq<Envelope>)
    requires FlowOk(cursor, link, emitted, refused) && kept <= |link.wire|
    ensures FlowOk(cursor, Link(queue, false, link.wire[..kept], None), emitted, refused)
  {
    CoveredPrefix(cursor, link.wire, kept, refused);
  }

  lemma FrontCovered(c: nat, e: Envelope, rest: seq<Envelope>, all: seq<Envelope>, refused: set<nat>)
    requires all == [e] + rest && Covered(c, all, refused)
    ensures Fits(c, e, refused) && Covered(NextCursor(c, e), rest, refused)
    ensures End(c, all) == End(NextCursor(c, e), rest)
  {
    CoveredFront(c, all, refused);
    assert all[1..] == rest;
  }

  lemma DeliverFlows(
      cursor: nat, link: Link, emitted: nat, refused: set<nat>, e: Envelope, next: nat, rest: seq<Envelope>)
    requires FlowOk(cursor, link, emitted, refused) && link.wire == [e] + rest && next == NextCursor(cursor, e)
    ensures Fits(cursor, e, refused)
    ensures FlowOk(next, link.(wire := rest), emitted, refused)
  {
    FrontCovered(cursor, e, rest, link.wire, refused);
    assert forall i :: 0 <= i < |rest| ==> rest[i] == link.wire[i + 1];
    assert link.wire[0] == e;
    if link.connected {
      Regroup([e], rest, link.queue);
      FrontCovered(cursor, e, rest + link.queue, link.wire + link.queue, refused);
    }
  }

  lemma ReplayFlows(
      queue: seq<Envelope>, sent: seq<Envelope>, emitted: nat, refused: set<nat>, cursor: nat, wire: seq<Envelope>)
    requires QueueOk(queue, sent, emitted, refused) && Numbered(sent) && Live(sent) && cursor <= emitted == |sent|
    requires wire == sent[cursor..]
    ensures FlowOk(cursor, Link(queue, true, wire, None), emitted, refused)
  {
    ReplayCovered(sent, cursor, emitted, refused);
    assert sent[cursor..emitted] == wire;
    AllSkipped(emitted, queue, refused);
    CoveredAppend(cursor, wire, queue, refused);
  }

  lemma SnapshotFlows(
      queue: seq<Envelope>, sent: seq<Envelope>, emitted: nat, refused: set<nat>, cursor: nat, wire: seq<Envelope>)
    requires QueueOk(queue, sent, emitted, refused) && Live(sent) && cursor <= emitted
    requires wire != [] && wire[0].payload == SnapshotStart
    requires forall i :: 0 <= i < |wire| ==> wire[i].seqNo == 0
    ensures FlowOk(cursor, Link(queue, true, wire, None), emitted, refused)
  {
    ResetCovered(cursor, wire, refused);
    QueueCovered(queue, sent, emitted, refused, |queue|);
    assert queue[..|queue|] == queue;
    CoveredAppend(cursor, wire, queue, refused);
  }

  lemma CatchupFlows(ring: nat, s: System, cursor: nat)
    requires QueueOk(s.link.queue, Saying(s), s.emitted, s.refused) && Numbered(Saying(s)) && Live(Saying(s))
    requires cursor <= s.emitted
    ensures FlowOk(cursor, Catchup(ring, s, cursor), s.emitted, s.refused)
  {
    var sent := Log(s);
    assert QueueOk(s.link.queue, sent, s.emitted, s.refused);
    if Replays(ring, sent, cursor) {
      ReplayFlows(s.link.queue, sent, s.emitted, s.refused, cursor, sent[cursor..]);
    }
  }

  lemma CoveredAppend(c: nat, es: seq<Envelope>, fs: seq<Envelope>, refused: set<nat>)
    requires Covered(c, es, refused) && Covered(End(c, es), fs, refused)
    ensures Covered(c, es + fs, refused) && End(c, es + fs) == End(End(c, es), fs)
  {
    var all := es + fs;
    EndAppend(c, es, fs);
    forall k | 0 <= k < |all|
      ensures Fits(End(c, all[..k]), all[k], refused)
    {
      if k < |es| {
        assert all[..k] == es[..k];
      } else {
        assert all[..k] == es + fs[..k - |es|];
        EndAppend(c, es, fs[..k - |es|]);
      }
    }
  }

  lemma ReceiveIncreases(c: Collector, e: Envelope)
    requires Increasing(c.applied, c.core.cursor)
    ensures Increasing(Receive(c, e).applied, Receive(c, e).core.cursor)
    ensures Latest(c.ever, c.core.cursor) ==> Latest(Receive(c, e).ever, Receive(c, e).core.cursor)
    ensures Receive(c, e).core.cursor == NextCursor(c.core.cursor, e)
  {
  }

  lemma ReceiveGapless(c: Collector, e: Envelope, refused: set<nat>)
    requires Increasing(c.applied, c.core.cursor) && Gapless(c.applied, refused) && Fits(c.core.cursor, e, refused)
    ensures Gapless(Receive(c, e).applied, refused)
  {
  }

  lemma LogGrows(s: System, h: Host)
    requires Orderly(s) && Saying(s) <= h.state.log
    ensures Orderly(s.(host := h))
  {
  }

  lemma QueuedInOrder(s: System, e: Envelope)
    requires Orderly(s) && s.emitted < |Saying(s)| && Numbered(Saying(s)) && e == Saying(s)[s.emitted]
    requires !e.payload.SnapshotStart? && !e.payload.SnapshotEnd?
    ensures Orderly(s.(emitted := s.emitted + 1, link := s.link.(queue := s.link.queue + [e])))
  {
    QueueGrows(s.link.queue, Saying(s), s.emitted, s.refused, e);
    if Current(s) {
      QueuedFlows(s.collector.core.cursor, s.link, s.emitted, s.refused, e);
    }
  }

  lemma RefusedInOrder(s: System, e: Envelope)
    requires Orderly(s) && s.emitted < |Saying(s)| && Numbered(Saying(s)) && e == Saying(s)[s.emitted]
    ensures Orderly(s.(emitted := s.emitted + 1, refused := s.refused + {e.seqNo}))
  {
    QueueGrows(s.link.queue, Saying(s), s.emitted, s.refused, e);
    if Current(s) {
      RefusedFlows(s.collector.core.cursor, s.link, s.emitted, s.refused, s.refused + {e.seqNo});
    }
  }

  lemma EmitInOrder(lim: Limits, s: System, e: Envelope)
    requires Orderly(s) && s.emitted < |Saying(s)| && Numbered(Saying(s)) && e == Saying(s)[s.emitted]
    requires !e.payload.SnapshotStart? && !e.payload.SnapshotEnd?
    ensures Orderly(Offer(lim, s))
  {
    if |s.link.queue| < lim.queue {
      QueuedInOrder(s, e);
    } else {
      RefusedInOrder(s, e);
    }
  }

  lemma PumpInOrder(s: System, l: Link)
    requires Orderly(s) && s.link.connected && s.link.queue != [] && l.queue == s.link.queue[1..]
    requires l == Link(l.queue, true, s.link.wire + [s.link.queue[0]], s.link.reading)
          || exists kept | 0 <= kept <= |s.link.wire| :: l == Link(l.queue, false, s.link.wire[..kept], None)
    ensures Orderly(s.(link := l))
  {
    assert QueueOk(l.queue, Saying(s), s.emitted, s.refused) by {
      assert forall i :: 0 <= i < |l.queue| ==> l.queue[i] == s.link.queue[i + 1];
    }
    if l.connected {
      PumpFlows(s.collector.core.cursor, s.link, s.emitted, s.refused);
    } else {
      var kept :| 0 <= kept <= |s.link.wire| && l == Link(l.queue, false, s.link.wire[..kept], None);
      BreakFlows(s.collector.core.cursor, s.link, kept, s.emitted, s.refused, l.queue);
    }
  }

  lemma DeliverInOrder(s: System, e: Envelope, rest: seq<Envelope>)
    requires Orderly(s) && s.link.wire == [e] + rest
    ensures Orderly(s.(link := s.link.(wire := rest), collector := Receive(s.collector, e)))
  {
    var next := NextCursor(s.collector.core.cursor, e);
    ReceiveIncreases(s.collector, e);
    if Current(s) {
      DeliverFlows(s.collector.core.cursor, s.link, s.emitted, s.refused, e, next, rest);
      ReceiveGapless(s.collector, e, s.refused);
    }
  }

  lemma AttachInOrder(lim: Limits, now: Time, s: System)
    requires Orderly(s) && Enabled(lim, s, Attach) && Numbered(Saying(s)) && Live(Saying(s))
    ensures Orderly(Next(lim, now, s, Attach))
  {
    CatchupFlows(lim.ring, s, Greet(s.collector, s.boot).core.cursor);
  }

  lemma SnapshotInOrder(lim: Limits, now: Time, s: System, snap: Snap)
    requires Orderly(s) && Enabled(lim, s, SendSnapshot(snap)) && Live(Saying(s))
    ensures Orderly(Next(lim, now, s, SendSnapshot(snap)))
  {
    SnapshotUnnumbered(snap);
    SnapshotFlows(s.link.queue, Saying(s), s.emitted, s.refused, s.collector.core.cursor, EnvelopesOf(snap));
  }

  lemma DropInOrder(s: System, kept: nat)
    requires Orderly(s) && kept <= |s.link.wire|
    ensures Orderly(s.(link := Broken(s.link, kept)))
  {
    if Current(s) {
      BreakFlows(s.collector.core.cursor, s.link, kept, s.emitted, s.refused, s.link.queue);
    }
  }

  lemma RestartsInOrder(lim: Limits, now: Time, s: System, step: Step)
    requires Orderly(s) && Enabled(lim, s, step) && (step.AttachFails? || step.RestartProbe? || step.RestartCollector?)
    ensures Orderly(Next(lim, now, s, step))
  {
  }

  lemma StepInOrder(lim: Limits, now: Time, s: System, step: Step)
    requires Orderly(s) && Enabled(lim, s, step) && Numbered(Saying(s)) && Live(Saying(s))
    requires step.Work? ==> Saying(s) <= Act(s.host, now, step.sec).state.log
    ensures Orderly(Next(lim, now, s, step))
  {
    match step
    case Work(sec) => LogGrows(s, Act(s.host, now, sec));
    case Emit => EmitInOrder(lim, s, Saying(s)[s.emitted]);
    case Pump => PumpInOrder(s, Next(lim, now, s, step).link);
    case PumpFails(kept) => PumpInOrder(s, Next(lim, now, s, step).link);
    case Deliver => DeliverInOrder(s, s.link.wire[0], s.link.wire[1..]);
    case Drop(kept) => DropInOrder(s, kept);
    case Attach => AttachInOrder(lim, now, s);
    case SendSnapshot(snap) => SnapshotInOrder(lim, now, s, snap);
    case _ => RestartsInOrder(lim, now, s, step);
  }

  lemma StepKeepsHost(lim: Limits, now: Time, s: System, step: Step)
    requires HostOk(s.host) && Enabled(lim, s, step)
    ensures HostOk(Next(lim, now, s, step).host)
    ensures step.Work? ==> Saying(s) <= Act(s.host, now, step.sec).state.log
  {
    if step.Work? {
      SectionKeepsHost(s.host, now, step.sec, Act(s.host, now, step.sec));
    }
    StartOk();
  }

  lemma StepKeepsInv(lim: Limits, now: Time, s: System, step: Step)
    requires Inv(s) && Enabled(lim, s, step)
    ensures Inv(Next(lim, now, s, step))
  {
    ProbeOkLive(s.host.state);
    StepKeepsHost(lim, now, s, step);
    StepInOrder(lim, now, s, step);
  }

  lemma {:induction false} EveryRunKeepsInv(lim: Limits, now: Time, s: System, steps: seq<Step>)
    requires Reachable(lim, now, s, steps)
    ensures Inv(s)
    decreases |steps|
  {
    if steps == [] {
      StartOk();
    } else {
      var n := |steps| - 1;
      var before :|
        && Reachable(lim, now, before, steps[..n]) && Enabled(lim, before, steps[n])
        && s == Next(lim, now, before, steps[n]);
      EveryRunKeepsInv(lim, now, before, steps[..n]);
      StepKeepsInv(lim, now, before, steps[n]);
    }
  }

  lemma EveryRunIsOrderly(lim: Limits, now: Time, s: System, steps: seq<Step>)
    requires Reachable(lim, now, s, steps)
    ensures Orderly(s) && Numbered(Saying(s)) && Live(Saying(s))
  {
    EveryRunKeepsInv(lim, now, s, steps);
    ProbeOkLive(s.host.state);
  }

  /** In every run, whatever is refused, dropped or restarted: the live sequence numbers applied since the last
      reset strictly increase, none is applied twice, and every hole among them was refused by the full queue. */
  lemma AppliedInOrder(lim: Limits, now: Time, s: System, steps: seq<Step>)
    requires Reachable(lim, now, s, steps)
    ensures var applied := s.collector.applied;
      && (forall i, j :: 0 <= i < j < |applied| ==> applied[i] < applied[j])
      && s.collector.core.cursor == (if applied == [] then 0 else applied[|applied| - 1])
      && (Current(s) ==>
            forall k | applied != [] && applied[0] < k < s.collector.core.cursor && k !in applied :: k in s.refused)
  {
    EveryRunKeepsInv(lim, now, s, steps);
    var applied := s.collector.applied;
    if Current(s) && applied != [] {
      forall k | applied[0] < k < s.collector.core.cursor && k !in applied
        ensures k in s.refused
      {
        HoleRefused(applied, s.refused, k);
      }
    }
  }

  lemma {:induction false} HoleRefused(applied: seq<nat>, refused: set<nat>, k: nat)
    requires Gapless(applied, refused) && applied != [] && applied[0] < k < applied[|applied| - 1] && k !in applied
    ensures k in refused
    decreases |applied|
  {
    var n := |applied| - 1;
    if k < applied[n - 1] {
      HoleRefused(applied[..n], refused, k);
    } else {
      assert k != applied[n - 1] && Gap(applied[n - 1], applied[n], refused);
    }
  }

  /** As long as this boot's queue has refused nothing, they form a contiguous interval. */
  lemma AppliedIsContiguous(lim: Limits, now: Time, s: System, steps: seq<Step>)
    requires Reachable(lim, now, s, steps) && Current(s) && s.refused == {}
    ensures var applied := s.collector.applied;
      forall i :: 0 <= i < |applied| ==> applied[i] == applied[0] + i
  {
    EveryRunKeepsInv(lim, now, s, steps);
    Contiguous(s.collector.applied, s.refused, |s.collector.applied|);
  }

  lemma NoGap(a: nat, b: nat, refused: set<nat>)
    requires Gap(a, b, refused) && a + 1 !in refused
    ensures b == a + 1
  {
    assert a < a + 1 < b ==> a + 1 in refused;
  }

  lemma {:induction false} Contiguous(applied: seq<nat>, refused: set<nat>, n: nat)
    requires Gapless(applied, refused) && refused == {} && n <= |applied|
    ensures forall i :: 0 <= i < n ==> applied[i] == applied[0] + i
  {
    if n > 1 {
      Contiguous(applied, refused, n - 1);
      NoGap(applied[n - 2], applied[n - 1], refused);
    }
  }
}
