/** Slot tables survive a reset of the cursor, so what matters to them is that no envelope is ever applied twice. */
module Once {
  import opened Basics
  import opened Envelopes
  import opened Probe
  import opened Snapshot
  import opened Resume
  import opened Delivery
  import opened Remembered
  import opened Convergence

  /** The cursor, which a snapshot resets, and the highest number ever applied, which nothing resets. */
  datatype Mark = Mark(cursor: nat, high: nat)

  function Advance(m: Mark, e: Envelope): Mark {
    Mark(NextCursor(m.cursor, e), if Applies(m.cursor, e) then e.seqNo else m.high)
  }

  function MarkAfter(m: Mark, es: seq<Envelope>): Mark {
    if es == [] then m else Advance(MarkAfter(m, es[..|es| - 1]), es[|es| - 1])
  }

  lemma {:induction false} MarkAppend(m: Mark, es: seq<Envelope>, fs: seq<Envelope>)
    ensures MarkAfter(m, es + fs) == MarkAfter(MarkAfter(m, es), fs)
    decreases |fs|
  {
    if fs == [] {
      assert es + fs == es;
    } else {
      var all := es + fs;
      assert all[..|all| - 1] == es + fs[..|fs| - 1];
      MarkAppend(m, es, fs[..|fs| - 1]);
    }
  }

  /** The envelope is skipped or has never been applied. */
  ghost predicate New(m: Mark, e: Envelope) {
    Applies(m.cursor, e) ==> e.seqNo > m.high
  }

  /** A collector without a cursor is only offered what it has never applied. */
  ghost predicate Safe(m: Mark, queue: seq<Envelope>, emitted: nat) {
    && (m.cursor == 0 || m.cursor == m.high) && m.high <= emitted
    && (m.cursor == 0 ==> forall i :: 0 <= i < |queue| ==> queue[i].seqNo > m.high)
  }

  ghost predicate SafeAt(m: Mark, wire: seq<Envelope>, k: nat, queue: seq<Envelope>, emitted: nat)
    requires k <= |wire|
  {
    var n := MarkAfter(m, wire[..k]);
    Safe(n, queue, emitted) && (k < |wire| ==> New(n, wire[k]))
  }

  /** ... however much of what is in flight arrives. */
  ghost predicate AllSafe(m: Mark, wire: seq<Envelope>, queue: seq<Envelope>, emitted: nat) {
    forall k :: 0 <= k <= |wire| ==> SafeAt(m, wire, k, queue, emitted)
  }

  lemma SafeNow(m: Mark, wire: seq<Envelope>, queue: seq<Envelope>, emitted: nat)
    requires AllSafe(m, wire, queue, emitted)
    ensures Safe(m, queue, emitted) && AllSafe(m, [], queue, emitted)
    ensures Safe(MarkAfter(m, wire), queue, emitted)
    ensures wire != [] ==> New(m, wire[0])
  {
    assert SafeAt(m, wire, 0, queue, emitted) && wire[..0] == [];
    assert SafeAt(m, wire, |wire|, queue, emitted) && wire[..|wire|] == wire;
  }

  lemma SafePrefix(m: Mark, wire: seq<Envelope>, kept: nat, queue: seq<Envelope>, rest: seq<Envelope>, emitted: nat)
    requires AllSafe(m, wire, queue, emitted) && kept <= |wire| && forall e :: e in rest ==> e in queue
    ensures AllSafe(m, wire[..kept], rest, emitted)
  {
    assert forall i :: 0 <= i < |rest| ==> rest[i] in queue;
    forall k | 0 <= k <= kept
      ensures SafeAt(m, wire[..kept], k, rest, emitted)
    {
      assert wire[..kept][..k] == wire[..k];
      assert SafeAt(m, wire, k, queue, emitted);
    }
  }

  lemma SafeFront(m: Mark, e: Envelope, tail: seq<Envelope>, wire: seq<Envelope>, queue: seq<Envelope>, emitted: nat)
    requires AllSafe(m, wire, queue, emitted) && wire == [e] + tail
    ensures AllSafe(Advance(m, e), tail, queue, emitted)
  {
    var n := Advance(m, e);
    assert [e][..0] == [];
    assert MarkAfter(m, [e]) == n;
    forall k | 0 <= k <= |tail|
      ensures SafeAt(n, tail, k, queue, emitted)
    {
      assert wire[..k + 1] == [e] + tail[..k];
      MarkAppend(m, [e], tail[..k]);
      assert SafeAt(m, wire, k + 1, queue, emitted);
    }
  }

  lemma SafeEmit(m: Mark, wire: seq<Envelope>, queue: seq<Envelope>, emitted: nat, e: Envelope)
    requires AllSafe(m, wire, queue, emitted) && e.seqNo == emitted + 1
    ensures AllSafe(m, wire, queue + [e], emitted + 1)
  {
    var more, later := queue + [e], emitted + 1;
    forall k | 0 <= k <= |wire|
      ensures SafeAt(m, wire, k, more, later)
    {
      assert SafeAt(m, wire, k, queue, emitted);
    }
  }

  /** One more envelope in flight that is new and leaves a cursor behind. */
  lemma SafeLast(m: Mark, wire: seq<Envelope>, queue: seq<Envelope>, emitted: nat, e: Envelope)
    requires AllSafe(m, wire, queue, emitted)
    requires New(MarkAfter(m, wire), e) && Safe(Advance(MarkAfter(m, wire), e), queue, emitted)
    ensures AllSafe(m, wire + [e], queue, emitted)
  {
    var all := wire + [e];
    forall k | 0 <= k <= |all|
      ensures SafeAt(m, all, k, queue, emitted)
    {
      if k <= |wire| {
        assert all[..k] == wire[..k];
        assert SafeAt(m, wire, k, queue, emitted);
        assert k == |wire| ==> wire[..k] == wire;
      } else {
        assert all[..k] == all && all[..|wire|] == wire;
      }
    }
  }

  lemma SafePump(m: Mark, wire: seq<Envelope>, queue: seq<Envelope>, emitted: nat, e: Envelope, rest: seq<Envelope>)
    requires AllSafe(m, wire, queue, emitted) && queue == [e] + rest && 1 <= e.seqNo <= emitted
    requires !e.payload.SnapshotStart? && !e.payload.SnapshotEnd?
    ensures AllSafe(m, wire + [e], rest, emitted)
  {
    SafeNow(m, wire, queue, emitted);
    assert queue[0] == e;
    assert wire[..|wire|] == wire;
    SafePrefix(m, wire, |wire|, queue, rest, emitted);
    SafeLast(m, wire, rest, emitted, e);
  }

  // ---- Catching up -----------------------------------------------------------------------------------------

  lemma {:induction false} SafeReplay(
      log: seq<Envelope>, c: nat, n: nat, wire: seq<Envelope>, queue: seq<Envelope>, emitted: nat)
    requires Numbered(log) && Live(log) && 0 < c <= n <= emitted <= |log| && wire == log[c..n]
    ensures AllSafe(Mark(c, c), wire, queue, emitted) && MarkAfter(Mark(c, c), wire) == Mark(n, n)
    decreases n
  {
    if n == c {
      assert wire == [] && wire[..0] == [];
    } else {
      var before, e := log[c..n - 1], log[n - 1];
      assert wire == before + [e];
      SafeReplay(log, c, n - 1, before, queue, emitted);
      SafeLast(Mark(c, c), before, queue, emitted, e);
      assert wire[..|wire| - 1] == before;
    }
  }

  lemma {:induction false} SnapshotMarks(m: Mark, es: seq<Envelope>, n: nat)
    requires es != [] && es[0].payload == SnapshotStart && 1 <= n <= |es|
    requires forall i :: 0 <= i < |es| ==> es[i].seqNo == 0
    ensures MarkAfter(m, es[..n]) == Mark(0, m.high)
  {
    assert es[..n][..n - 1] == es[..n - 1] && es[..n][n - 1] == es[n - 1];
    if n == 1 {
      assert es[..0] == [];
    } else {
      SnapshotMarks(m, es, n - 1);
    }
  }

  lemma SafeSnapshot(m: Mark, wire: seq<Envelope>, queue: seq<Envelope>, emitted: nat)
    requires Safe(m, queue, emitted) && Safe(Mark(0, m.high), queue, emitted)
    requires wire != [] && wire[0].payload == SnapshotStart && forall i :: 0 <= i < |wire| ==> wire[i].seqNo == 0
    ensures AllSafe(m, wire, queue, emitted)
  {
    forall k | 0 <= k <= |wire|
      ensures SafeAt(m, wire, k, queue, emitted)
    {
      if k > 0 {
        SnapshotMarks(m, wire, k);
      } else {
        assert wire[..0] == [];
      }
    }
  }

  /** When the ring no longer covers the cursor, a queue with at most one place more than the ring holds nothing at or
      below it. */
  lemma RolledPast(ring: nat, log: seq<Envelope>, emitted: nat, queue: seq<Envelope>, refused: set<nat>, cursor: nat)
    requires QueueOk(queue, log, emitted, refused) && refused == {} && |queue| <= ring + 1 && cursor > 0
    requires !Replays(ring, log[..emitted], cursor)
    ensures forall i :: 0 <= i < |queue| ==> queue[i].seqNo > cursor
  {
    forall i | 0 <= i < |queue|
      ensures queue[i].seqNo > cursor
    {
      QueueIsSuffix(queue, log, emitted, refused, i);
    }
  }

  // ---- Every step ------------------------------------------------------------------------------------------

  ghost predicate Ascending(ever: seq<nat>) {
    forall i, j :: 0 <= i < j < |ever| ==> ever[i] < ever[j]
  }

  function MarkOf(c: Collector): Mark {
    Mark(c.core.cursor, if c.ever == [] then 0 else c.ever[|c.ever| - 1])
  }

  /** Nothing was applied twice, nothing on its way will be, and neither will the queue after a snapshot that is
      being read. */
  ghost predicate Untwice(s: System) {
    Current(s) && s.refused == {} ==>
      && Ascending(s.collector.ever)
      && AllSafe(MarkOf(s.collector), s.link.wire, s.link.queue, s.emitted)
      && (s.link.reading.Some? ==> Safe(Mark(0, MarkOf(s.collector).high), s.link.queue, s.emitted))
  }

  ghost predicate OnceInv(lim: Limits, s: System) {
    Inv(s) && |s.link.queue| <= lim.queue && Untwice(s)
  }

  lemma ReceiveOnce(c: Collector, e: Envelope)
    requires Ascending(c.ever) && New(MarkOf(c), e)
    ensures Ascending(Receive(c, e).ever) && MarkOf(Receive(c, e)) == Advance(MarkOf(c), e)
  {
  }

  lemma DeliverOnce(s: System, e: Envelope, tail: seq<Envelope>)
    requires Untwice(s) && s.link.wire == [e] + tail && s.link.reading.None?
    ensures Untwice(s.(link := s.link.(wire := tail), collector := Receive(s.collector, e)))
  {
    if Current(s) && s.refused == {} {
      SafeNow(MarkOf(s.collector), s.link.wire, s.link.queue, s.emitted);
      ReceiveOnce(s.collector, e);
      SafeFront(MarkOf(s.collector), e, tail, s.link.wire, s.link.queue, s.emitted);
    }
  }

  lemma EmitOnce(lim: Limits, s: System)
    requires Untwice(s) && s.emitted < |Saying(s)| && Numbered(Saying(s))
    ensures Untwice(Offer(lim, s))
  {
    var e := Saying(s)[s.emitted];
    if |s.link.queue| < lim.queue {
      if Current(s) && s.refused == {} {
        SafeEmit(MarkOf(s.collector), s.link.wire, s.link.queue, s.emitted, e);
      }
    } else {
      assert e.seqNo in Offer(lim, s).refused;
    }
  }

  lemma PumpOnce(s: System, e: Envelope, rest: seq<Envelope>)
    requires Untwice(s) && QueueOk(s.link.queue, Saying(s), s.emitted, s.refused) && Live(Saying(s))
    requires s.link.queue == [e] + rest && s.link.reading.None?
    ensures Untwice(s.(link := Link(rest, true, s.link.wire + [e], s.link.reading)))
  {
    if Current(s) && s.refused == {} {
      assert s.link.queue[0] == e && e == Saying(s)[e.seqNo - 1];
      SafePump(MarkOf(s.collector), s.link.wire, s.link.queue, s.emitted, e, rest);
    }
  }

  lemma BreakOnce(s: System, rest: seq<Envelope>, kept: nat)
    requires Untwice(s) && kept <= |s.link.wire| && forall e :: e in rest ==> e in s.link.queue
    ensures Untwice(s.(link := Link(rest, false, s.link.wire[..kept], None)))
  {
    if Current(s) && s.refused == {} {
      SafePrefix(MarkOf(s.collector), s.link.wire, kept, s.link.queue, rest, s.emitted);
    }
  }

  lemma PumpFailsOnce(s: System, kept: nat)
    requires Untwice(s) && s.link.queue != [] && kept <= |s.link.wire|
    ensures Untwice(s.(link := Broken(s.link.(queue := s.link.queue[1..]), kept)))
  {
    BreakOnce(s, s.link.queue[1..], kept);
  }

  lemma SafeNothing(m: Mark, queue: seq<Envelope>, emitted: nat)
    requires Safe(m, queue, emitted)
    ensures AllSafe(m, [], queue, emitted)
  {
  }

  lemma CatchupSafe(lim: Limits, s: System, m: Mark, link: Link)
    requires lim.queue <= lim.ring + 1 && |s.link.queue| <= lim.queue && s.refused == {}
    requires QueueOk(s.link.queue, Saying(s), s.emitted, s.refused) && Numbered(Saying(s)) && Live(Saying(s))
    requires Safe(m, s.link.queue, s.emitted) && link == Catchup(lim.ring, s, m.cursor)
    ensures AllSafe(m, link.wire, link.queue, s.emitted)
    ensures link.reading.Some? ==> Safe(Mark(0, m.high), link.queue, s.emitted)
  {
    var log := Saying(s);
    if Replays(lim.ring, Log(s), m.cursor) {
      assert Log(s)[m.cursor..] == log[m.cursor..s.emitted];
      SafeReplay(log, m.cursor, s.emitted, log[m.cursor..s.emitted], s.link.queue, s.emitted);
    } else {
      if m.cursor > 0 {
        RolledPast(lim.ring, log, s.emitted, s.link.queue, s.refused, m.cursor);
      }
      SafeNothing(m, s.link.queue, s.emitted);
    }
  }

  lemma AttachOnce(lim: Limits, now: Time, s: System)
    requires OnceInv(lim, s) && Enabled(lim, s, Attach) && lim.queue <= lim.ring + 1
    requires Numbered(Saying(s)) && Live(Saying(s))
    ensures Untwice(Next(lim, now, s, Attach))
  {
    var c := Greet(s.collector, s.boot);
    if s.refused == {} {
      if Current(s) {
        SafeNow(MarkOf(c), s.link.wire, s.link.queue, s.emitted);
      }
      CatchupSafe(lim, s, MarkOf(c), Catchup(lim.ring, s, c.core.cursor));
    }
  }

  lemma SnapshotOnce(lim: Limits, now: Time, s: System, snap: Snap)
    requires OnceInv(lim, s) && Enabled(lim, s, SendSnapshot(snap))
    ensures Untwice(Next(lim, now, s, SendSnapshot(snap)))
  {
    if s.refused == {} {
      SafeNow(MarkOf(s.collector), s.link.wire, s.link.queue, s.emitted);
      SnapshotUnnumbered(snap);
      SafeSnapshot(MarkOf(s.collector), EnvelopesOf(snap), s.link.queue, s.emitted);
    }
  }

  lemma RestartOnce(lim: Limits, now: Time, s: System, step: Step)
    requires OnceInv(lim, s) && Enabled(lim, s, step)
    requires step.AttachFails? || step.RestartProbe? || step.RestartCollector?
    ensures Untwice(Next(lim, now, s, step))
  {
    if Current(s) && s.refused == {} {
      SafeNow(MarkOf(s.collector), s.link.wire, s.link.queue, s.emitted);
    }
  }

  lemma StepOnce(lim: Limits, now: Time, s: System, step: Step)
    requires OnceInv(lim, s) && Enabled(lim, s, step) && lim.queue <= lim.ring + 1
    ensures Untwice(Next(lim, now, s, step))
  {
    ProbeOkLive(s.host.state);
    match step
    case Work(_) =>
    case Emit => EmitOnce(lim, s);
    case Pump => PumpOnce(s, s.link.queue[0], s.link.queue[1..]);
    case PumpFails(kept) => PumpFailsOnce(s, kept);
    case Deliver => DeliverOnce(s, s.link.wire[0], s.link.wire[1..]);
    case Drop(kept) => BreakOnce(s, s.link.queue, kept);
    case Attach => AttachOnce(lim, now, s);
    case SendSnapshot(snap) => SnapshotOnce(lim, now, s, snap);
    case _ => RestartOnce(lim, now, s, step);
  }

  lemma QueueFits(lim: Limits, now: Time, s: System, step: Step)
    requires |s.link.queue| <= lim.queue && Enabled(lim, s, step)
    ensures |Next(lim, now, s, step).link.queue| <= lim.queue
  {
  }

  lemma {:induction false} EveryRunIsOnce(lim: Limits, now: Time, s: System, steps: seq<Step>)
    requires Reachable(lim, now, s, steps) && lim.queue <= lim.ring + 1
    ensures OnceInv(lim, s)
    decreases |steps|
  {
    EveryRunKeepsInv(lim, now, s, steps);
    if steps != [] {
      var n := |steps| - 1;
      var before :|
        && Reachable(lim, now, before, steps[..n]) && Enabled(lim, before, steps[n])
        && s == Next(lim, now, before, steps[n]);
      EveryRunIsOnce(lim, now, before, steps[..n]);
      StepOnce(lim, now, before, steps[n]);
      QueueFits(lim, now, before, steps[n]);
    }
  }

  /** With a queue of at most one place more than the ring, and as long as this boot's queue has refused nothing, no
      live envelope is ever applied twice by one collector, however often snapshots reset its cursor: what they add
      to slot tables, which outlive the resets, is added once. */
  lemma NeverAppliedTwice(lim: Limits, now: Time, s: System, steps: seq<Step>)
    requires Reachable(lim, now, s, steps) && lim.queue <= lim.ring + 1 && Current(s) && s.refused == {}
    ensures Ascending(s.collector.ever)
  {
    EveryRunIsOnce(lim, now, s, steps);
  }

  // ---- Exactly when a catch-up repeats -------------------------------------------------------------------------

  function ReceiveAll(c: Collector, es: seq<Envelope>): Collector {
    if es == [] then c else Receive(ReceiveAll(c, es[..|es| - 1]), es[|es| - 1])
  }

  lemma {:induction false} ReceiveAppend(c: Collector, es: seq<Envelope>, fs: seq<Envelope>)
    ensures ReceiveAll(c, es + fs) == ReceiveAll(ReceiveAll(c, es), fs)
    decreases |fs|
  {
    if fs == [] {
      assert es + fs == es;
    } else {
      var all := es + fs;
      assert all[..|all| - 1] == es + fs[..|fs| - 1];
      ReceiveAppend(c, es, fs[..|fs| - 1]);
    }
  }

  function Numbers(es: seq<Envelope>): seq<nat> {
    seq(|es|, i requires 0 <= i < |es| => es[i].seqNo)
  }

  /** A snapshot resets the cursor and forgets nothing else. */
  lemma {:induction false} ReceiveSnapshot(c: Collector, es: seq<Envelope>, n: nat)
    requires es != [] && es[0].payload == SnapshotStart && 1 <= n <= |es|
    requires forall i :: 0 <= i < |es| ==> es[i].seqNo == 0
    ensures var d := ReceiveAll(c, es[..n]); d.core.cursor == 0 && d.applied == [] && d.ever == c.ever
  {
    assert es[..n][..n - 1] == es[..n - 1] && es[..n][n - 1] == es[n - 1];
    if n == 1 {
      assert es[..0] == [];
    } else {
      ReceiveSnapshot(c, es, n - 1);
    }
  }

  /** Live envelopes above the cursor, in increasing order, are all applied. */
  lemma {:induction false} ReceiveLive(c: Collector, es: seq<Envelope>, n: nat)
    requires n <= |es| && forall i :: 0 <= i < |es| ==> Applies(c.core.cursor, es[i])
    requires forall i, j :: 0 <= i < j < |es| ==> es[i].seqNo < es[j].seqNo
    ensures var d := ReceiveAll(c, es[..n]);
      && d.applied == c.applied + Numbers(es)[..n] && d.ever == c.ever + Numbers(es)[..n]
      && d.core.cursor == if n == 0 then c.core.cursor else es[n - 1].seqNo
  {
    if n == 0 {
      assert es[..0] == [] && Numbers(es)[..0] == [];
    } else {
      ReceiveLive(c, es, n - 1);
      assert es[..n][..n - 1] == es[..n - 1] && es[..n][n - 1] == es[n - 1];
      assert Numbers(es)[..n] == Numbers(es)[..n - 1] + [es[n - 1].seqNo];
    }
  }

  lemma QueueAscends(queue: seq<Envelope>, log: seq<Envelope>, emitted: nat, refused: set<nat>)
    requires QueueOk(queue, log, emitted, refused)
    ensures forall i, j :: 0 <= i < j < |queue| ==> queue[i].seqNo < queue[j].seqNo
  {
    forall i, j | 0 <= i < j < |queue|
      ensures queue[i].seqNo < queue[j].seqNo
    {
      QueueIncreases(queue, log, emitted, refused, i, j);
    }
  }

  lemma ReceiveQueue(c: Collector, queue: seq<Envelope>, log: seq<Envelope>, emitted: nat, refused: set<nat>)
    requires QueueOk(queue, log, emitted, refused) && Live(log) && c.core.cursor == 0
    ensures ReceiveAll(c, queue).ever == c.ever + Numbers(queue)
  {
    QueueAscends(queue, log, emitted, refused);
    assert forall i :: 0 <= i < |queue| ==> queue[i] == log[queue[i].seqNo - 1];
    ReceiveLive(c, queue, |queue|);
    assert queue[..|queue|] == queue && Numbers(queue)[..|queue|] == Numbers(queue);
  }

  /** What a snapshot and then the queue apply: the whole queue. */
  lemma ReceiveSnapshotAndQueue(s: System, snap: Snap)
    requires Orderly(s) && Live(Saying(s))
    ensures ReceiveAll(s.collector, EnvelopesOf(snap) + s.link.queue).ever == s.collector.ever + Numbers(s.link.queue)
  {
    var c, es, queue := s.collector, EnvelopesOf(snap), s.link.queue;
    SnapshotUnnumbered(snap);
    ReceiveSnapshot(c, es, |es|);
    assert es[..|es|] == es;
    ReceiveAppend(c, es, queue);
    ReceiveQueue(ReceiveAll(c, es), queue, Saying(s), s.emitted, s.refused);
  }

  /** Everything ever applied lies below the head of the queue. */
  ghost predicate HeadIsNew(ever: seq<nat>, queue: seq<Envelope>) {
    queue != [] ==> forall m :: m in ever ==> m < queue[0].seqNo
  }

  lemma NewAfterHead(ever: seq<nat>, queue: seq<Envelope>)
    requires forall i, j :: 0 <= i < j < |queue| ==> queue[i].seqNo < queue[j].seqNo
    requires HeadIsNew(ever, queue)
    ensures forall k :: k in Numbers(queue) ==> k !in ever
  {
    forall k | k in Numbers(queue)
      ensures k !in ever
    {
      var i :| 0 <= i < |queue| && queue[i].seqNo == k;
      assert queue[0].seqNo <= k;
    }
  }

  /** In every run, whatever was refused and repeated before: a snapshot and then the queue apply exactly the queued
      numbers, each of them once, and none of them for a second time if and only if the head of the queue lies above
      everything ever applied (or the queue is empty). */
  lemma RepeatsExactly(lim: Limits, now: Time, s: System, steps: seq<Step>, snap: Snap)
    requires Reachable(lim, now, s, steps) && Enabled(lim, s, SendSnapshot(snap))
    ensures var ever, queue := s.collector.ever, s.link.queue;
      && ReceiveAll(s.collector, EnvelopesOf(snap) + queue).ever == ever + Numbers(queue)
      && Ascending(Numbers(queue))
      && ((forall k :: k in Numbers(queue) ==> k !in ever) <==> HeadIsNew(ever, queue))
  {
    EveryRunIsOrderly(lim, now, s, steps);
    EveryRunRemembers(lim, now, s, steps);
    ReceiveSnapshotAndQueue(s, snap);
    QueueIsNewExactly(s.collector.ever, s.link.wire, s.link.queue, Saying(s), s.emitted, s.refused);
  }

  lemma QueueIsNewExactly(
      ever: seq<nat>, wire: seq<Envelope>, queue: seq<Envelope>, log: seq<Envelope>, emitted: nat, refused: set<nat>)
    requires QueueOk(queue, log, emitted, refused) && AllAccounted(ever, wire, queue)
    ensures Ascending(Numbers(queue))
    ensures (forall k :: k in Numbers(queue) ==> k !in ever) <==> HeadIsNew(ever, queue)
  {
    QueueAscends(queue, log, emitted, refused);
    NewExactly(ever, wire, queue);
  }

  lemma NewExactly(ever: seq<nat>, wire: seq<Envelope>, queue: seq<Envelope>)
    requires AllAccounted(ever, wire, queue)
    requires forall i, j :: 0 <= i < j < |queue| ==> queue[i].seqNo < queue[j].seqNo
    ensures (forall k :: k in Numbers(queue) ==> k !in ever) <==> HeadIsNew(ever, queue)
  {
    if HeadIsNew(ever, queue) {
      NewAfterHead(ever, queue);
    } else {
      var m :| m in ever && m >= queue[0].seqNo;
      assert Accounted(ever, wire, queue[0].seqNo);
      assert Numbers(queue)[0] in ever;
    }
  }

  /** A replay is applied in full. */
  lemma ReceiveReplay(c: Collector, sent: seq<Envelope>, wire: seq<Envelope>)
    requires Numbered(sent) && Live(sent) && c.core.cursor <= |sent| && wire == sent[c.core.cursor..]
    ensures ReceiveAll(c, wire).applied == c.applied + Numbers(wire)
    ensures ReceiveAll(c, wire).ever == c.ever + Numbers(wire)
    ensures forall i :: 0 <= i < |wire| ==> Numbers(wire)[i] == c.core.cursor + i + 1
  {
    assert forall i :: 0 <= i < |wire| ==> wire[i] == sent[c.core.cursor + i];
    ReceiveLive(c, wire, |wire|);
    assert wire[..|wire|] == wire && Numbers(wire)[..|wire|] == Numbers(wire);
  }

  /** In every run, whatever was refused and repeated before, a replay applies all it sends and repeats nothing: what
      was ever applied above the cursor has left the ring, so a ring that covers the cursor has nothing of it. */
  lemma ReplayNeverRepeats(lim: Limits, now: Time, s: System, steps: seq<Step>)
    requires Reachable(lim, now, s, steps) && Enabled(lim, s, Attach) && Current(s)
    requires Replays(lim.ring, Log(s), s.collector.core.cursor)
    ensures var ever, wire := s.collector.ever, Next(lim, now, s, Attach).link.wire;
      && ReceiveAll(s.collector, wire).ever == ever + Numbers(wire)
      && Ascending(Numbers(wire))
      && forall k :: k in Numbers(wire) ==> k !in ever
  {
    EveryRunIsOrderly(lim, now, s, steps);
    var c := s.collector;
    var wire := Log(s)[c.core.cursor..];
    ReceiveReplay(c, Log(s), wire);
    ReplaysExactly(lim.ring, Log(s), c.core.cursor);
    forall k | k in Numbers(wire)
      ensures k !in c.ever
    {
      if k in c.ever {
        AboveCursorRolledOut(lim, now, s, steps, k);
      }
    }
  }
}
