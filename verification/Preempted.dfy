/** Runs of the resume protocol with a preempted handler, which applies the one envelope it has read at a later time. */
module Preempted {
  import opened Basics
  import opened Envelopes
  import opened Processor
  import opened Probe
  import opened Mirror
  import opened Snapshot
  import opened Sections
  import opened Resume
  import opened Delivery
  import opened Once
  import opened Convergence
  import opened Late
  import Interner
  import Refusal
  import Ring

  /** The system, and what a preempted handler has read and not yet applied. */
  datatype Held = Held(sys: System, hand: Option<Envelope>)

  datatype Move =
    | Take(step: Step)    // any step of the protocol
    | Preempt             // a handler has read one envelope when its connection is closed
    | Put                 // it applies it
    | AttachLate          // ... between its successor's reset of the source and the reading of the cursor

  ghost predicate CanMove(lim: Limits, h: Held, m: Move) {
    match m
    case Take(step) => Enabled(lim, h.sys, step)
    case Preempt => h.hand.None? && h.sys.link.wire != []
    case Put => h.hand.Some?
    case AttachLate => h.hand.Some? && Enabled(lim, h.sys, Attach)
  }

  /** The cursor that the successor reads is that of the late envelope. */
  function LateAttach(lim: Limits, s: System, e: Envelope): System
    requires s.emitted <= |Saying(s)|
  {
    var c := Receive(Greet(s.collector, s.boot), e);
    s.(collector := c.(registered := Some(s.boot)), link := Catchup(lim.ring, s, c.core.cursor))
  }

  ghost function After(lim: Limits, now: Time, h: Held, m: Move): Held
    requires CanMove(lim, h, m)
  {
    match m
    case Take(step) => Held(Next(lim, now, h.sys, step), h.hand)
    case Preempt => Held(h.sys.(link := Broken(h.sys.link, 0)), Some(h.sys.link.wire[0]))
    case Put => Held(h.sys.(collector := Receive(h.sys.collector, h.hand.value)), None)
    case AttachLate => Held(LateAttach(lim, h.sys, h.hand.value), None)
  }

  ghost predicate Runs(lim: Limits, now: Time, h: Held, moves: seq<Move>)
    decreases |moves|
  {
    if moves == [] then h == Held(START_SYSTEM, None) else
      var n := |moves| - 1;
      exists before ::
        && Runs(lim, now, before, moves[..n]) && CanMove(lim, before, moves[n])
        && h == After(lim, now, before, moves[n])
  }

  // ---- Before the cursor is read -----------------------------------------------------------------------------

  /** The catch-up brings the envelope numbered k: by a snapshot, or in its replay. */
  predicate Served(s: System, k: nat) {
    s.link.reading.Some? || k in Numbers(s.link.wire)
  }

  lemma LateCursor(lim: Limits, s: System, e: Envelope, t: System)
    requires s.emitted <= |Saying(s)| && Numbered(Saying(s)) && !Current(s) && Applies(0, e)
    requires t == LateAttach(lim, s, e)
    ensures t.collector.core.cursor == e.seqNo
    ensures t.link.reading.Some? <==> s.emitted > lim.ring + e.seqNo
    ensures forall k :: 1 <= k <= s.emitted ==> (Served(t, k) <==> k > e.seqNo || s.emitted > lim.ring + e.seqNo)
  {
    ReplaysExactly(lim.ring, Log(s), e.seqNo);
    var from := Ring.Min(e.seqNo, s.emitted);
    forall k | 1 <= k <= s.emitted
      ensures Served(t, k) <==> k > e.seqNo || s.emitted > lim.ring + e.seqNo
    {
      if t.link.reading.None? {
        assert t.link.wire == Log(s)[from..] && t.link.reading.None?;
        InSuffix(Log(s), from, t.link.wire, k);
      }
    }
  }

  lemma {:induction false} RunsKeepHost(lim: Limits, now: Time, h: Held, moves: seq<Move>)
    requires Runs(lim, now, h, moves)
    ensures HostOk(h.sys.host)
    decreases |moves|
  {
    if moves == [] {
      StartOk();
    } else {
      var n := |moves| - 1;
      var before :|
        && Runs(lim, now, before, moves[..n]) && CanMove(lim, before, moves[n])
        && h == After(lim, now, before, moves[n]);
      RunsKeepHost(lim, now, before, moves[..n]);
      if moves[n].Take? {
        StepKeepsHost(lim, now, before.sys, moves[n].step);
      }
    }
  }

  /** The listener resets the source before it reads the cursor so that a new boot is told 0 and sends a snapshot. If
      in some run an envelope numbered n comes between the two, the boot is told n. It then sends a snapshot if and
      only if it has emitted more than the ring holds beyond n; otherwise exactly the envelopes above n are served. */
  lemma LateBeforeCursorExactly(lim: Limits, now: Time, h: Held, moves: seq<Move>)
    requires Runs(lim, now, h, moves) && CanMove(lim, h, AttachLate) && !Current(h.sys) && Applies(0, h.hand.value)
    ensures var s, n, t := h.sys, h.hand.value.seqNo, After(lim, now, h, AttachLate).sys;
      && t.collector.core.cursor == n
      && (t.link.reading.Some? <==> s.emitted > lim.ring + n)
      && forall k :: 1 <= k <= s.emitted ==> (Served(t, k) <==> k > n || s.emitted > lim.ring + n)
  {
    RunsKeepHost(lim, now, h, moves);
    ProbeOkLive(h.sys.host.state);
    LateCursor(lim, h.sys, h.hand.value, After(lim, now, h, AttachLate).sys);
  }

  lemma InSuffix(log: seq<Envelope>, from: nat, wire: seq<Envelope>, k: nat)
    requires Numbered(log) && from <= |log| && wire == log[from..] && 1 <= k <= |log|
    ensures k in Numbers(wire) <==> k > from
  {
    if k > from {
      assert Numbers(wire)[k - from - 1] == k;
    }
  }

  /** ... and the others, should they come by way of the queue or be emitted later, are skipped until some snapshot
      starts. */
  lemma {:induction false} PassedAreSkipped(c: Collector, es: seq<Envelope>, i: nat)
    requires i < |es| && 0 < es[i].seqNo <= c.core.cursor && !es[i].payload.SnapshotEnd?
    requires forall j :: 0 <= j <= i ==> !es[j].payload.SnapshotStart?
    ensures !Takes(c, es, i)
  {
    EndIsCursor(c, es[..i]);
    NotBelow(c.core.cursor, es, i);
  }

  lemma {:induction false} NotBelow(cursor: nat, es: seq<Envelope>, n: nat)
    requires n <= |es| && forall j :: 0 <= j < n ==> !es[j].payload.SnapshotStart?
    ensures cursor <= End(cursor, es[..n])
  {
    if n == 0 {
      assert es[..0] == [];
    } else {
      NotBelow(cursor, es, n - 1);
      assert es[..n][..n - 1] == es[..n - 1] && es[..n][n - 1] == es[n - 1];
    }
  }

  // ---- Two runs that lose an envelope --------------------------------------------------------------------------

  /** The preempted handler applies its envelope in one way only. */
  ghost predicate Only(late: Move, moves: seq<Move>) {
    forall m :: m in moves && (m.Put? || m.AttachLate?) ==> m == late
  }

  ghost predicate CanGet(lim: Limits, now: Time, h: Held, late: Move) {
    exists moves :: Runs(lim, now, h, moves) && Only(late, moves)
  }

  lemma Go(lim: Limits, now: Time, h: Held, m: Move, g: Held, late: Move)
    requires CanGet(lim, now, h, late) && CanMove(lim, h, m) && g == After(lim, now, h, m)
    requires m.Take? || m.Preempt? || m == late
    ensures CanGet(lim, now, g, late)
  {
    var moves :| Runs(lim, now, h, moves) && Only(late, moves);
    var all := moves + [m];
    assert all[..|all| - 1] == moves && all[|all| - 1] == m;
    assert Runs(lim, now, g, all) && Only(late, all);
  }

  /** Every run of the protocol is one in which no handler is preempted. */
  lemma {:induction false} PlainRuns(lim: Limits, now: Time, s: System, steps: seq<Step>, late: Move)
    requires Reachable(lim, now, s, steps)
    ensures CanGet(lim, now, Held(s, None), late)
    decreases |steps|
  {
    if steps == [] {
      assert Runs(lim, now, Held(s, None), []) && Only(late, []);
    } else {
      var n := |steps| - 1;
      var before :|
        && Reachable(lim, now, before, steps[..n]) && Enabled(lim, before, steps[n])
        && s == Next(lim, now, before, steps[n]);
      PlainRuns(lim, now, before, steps[..n], late);
      Go(lim, now, Held(before, None), Take(steps[n]), Held(s, None), late);
    }
  }

  const QUIET := Link([], false, [], None)

  /** A probe in its second boot, which has interned nothing or one string. */
  function Fresh(link: Link, collector: Collector): System {
    System(START_HOST, 0, 1, link, collector, {})
  }

  function Definition(now: Time, s: string): Envelope {
    Envelope(1, now(1), StringDef(0, s))
  }

  function OneString(now: Time, s: string, link: Link, collector: Collector): System {
    System(Host(State(Interner.Table([s], map[s := 0]), Probe.START.net, [Definition(now, s)]), None), 1, 1, link,
           collector, {})
  }

  /** The first boot's only chunk is on its way. */
  lemma OnItsWay(lim: Limits, now: Time, e: Envelope, sent: System, late: Move)
    requires lim.queue >= 1 && e == Refusal.Chunks(now, 1)[0]
    requires sent == Refusal.Hosted(now, 1, Link([], true, [e], None), Refusal.NOTHING, {})
    ensures CanGet(lim, now, Held(sent, None), late)
  {
    Refusal.Filled(lim, now, 1);
    assert Refusal.Chunks(now, 1) == [e] + [];
    Refusal.Pumped(lim, now, 1, Refusal.Chunks(now, 1), e, [], Refusal.NOTHING, {});
    var steps :| Reachable(lim, now, sent, steps);
    PlainRuns(lim, now, sent, steps, late);
  }

  /** A handler has read it when it is preempted; the probe restarts. */
  lemma LeftInHand(lim: Limits, now: Time, e: Envelope, late: Move)
    requires lim.queue >= 1 && e == Refusal.Chunks(now, 1)[0]
    ensures CanGet(lim, now, Held(Fresh(QUIET, Collector(BLANK, Some(0), [], [])), Some(e)), late)
  {
    var sent := Refusal.Hosted(now, 1, Link([], true, [e], None), Refusal.NOTHING, {});
    var broken := Held(sent.(link := QUIET), Some(e));
    OnItsWay(lim, now, e, sent, late);
    Go(lim, now, Held(sent, None), Preempt, broken, late);
    Go(lim, now, broken, Take(RestartProbe(0)), Held(Fresh(QUIET, sent.collector), Some(e)), late);
  }

  /** The second boot defines a string. */
  lemma Defines(
      lim: Limits, now: Time, s: string, link: Link, queue: seq<Envelope>, c: Collector, hand: Option<Envelope>,
      late: Move)
    requires CanGet(lim, now, Held(Fresh(link, c), hand), late) && lim.queue >= 1
    requires link.queue == [] && queue == [Definition(now, s)]
    ensures CanGet(lim, now, Held(OneString(now, s, link.(queue := queue), c), hand), late)
  {
    var f := Definition(now, s);
    var t := OneString(now, s, link, c).(emitted := 0);
    assert Act(START_HOST, now, InternOne(s)) == t.host by {
      assert [] + [s] == [s] && [] + [f] == [f];
    }
    Go(lim, now, Held(Fresh(link, c), hand), Take(Work(InternOne(s))), Held(t, hand), late);
    assert [] + [f] == queue;
    Go(lim, now, Held(t, hand), Take(Emit), Held(OneString(now, s, link.(queue := queue), c), hand), late);
  }

  /** The collector as the chunk of the first boot leaves it. */
  const PASSED := Collector(Core(NO_ALIASES, 1), Some(1), [1], [1])

  /** The chunk is applied before the cursor is read: the boot is told 1 and replays nothing. */
  lemma ToldTooMuch(lim: Limits, now: Time, s: string, e: Envelope, late: Move)
    requires late == AttachLate && lim.queue >= 1 && e == Refusal.Chunks(now, 1)[0]
    ensures CanGet(lim, now, Held(OneString(now, s, Link([Definition(now, s)], true, [], None), PASSED), None), late)
  {
    var f, c := Definition(now, s), Collector(BLANK, Some(0), [], []);
    LeftInHand(lim, now, e, late);
    Defines(lim, now, s, QUIET, [f], c, Some(e), late);
    var t := OneString(now, s, Link([f], false, [], None), c);
    ChunkPasses(c, e);
    assert Log(t) == [f] && [f][1..] == [];
    Go(lim, now, Held(t, Some(e)), AttachLate, Held(OneString(now, s, Link([f], true, [], None), PASSED), None), late);
  }

  /** The second boot attaches and its empty snapshot is applied. */
  lemma SecondSnapshot(lim: Limits, now: Time, e: Envelope, c: Collector, late: Move)
    requires CanGet(lim, now, Held(Fresh(QUIET, Collector(BLANK, Some(0), [], [])), Some(e)), late)
    requires c == Collector(BLANK, Some(1), [], [])
    ensures CanGet(lim, now, Held(Fresh(Link([], true, [], None), c), Some(e)), late)
  {
    var a := Fresh(Link([], false, [], Some(Reading(0, 0))), c);
    Go(lim, now, Held(Fresh(QUIET, Collector(BLANK, Some(0), [], [])), Some(e)), Take(Attach), Held(a, Some(e)), late);
    EmptySnapshotSent(lim, now, e, c, a, late);
    EmptySnapshotApplied(lim, now, e, c, Plain(SnapshotStart), Plain(SnapshotEnd), late);
  }

  lemma EmptySnapshotSent(lim: Limits, now: Time, e: Envelope, c: Collector, a: System, late: Move)
    requires a == Fresh(Link([], false, [], Some(Reading(0, 0))), c) && CanGet(lim, now, Held(a, Some(e)), late)
    ensures CanGet(lim, now,
      Held(Fresh(Link([], true, [Plain(SnapshotStart)] + [Plain(SnapshotEnd)], None), c), Some(e)), late)
  {
    var wire := [Plain(SnapshotStart)] + [Plain(SnapshotEnd)];
    assert EnvelopesOf(Refusal.NO_SNAP) == wire;
    Go(lim, now, Held(a, Some(e)), Take(SendSnapshot(Refusal.NO_SNAP)),
       Held(Fresh(Link([], true, wire, None), c), Some(e)), late);
  }

  lemma EmptySnapshotApplied(
      lim: Limits, now: Time, e: Envelope, c: Collector, first: Envelope, last: Envelope, late: Move)
    requires first == Plain(SnapshotStart) && last == Plain(SnapshotEnd) && c == Collector(BLANK, Some(1), [], [])
    requires CanGet(lim, now, Held(Fresh(Link([], true, [first] + [last], None), c), Some(e)), late)
    ensures CanGet(lim, now, Held(Fresh(Link([], true, [], None), c), Some(e)), late)
  {
    var b, d := Fresh(Link([], true, [first] + [last], None), c), Fresh(Link([], true, [last], None), c);
    assert ([first] + [last])[1..] == [last] && [last][1..] == [];
    Go(lim, now, Held(b, Some(e)), Take(Deliver), Held(d, Some(e)), late);
    Go(lim, now, Held(d, Some(e)), Take(Deliver), Held(Fresh(Link([], true, [], None), c), Some(e)), late);
  }

  /** The chunk is applied after the snapshot: it takes the cursor past what is queued. */
  lemma Overtakes(lim: Limits, now: Time, s: string, e: Envelope, late: Move)
    requires late == Put && lim.queue >= 1 && e == Refusal.Chunks(now, 1)[0]
    ensures CanGet(lim, now, Held(OneString(now, s, Link([Definition(now, s)], true, [], None), PASSED), None), late)
  {
    var f, c, l := Definition(now, s), Collector(BLANK, Some(1), [], []), Link([], true, [], None);
    LeftInHand(lim, now, e, late);
    SecondSnapshot(lim, now, e, c, late);
    Defines(lim, now, s, l, [f], c, Some(e), late);
    ChunkPasses(c, e);
    Go(lim, now, Held(OneString(now, s, l.(queue := [f]), c), Some(e)), Put,
       Held(OneString(now, s, l.(queue := [f]), PASSED), None), late);
  }

  lemma ChunkPasses(c: Collector, e: Envelope)
    requires c.core == BLANK && c.applied == [] && c.ever == [] && e.seqNo == 1 && e.payload.StreamChunk?
    ensures Receive(c, e) == PASSED.(registered := c.registered)
  {
    assert [] + [1] == [1];
  }

  /** Nothing was refused, and everything the second boot said was sent and received. */
  lemma DefinitionSkipped(lim: Limits, now: Time, s: string, f: Envelope, end: Held, late: Move)
    requires CanGet(lim, now, Held(OneString(now, s, Link([f], true, [], None), PASSED), None), late)
    requires f == Definition(now, s) && end == Held(OneString(now, s, Link([], true, [], None), PASSED), None)
    ensures CanGet(lim, now, end, late)
  {
    var a := OneString(now, s, Link([f], true, [], None), PASSED);
    var b := OneString(now, s, Link([], true, [f], None), PASSED);
    assert [f][1..] == [] && [] + [f] == [f];
    Go(lim, now, Held(a, None), Take(Pump), Held(b, None), late);
    SkippedMeans(PASSED, f);
    Go(lim, now, Held(b, None), Take(Deliver), end, late);
  }

  /** For all sizes of queue and ring, a chunk of the previous boot that comes late, be it before its successor has
      read the cursor or after the snapshot, makes a collector that has caught up with a boot that refused nothing show
      something else than the boot's log: a string is lost. */
  lemma LateLosesEnvelope(lim: Limits, now: Time, s: string, late: Move) returns (h: Held, moves: seq<Move>)
    requires lim.queue >= 1 && (late == AttachLate || late == Put)
    ensures Runs(lim, now, h, moves) && Only(late, moves)
    ensures CaughtUp(h.sys) && h.sys.refused == {} && h.hand.None?
    ensures Saying(h.sys) == [Envelope(1, now(1), StringDef(0, s))]
    ensures 0 !in h.sys.collector.core.aliases.strings
    ensures ViewOf(h.sys.collector.core.aliases) != ViewOf(Replay(NO_ALIASES, Saying(h.sys)))
  {
    var e := Refusal.Chunks(now, 1)[0];
    var f := Definition(now, s);
    if late == AttachLate {
      ToldTooMuch(lim, now, s, e, late);
    } else {
      Overtakes(lim, now, s, e, late);
    }
    h := Held(OneString(now, s, Link([], true, [], None), PASSED), None);
    DefinitionSkipped(lim, now, s, f, h, late);
    moves :| Runs(lim, now, h, moves) && Only(late, moves);
    assert [f][..0] == [];
    assert 0 in Replay(NO_ALIASES, [f]).strings;
  }
}
