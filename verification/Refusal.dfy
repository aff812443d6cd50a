/** What happens to an envelope the full queue refuses, and what a snapshot does to one that was applied. */
module Refusal {
  import opened Basics
  import opened Envelopes
  import opened Processor
  import opened Probe
  import opened Snapshot
  import opened Sections
  import opened Resume
  import opened Delivery
  import opened Once
  import Interner
  import Ring

  /** In every run, when the sink attaches: an envelope that is not applied yet is applied by the catch-up if and only
      if the collector's cursor is positive and below it, and the ring holds as much as was emitted since the
      cursor. Whether the queue refused it plays no part. */
  lemma RedeliveredExactly(lim: Limits, now: Time, s: System, steps: seq<Step>, k: nat)
    requires Reachable(lim, now, s, steps) && Enabled(lim, s, Attach) && 1 <= k <= s.emitted
    requires k !in Greet(s.collector, s.boot).applied
    ensures var t, cursor := Next(lim, now, s, Attach), Greet(s.collector, s.boot).core.cursor;
      k in ReceiveAll(t.collector, t.link.wire).applied <==> 0 < cursor < k && s.emitted - cursor <= lim.ring
  {
    EveryRunIsOrderly(lim, now, s, steps);
    var t := Next(lim, now, s, Attach);
    var c := t.collector;
    ReplaysExactly(lim.ring, Log(s), c.core.cursor);
    if Replays(lim.ring, Log(s), c.core.cursor) {
      ReceiveReplay(c, Log(s), t.link.wire);
      InReplay(c.core.cursor, Numbers(t.link.wire), k);
    }
  }

  lemma InReplay(cursor: nat, numbers: seq<nat>, k: nat)
    requires forall i :: 0 <= i < |numbers| ==> numbers[i] == cursor + i + 1
    ensures k in numbers <==> cursor < k <= cursor + |numbers|
  {
    if cursor < k <= cursor + |numbers| {
      assert numbers[k - cursor - 1] == k;
    }
  }

  /** The collector starts over: a snapshot begins, it greets another boot, or it restarts. */
  predicate Resets(s: System, step: Step) {
    || (step.Deliver? && s.link.wire != [] && s.link.wire[0].payload.SnapshotStart?)
    || ((step.Attach? || step.AttachFails?) && !Current(s))
    || step.RestartCollector?
  }

  /** A run from s to t in which the collector never starts over. */
  ghost predicate Onward(lim: Limits, now: Time, s: System, steps: seq<Step>, t: System)
    decreases |steps|
  {
    if steps == [] then t == s else
      var n := |steps| - 1;
      exists before ::
        && Onward(lim, now, s, steps[..n], before) && Enabled(lim, before, steps[n])
        && !Resets(before, steps[n]) && t == Next(lim, now, before, steps[n])
  }

  /** Until the collector starts over, nothing at or below its cursor is ever applied: what it has missed by then it
      has missed for good. */
  lemma {:induction false} PassedIsPassed(lim: Limits, now: Time, s: System, steps: seq<Step>, t: System)
    requires Increasing(s.collector.applied, s.collector.core.cursor) && Onward(lim, now, s, steps, t)
    ensures Increasing(t.collector.applied, t.collector.core.cursor)
    ensures s.collector.core.cursor <= t.collector.core.cursor && s.collector.applied <= t.collector.applied
    ensures forall k :: k <= s.collector.core.cursor ==> (k in t.collector.applied <==> k in s.collector.applied)
    decreases |steps|
  {
    if steps != [] {
      var n := |steps| - 1;
      var before :|
        && Onward(lim, now, s, steps[..n], before) && Enabled(lim, before, steps[n])
        && !Resets(before, steps[n]) && t == Next(lim, now, before, steps[n]);
      PassedIsPassed(lim, now, s, steps[..n], before);
      OneStepOn(lim, now, before, steps[n], t);
    }
  }

  lemma OneStepOn(lim: Limits, now: Time, s: System, step: Step, t: System)
    requires Increasing(s.collector.applied, s.collector.core.cursor) && Enabled(lim, s, step)
    requires !Resets(s, step) && t == Next(lim, now, s, step)
    ensures Increasing(t.collector.applied, t.collector.core.cursor)
    ensures s.collector.core.cursor <= t.collector.core.cursor && s.collector.applied <= t.collector.applied
    ensures forall k :: k in t.collector.applied && k !in s.collector.applied ==> k > s.collector.core.cursor
  {
    if step.Deliver? {
      ReceiveIncreases(s.collector, s.link.wire[0]);
    }
  }

  // ---- Runs of chunks ----------------------------------------------------------------------------------------

  const CHUNK := PassChunk(0, In, [])

  const NO_SNAP := Snap([], [], [], [])

  function Chunks(now: Time, n: nat): seq<Envelope> {
    seq(n, i requires 0 <= i < n => Envelope(i + 1, now(i + 1), StreamChunk(0, In, [])))
  }

  function UpTo(n: nat): seq<nat> {
    seq(n, i requires 0 <= i < n => i + 1)
  }

  function Machine(now: Time, n: nat): State {
    State(Interner.NO_STRINGS, Probe.START.net, Chunks(now, n))
  }

  lemma OneMoreChunk(now: Time, n: nat)
    ensures ReadOrWrite(Machine(now, n), now, 0, In, []) == Machine(now, n + 1)
  {
    assert Chunks(now, n + 1) == Chunks(now, n) + [Envelope(n + 1, now(n + 1), StreamChunk(0, In, []))];
  }

  /** What the collector has applied. */
  datatype Seen = Seen(cursor: nat, applied: seq<nat>, ever: seq<nat>)

  /** A system whose probe has seen and emitted n chunks and is registered. */
  function Hosted(now: Time, n: nat, link: Link, seen: Seen, refused: set<nat>): System {
    System(Host(Machine(now, n), None), n, 0, link,
           Collector(Core(NO_ALIASES, seen.cursor), Some(0), seen.applied, seen.ever), refused)
  }

  ghost predicate CanReach(lim: Limits, now: Time, s: System) {
    exists steps :: Reachable(lim, now, s, steps)
  }

  lemma Reach(lim: Limits, now: Time, s: System, step: Step, t: System)
    requires CanReach(lim, now, s) && Enabled(lim, s, step) && t == Next(lim, now, s, step)
    ensures CanReach(lim, now, t)
  {
    var steps :| Reachable(lim, now, s, steps);
    var all := steps + [step];
    assert all[..|all| - 1] == steps && all[|all| - 1] == step;
    assert Reachable(lim, now, t, all);
  }

  /** One more chunk happens and is queued. */
  lemma Queued(
    lim: Limits, now: Time, n: nat, l: Link, seen: Seen, refused: set<nat>, queue: seq<Envelope>)
    requires CanReach(lim, now, Hosted(now, n, l, seen, refused))
    requires |l.queue| < lim.queue && queue == l.queue + [Chunks(now, n + 1)[n]]
    ensures CanReach(lim, now, Hosted(now, n + 1, l.(queue := queue), seen, refused))
  {
    OneMoreChunk(now, n);
    var s := Hosted(now, n, l, seen, refused);
    var t := s.(host := Host(Machine(now, n + 1), None));
    Reach(lim, now, s, Work(CHUNK), t);
    Reach(lim, now, t, Emit, Hosted(now, n + 1, l.(queue := queue), seen, refused));
  }

  /** ... or refused. */
  lemma TurnedAway(lim: Limits, now: Time, n: nat, l: Link, seen: Seen, refused: set<nat>, more: set<nat>)
    requires CanReach(lim, now, Hosted(now, n, l, seen, refused)) && |l.queue| >= lim.queue
    requires more == refused + {n + 1}
    ensures CanReach(lim, now, Hosted(now, n + 1, l, seen, more))
  {
    OneMoreChunk(now, n);
    var s := Hosted(now, n, l, seen, refused);
    var t := s.(host := Host(Machine(now, n + 1), None));
    Reach(lim, now, s, Work(CHUNK), t);
    Reach(lim, now, t, Emit, Hosted(now, n + 1, l, seen, more));
  }

  /** The head of the queue is sent. */
  lemma Pumped(
    lim: Limits, now: Time, n: nat, queue: seq<Envelope>, e: Envelope, rest: seq<Envelope>, seen: Seen,
    refused: set<nat>)
    requires CanReach(lim, now, Hosted(now, n, Link(queue, true, [], None), seen, refused)) && queue == [e] + rest
    ensures CanReach(lim, now, Hosted(now, n, Link(rest, true, [e], None), seen, refused))
  {
    assert queue[1..] == rest && [] + [e] == [e];
    Reach(lim, now, Hosted(now, n, Link(queue, true, [], None), seen, refused), Pump,
          Hosted(now, n, Link(rest, true, [e], None), seen, refused));
  }

  /** A chunk above the cursor is applied. */
  lemma Delivered(
    lim: Limits, now: Time, n: nat, queue: seq<Envelope>, wire: seq<Envelope>, rest: seq<Envelope>, before: Seen,
    after: Seen, refused: set<nat>)
    requires CanReach(lim, now, Hosted(now, n, Link(queue, true, wire, None), before, refused))
    requires wire != [] && wire[1..] == rest && wire[0].payload.StreamChunk? && wire[0].seqNo == after.cursor
    requires after.cursor > before.cursor
    requires after.applied == before.applied + [after.cursor] && after.ever == before.ever + [after.cursor]
    ensures CanReach(lim, now, Hosted(now, n, Link(queue, true, rest, None), after, refused))
  {
    Reach(lim, now, Hosted(now, n, Link(queue, true, wire, None), before, refused), Deliver,
          Hosted(now, n, Link(queue, true, rest, None), after, refused));
  }

  /** The head of the queue is sent and applied. */
  lemma Sent(
    lim: Limits, now: Time, n: nat, queue: seq<Envelope>, rest: seq<Envelope>, before: Seen, after: Seen,
    refused: set<nat>)
    requires CanReach(lim, now, Hosted(now, n, Link(queue, true, [], None), before, refused))
    requires queue != [] && rest == queue[1..] && queue[0].payload.StreamChunk?
    requires queue[0].seqNo == after.cursor > before.cursor
    requires after.applied == before.applied + [after.cursor] && after.ever == before.ever + [after.cursor]
    ensures CanReach(lim, now, Hosted(now, n, Link(rest, true, [], None), after, refused))
  {
    var e := queue[0];
    assert queue == [e] + rest && [e][1..] == [];
    Pumped(lim, now, n, queue, e, rest, before, refused);
    Delivered(lim, now, n, rest, [e], [], before, after, refused);
  }

  /** The connection breaks with nothing in flight. */
  lemma Dropped(lim: Limits, now: Time, n: nat, queue: seq<Envelope>, seen: Seen, refused: set<nat>)
    requires CanReach(lim, now, Hosted(now, n, Link(queue, true, [], None), seen, refused))
    ensures CanReach(lim, now, Hosted(now, n, Link(queue, false, [], None), seen, refused))
  {
    Reach(lim, now, Hosted(now, n, Link(queue, true, [], None), seen, refused), Drop(0),
          Hosted(now, n, Link(queue, false, [], None), seen, refused));
  }

  /** The sink attaches and the ring covers the cursor. */
  lemma Replayed(
    lim: Limits, now: Time, n: nat, queue: seq<Envelope>, wire: seq<Envelope>, seen: Seen, refused: set<nat>)
    requires CanReach(lim, now, Hosted(now, n, Link(queue, false, [], None), seen, refused))
    requires 0 < seen.cursor <= n && n - seen.cursor <= lim.ring && wire == Chunks(now, n)[seen.cursor..]
    ensures CanReach(lim, now, Hosted(now, n, Link(queue, true, wire, None), seen, refused))
  {
    var s := Hosted(now, n, Link(queue, false, [], None), seen, refused);
    assert Log(s) == Chunks(now, n);
    ReplaysExactly(lim.ring, Log(s), seen.cursor);
    Reach(lim, now, s, Attach, Hosted(now, n, Link(queue, true, wire, None), seen, refused));
  }

  /** The snapshot of a probe that tracks nothing is sent. */
  lemma Snapshotted(lim: Limits, now: Time, s: System, t: System)
    requires CanReach(lim, now, s) && s.link.reading == Some(Reading(0, |Saying(s)|))
    requires s.host == Host(Machine(now, |Saying(s)|), None)
    requires t == s.(link := Link(s.link.queue, true, [Plain(SnapshotStart)] + [Plain(SnapshotEnd)], None))
    ensures CanReach(lim, now, t)
  {
    assert EnvelopesOf(NO_SNAP) == [Plain(SnapshotStart)] + [Plain(SnapshotEnd)];
    Reach(lim, now, s, SendSnapshot(NO_SNAP), t);
  }

  /** ... and resets the cursor, and with it the memory of what has been applied. */
  lemma Forgotten(lim: Limits, now: Time, n: nat, queue: seq<Envelope>, seen: Seen, refused: set<nat>)
    requires CanReach(lim, now,
      Hosted(now, n, Link(queue, true, [Plain(SnapshotStart)] + [Plain(SnapshotEnd)], None), seen, refused))
    ensures CanReach(lim, now, Hosted(now, n, Link(queue, true, [], None), Seen(0, [], seen.ever), refused))
  {
    var first, last, blank := Plain(SnapshotStart), Plain(SnapshotEnd), Seen(0, [], seen.ever);
    assert ([first] + [last])[1..] == [last] && [last][1..] == [];
    Reach(lim, now, Hosted(now, n, Link(queue, true, [first] + [last], None), seen, refused), Deliver,
          Hosted(now, n, Link(queue, true, [last], None), blank, refused));
    Reach(lim, now, Hosted(now, n, Link(queue, true, [last], None), blank, refused), Deliver,
          Hosted(now, n, Link(queue, true, [], None), blank, refused));
  }

  const NOTHING := Seen(0, [], [])

  lemma FirstAttach(lim: Limits, now: Time)
    ensures CanReach(lim, now, Hosted(now, 0, Link([], true, [], None), NOTHING, {}))
  {
    assert Reachable(lim, now, START_SYSTEM, []);
    assert Chunks(now, 0) == [];
    var s := Hosted(now, 0, Link([], false, [], Some(Reading(0, 0))), NOTHING, {});
    Reach(lim, now, START_SYSTEM, Attach, s);
    var t := s.(link := Link([], true, [Plain(SnapshotStart)] + [Plain(SnapshotEnd)], None));
    Snapshotted(lim, now, s, t);
    Forgotten(lim, now, 0, [], NOTHING, {});
  }

  function Applied(n: nat): Seen {
    Seen(n, UpTo(n), UpTo(n))
  }

  // ---- A run that loses one, whatever the size of the queue ----------------------------------------------------

  /** Nobody pumps while the queue fills up. */
  lemma {:induction false} Filled(lim: Limits, now: Time, n: nat)
    requires n <= lim.queue
    ensures CanReach(lim, now, Hosted(now, n, Link(Chunks(now, n), true, [], None), NOTHING, {}))
  {
    if n == 0 {
      FirstAttach(lim, now);
      assert Chunks(now, 0) == [];
    } else {
      Filled(lim, now, n - 1);
      FilledMore(lim, now, n, Chunks(now, n - 1), Chunks(now, n));
    }
  }

  lemma FilledMore(lim: Limits, now: Time, n: nat, few: seq<Envelope>, more: seq<Envelope>)
    requires 1 <= n <= lim.queue && few == Chunks(now, n - 1) && more == Chunks(now, n)
    requires CanReach(lim, now, Hosted(now, n - 1, Link(few, true, [], None), NOTHING, {}))
    ensures CanReach(lim, now, Hosted(now, n, Link(more, true, [], None), NOTHING, {}))
  {
    assert more == few + [more[n - 1]];
    Queued(lim, now, n - 1, Link(few, true, [], None), NOTHING, {}, more);
  }

  /** One more chunk is refused, and the queue is sent and applied. */
  lemma {:induction false} Drained(lim: Limits, now: Time, n: nat, j: nat)
    requires j <= n == lim.queue
    ensures CanReach(lim, now, Hosted(now, n + 1, Link(Chunks(now, n)[j..], true, [], None), Applied(j), {n + 1}))
  {
    if j == 0 {
      Filled(lim, now, n);
      TurnedAway(lim, now, n, Link(Chunks(now, n), true, [], None), NOTHING, {}, {n + 1});
      assert UpTo(0) == [] && Chunks(now, n)[0..] == Chunks(now, n);
    } else {
      Drained(lim, now, n, j - 1);
      assert Chunks(now, n)[j - 1..][1..] == Chunks(now, n)[j..] && UpTo(j) == UpTo(j - 1) + [j];
      Sent(lim, now, n + 1, Chunks(now, n)[j - 1..], Chunks(now, n)[j..], Applied(j - 1), Applied(j), {n + 1});
    }
  }

  /** The next chunk finds room, gets through and takes the cursor past the refused one. */
  lemma Overtaken(lim: Limits, now: Time, n: nat, seen: Seen)
    requires 1 <= n == lim.queue && seen == Seen(n + 2, UpTo(n) + [n + 2], UpTo(n) + [n + 2])
    ensures CanReach(lim, now, Hosted(now, n + 2, Link([], true, [], None), seen, {n + 1}))
  {
    Drained(lim, now, n, n);
    assert Chunks(now, n)[n..] == [];
    GetsThrough(lim, now, n + 1, Chunks(now, n + 2)[n + 1], Applied(n), seen, {n + 1});
  }

  lemma GetsThrough(lim: Limits, now: Time, n: nat, e: Envelope, before: Seen, after: Seen, refused: set<nat>)
    requires CanReach(lim, now, Hosted(now, n, Link([], true, [], None), before, refused)) && lim.queue >= 1
    requires e == Chunks(now, n + 1)[n] && before.cursor <= n
    requires after == Seen(n + 1, before.applied + [n + 1], before.ever + [n + 1])
    ensures CanReach(lim, now, Hosted(now, n + 1, Link([], true, [], None), after, refused))
  {
    assert [] + [e] == [e] && [e][1..] == [];
    Queued(lim, now, n, Link([], true, [], None), before, refused, [e]);
    Sent(lim, now, n + 1, [e], [], before, after, refused);
  }

  lemma ReachBy(lim: Limits, now: Time, s: System, step: Step, t: System) returns (steps: seq<Step>)
    requires CanReach(lim, now, s) && Enabled(lim, s, step) && t == Next(lim, now, s, step)
    ensures Reachable(lim, now, t, steps) && steps != [] && steps[|steps| - 1] == step
  {
    var before :| Reachable(lim, now, s, before);
    steps := before + [step];
    assert steps[..|steps| - 1] == before;
  }

  /** The sink's promise that an envelope refused by a full queue is delivered on reconnect does not hold, for any
      queue size: there is a run that ends with a reconnect, caught up, without the refused envelope. */
  lemma RefusedCanBeLost(lim: Limits, now: Time) returns (s: System, steps: seq<Step>)
    requires lim.queue >= 1
    ensures Reachable(lim, now, s, steps) && steps != [] && steps[|steps| - 1].Attach?
    ensures s.link == Link([], true, [], None) && s.collector.core.cursor == s.emitted == |Saying(s)|
    ensures lim.queue + 1 in s.refused && lim.queue + 1 < s.emitted && lim.queue + 1 !in s.collector.applied
  {
    var n := lim.queue;
    var seen := Seen(n + 2, UpTo(n) + [n + 2], UpTo(n) + [n + 2]);
    Overtaken(lim, now, n, seen);
    Dropped(lim, now, n + 2, [], seen, {n + 1});
    var t := Hosted(now, n + 2, Link([], false, [], None), seen, {n + 1});
    s := Hosted(now, n + 2, Link([], true, [], None), seen, {n + 1});
    assert Log(t) == Chunks(now, n + 2);
    ReplaysExactly(lim.ring, Log(t), n + 2);
    steps := ReachBy(lim, now, t, Attach, s);
  }

  // ---- A run that applies an envelope twice ------------------------------------------------------------------

  /** One chunk is delivered, then the connection breaks. */
  lemma OneThenDropped(lim: Limits, now: Time, one: Seen)
    requires lim.queue >= 1 && one == Seen(1, [1], [1])
    ensures CanReach(lim, now, Hosted(now, 1, Link([], false, [], None), one, {}))
  {
    Filled(lim, now, 1);
    assert [] + [1] == [1] && Chunks(now, 1)[1..] == [];
    Sent(lim, now, 1, Chunks(now, 1), [], NOTHING, one, {});
    Dropped(lim, now, 1, [], one, {});
  }

  const TWO := Seen(2, [1, 2], [1, 2])

  /** The second chunk is queued during the outage, replayed on reconnect, and still queued when the connection
      breaks again. */
  lemma ReplayedAndQueued(lim: Limits, now: Time, e: Envelope)
    requires lim.queue >= 1 && lim.ring >= 1 && e == Chunks(now, 2)[1]
    ensures CanReach(lim, now, Hosted(now, 2, Link([e], false, [], None), TWO, {}))
  {
    var one := Seen(1, [1], [1]);
    OneThenDropped(lim, now, one);
    assert [] + [e] == [e] && [e][1..] == [] && [1] + [2] == [1, 2] && Chunks(now, 2)[1..] == [e];
    Queued(lim, now, 1, Link([], false, [], None), one, {}, [e]);
    Replayed(lim, now, 2, [e], [e], one, {});
    Delivered(lim, now, 2, [e], [e], [], one, TWO, {});
    Dropped(lim, now, 2, [e], TWO, {});
  }

  /** The queue after j more chunks, and the numbers of those that found it full. */
  function Kept(now: Time, q: nat, j: nat): seq<Envelope>
    requires q >= 1
  {
    Chunks(now, 1 + Ring.Min(q, 1 + j))[1..]
  }

  function Excess(q: nat, j: nat): set<nat> {
    if j == 0 then {} else Excess(q, j - 1) + if j < q then {} else {2 + j}
  }

  lemma {:induction false} ExcessIsNone(q: nat, j: nat)
    ensures Excess(q, j) == {} <==> j < q || j == 0
  {
    if j > 0 {
      ExcessIsNone(q, j - 1);
      if j >= q {
        assert 2 + j in Excess(q, j);
      }
    }
  }

  lemma KeptGrows(now: Time, q: nat, j: nat)
    requires 1 <= j < q
    ensures Kept(now, q, j) == Kept(now, q, j - 1) + [Chunks(now, 2 + j)[1 + j]] && Excess(q, j) == Excess(q, j - 1)
  {
    assert Chunks(now, 2 + j) == Chunks(now, 1 + j) + [Chunks(now, 2 + j)[1 + j]];
  }

  lemma OutageGoesOn(lim: Limits, now: Time, q: nat, j: nat, l: Link)
    requires q == lim.queue >= 1 && j >= 1 && l == Link(Kept(now, q, j - 1), false, [], None)
    requires CanReach(lim, now, Hosted(now, 1 + j, l, TWO, Excess(q, j - 1)))
    ensures CanReach(lim, now, Hosted(now, 2 + j, Link(Kept(now, q, j), false, [], None), TWO, Excess(q, j)))
  {
    if j < q {
      KeptGrows(now, q, j);
      Queued(lim, now, 1 + j, l, TWO, Excess(q, j - 1), Kept(now, q, j));
    } else {
      TurnedAway(lim, now, 1 + j, l, TWO, Excess(q, j - 1), Excess(q, j));
    }
  }

  /** A long outage rolls the ring past the cursor. */
  lemma {:induction false} LongOutage(lim: Limits, now: Time, q: nat, j: nat)
    requires q == lim.queue >= 1 && lim.ring >= 1
    ensures CanReach(lim, now, Hosted(now, 2 + j, Link(Kept(now, q, j), false, [], None), TWO, Excess(q, j)))
  {
    if j == 0 {
      ReplayedAndQueued(lim, now, Chunks(now, 2)[1]);
      assert Kept(now, q, 0) == [Chunks(now, 2)[1]];
    } else {
      LongOutage(lim, now, q, j - 1);
      OutageGoesOn(lim, now, q, j, Link(Kept(now, q, j - 1), false, [], None));
    }
  }

  /** The snapshot that follows makes the collector forget, and the queue offers the second chunk again. */
  lemma AppliedAgain(lim: Limits, now: Time, n: nat, queue: seq<Envelope>, rest: seq<Envelope>, refused: set<nat>)
    requires CanReach(lim, now, Hosted(now, n, Link(queue, false, [], None), TWO, refused)) && n - 2 > lim.ring
    requires queue != [] && rest == queue[1..] && queue[0].payload.StreamChunk? && queue[0].seqNo == 2
    ensures CanReach(lim, now, Hosted(now, n, Link(rest, true, [], None), Seen(2, [2], [1, 2, 2]), refused))
  {
    var s := Hosted(now, n, Link(queue, false, [], None), TWO, refused);
    var t := s.(link := Link(queue, false, [], Some(Reading(0, n))));
    assert Log(s) == Chunks(now, n);
    ReplaysExactly(lim.ring, Log(s), 2);
    Reach(lim, now, s, Attach, t);
    Snapshotted(lim, now, t, t.(link := Link(queue, true, [Plain(SnapshotStart)] + [Plain(SnapshotEnd)], None)));
    Forgotten(lim, now, n, queue, TWO, refused);
    assert [] + [2] == [2] && [1, 2] + [2] == [1, 2, 2];
    Sent(lim, now, n, queue, rest, Seen(0, [], [1, 2]), Seen(2, [2], [1, 2, 2]), refused);
  }

  /** For every size of queue and ring there is a run in which the second chunk is applied before and again after a
      snapshot; with a queue of at least two places more than the ring, nothing needs to be refused for it. */
  lemma CanRepeat(lim: Limits, now: Time) returns (s: System, steps: seq<Step>)
    requires lim.queue >= 1 && lim.ring >= 1
    ensures Reachable(lim, now, s, steps) && Current(s) && s.collector.ever == [1, 2, 2]
    ensures s.refused == {} <==> lim.queue >= lim.ring + 2
  {
    var q, j := lim.queue, lim.ring + 1;
    var queue := Kept(now, q, j);
    LongOutage(lim, now, q, j);
    AppliedAgain(lim, now, 2 + j, queue, queue[1..], Excess(q, j));
    ExcessIsNone(q, j);
    s := Hosted(now, 2 + j, Link(queue[1..], true, [], None), Seen(2, [2], [1, 2, 2]), Excess(q, j));
    steps :| Reachable(lim, now, s, steps);
  }

  /** No run without refusals applies an envelope twice. */
  ghost predicate NeverRepeats(lim: Limits, now: Time) {
    forall s: System, steps: seq<Step> ::
      Reachable(lim, now, s, steps) && Current(s) && s.refused == {} ==> Ascending(s.collector.ever)
  }

  /** That is so if and only if the queue has at most one place more than the ring. */
  lemma NeverRepeatsExactly(lim: Limits, now: Time)
    requires lim.ring >= 1
    ensures NeverRepeats(lim, now) <==> lim.queue <= lim.ring + 1
  {
    if lim.queue <= lim.ring + 1 {
      forall s: System, steps: seq<Step> | Reachable(lim, now, s, steps) && Current(s) && s.refused == {}
        ensures Ascending(s.collector.ever)
      {
        NeverAppliedTwice(lim, now, s, steps);
      }
    } else {
      var s, steps := CanRepeat(lim, now);
      assert s.collector.ever[1] == s.collector.ever[2];
    }
  }
}
