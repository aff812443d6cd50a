/** The one envelope a preempted handler may have read and not yet applied: it reaches the collector at any later time,
    in the middle of a catch-up or of another boot, and can make the collector skip what is to come. */
module Late {
  import opened Basics
  import opened Envelopes
  import opened Processor
  import opened Probe
  import opened Resume
  import opened Delivery
  import opened Remembered
  import opened Once

  // ---- What a late envelope does to those that are to come -----------------------------------------------------

  /** The collector has passed the envelope. */
  predicate Skipped(cursor: nat, e: Envelope) {
    !e.payload.SnapshotStart? && !e.payload.SnapshotEnd? && 0 < e.seqNo <= cursor
  }

  lemma SkippedMeans(c: Collector, e: Envelope)
    ensures Skipped(c.core.cursor, e) ==> Receive(c, e) == c
    ensures !Skipped(c.core.cursor, e) && !e.payload.SnapshotEnd? ==>
      Receive(c, e).core.aliases == ApplyAlias(c.core.aliases, e.payload)
  {
    assert c.applied + [] == c.applied && c.ever + [] == c.ever;
  }

  /** Among envelopes that arrive one after the other, the i-th takes effect. */
  predicate Takes(c: Collector, es: seq<Envelope>, i: nat)
    requires i < |es|
  {
    !Skipped(ReceiveAll(c, es[..i]).core.cursor, es[i])
  }

  predicate TakesAt(cursor: nat, es: seq<Envelope>, i: nat)
    requires i < |es|
  {
    !Skipped(End(cursor, es[..i]), es[i])
  }

  lemma {:induction false} EndIsCursor(c: Collector, es: seq<Envelope>)
    ensures ReceiveAll(c, es).core.cursor == End(c.core.cursor, es)
    decreases |es|
  {
    if es == [] {
      assert ReceiveAll(c, es) == c;
    } else {
      EndIsCursor(c, es[..|es| - 1]);
    }
  }

  /** The first live envelope above the cursor, if it comes before a snapshot starts. */
  function FirstToApply(cursor: nat, es: seq<Envelope>): Option<Envelope> {
    if es == [] || es[0].payload.SnapshotStart? then None
    else if Applies(cursor, es[0]) then Some(es[0])
    else FirstToApply(cursor, es[1..])
  }

  /** The late envelope does not move the cursor up, or not up to what is applied next, or is itself that. */
  predicate Harmless(cursor: nat, e: Envelope, es: seq<Envelope>) {
    var first := FirstToApply(cursor, es);
    !Applies(cursor, e) || first.None? || e.seqNo < first.value.seqNo || e == first.value
  }

  /** The i-th would take effect, and does not after e. */
  predicate Lost(cursor: nat, e: Envelope, es: seq<Envelope>, i: nat)
    requires i < |es|
  {
    TakesAt(cursor, es, i) && !TakesAt(NextCursor(cursor, e), es, i) && es[i] != e
  }

  lemma {:induction false} LowerEnd(a: nat, b: nat, es: seq<Envelope>)
    requires b <= a
    ensures End(b, es) <= End(a, es)
    decreases |es|
  {
    if es == [] {
      assert End(a, es) == a && End(b, es) == b;
    } else {
      LowerEnd(a, b, es[..|es| - 1]);
    }
  }

  lemma TakesFront(cursor: nat, es: seq<Envelope>, tail: seq<Envelope>, i: nat)
    requires 0 < i < |es| && tail == es[1..]
    ensures TakesAt(cursor, es, i) == TakesAt(NextCursor(cursor, es[0]), tail, i - 1)
  {
    assert es[..i] == [es[0]] + tail[..i - 1];
    EndAppend(cursor, [es[0]], tail[..i - 1]);
    assert [es[0]][..0] == [];
  }

  /** Two cursors that the first envelope makes equal stay so. */
  lemma SameAfterFirst(a: nat, b: nat, es: seq<Envelope>, i: nat)
    requires 0 < i < |es| && NextCursor(a, es[0]) == NextCursor(b, es[0])
    ensures TakesAt(a, es, i) == TakesAt(b, es, i)
  {
    TakesFront(a, es, es[1..], i);
    TakesFront(b, es, es[1..], i);
  }

  lemma {:induction false} FindsLost(cursor: nat, e: Envelope, es: seq<Envelope>) returns (i: nat)
    requires !Harmless(cursor, e, es)
    ensures i < |es| && Lost(cursor, e, es, i)
    decreases |es|
  {
    assert es[..0] == [];
    if Applies(cursor, es[0]) {
      i := 0;
    } else {
      var j := FindsLost(cursor, e, es[1..]);
      i := j + 1;
      TakesFront(cursor, es, es[1..], i);
      TakesFront(e.seqNo, es, es[1..], i);
    }
  }

  lemma {:induction false} NothingLost(cursor: nat, e: Envelope, es: seq<Envelope>, i: nat)
    requires Harmless(cursor, e, es) && i < |es|
    ensures !Lost(cursor, e, es, i)
    decreases |es|
  {
    var late := NextCursor(cursor, e);
    assert es[..0] == [];
    if !Applies(cursor, e) {
      LowerEnd(cursor, late, es[..i]);
    } else if i > 0 {
      if es[0].payload.SnapshotStart? || Applies(cursor, es[0]) {
        SameAfterFirst(cursor, late, es, i);
      } else {
        NothingLost(cursor, e, es[1..], i - 1);
        TakesFront(cursor, es, es[1..], i);
        TakesFront(late, es, es[1..], i);
      }
    }
  }

  lemma LostMeans(c: Collector, e: Envelope, es: seq<Envelope>, i: nat)
    requires i < |es|
    ensures Lost(c.core.cursor, e, es, i) <==> Takes(c, es, i) && !Takes(Receive(c, e), es, i) && es[i] != e
  {
    EndIsCursor(c, es[..i]);
    EndIsCursor(Receive(c, e), es[..i]);
  }

  /** Whatever envelope e comes late, of this boot or of an earlier one, and whatever is to come: each of those
      envelopes that would have taken effect still does, or is e itself, if and only if e does not apply, or is
      numbered below the first one to apply before a snapshot starts, or is that one. */
  lemma LateHarmsExactly(c: Collector, e: Envelope, es: seq<Envelope>)
    ensures (forall i :: 0 <= i < |es| && Takes(c, es, i) ==> Takes(Receive(c, e), es, i) || es[i] == e)
      <==> Harmless(c.core.cursor, e, es)
  {
    if Harmless(c.core.cursor, e, es) {
      forall i | 0 <= i < |es| && Takes(c, es, i)
        ensures Takes(Receive(c, e), es, i) || es[i] == e
      {
        NothingLost(c.core.cursor, e, es, i);
        LostMeans(c, e, es, i);
      }
    } else {
      var i := FindsLost(c.core.cursor, e, es);
      LostMeans(c, e, es, i);
    }
  }

  /** For a catch-up of live envelopes in order, of which none is to be skipped, that means: there are none, or e is
      numbered below the first, or is the first. */
  lemma LateHarmsReplayExactly(c: Collector, e: Envelope, es: seq<Envelope>)
    requires Applies(c.core.cursor, e) && (es != [] ==> Applies(c.core.cursor, es[0]))
    ensures (forall i :: 0 <= i < |es| && Takes(c, es, i) ==> Takes(Receive(c, e), es, i) || es[i] == e)
      <==> es == [] || e.seqNo < es[0].seqNo || e == es[0]
  {
    LateHarmsExactly(c, e, es);
  }

  lemma ReceiveFront(c: Collector, e: Envelope, es: seq<Envelope>)
    ensures ReceiveAll(c, [e] + es) == ReceiveAll(Receive(c, e), es)
  {
    ReceiveAppend(c, [e], es);
    assert [e][..0] == [];
  }

  /** A late envelope that is the first to come makes no difference at all. */
  lemma FirstIsAbsorbed(c: Collector, e: Envelope, es: seq<Envelope>)
    requires es != [] && es[0] == e && Applies(c.core.cursor, e)
    ensures ReceiveAll(Receive(c, e), es) == ReceiveAll(c, es)
  {
    var tail := es[1..];
    assert es == [e] + tail;
    SkippedMeans(Receive(c, e), e);
    ReceiveFront(c, e, tail);
    ReceiveFront(Receive(c, e), e, tail);
  }

  lemma {:induction false} SameCore(c: Collector, d: Collector, es: seq<Envelope>)
    requires c.core == d.core
    ensures ReceiveAll(c, es).core == ReceiveAll(d, es).core
    decreases |es|
  {
    if es != [] {
      SameCore(c, d, es[..|es| - 1]);
    }
  }

  /** A snapshot that starts afterwards leaves no trace of it in the alias state and the cursor. */
  lemma SnapshotHeals(c: Collector, e: Envelope, es: seq<Envelope>)
    requires es != [] && es[0].payload == SnapshotStart
    ensures ReceiveAll(Receive(c, e), es).core == ReceiveAll(c, es).core
  {
    var tail := es[1..];
    assert es == [es[0]] + tail;
    ReceiveFront(c, es[0], tail);
    ReceiveFront(Receive(c, e), es[0], tail);
    SameCore(Receive(c, es[0]), Receive(Receive(c, e), es[0]), tail);
  }

  // ---- An envelope of the same boot ------------------------------------------------------------------------------

  /** In every run, when the sink is attached again and sends a replay: the envelope its predecessor left in the
      handler's hands does the replay no harm if and only if it is numbered right above the cursor; it is then the very
      envelope the replay begins with and makes no difference at all. */
  lemma SameBootHarmsExactly(lim: Limits, now: Time, s: System, steps: seq<Step>, e: Envelope)
    requires Reachable(lim, now, s, steps) && Enabled(lim, s, Attach) && Current(s)
    requires Replays(lim.ring, Log(s), s.collector.core.cursor)
    requires s.link.wire != [] && e == s.link.wire[0] && Applies(s.collector.core.cursor, e)
    ensures var t, cursor := Next(lim, now, s, Attach), s.collector.core.cursor;
      var c, es := t.collector, t.link.wire;
      && ((forall i :: 0 <= i < |es| && Takes(c, es, i) ==> Takes(Receive(c, e), es, i) || es[i] == e)
          <==> e.seqNo == cursor + 1)
      && (e.seqNo == cursor + 1 ==> es != [] && es[0] == e && ReceiveAll(Receive(c, e), es) == ReceiveAll(c, es))
  {
    var c := s.collector;
    ReplayOnTime(lim, now, s, steps, e, Next(lim, now, s, Attach));
    HarmsFromHead(c, e, Next(lim, now, s, Attach).link.wire);
  }

  lemma HarmsFromHead(c: Collector, e: Envelope, es: seq<Envelope>)
    requires Applies(c.core.cursor, e) && es != [] && Applies(c.core.cursor, es[0])
    requires es[0].seqNo == c.core.cursor + 1 && (e == es[0] <==> e.seqNo == c.core.cursor + 1)
    ensures (forall i :: 0 <= i < |es| && Takes(c, es, i) ==> Takes(Receive(c, e), es, i) || es[i] == e)
      <==> e.seqNo == c.core.cursor + 1
    ensures e.seqNo == c.core.cursor + 1 ==> ReceiveAll(Receive(c, e), es) == ReceiveAll(c, es)
  {
    LateHarmsReplayExactly(c, e, es);
    if e.seqNo == c.core.cursor + 1 {
      FirstIsAbsorbed(c, e, es);
    }
  }

  /** The replay begins right above the cursor, and what is left over is an envelope of the same log. */
  lemma ReplayOnTime(lim: Limits, now: Time, s: System, steps: seq<Step>, e: Envelope, t: System)
    requires Reachable(lim, now, s, steps) && Enabled(lim, s, Attach) && t == Next(lim, now, s, Attach) && Current(s)
    requires Replays(lim.ring, Log(s), s.collector.core.cursor)
    requires s.link.wire != [] && e == s.link.wire[0] && Applies(s.collector.core.cursor, e)
    ensures t.collector == s.collector
    ensures var cursor, es := s.collector.core.cursor, t.link.wire;
      && es != [] && Applies(cursor, es[0]) && es[0].seqNo == cursor + 1
      && (e == es[0] <==> e.seqNo == cursor + 1)
  {
    EveryRunIsOrderly(lim, now, s, steps);
    EveryRunRemembers(lim, now, s, steps);
    assert t.link.wire == Log(s)[s.collector.core.cursor..];
    HeadOfReplay(Saying(s), s.emitted, s.collector.core.cursor, e, t.link.wire);
  }

  lemma HeadOfReplay(log: seq<Envelope>, emitted: nat, cursor: nat, e: Envelope, wire: seq<Envelope>)
    requires Numbered(log) && Live(log) && cursor < e.seqNo <= emitted <= |log| && e == log[e.seqNo - 1]
    requires wire == log[..emitted][cursor..]
    ensures wire != [] && wire[0] == log[cursor] && Applies(cursor, wire[0])
    ensures e == wire[0] <==> e.seqNo == cursor + 1
  {
  }

  /** As long as nothing was refused, that is always so. */
  lemma SameBootIsHarmless(lim: Limits, now: Time, s: System, steps: seq<Step>, e: Envelope)
    requires Reachable(lim, now, s, steps) && Enabled(lim, s, Attach) && Current(s) && s.refused == {}
    requires Replays(lim.ring, Log(s), s.collector.core.cursor)
    requires s.link.wire != [] && e == s.link.wire[0] && Applies(s.collector.core.cursor, e)
    ensures var t := Next(lim, now, s, Attach);
      ReceiveAll(Receive(t.collector, e), t.link.wire) == ReceiveAll(t.collector, t.link.wire)
  {
    EveryRunIsOrderly(lim, now, s, steps);
    assert s.link.wire[..0] == [];
    assert Fits(End(s.collector.core.cursor, []), e, s.refused);
    NoGap(s.collector.core.cursor, e.seqNo, s.refused);
    SameBootHarmsExactly(lim, now, s, steps, e);
  }
}
