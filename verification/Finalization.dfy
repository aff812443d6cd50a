/** The processor's slots over whole runs: live tables, finalized tables and the retention window. */
module Finalization {
  import opened SlotClock
  import opened SlotTables
  import opened Processor
  import Slots

  /** The head of slot k's table depends on the clock only. */
  function RefFor(c: Clock, k: nat): SlotRef {
    var perEpoch := if c.slotsPerEpoch == 0 then DEFAULT_SLOTS_PER_EPOCH else c.slotsPerEpoch;
    var start := c.genesisNs + k * SlotDuration(c);
    SlotRef(k, k / perEpoch, start, start + SlotDuration(c), 0, 0)
  }

  /** The table of slot k built from a list of observations. */
  function TableOf(c: Clock, k: nat, noted: seq<Observation>): Table {
    AddAll(NewTable(RefFor(c, k)), noted)
  }

  function ChunkOf(eff: Effect, victim: nat): Slots.Chunk<Observation> {
    Slots.Chunk(eff.ref.slot, eff.observations, victim)
  }

  /** The accepted chunks of a run. */
  function Chunks(cfg: Config, ins: seq<Input>): seq<Slots.Chunk<Observation>> {
    if ins == [] then [] else
      var accepted := AcceptedInput(cfg, After(cfg, ins[..|ins| - 1]), ins[|ins| - 1]);
      Chunks(cfg, ins[..|ins| - 1]) + if accepted.Some? then [ChunkOf(accepted.value, ins[|ins| - 1].victim)] else []
  }

  /** The tables handed to the finalize callback, in order. */
  function HandedOver(cfg: Config, ins: seq<Input>): seq<Table> {
    if ins == [] then [] else
      var s := After(cfg, ins[..|ins| - 1]);
      var accepted := AcceptedInput(cfg, s, ins[|ins| - 1]);
      HandedOver(cfg, ins[..|ins| - 1]) +
        if accepted.Some? && FinalizedBy(s, accepted.value.ref.slot).Some?
        then [FinalizedBy(s, accepted.value.ref.slot).value] else []
  }

  /** Tables on one side, lists of observations on the other. */
  ghost predicate Simulates(c: Clock, slots: map<nat, Table>, lastSlot: nat, a: Slots.State<Observation>) {
    && lastSlot == a.lastSlot
    && slots.Keys == a.slots.Keys
    && forall k :: k in slots ==> slots[k] == TableOf(c, k, a.slots[k])
  }

  lemma {:induction false} AddAllKeepsSlot(t: Table, h: seq<Observation>)
    ensures AddAll(t, h).slot == t.slot
    decreases |h|
  {
    if h != [] {
      AddAllKeepsSlot(t, h[..|h| - 1]);
    }
  }

  lemma HeadOfSlot(cfg: Config, s: Source, i: Input)
    requires AcceptedInput(cfg, s, i).Some?
    ensures var ref := AcceptedInput(cfg, s, i).value.ref; NewTable(ref) == NewTable(RefFor(cfg.clock, ref.slot))
  {
  }

  /** Only accepted chunks touch the slots, and they do what recording does. */
  lemma SlotsOfStep(cfg: Config, s: Source, i: Input)
    ensures var t, accepted := Step(cfg, s, i), AcceptedInput(cfg, s, i);
      if accepted.None? then t.slots == s.slots && t.lastSlot == s.lastSlot
      else
        var r := RecordChunk(s, i.env.payload.chunkAlias, accepted.value, i.victim);
        t.slots == r.slots && t.lastSlot == r.lastSlot
  {
    if AcceptedInput(cfg, s, i).None? {
      QuietSlots(cfg, s, i);
    }
  }

  lemma QuietSlots(cfg: Config, s: Source, i: Input)
    requires AcceptedInput(cfg, s, i).None?
    ensures Step(cfg, s, i).slots == s.slots && Step(cfg, s, i).lastSlot == s.lastSlot
  {
  }

  /** Adding a chunk to tables and to lists of observations keeps them in step. */
  lemma SlotsStayInStep(
    head: nat -> Table, slots: map<nat, Table>, lists: map<nat, seq<Observation>>, k: nat, more: seq<Observation>)
    requires slots.Keys == lists.Keys
    requires forall j :: j in slots ==> slots[j] == AddAll(head(j), lists[j])
    ensures var t := slots[k := AddAll(GetOr(slots, k, head(k)), more)];
      var l := lists[k := (if k in lists then lists[k] else []) + more];
      t.Keys == l.Keys && forall j :: j in t ==> t[j] == AddAll(head(j), l[j])
  {
    if k in slots {
      AddAllAppend(head(k), lists[k], more);
    } else {
      assert [] + more == more;
    }
  }

  lemma KeptInStep(
    head: nat -> Table, slots: map<nat, Table>, lists: map<nat, seq<Observation>>, lastSlot: nat, k: nat, victim: nat)
    requires slots.Keys == lists.Keys
    requires forall j :: j in slots ==> slots[j] == AddAll(head(j), lists[j])
    ensures var t, l := Slots.Kept(slots, lastSlot, k, victim), Slots.Kept(lists, lastSlot, k, victim);
      t.Keys == l.Keys && forall j :: j in t ==> t[j] == AddAll(head(j), l[j])
  {
  }

  lemma RecordSimulates(c: Clock, s: Source, a: Slots.State<Observation>, alias: nat, eff: Effect, victim: nat)
    requires Simulates(c, s.slots, s.lastSlot, a) && NewTable(eff.ref) == NewTable(RefFor(c, eff.ref.slot))
    ensures var t := RecordChunk(s, alias, eff, victim);
      Simulates(c, t.slots, t.lastSlot, Slots.Step(a, ChunkOf(eff, victim)))
  {
    var k := eff.ref.slot;
    var head := (j: nat) => NewTable(RefFor(c, j));
    KeptInStep(head, s.slots, a.slots, s.lastSlot, k, victim);
    SlotsStayInStep(head, Slots.Kept(s.slots, s.lastSlot, k, victim), Slots.Kept(a.slots, s.lastSlot, k, victim),
                    k, eff.observations);
  }

  lemma FinalizedSimulates(c: Clock, s: Source, a: Slots.State<Observation>, slot: nat)
    requires Simulates(c, s.slots, s.lastSlot, a)
    ensures FinalizedBy(s, slot).Some? <==> Slots.FinalizedBy(a, slot).Some?
    ensures FinalizedBy(s, slot).Some? ==>
      var t, f := FinalizedBy(s, slot).value, Slots.FinalizedBy(a, slot).value;
      t == TableOf(c, f.slot, f.noted) && t.slot == f.slot
  {
    if s.lastSlot in s.slots {
      AddAllKeepsSlot(NewTable(RefFor(c, s.lastSlot)), a.slots[s.lastSlot]);
    }
  }

  /** In every run the live tables are exactly the tables of the recorded observations, slot by slot. */
  lemma {:induction false} TablesFollowChunks(cfg: Config, ins: seq<Input>)
    ensures var s := After(cfg, ins); Simulates(cfg.clock, s.slots, s.lastSlot, Slots.After(Chunks(cfg, ins)))
    decreases |ins|
  {
    if ins != [] {
      var pre, i := ins[..|ins| - 1], ins[|ins| - 1];
      var s := After(cfg, pre);
      TablesFollowChunks(cfg, pre);
      SlotsOfStep(cfg, s, i);
      if AcceptedInput(cfg, s, i).Some? {
        var eff := AcceptedInput(cfg, s, i).value;
        HeadOfSlot(cfg, s, i);
        RecordSimulates(cfg.clock, s, Slots.After(Chunks(cfg, pre)), i.env.payload.chunkAlias, eff, i.victim);
        ChunksGrow(Chunks(cfg, pre), ChunkOf(eff, i.victim));
      } else {
        assert Chunks(cfg, pre) + [] == Chunks(cfg, pre);
      }
    }
  }

  lemma ChunksGrow(cs: seq<Slots.Chunk<Observation>>, c: Slots.Chunk<Observation>)
    ensures Slots.After(cs + [c]) == Slots.Step(Slots.After(cs), c)
    ensures Slots.Finalized(cs + [c]) == Slots.Finalized(cs) +
      match Slots.FinalizedBy(Slots.After(cs), c.slot) case None => [] case Some(f) => [f]
    ensures Slots.Seen(cs + [c]) == Slots.Seen(cs) + [c.slot]
    ensures Slots.Run(cs + [c]) <==>
      (Slots.Run(cs) && Slots.MayEvict(Slots.After(cs).slots, Slots.After(cs).lastSlot, c.slot, c.victim))
  {
  }

  /** Aggregates refine history: in every run each live slot's tables equal their recomputation from what was
      recorded in the slot since its table was created; with forward times, from everything ever recorded in it. */
  lemma LiveTablesRefineHistory(cfg: Config, ins: seq<Input>, k: nat)
    requires k in After(cfg, ins).slots
    ensures k in Slots.After(Chunks(cfg, ins)).slots
    ensures After(cfg, ins).slots[k] == Recompute(RefFor(cfg.clock, k), Slots.After(Chunks(cfg, ins)).slots[k])
    ensures Slots.Forward(Slots.Seen(Chunks(cfg, ins))) ==>
      After(cfg, ins).slots[k] == Recompute(RefFor(cfg.clock, k), Slots.Noted(Chunks(cfg, ins), k))
  {
    var cs := Chunks(cfg, ins);
    TablesFollowChunks(cfg, ins);
    TablesRefineHistory(RefFor(cfg.clock, k), Slots.After(cs).slots[k]);
    if Slots.Forward(Slots.Seen(cs)) {
      Slots.LiveSlotsAreComplete(cs, k);
    }
  }

  ghost predicate Matches(c: Clock, tables: seq<Table>, finals: seq<Slots.Final<Observation>>) {
    && |tables| == |finals|
    && forall n :: 0 <= n < |tables| ==>
         tables[n] == TableOf(c, finals[n].slot, finals[n].noted) && tables[n].slot == finals[n].slot
  }

  /** What is handed over, as tables and as lists of observations. */
  lemma {:induction false} HandedOverFollowsChunks(cfg: Config, ins: seq<Input>)
    ensures Matches(cfg.clock, HandedOver(cfg, ins), Slots.Finalized(Chunks(cfg, ins)))
    decreases |ins|
  {
    if ins != [] {
      var pre, i := ins[..|ins| - 1], ins[|ins| - 1];
      HandedOverFollowsChunks(cfg, pre);
      TablesFollowChunks(cfg, pre);
      HandedOverStep(cfg, pre, i);
      assert ins == pre + [i];
    }
  }

  lemma HandedOverStep(cfg: Config, pre: seq<Input>, i: Input)
    requires Matches(cfg.clock, HandedOver(cfg, pre), Slots.Finalized(Chunks(cfg, pre)))
    requires Simulates(cfg.clock, After(cfg, pre).slots, After(cfg, pre).lastSlot, Slots.After(Chunks(cfg, pre)))
    ensures Matches(cfg.clock, HandedOver(cfg, pre + [i]), Slots.Finalized(Chunks(cfg, pre + [i])))
  {
    var s, accepted := After(cfg, pre), AcceptedInput(cfg, After(cfg, pre), i);
    assert (pre + [i])[..|pre|] == pre;
    if accepted.Some? {
      var c := ChunkOf(accepted.value, i.victim);
      ChunksGrow(Chunks(cfg, pre), c);
      FinalizedSimulates(cfg.clock, s, Slots.After(Chunks(cfg, pre)), c.slot);
    } else {
      assert Chunks(cfg, pre) + [] == Chunks(cfg, pre);
    }
  }

  /** The store: an insert is ignored when the slot is there already. */
  function Store(tables: seq<Table>): map<nat, Table> {
    if tables == [] then map[] else
      var before, t := Store(tables[..|tables| - 1]), tables[|tables| - 1];
      if t.slot in before then before else before[t.slot := t]
  }

  lemma {:induction false} StoreFollowsPersist(c: Clock, tables: seq<Table>, finals: seq<Slots.Final<Observation>>)
    requires Matches(c, tables, finals)
    ensures Store(tables).Keys == Slots.Persist(finals).Keys
    ensures forall k :: k in Store(tables) ==> Store(tables)[k] == TableOf(c, k, Slots.Persist(finals)[k])
    decreases |tables|
  {
    if tables != [] {
      StoreFollowsPersist(c, tables[..|tables| - 1], finals[..|finals| - 1]);
    }
  }

  /** Finalization: in a run whose times never go backwards, resets and reconnects included, the callback fires in
      strictly increasing slot order, exactly for the slots left behind; and what the first-write-wins store keeps
      for a slot is its recomputation from everything the run ever recorded in it. */
  lemma FinalizationIsExact(cfg: Config, ins: seq<Input>)
    requires Slots.Forward(Slots.Seen(Chunks(cfg, ins)))
    ensures var tables, seen := HandedOver(cfg, ins), Slots.Seen(Chunks(cfg, ins));
      && (forall m, n :: 0 <= m < n < |tables| ==> tables[m].slot < tables[n].slot)
      && (forall k :: k in Store(tables) <==> k in seen && k < After(cfg, ins).lastSlot)
      && (forall k :: k in Store(tables) ==>
            Store(tables)[k] == Recompute(RefFor(cfg.clock, k), Slots.Noted(Chunks(cfg, ins), k)))
  {
    var cs, tables := Chunks(cfg, ins), HandedOver(cfg, ins);
    var finals := Slots.Finalized(cs);
    TablesFollowChunks(cfg, ins);
    HandedOverFollowsChunks(cfg, ins);
    StoreFollowsPersist(cfg.clock, tables, finals);
    Slots.PersistedIsFinal(cs);
    Slots.FinalizesAtAscents(cs);
    Slots.FinalizesEachOnce(Slots.Seen(cs));
    forall m, n | 0 <= m < n < |tables|
      ensures tables[m].slot < tables[n].slot
    {
      var slots := Slots.SlotsOf(finals);
      assert slots[m] == tables[m].slot && slots[n] == tables[n].slot;
    }
    forall k | k in Store(tables)
      ensures Store(tables)[k] == Recompute(RefFor(cfg.clock, k), Slots.Noted(cs, k))
    {
      TablesRefineHistory(RefFor(cfg.clock, k), Slots.Noted(cs, k));
    }
  }

  /** Without any assumption on times: the store keeps for a slot the recomputation from what the slot held when it was
      first handed over, which is everything ever recorded in it if nothing of it was evicted before and nothing is
      recorded in it from then on. */
  lemma StoreKeepsFirst(cfg: Config, ins: seq<Input>, k: nat) returns (i: nat)
    requires k in Store(HandedOver(cfg, ins))
    ensures var cs := Chunks(cfg, ins);
      && Slots.FirstHandsOver(cs, i, k) && k in Slots.After(cs[..i]).slots
      && Store(HandedOver(cfg, ins))[k] == Recompute(RefFor(cfg.clock, k), Slots.After(cs[..i]).slots[k])
      && (Slots.After(cs[..i]).slots[k] == Slots.Noted(cs, k) <==>
            Slots.Lost(cs[..i], k) == [] && Slots.Noted(cs[i..], k) == [])
  {
    var cs := Chunks(cfg, ins);
    HandedOverFollowsChunks(cfg, ins);
    StoreFollowsPersist(cfg.clock, HandedOver(cfg, ins), Slots.Finalized(cs));
    Slots.StoredWasHandedOver(cs, k);
    var j: nat :| Slots.HandsOver(cs, j, k);
    i := Slots.EarliestHandsOver(cs, j, k);
    Slots.FirstIsStored(cs, i, k);
    Slots.StoredIsFinalExactly(cs, i, k);
    TablesRefineHistory(RefFor(cfg.clock, k), Slots.After(cs[..i]).slots[k]);
  }

  lemma {:induction false} RunOfChunks(cfg: Config, ins: seq<Input>)
    requires Run(cfg, ins)
    ensures Slots.Run(Chunks(cfg, ins))
    decreases |ins|
  {
    if ins != [] {
      var pre, i := ins[..|ins| - 1], ins[|ins| - 1];
      var s := After(cfg, pre);
      RunOfChunks(cfg, pre);
      TablesFollowChunks(cfg, pre);
      var a := Slots.After(Chunks(cfg, pre));
      assert |s.slots| == |s.slots.Keys| && |a.slots| == |a.slots.Keys|;
      if AcceptedInput(cfg, s, i).Some? {
        ChunksGrow(Chunks(cfg, pre), ChunkOf(AcceptedInput(cfg, s, i).value, i.victim));
      } else {
        assert Chunks(cfg, pre) + [] == Chunks(cfg, pre);
      }
    }
  }

  /** Retention: with times that never go backwards, the live slots are exactly the 257 largest seen, or all. */
  lemma RetentionIsExact(cfg: Config, ins: seq<Input>)
    requires Run(cfg, ins) && Slots.Forward(Slots.Seen(Chunks(cfg, ins)))
    ensures Slots.Window(After(cfg, ins).slots.Keys, Slots.Distinct(Slots.Seen(Chunks(cfg, ins))))
  {
    RunOfChunks(cfg, ins);
    TablesFollowChunks(cfg, ins);
    Slots.RetentionWindow(Chunks(cfg, ins));
  }

  // ---- From times to slots -------------------------------------------------------------------------

  /** No event carries an earlier time than the one before it. */
  ghost predicate TimesForward(ins: seq<Input>) {
    forall m, n :: 0 <= m < n < |ins| && ins[m].Event? && ins[n].Event? ==>
      ins[m].env.observedAtNs <= ins[n].env.observedAtNs
  }

  /** Some event of the run was observed in slot k. */
  ghost predicate ObservedIn(c: Clock, ins: seq<Input>, k: nat) {
    exists n :: 0 <= n < |ins| && ins[n].Event? && InSlot(c, ins[n].env.observedAtNs, k)
  }

  predicate InSlot(c: Clock, t: int, k: nat) {
    At(c, t).Some? && At(c, t).value.slot == k
  }

  lemma AcceptedTime(cfg: Config, s: Source, i: Input)
    requires AcceptedInput(cfg, s, i).Some?
    ensures i.Event? && InSlot(cfg.clock, i.env.observedAtNs, AcceptedInput(cfg, s, i).value.ref.slot)
  {
  }

  lemma {:induction false} SeenSlotsWereObserved(cfg: Config, ins: seq<Input>, k: nat)
    requires k in Slots.Seen(Chunks(cfg, ins))
    ensures ObservedIn(cfg.clock, ins, k)
    decreases |ins|
  {
    if ins != [] {
      var pre, i := ins[..|ins| - 1], ins[|ins| - 1];
      var s := After(cfg, pre);
      if AcceptedInput(cfg, s, i).Some? {
        AcceptedTime(cfg, s, i);
        ChunksGrow(Chunks(cfg, pre), ChunkOf(AcceptedInput(cfg, s, i).value, i.victim));
        assert ins[|ins| - 1] == i;
      } else {
        assert Chunks(cfg, pre) + [] == Chunks(cfg, pre);
      }
      if k in Slots.Seen(Chunks(cfg, pre)) {
        SeenSlotsWereObserved(cfg, pre, k);
        var n :| 0 <= n < |pre| && pre[n].Event? && InSlot(cfg.clock, pre[n].env.observedAtNs, k);
        assert ins[n] == pre[n];
      }
    }
  }

  lemma ForwardAppend(slots: seq<nat>, k: nat)
    requires Slots.Forward(slots) && k >= 1 && (forall j :: j in slots ==> j <= k)
    ensures Slots.Forward(slots + [k])
  {
    var all := slots + [k];
    forall i, j | 0 <= i < j < |all|
      ensures all[i] <= all[j]
    {
      assert all[i] == slots[i] && slots[i] in slots;
    }
  }

  /** A chunk accepted now is in no earlier slot than the ones before it. */
  lemma LaterThanSeen(cfg: Config, pre: seq<Input>, i: Input, j: nat)
    requires AcceptedInput(cfg, After(cfg, pre), i).Some? && TimesForward(pre + [i])
    requires j in Slots.Seen(Chunks(cfg, pre))
    ensures j <= AcceptedInput(cfg, After(cfg, pre), i).value.ref.slot
  {
    AcceptedTime(cfg, After(cfg, pre), i);
    SeenSlotsWereObserved(cfg, pre, j);
    var n :| 0 <= n < |pre| && pre[n].Event? && InSlot(cfg.clock, pre[n].env.observedAtNs, j);
    var all := pre + [i];
    assert all[n] == pre[n] && all[|pre|] == i;
    SlotsAreMonotone(cfg.clock, pre[n].env.observedAtNs, i.env.observedAtNs);
  }

  lemma SeenGrows(cfg: Config, pre: seq<Input>, i: Input)
    ensures var accepted := AcceptedInput(cfg, After(cfg, pre), i);
      Slots.Seen(Chunks(cfg, pre + [i])) ==
        Slots.Seen(Chunks(cfg, pre)) + if accepted.Some? then [accepted.value.ref.slot] else []
  {
    assert (pre + [i])[..|pre|] == pre;
    var accepted := AcceptedInput(cfg, After(cfg, pre), i);
    if accepted.Some? {
      ChunksGrow(Chunks(cfg, pre), ChunkOf(accepted.value, i.victim));
    } else {
      assert Chunks(cfg, pre) + [] == Chunks(cfg, pre);
    }
  }

  lemma ForwardStep(cfg: Config, pre: seq<Input>, i: Input)
    requires TimesForward(pre + [i]) && Slots.Forward(Slots.Seen(Chunks(cfg, pre)))
    requires forall k :: k in Slots.Seen(Chunks(cfg, pre + [i])) ==> k >= 1
    ensures Slots.Forward(Slots.Seen(Chunks(cfg, pre + [i])))
  {
    var before, accepted := Slots.Seen(Chunks(cfg, pre)), AcceptedInput(cfg, After(cfg, pre), i);
    SeenGrows(cfg, pre, i);
    if accepted.Some? {
      var k := accepted.value.ref.slot;
      var seen := Slots.Seen(Chunks(cfg, pre + [i]));
      assert seen == before + [k] && k in seen;
      forall j | j in before
        ensures j <= k
      {
        LaterThanSeen(cfg, pre, i, j);
      }
      ForwardAppend(before, k);
    }
  }

  /** Times that do not go backwards give slots that do not go backwards. */
  lemma {:induction false} ForwardTimesGiveForwardSlots(cfg: Config, ins: seq<Input>)
    requires TimesForward(ins)
    requires forall k :: k in Slots.Seen(Chunks(cfg, ins)) ==> k >= 1
    ensures Slots.Forward(Slots.Seen(Chunks(cfg, ins)))
    decreases |ins|
  {
    if ins != [] {
      var pre, i := ins[..|ins| - 1], ins[|ins| - 1];
      assert ins == pre + [i];
      SeenGrows(cfg, pre, i);
      assert forall k :: k in Slots.Seen(Chunks(cfg, pre)) ==> k in Slots.Seen(Chunks(cfg, ins));
      ForwardTimesGiveForwardSlots(cfg, pre);
      ForwardStep(cfg, pre, i);
    }
  }
}
