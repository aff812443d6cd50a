/** Slot boundaries over whole runs, with each live slot represented by the list of what was recorded in it. */
module Slots {
  import opened Basics

  const MAX_LIVE_SLOTS: nat := 256

  /** The live slots of a source and the slot of its latest chunk. */
  datatype State<O> = State(slots: map<nat, seq<O>>, lastSlot: nat)

  /** An accepted chunk: its slot, what it records, and the slot the eviction loop picks should it run. */
  datatype Chunk<O> = Chunk(slot: nat, noted: seq<O>, victim: nat)

  /** A slot handed to the finalize callback. */
  datatype Final<O> = Final(slot: nat, noted: seq<O>)

  /** Whether a chunk of this slot moves the source to a later slot. */
  predicate Advances(lastSlot: nat, slot: nat) {
    lastSlot > 0 && slot > lastSlot
  }

  /** The slot the eviction loop may pick: the smallest, unless slot 0 is present, which the loop uses as its
      "none yet" mark and which makes the pick depend on map order. */
  ghost predicate Victim(live: set<nat>, v: nat) {
    v in live && (0 !in live ==> forall k :: k in live ==> v <= k)
  }

  /** The live slots left when a chunk of this slot arrives: one goes when there are more than 256. */
  function Kept<T>(slots: map<nat, T>, lastSlot: nat, slot: nat, victim: nat): map<nat, T> {
    if Advances(lastSlot, slot) && |slots| > MAX_LIVE_SLOTS then slots - {victim} else slots
  }

  ghost predicate MayEvict<T>(slots: map<nat, T>, lastSlot: nat, slot: nat, victim: nat) {
    Advances(lastSlot, slot) && |slots| > MAX_LIVE_SLOTS ==> Victim(slots.Keys, victim)
  }

  function FinalizedBy<O>(s: State<O>, slot: nat): Option<Final<O>> {
    if Advances(s.lastSlot, slot) && s.lastSlot in s.slots then Some(Final(s.lastSlot, s.slots[s.lastSlot])) else None
  }

  function Step<O>(s: State<O>, c: Chunk<O>): State<O> {
    var kept := Kept(s.slots, s.lastSlot, c.slot, c.victim);
    State(kept[c.slot := (if c.slot in kept then kept[c.slot] else []) + c.noted], c.slot)
  }

  function After<O>(cs: seq<Chunk<O>>): State<O> {
    if cs == [] then State(map[], 0) else Step(After(cs[..|cs| - 1]), cs[|cs| - 1])
  }

  /** Every eviction of the run picked a slot its loop can pick. */
  ghost predicate Run<O>(cs: seq<Chunk<O>>) {
    if cs == [] then true else
      var s, c := After(cs[..|cs| - 1]), cs[|cs| - 1];
      Run(cs[..|cs| - 1]) && MayEvict(s.slots, s.lastSlot, c.slot, c.victim)
  }

  /** Slots of the chunks, in order of arrival. */
  function Seen<O>(cs: seq<Chunk<O>>): seq<nat> {
    if cs == [] then [] else Seen(cs[..|cs| - 1]) + [cs[|cs| - 1].slot]
  }

  /** The slots handed to the finalize callback, in order. */
  function Finalized<O>(cs: seq<Chunk<O>>): seq<Final<O>> {
    if cs == [] then [] else
      var pre, c := cs[..|cs| - 1], cs[|cs| - 1];
      Finalized(pre) + match FinalizedBy(After(pre), c.slot) case None => [] case Some(f) => [f]
  }

  /** Everything ever recorded in slot k. */
  function Noted<O>(cs: seq<Chunk<O>>, k: nat): seq<O> {
    if cs == [] then [] else
      Noted(cs[..|cs| - 1], k) + if cs[|cs| - 1].slot == k then cs[|cs| - 1].noted else []
  }

  /** In every run, whatever the times: only seen slots are live, and the last seen slot is. */
  lemma {:induction false} LiveSlots<O>(cs: seq<Chunk<O>>)
    ensures |Seen(cs)| == |cs|
    ensures cs == [] ==> After(cs) == State(map[], 0)
    ensures cs != [] ==> Seen(cs)[|cs| - 1] == After(cs).lastSlot == cs[|cs| - 1].slot
    ensures cs != [] ==> After(cs).lastSlot in After(cs).slots
    ensures forall k :: k in After(cs).slots ==> k in Seen(cs)
    decreases |cs|
  {
    if cs != [] {
      LiveSlots(cs[..|cs| - 1]);
    }
  }

  // ---- When the callback fires -------------------------------------------------------------------

  /** The slots left upwards: each slot >= 1 that is directly followed by a later one. */
  function Ascents(slots: seq<nat>): seq<nat> {
    if |slots| < 2 then [] else
      var n := |slots|;
      Ascents(slots[..n - 1]) + if 0 < slots[n - 2] < slots[n - 1] then [slots[n - 2]] else []
  }

  function SlotsOf<O>(finals: seq<Final<O>>): seq<nat> {
    seq(|finals|, i requires 0 <= i < |finals| => finals[i].slot)
  }

  lemma AscentsStep(slots: seq<nat>, next: nat)
    ensures Ascents(slots + [next]) ==
      Ascents(slots) + if slots != [] && 0 < slots[|slots| - 1] < next then [slots[|slots| - 1]] else []
  {
  }

  /** In every run, whatever the times, the callback fires exactly at the ascents of the slot sequence. */
  lemma {:induction false} FinalizesAtAscents<O>(cs: seq<Chunk<O>>)
    ensures SlotsOf(Finalized(cs)) == Ascents(Seen(cs))
    decreases |cs|
  {
    if cs != [] {
      var pre, c := cs[..|cs| - 1], cs[|cs| - 1];
      LiveSlots(pre);
      FinalizesAtAscents(pre);
      AscentsStep(Seen(pre), c.slot);
      SlotsOfStep(Finalized(pre), FinalizedBy(After(pre), c.slot));
    }
  }

  lemma SlotsOfStep<O>(before: seq<Final<O>>, added: Option<Final<O>>)
    ensures SlotsOf(before + match added case None => [] case Some(f) => [f])
         == SlotsOf(before) + if added.Some? then [added.value.slot] else []
  {
  }

  /** Times never go backwards and all slots are at least 1. */
  ghost predicate Forward(slots: seq<nat>) {
    && (forall i :: 0 <= i < |slots| ==> slots[i] >= 1)
    && (forall i, j :: 0 <= i < j < |slots| ==> slots[i] <= slots[j])
  }

  lemma ForwardPrefix(slots: seq<nat>, next: nat)
    requires Forward(slots + [next])
    ensures Forward(slots) && next >= 1
    ensures forall k :: k in slots ==> 1 <= k <= next
    ensures slots != [] ==> forall k :: k in slots ==> k <= slots[|slots| - 1]
  {
    var all := slots + [next];
    assert forall i :: 0 <= i < |slots| ==> all[i] == slots[i];
    assert all[|slots|] == next;
  }

  /** Slots that were never seen have no record. */
  lemma {:induction false} UnseenHasNothing<O>(cs: seq<Chunk<O>>, k: nat)
    requires k !in Seen(cs)
    ensures Noted(cs, k) == []
    decreases |cs|
  {
    if cs != [] {
      UnseenHasNothing(cs[..|cs| - 1], k);
    }
  }

  /** With forward times no slot is ever rebuilt: a live slot holds everything it ever recorded. */
  lemma {:induction false} LiveSlotsAreComplete<O>(cs: seq<Chunk<O>>, k: nat)
    requires Forward(Seen(cs)) && k in After(cs).slots
    ensures After(cs).slots[k] == Noted(cs, k)
    decreases |cs|
  {
    if cs != [] {
      var pre, c := cs[..|cs| - 1], cs[|cs| - 1];
      var s := After(pre);
      ForwardPrefix(Seen(pre), c.slot);
      LiveSlots(pre);
      var kept := Kept(s.slots, s.lastSlot, c.slot, c.victim);
      if k in kept {
        LiveSlotsAreComplete(pre, k);
      } else {
        NotKeptIsNew(s.slots, s.lastSlot, Seen(pre), c.slot, c.victim);
        UnseenHasNothing(pre, k);
      }
    }
  }

  lemma NotKeptIsNew<T>(slots: map<nat, T>, lastSlot: nat, seen: seq<nat>, slot: nat, victim: nat)
    requires Forward(seen + [slot]) && slot !in Kept(slots, lastSlot, slot, victim)
    requires seen != [] ==> lastSlot == seen[|seen| - 1] && lastSlot in slots
    ensures slot !in seen
  {
    ForwardPrefix(seen, slot);
    assert seen != [] ==> seen[|seen| - 1] in seen;
  }

  /** With forward times the callback fires once for each seen slot but the last, in increasing order. */
  lemma {:induction false} FinalizesEachOnce(slots: seq<nat>)
    requires Forward(slots)
    ensures forall i, j :: 0 <= i < j < |Ascents(slots)| ==> Ascents(slots)[i] < Ascents(slots)[j]
    ensures forall k :: k in Ascents(slots) <==> k in slots && k < slots[|slots| - 1]
    decreases |slots|
  {
    if |slots| >= 2 {
      var n := |slots|;
      var pre, last := slots[..n - 1], slots[n - 2];
      FinalizesEachOnce(pre);
      assert pre[n - 2] == last;
      var done, before := Ascents(slots), Ascents(pre);
      forall k
        ensures k in done <==> k in slots && k < slots[n - 1]
      {
        assert k in slots <==> k in pre || k == slots[n - 1];
        assert k in pre ==> k <= last;
      }
      forall i, j | 0 <= i < j < |done|
        ensures done[i] < done[j]
      {
        assert done[i] in before;
      }
    } else if |slots| == 1 {
      assert forall k :: k in slots ==> k == slots[0];
    }
  }

  /** With forward times a slot handed over already holds all it will ever record. */
  lemma {:induction false} HandedOverIsFinal<O>(cs: seq<Chunk<O>>, f: Final<O>)
    requires Forward(Seen(cs)) && f in Finalized(cs)
    ensures f.noted == Noted(cs, f.slot)
    ensures cs != [] && f.slot < After(cs).lastSlot
    decreases |cs|
  {
    var pre, c := cs[..|cs| - 1], cs[|cs| - 1];
    ForwardPrefix(Seen(pre), c.slot);
    LiveSlots(pre);
    if f in Finalized(pre) {
      HandedOverIsFinal(pre, f);
      assert After(pre).lastSlot in Seen(pre);
    } else {
      assert Some(f) == FinalizedBy(After(pre), c.slot);
      LiveSlotsAreComplete(pre, f.slot);
    }
  }

  // ---- Storage -----------------------------------------------------------------------------------

  /** The persisted slots: an insert is ignored when the slot is there already. */
  function Persist<O>(finals: seq<Final<O>>): map<nat, seq<O>> {
    if finals == [] then map[] else
      var before, f := Persist(finals[..|finals| - 1]), finals[|finals| - 1];
      if f.slot in before then before else before[f.slot := f.noted]
  }

  lemma {:induction false} PersistedWasHandedOver<O>(finals: seq<Final<O>>)
    ensures forall k :: k in Persist(finals) ==> Final(k, Persist(finals)[k]) in finals
    ensures forall i :: 0 <= i < |finals| ==> finals[i].slot in Persist(finals)
    decreases |finals|
  {
    if finals != [] {
      PersistedWasHandedOver(finals[..|finals| - 1]);
      assert finals == finals[..|finals| - 1] + [finals[|finals| - 1]];
    }
  }

  /** First-write-wins stores the final version: with forward times, exactly the slots that were left are
      persisted, each with everything the run ever recorded in it. */
  lemma PersistedIsFinal<O>(cs: seq<Chunk<O>>)
    requires Forward(Seen(cs))
    ensures forall k :: k in Persist(Finalized(cs)) <==> k in Seen(cs) && k < After(cs).lastSlot
    ensures forall k :: k in Persist(Finalized(cs)) ==> Persist(Finalized(cs))[k] == Noted(cs, k)
  {
    var finals := Finalized(cs);
    LiveSlots(cs);
    PersistedWasHandedOver(finals);
    FinalizesAtAscents(cs);
    FinalizesEachOnce(Seen(cs));
    forall k | k in Persist(finals)
      ensures k in Seen(cs) && k < After(cs).lastSlot && Persist(finals)[k] == Noted(cs, k)
    {
      var f := Final(k, Persist(finals)[k]);
      HandedOverIsFinal(cs, f);
      var j :| 0 <= j < |finals| && finals[j] == f;
      assert SlotsOf(finals)[j] == k;
    }
    forall k | k in Seen(cs) && k < After(cs).lastSlot
      ensures k in Persist(finals)
    {
      assert k in SlotsOf(finals);
      var j :| 0 <= j < |finals| && SlotsOf(finals)[j] == k;
    }
  }

  // ---- Exactly when the stored version is final ----------------------------------------------------------------

  /** The chunk makes the eviction loop drop slot k. */
  predicate Evicts<O>(s: State<O>, c: Chunk<O>, k: nat) {
    Advances(s.lastSlot, c.slot) && |s.slots| > MAX_LIVE_SLOTS && c.victim == k && k in s.slots
  }

  /** Everything recorded in slot k that evictions have dropped. */
  function Lost<O>(cs: seq<Chunk<O>>, k: nat): seq<O> {
    if cs == [] then [] else
      var pre, c := cs[..|cs| - 1], cs[|cs| - 1];
      Lost(pre, k) + if Evicts(After(pre), c, k) then After(pre).slots[k] else []
  }

  function LiveOr<O>(s: State<O>, k: nat): seq<O> {
    if k in s.slots then s.slots[k] else []
  }

  lemma StepAccounts<O>(s: State<O>, c: Chunk<O>, k: nat)
    ensures (if Evicts(s, c, k) then s.slots[k] else []) + LiveOr(Step(s, c), k)
         == LiveOr(s, k) + if c.slot == k then c.noted else []
  {
  }

  /** In every run, what a slot recorded is what its evictions dropped, and then what it holds. */
  lemma {:induction false} RecordsAreAccounted<O>(cs: seq<Chunk<O>>, k: nat)
    ensures Lost(cs, k) + LiveOr(After(cs), k) == Noted(cs, k)
    decreases |cs|
  {
    if cs != [] {
      var pre, c := cs[..|cs| - 1], cs[|cs| - 1];
      RecordsAreAccounted(pre, k);
      StepAccounts(After(pre), c, k);
      var gone := if Evicts(After(pre), c, k) then After(pre).slots[k] else [];
      Regroup(Lost(pre, k), gone, LiveOr(After(cs), k));
      Regroup(Lost(pre, k), LiveOr(After(pre), k), if c.slot == k then c.noted else []);
    }
  }

  lemma {:induction false} NotedAppend<O>(cs: seq<Chunk<O>>, ds: seq<Chunk<O>>, k: nat)
    ensures Noted(cs + ds, k) == Noted(cs, k) + Noted(ds, k)
    decreases |ds|
  {
    if ds == [] {
      assert cs + ds == cs;
    } else {
      var n := |ds| - 1;
      assert (cs + ds)[..|cs| + n] == cs + ds[..n];
      NotedAppend(cs, ds[..n], k);
      Regroup(Noted(cs, k), Noted(ds[..n], k), if ds[n].slot == k then ds[n].noted else []);
    }
  }

  /** Chunk i hands slot k over. */
  predicate HandsOver<O>(cs: seq<Chunk<O>>, i: nat, k: nat) {
    i < |cs| && FinalizedBy(After(cs[..i]), cs[i].slot).Some? && After(cs[..i]).lastSlot == k
  }

  ghost predicate FirstHandsOver<O>(cs: seq<Chunk<O>>, i: nat, k: nat) {
    HandsOver(cs, i, k) && forall j :: 0 <= j < i ==> !HandsOver(cs, j, k)
  }

  lemma HandsOverPrefix<O>(cs: seq<Chunk<O>>, n: nat, i: nat, k: nat)
    requires i < n <= |cs|
    ensures HandsOver(cs[..n], i, k) <==> HandsOver(cs, i, k)
  {
    assert cs[..n][..i] == cs[..i];
  }

  /** The store after one more chunk. */
  lemma PersistStep<O>(cs: seq<Chunk<O>>, pre: seq<Chunk<O>>, c: Chunk<O>, handed: Option<Final<O>>)
    requires cs != [] && pre == cs[..|cs| - 1] && c == cs[|cs| - 1] && handed == FinalizedBy(After(pre), c.slot)
    ensures var store := Persist(Finalized(pre));
      Persist(Finalized(cs)) ==
        if handed.None? || handed.value.slot in store then store else store[handed.value.slot := handed.value.noted]
  {
    var finals := Finalized(pre);
    if handed.Some? {
      assert Finalized(cs) == finals + [handed.value];
      assert (finals + [handed.value])[..|finals|] == finals;
    } else {
      assert Finalized(cs) == finals + [] == finals;
    }
  }

  /** Nothing is stored for a slot that was never handed over. */
  lemma {:induction false} UnhandedIsUnstored<O>(cs: seq<Chunk<O>>, k: nat)
    requires forall j :: 0 <= j < |cs| ==> !HandsOver(cs, j, k)
    ensures k !in Persist(Finalized(cs))
    decreases |cs|
  {
    if cs != [] {
      var n := |cs| - 1;
      forall j | 0 <= j < n
        ensures !HandsOver(cs[..n], j, k)
      {
        HandsOverPrefix(cs, n, j, k);
      }
      UnhandedIsUnstored(cs[..n], k);
      assert !HandsOver(cs, n, k);
      PersistStep(cs, cs[..n], cs[n], FinalizedBy(After(cs[..n]), cs[n].slot));
    }
  }

  lemma HandedNow<O>(cs: seq<Chunk<O>>, n: nat, k: nat)
    requires |cs| == n + 1 && HandsOver(cs, n, k) && k !in Persist(Finalized(cs[..n]))
    ensures k in Persist(Finalized(cs)) && Persist(Finalized(cs))[k] == After(cs[..n]).slots[k]
  {
    PersistStep(cs, cs[..n], cs[n], FinalizedBy(After(cs[..n]), cs[n].slot));
  }

  /** The store keeps what the slot held when it was first handed over. */
  lemma {:induction false} FirstIsStored<O>(cs: seq<Chunk<O>>, i: nat, k: nat)
    requires FirstHandsOver(cs, i, k)
    ensures k in Persist(Finalized(cs)) && k in After(cs[..i]).slots
    ensures Persist(Finalized(cs))[k] == After(cs[..i]).slots[k]
    decreases |cs|
  {
    var n := |cs| - 1;
    forall j | 0 <= j < n
      ensures HandsOver(cs[..n], j, k) <==> HandsOver(cs, j, k)
    {
      HandsOverPrefix(cs, n, j, k);
    }
    if i < n {
      FirstIsStored(cs[..n], i, k);
      assert cs[..n][..i] == cs[..i];
      PersistStep(cs, cs[..n], cs[n], FinalizedBy(After(cs[..n]), cs[n].slot));
    } else {
      UnhandedIsUnstored(cs[..n], k);
      HandedNow(cs, n, k);
    }
  }

  lemma {:induction false} EarliestHandsOver<O>(cs: seq<Chunk<O>>, j: nat, k: nat) returns (i: nat)
    requires HandsOver(cs, j, k)
    ensures FirstHandsOver(cs, i, k)
    decreases j
  {
    if m :| 0 <= m < j && HandsOver(cs, m, k) {
      i := EarliestHandsOver(cs, m, k);
    } else {
      i := j;
    }
  }

  lemma StoredWasHandedOver<O>(cs: seq<Chunk<O>>, k: nat)
    requires k in Persist(Finalized(cs))
    ensures exists j: nat :: HandsOver(cs, j, k)
  {
    if forall j: nat :: !HandsOver(cs, j, k) {
      UnhandedIsUnstored(cs, k);
    }
  }

  lemma NotedSplits<O>(cs: seq<Chunk<O>>, i: nat, k: nat)
    requires i <= |cs| && k in After(cs[..i]).slots
    ensures Noted(cs, k) == (Lost(cs[..i], k) + After(cs[..i]).slots[k]) + Noted(cs[i..], k)
  {
    RecordsAreAccounted(cs[..i], k);
    NotedAppend(cs[..i], cs[i..], k);
    assert cs == cs[..i] + cs[i..];
  }

  lemma Squeeze<O>(lost: seq<O>, stored: seq<O>, later: seq<O>)
    ensures stored == (lost + stored) + later <==> lost == [] && later == []
  {
    assert |(lost + stored) + later| == |lost| + |stored| + |later|;
  }

  /** In every run, whatever the times: the stored version of a slot is everything the run ever recorded in it if and
      only if no eviction dropped records of it before it was first handed over, and nothing is recorded in it from
      then on. */
  lemma StoredIsFinalExactly<O>(cs: seq<Chunk<O>>, i: nat, k: nat)
    requires FirstHandsOver(cs, i, k)
    ensures k in Persist(Finalized(cs))
    ensures Persist(Finalized(cs))[k] == Noted(cs, k) <==> Lost(cs[..i], k) == [] && Noted(cs[i..], k) == []
  {
    FirstIsStored(cs, i, k);
    NotedSplits(cs, i, k);
    Squeeze(Lost(cs[..i], k), After(cs[..i]).slots[k], Noted(cs[i..], k));
  }

  lemma {:induction false} LaterChunks<O>(ds: seq<Chunk<O>>, k: nat)
    requires forall j :: 0 <= j < |ds| ==> ds[j].noted != []
    ensures Noted(ds, k) == [] <==> forall j :: 0 <= j < |ds| ==> ds[j].slot != k
    decreases |ds|
  {
    if ds != [] {
      LaterChunks(ds[..|ds| - 1], k);
    }
  }

  lemma {:induction false} LiveIsNonempty<O>(cs: seq<Chunk<O>>, k: nat)
    requires (forall j :: 0 <= j < |cs| ==> cs[j].noted != []) && k in After(cs).slots
    ensures After(cs).slots[k] != []
    decreases |cs|
  {
    if cs != [] {
      var pre := cs[..|cs| - 1];
      if k in After(pre).slots {
        LiveIsNonempty(pre, k);
      }
    }
  }

  /** Chunk j makes the eviction loop drop slot k. */
  predicate EvictsAt<O>(cs: seq<Chunk<O>>, j: nat, k: nat) {
    j < |cs| && Evicts(After(cs[..j]), cs[j], k)
  }

  lemma EvictsPrefix<O>(cs: seq<Chunk<O>>, n: nat, j: nat, k: nat)
    requires j < n <= |cs|
    ensures EvictsAt(cs[..n], j, k) <==> EvictsAt(cs, j, k)
  {
    assert cs[..n][..j] == cs[..j];
  }

  lemma {:induction false} EarlierEvictions<O>(cs: seq<Chunk<O>>, k: nat)
    requires forall j :: 0 <= j < |cs| ==> cs[j].noted != []
    ensures Lost(cs, k) == [] <==> forall j :: 0 <= j < |cs| ==> !EvictsAt(cs, j, k)
    decreases |cs|
  {
    if cs != [] {
      var n := |cs| - 1;
      EarlierEvictions(cs[..n], k);
      forall j | 0 <= j < n
        ensures EvictsAt(cs[..n], j, k) <==> EvictsAt(cs, j, k)
      {
        EvictsPrefix(cs, n, j, k);
      }
      if EvictsAt(cs, n, k) {
        LiveIsNonempty(cs[..n], k);
      }
    }
  }

  /** ... that is, since every chunk records something: if and only if the slot was not evicted before and no chunk of
      it follows. */
  lemma StoredIsFinalUnless<O>(cs: seq<Chunk<O>>, i: nat, k: nat)
    requires FirstHandsOver(cs, i, k) && forall j :: 0 <= j < |cs| ==> cs[j].noted != []
    ensures k in Persist(Finalized(cs))
    ensures Persist(Finalized(cs))[k] == Noted(cs, k) <==>
      (forall j :: 0 <= j < i ==> !EvictsAt(cs, j, k)) && (forall j :: i <= j < |cs| ==> cs[j].slot != k)
  {
    StoredIsFinalExactly(cs, i, k);
    LaterSlots(cs, i, k);
    EvictedBefore(cs, i, k);
  }

  lemma LaterSlots<O>(cs: seq<Chunk<O>>, i: nat, k: nat)
    requires i <= |cs| && forall j :: 0 <= j < |cs| ==> cs[j].noted != []
    ensures Noted(cs[i..], k) == [] <==> forall j :: i <= j < |cs| ==> cs[j].slot != k
  {
    LaterChunks(cs[i..], k);
    assert forall j :: i <= j < |cs| ==> cs[j] == cs[i..][j - i];
  }

  lemma EvictedBefore<O>(cs: seq<Chunk<O>>, i: nat, k: nat)
    requires i <= |cs| && forall j :: 0 <= j < |cs| ==> cs[j].noted != []
    ensures Lost(cs[..i], k) == [] <==> forall j :: 0 <= j < i ==> !EvictsAt(cs, j, k)
  {
    EarlierEvictions(cs[..i], k);
    forall j | 0 <= j < i
      ensures EvictsAt(cs[..i], j, k) <==> EvictsAt(cs, j, k)
    {
      EvictsPrefix(cs, i, j, k);
    }
  }

  lemma StepLast<O>(cs: seq<Chunk<O>>, c: Chunk<O>, k: nat)
    ensures After(cs + [c]) == Step(After(cs), c)
    ensures Noted(cs + [c], k) == Noted(cs, k) + if c.slot == k then c.noted else []
  {
    assert (cs + [c])[..|cs|] == cs;
  }

  /** A chunk that goes back in time makes the stored version stale. */
  lemma StoredCanBeStale<O>(first: O, next: O, late: O)
    ensures var cs := [Chunk(1, [first], 0)] + [Chunk(2, [next], 0)] + [Chunk(1, [late], 0)];
      1 in Persist(Finalized(cs)) && Persist(Finalized(cs))[1] == [first] && Noted(cs, 1) == [first, late]
  {
    var a, b, c := Chunk(1, [first], 0), Chunk(2, [next], 0), Chunk(1, [late], 0);
    var cs := [a] + [b] + [c];
    assert [] + [a] == [a] && cs[..0] == [] && cs[..1] == [a];
    StepLast([], a, 1);
    StepLast([a], b, 1);
    StepLast([a] + [b], c, 1);
    assert After([a]).lastSlot == 1 && 1 in After([a]).slots && After([a]).slots[1] == [] + [first];
    assert !HandsOver(cs, 0, 1) && HandsOver(cs, 1, 1);
    FirstIsStored(cs, 1, 1);
    assert [] + [first] == [first] && [first] + [] == [first] && [first] + [late] == [first, late];
  }

  // ---- Retention ---------------------------------------------------------------------------------

  ghost function Distinct(slots: seq<nat>): set<nat> {
    set k | k in slots
  }

  /** The live slots are the largest ones seen: all of them up to 257, then exactly 257. */
  ghost predicate Window(live: set<nat>, seen: set<nat>) {
    && live <= seen
    && |live| == (if |seen| <= 257 then |seen| else 257)
    && (forall k, j :: k in live && j in seen && j !in live ==> j < k)
  }

  /** Moving on to a later slot slides the window. */
  lemma WindowAdvances(live: set<nat>, seen: set<nat>, k: nat, victim: nat)
    requires Window(live, seen) && (forall j :: j in seen ==> j < k)
    requires |live| > MAX_LIVE_SLOTS ==> victim in live && forall j :: j in live ==> victim <= j
    ensures var kept := if |live| > MAX_LIVE_SLOTS then live - {victim} else live;
      Window(kept + {k}, seen + {k})
  {
  }

  /** With forward times the live map always holds exactly the 257 largest distinct slots seen, or all. */
  lemma {:induction false} RetentionWindow<O>(cs: seq<Chunk<O>>)
    requires Run(cs) && Forward(Seen(cs))
    ensures Window(After(cs).slots.Keys, Distinct(Seen(cs)))
    decreases |cs|
  {
    if cs == [] {
      assert Distinct(Seen(cs)) == {};
    } else {
      var pre, c := cs[..|cs| - 1], cs[|cs| - 1];
      ForwardPrefix(Seen(pre), c.slot);
      RetentionWindow(pre);
      LiveSlots(pre);
      WindowStep(After(pre).slots, After(pre).lastSlot, Seen(pre), c.slot, c.victim);
      OneMoreSeen(Seen(pre), c.slot);
      StepKeys(After(pre), c);
    }
  }

  lemma OneMoreSeen(seen: seq<nat>, slot: nat)
    ensures Distinct(seen + [slot]) == Distinct(seen) + {slot}
  {
  }

  lemma StepKeys<O>(s: State<O>, c: Chunk<O>)
    ensures Step(s, c).slots.Keys == Kept(s.slots, s.lastSlot, c.slot, c.victim).Keys + {c.slot}
  {
  }

  lemma WindowStep<T>(slots: map<nat, T>, lastSlot: nat, seen: seq<nat>, slot: nat, victim: nat)
    requires Forward(seen + [slot]) && MayEvict(slots, lastSlot, slot, victim)
    requires if seen == [] then slots == map[] else lastSlot == seen[|seen| - 1] && lastSlot in slots
    requires Window(slots.Keys, Distinct(seen))
    ensures Window(Kept(slots, lastSlot, slot, victim).Keys + {slot}, Distinct(seen) + {slot})
  {
    var live := slots.Keys;
    ForwardPrefix(seen, slot);
    if seen == [] {
      assert Distinct(seen) == {};
    } else if slot == lastSlot {
      assert live + {slot} == live && Distinct(seen) + {slot} == Distinct(seen);
    } else {
      assert lastSlot in seen && 0 !in live;
      KeptKeys(slots, lastSlot, slot, victim);
      WindowAdvances(live, Distinct(seen), slot, victim);
    }
  }

  lemma KeptKeys<T>(slots: map<nat, T>, lastSlot: nat, slot: nat, victim: nat)
    ensures |slots| == |slots.Keys|
    ensures Kept(slots, lastSlot, slot, victim).Keys ==
      if Advances(lastSlot, slot) && |slots.Keys| > MAX_LIVE_SLOTS then slots.Keys - {victim} else slots.Keys
  {
  }

  /** Both hypotheses of the forward runs are needed for the callback too. Slot 0 is never handed over, and a step
      back in time hands a slot over twice. */
  lemma WithoutForwardTimes()
    ensures Ascents([0] + [1] + [2]) == [1]
    ensures Ascents([1] + [2] + [1] + [2] + [3]) == [1, 1, 2]
  {
    AscentsStep([0], 1);
    AscentsStep([0] + [1], 2);
    AscentsStep([1], 2);
    AscentsStep([1] + [2], 1);
    AscentsStep([1] + [2] + [1], 2);
    AscentsStep([1] + [2] + [1] + [2], 3);
  }
}
