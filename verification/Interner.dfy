/** String interning with double-checked locking: the table, and many threads interleaving the steps of a call. */
module Interner {

  /** The list of strings and the map back from strings to their position. */
  datatype Table = Table(strings: seq<string>, ids: map<string, nat>)

  const NO_STRINGS := Table([], map[])

  /** List and map are mutual inverses, with dense ids. */
  ghost predicate Inverse(t: Table) {
    && (forall i :: 0 <= i < |t.strings| ==> t.strings[i] in t.ids && t.ids[t.strings[i]] == i)
    && (forall s :: s in t.ids ==> t.ids[s] < |t.strings| && t.strings[t.ids[s]] == s)
  }

  function Allocate(t: Table, s: string): Table {
    Table(t.strings + [s], t.ids[s := |t.strings|])
  }

  /** The table after one uninterrupted call. */
  function Interned(t: Table, s: string): Table {
    if s in t.ids then t else Allocate(t, s)
  }

  lemma AllocateKeepsInverse(t: Table, s: string)
    requires Inverse(t) && s !in t.ids
    ensures Inverse(Allocate(t, s))
  {
  }

  // ---- Interleaved calls ---------------------------------------------------------------------------

  /** Where a thread stands in a call. */
  datatype Phase =
    | Idle
    | Checking(s: string)
    | Missed(s: string)
    | Allocated(s: string, id: nat)
    | Returned(s: string, id: nat)

  type Thread = nat

  /** The shared table, the emitted definitions in order, and each thread's place. */
  datatype State = State(table: Table, emitted: seq<(nat, string)>, threads: map<Thread, Phase>)

  const START := State(NO_STRINGS, [], map[])

  function At(st: State, t: Thread): Phase {
    if t in st.threads then st.threads[t] else Idle
  }

  /** The atomic steps: entering, the check under the read lock, the check-and-allocate under the write lock,
      the emission after it, and leaving. */
  datatype Step = Enter(t: Thread, s: string) | Check(t: Thread) | Claim(t: Thread) | Emit(t: Thread) | Leave(t: Thread)

  predicate Enabled(st: State, step: Step) {
    match step
    case Enter(t, _) => At(st, t).Idle?
    case Check(t) => At(st, t).Checking?
    case Claim(t) => At(st, t).Missed?
    case Emit(t) => At(st, t).Allocated?
    case Leave(t) => At(st, t).Returned?
  }

  function Move(st: State, t: Thread, p: Phase): State {
    st.(threads := st.threads[t := p])
  }

  function Next(st: State, step: Step): State
    requires Enabled(st, step)
  {
    match step
    case Enter(t, s) => Move(st, t, Checking(s))
    case Check(t) =>
      var s := At(st, t).s;
      Move(st, t, if s in st.table.ids then Returned(s, st.table.ids[s]) else Missed(s))
    case Claim(t) =>
      var s := At(st, t).s;
      if s in st.table.ids then Move(st, t, Returned(s, st.table.ids[s]))
      else Move(st.(table := Allocate(st.table, s)), t, Allocated(s, |st.table.strings|))
    case Emit(t) =>
      var Allocated(s, id) := At(st, t);
      Move(st.(emitted := st.emitted + [(id, s)]), t, Returned(s, id))
    case Leave(t) => Move(st, t, Idle)
  }

  ghost predicate Reachable(st: State, steps: seq<Step>)
    decreases |steps|
  {
    if steps == [] then st == START else
      var n := |steps| - 1;
      exists before :: Reachable(before, steps[..n]) && Enabled(before, steps[n]) && st == Next(before, steps[n])
  }

  ghost predicate Defined(st: State, id: nat) {
    exists i :: 0 <= i < |st.emitted| && st.emitted[i].0 == id
  }

  /** Some thread has allocated the id and not yet emitted its definition. */
  ghost predicate Pending(st: State, id: nat) {
    exists t :: t in st.threads && st.threads[t].Allocated? && st.threads[t].id == id
  }

  ghost predicate Inv(st: State) {
    && Inverse(st.table)
    && (forall t :: t in st.threads && (st.threads[t].Allocated? || st.threads[t].Returned?) ==>
          st.threads[t].id < |st.table.strings| && st.table.strings[st.threads[t].id] == st.threads[t].s)
    && (forall i :: 0 <= i < |st.emitted| ==>
          st.emitted[i].0 < |st.table.strings| && st.table.strings[st.emitted[i].0] == st.emitted[i].1)
    && (forall i, j :: 0 <= i < j < |st.emitted| ==> st.emitted[i].0 != st.emitted[j].0)
    && (forall t, u | t in st.threads && u in st.threads && t != u ::
          st.threads[t].Allocated? && st.threads[u].Allocated? ==> st.threads[t].id != st.threads[u].id)
    && (forall t, i :: t in st.threads && st.threads[t].Allocated? && 0 <= i < |st.emitted| ==>
          st.emitted[i].0 != st.threads[t].id)
    && (forall id :: 0 <= id < |st.table.strings| ==> Defined(st, id) || Pending(st, id))
  }

  lemma EmitKeepsInv(st: State, t: Thread)
    requires Inv(st) && Enabled(st, Emit(t))
    ensures Inv(Next(st, Emit(t)))
  {
    var next := Next(st, Emit(t));
    var Allocated(s, id) := At(st, t);
    var n := |st.emitted|;
    assert next.emitted[n] == (id, s);
    forall k | 0 <= k < |next.table.strings|
      ensures Defined(next, k) || Pending(next, k)
    {
      if Defined(st, k) {
        var i :| 0 <= i < |st.emitted| && st.emitted[i].0 == k;
        assert next.emitted[i].0 == k;
      } else if k != id {
        var u :| u in st.threads && st.threads[u].Allocated? && st.threads[u].id == k;
        assert next.threads[u] == st.threads[u];
      }
    }
  }

  /** A thread that has nothing to emit moves on without allocating. */
  lemma MoveKeepsInv(st: State, t: Thread, p: Phase)
    requires Inv(st) && !At(st, t).Allocated? && !p.Allocated?
    requires p.Returned? ==> p.id < |st.table.strings| && st.table.strings[p.id] == p.s
    ensures Inv(Move(st, t, p))
  {
    var next := Move(st, t, p);
    forall k | 0 <= k < |next.table.strings|
      ensures Defined(next, k) || Pending(next, k)
    {
      if Defined(st, k) {
        assert next.emitted == st.emitted;
      } else {
        var u :| u in st.threads && st.threads[u].Allocated? && st.threads[u].id == k;
        assert next.threads[u] == st.threads[u];
      }
    }
  }

  lemma AllocationKeepsInv(st: State, t: Thread)
    requires Inv(st) && At(st, t).Missed? && At(st, t).s !in st.table.ids
    ensures Inv(Next(st, Claim(t)))
  {
    var next := Next(st, Claim(t));
    AllocateKeepsInverse(st.table, At(st, t).s);
    forall k | 0 <= k < |next.table.strings|
      ensures Defined(next, k) || Pending(next, k)
    {
      if k == |st.table.strings| {
        assert next.threads[t].Allocated?;
      } else if Defined(st, k) {
        assert next.emitted == st.emitted;
      } else {
        var u :| u in st.threads && st.threads[u].Allocated? && st.threads[u].id == k;
        assert next.threads[u] == st.threads[u];
      }
    }
  }

  lemma QuietStepKeepsInv(st: State, step: Step)
    requires Inv(st) && Enabled(st, step) && !step.Emit?
    ensures Inv(Next(st, step))
  {
    if step.Claim? && At(st, step.t).s !in st.table.ids {
      AllocationKeepsInv(st, step.t);
    } else {
      MoveKeepsInv(st, step.t, At(Next(st, step), step.t));
    }
  }

  /** In every interleaving of any number of threads: list and map are inverse with dense ids, every id handed out
      still means the string it was handed out for, no id is defined twice, and each allocated id has its
      definition emitted or exactly the allocating thread about to emit it. */
  lemma {:induction false} EveryInterleavingIsSafe(st: State, steps: seq<Step>)
    requires Reachable(st, steps)
    ensures Inv(st)
    decreases |steps|
  {
    if steps != [] {
      var n := |steps| - 1;
      var before :| Reachable(before, steps[..n]) && Enabled(before, steps[n]) && st == Next(before, steps[n]);
      EveryInterleavingIsSafe(before, steps[..n]);
      if steps[n].Emit? {
        EmitKeepsInv(before, steps[n].t);
      } else {
        QuietStepKeepsInv(before, steps[n]);
      }
    }
  }

  lemma {:induction false} SameStepsSameState(st: State, other: State, steps: seq<Step>)
    requires Reachable(st, steps) && Reachable(other, steps)
    ensures st == other
    decreases |steps|
  {
    if steps == [] {
      assert st == START && other == START;
    } else {
      var n := |steps| - 1;
      var a :| Reachable(a, steps[..n]) && Enabled(a, steps[n]) && st == Next(a, steps[n]);
      var b :| Reachable(b, steps[..n]) && Enabled(b, steps[n]) && other == Next(b, steps[n]);
      SameStepsSameState(a, b, steps[..n]);
    }
  }

  lemma OneStepIsStable(st: State, step: Step)
    requires Inv(st) && Enabled(st, step)
    ensures st.table.strings <= Next(st, step).table.strings
    ensures forall s :: s in st.table.ids ==>
      s in Next(st, step).table.ids && Next(st, step).table.ids[s] == st.table.ids[s]
  {
  }

  /** An id never changes meaning: in every continuation of every run, the strings interned so far keep their ids. */
  lemma {:induction false} IdsAreStable(st: State, steps: seq<Step>, later: State, more: seq<Step>)
    requires Reachable(st, steps) && Reachable(later, steps + more)
    ensures st.table.strings <= later.table.strings
    ensures forall s :: s in st.table.ids ==> s in later.table.ids && later.table.ids[s] == st.table.ids[s]
    decreases |more|
  {
    if more == [] {
      assert steps + more == steps;
      SameStepsSameState(st, later, steps);
    } else {
      var n, all := |more| - 1, steps + more;
      assert all[..|all| - 1] == steps + more[..n];
      var before :|
        Reachable(before, all[..|all| - 1]) && Enabled(before, all[|all| - 1]) && later == Next(before, all[|all| - 1]);
      IdsAreStable(st, steps, before, more[..n]);
      EveryInterleavingIsSafe(before, steps + more[..n]);
      OneStepIsStable(before, all[|all| - 1]);
    }
  }

  /** In every run, calls for equal strings return equal ids, and calls for different strings different ones. */
  lemma EqualStringsEqualIds(st: State, steps: seq<Step>, t: Thread, u: Thread)
    requires Reachable(st, steps) && At(st, t).Returned? && At(st, u).Returned?
    ensures At(st, t).s == At(st, u).s <==> At(st, t).id == At(st, u).id
  {
    EveryInterleavingIsSafe(st, steps);
  }

  /** In every run, a returned id is usable by a reader of the log exactly when no thread still has to emit its
      definition. */
  lemma DefinedUnlessPending(st: State, steps: seq<Step>, t: Thread)
    requires Reachable(st, steps) && At(st, t).Returned?
    ensures Defined(st, At(st, t).id) <==> !Pending(st, At(st, t).id)
  {
    EveryInterleavingIsSafe(st, steps);
  }

  /** ... and that can fail: the fast path of a second thread returns before the first has emitted. */
  lemma IdBeforeDefinition(s: string)
    ensures exists st, steps :: Reachable(st, steps) && At(st, 1) == Returned(s, 0) && !Defined(st, 0)
  {
    var a := Next(START, Enter(0, s));
    var b := Next(a, Check(0));
    var c := Next(b, Claim(0));
    var d := Next(c, Enter(1, s));
    var e := Next(d, Check(1));
    var steps := [Enter(0, s)];
    assert steps[..0] == [] && Reachable(START, []);
    assert Reachable(a, [Enter(0, s)]);
    Extend(a, [Enter(0, s)], Check(0));
    Extend(b, [Enter(0, s)] + [Check(0)], Claim(0));
    Extend(c, [Enter(0, s)] + [Check(0)] + [Claim(0)], Enter(1, s));
    Extend(d, [Enter(0, s)] + [Check(0)] + [Claim(0)] + [Enter(1, s)], Check(1));
    assert At(e, 1) == Returned(s, 0) && e.emitted == [];
  }

  lemma Extend(st: State, steps: seq<Step>, step: Step)
    requires Reachable(st, steps) && Enabled(st, step)
    ensures Reachable(Next(st, step), steps + [step])
  {
    var all := steps + [step];
    assert all[..|all| - 1] == steps && all[|all| - 1] == step;
  }
}
