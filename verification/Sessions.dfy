/** The listener's session table: connection handlers of one source preempting each other. */
module Sessions {
  import opened Basics

  type Conn = nat

  /** The two critical sections of a handler on the shared session table. */
  class SessionTable {
    var sessions: map<string, Conn>

    constructor ()
      ensures sessions == map[]
    {
      sessions := map[];
    }

    /** Takes over the source; the previous connection, if any, is to be cancelled and closed. */
    method Install(source: string, conn: Conn) returns (preempted: Option<Conn>)
      modifies this
      ensures sessions == old(sessions)[source := conn]
      ensures preempted == Lookup(old(sessions), source)
    {
      preempted := if source in sessions then Some(sessions[source]) else None;
      sessions := sessions[source := conn];
    }

    /** Removes the entry only if it is still this connection's. */
    method Release(source: string, conn: Conn) returns (stillOwns: bool)
      modifies this
      ensures stillOwns <==> Lookup(old(sessions), source) == Some(conn)
      ensures sessions == if stillOwns then old(sessions) - {source} else old(sessions)
    {
      stillOwns := false;
      if source in sessions && sessions[source] == conn {
        sessions := sessions - {source};
        stillOwns := true;
      }
    }
  }

  // ---- Interleaved handlers of one source ------------------------------------------------------------------

  /** Where a handler stands. Leaving is the time between the two halves of its cleanup. */
  datatype Phase = Outside | Installed | Registered | Leaving(owner: bool) | Gone

  /** The table entry and connected flag of the source, the handlers, the order in which they were installed, and
      those that were serving when a later one was installed. */
  datatype State = State(
    entry: Option<Conn>, connected: bool, handlers: map<Conn, Phase>, installed: seq<Conn>, preempted: set<Conn>)

  const START := State(None, false, map[], [], {})

  function At(s: State, h: Conn): Phase {
    if h in s.handlers then s.handlers[h] else Outside
  }

  predicate Serving(p: Phase) {
    p.Installed? || p.Registered?
  }

  datatype Step = Install(h: Conn) | Register(h: Conn) | Leave(h: Conn) | Mark(h: Conn)

  predicate Enabled(s: State, step: Step) {
    match step
    case Install(h) => At(s, h).Outside?
    case Register(h) => At(s, h).Installed?
    case Leave(h) => Serving(At(s, h))
    case Mark(h) => At(s, h).Leaving?
  }

  function Move(s: State, h: Conn, p: Phase): State {
    s.(handlers := s.handlers[h := p])
  }

  function Next(s: State, step: Step): State
    requires Enabled(s, step)
  {
    match step
    case Install(h) =>
      Move(s, h, Installed).(
        entry := Some(h), installed := s.installed + [h],
        preempted := s.preempted + (set g | g in s.handlers && Serving(s.handlers[g])))
    case Register(h) => Move(s, h, Registered).(connected := true)
    case Leave(h) =>
      if s.entry == Some(h) then Move(s, h, Leaving(true)).(entry := None) else Move(s, h, Leaving(false))
    case Mark(h) =>
      if At(s, h).owner then Move(s, h, Gone).(connected := false) else Move(s, h, Gone)
  }

  ghost predicate Reachable(s: State, steps: seq<Step>)
    decreases |steps|
  {
    if steps == [] then s == START else
      var n := |steps| - 1;
      exists before :: Reachable(before, steps[..n]) && Enabled(before, steps[n]) && s == Next(before, steps[n])
  }

  ghost predicate Latest(s: State, h: Conn) {
    s.installed != [] && s.installed[|s.installed| - 1] == h
  }

  ghost predicate Inv(s: State) {
    && (forall h :: h in s.installed <==> !At(s, h).Outside?)
    && (s.entry.Some? ==> Latest(s, s.entry.value))
    && (forall h: Conn :: Latest(s, h) ==> s.entry == if Serving(At(s, h)) then Some(h) else None)
    && (forall h :: Serving(At(s, h)) && !Latest(s, h) ==> h in s.preempted)
    && (forall h :: h in s.preempted ==> !Latest(s, h) && At(s, h) != Leaving(true) && h in s.installed)
  }

  lemma InstallKeepsInv(s: State, h: Conn)
    requires Inv(s) && At(s, h).Outside?
    ensures Inv(Next(s, Install(h)))
  {
  }

  lemma StepKeepsInv(s: State, step: Step)
    requires Inv(s) && Enabled(s, step)
    ensures Inv(Next(s, step))
  {
    var t := Next(s, step);
    if step.Install? {
      InstallKeepsInv(s, step.h);
    } else {
      assert t.installed == s.installed;
      assert forall g :: Latest(t, g) <==> Latest(s, g);
      assert forall g :: g != step.h ==> At(t, g) == At(s, g);
    }
  }

  lemma {:induction false} EveryInterleavingKeepsInv(s: State, steps: seq<Step>)
    requires Reachable(s, steps)
    ensures Inv(s)
    decreases |steps|
  {
    if steps != [] {
      var n := |steps| - 1;
      var before :| Reachable(before, steps[..n]) && Enabled(before, steps[n]) && s == Next(before, steps[n]);
      EveryInterleavingKeepsInv(before, steps[..n]);
      StepKeepsInv(before, steps[n]);
    }
  }

  /** In every interleaving the entry is the most recently installed connection, unless that one has cleaned up. */
  lemma EntryIsLatest(s: State, steps: seq<Step>)
    requires Reachable(s, steps)
    ensures s.installed == [] ==> s.entry == None
    ensures s.installed != [] ==>
      (var h := s.installed[|s.installed| - 1]; s.entry == if Serving(At(s, h)) then Some(h) else None)
  {
    EveryInterleavingKeepsInv(s, steps);
    if s.installed != [] {
      assert Latest(s, s.installed[|s.installed| - 1]);
    }
  }

  /** Neither half of a preempted handler's cleanup touches its successor's entry or connected flag. */
  lemma PreemptedIsHarmless(s: State, steps: seq<Step>, step: Step)
    requires Reachable(s, steps) && Enabled(s, step) && (step.Leave? || step.Mark?) && step.h in s.preempted
    ensures Next(s, step).entry == s.entry && Next(s, step).connected == s.connected
  {
    EveryInterleavingKeepsInv(s, steps);
  }

  // ---- The connected flag ----------------------------------------------------------------------------------

  /** The latest handler is registered and shown as connected. */
  ghost predicate Shown(s: State) {
    s.connected && exists h :: Latest(s, h) && At(s, h).Registered?
  }

  /** An owner that has given up the entry and not yet cleared the flag. */
  ghost predicate HalfCleaned(s: State) {
    exists g :: At(s, g) == Leaving(true)
  }

  /** A registered session stays shown as connected, whatever other handlers do, exactly when no earlier owner is
      caught between the two halves of its cleanup. */
  lemma ShownExactly(s: State, steps: seq<Step>)
    requires Reachable(s, steps) && Shown(s)
    ensures !HalfCleaned(s) <==>
      forall step :: Enabled(s, step) && !step.Install? && !Latest(s, step.h) ==>
        Shown(Next(s, step)) && !HalfCleaned(Next(s, step))
  {
    EveryInterleavingKeepsInv(s, steps);
    var h :| Latest(s, h) && At(s, h).Registered?;
    if HalfCleaned(s) {
      var g :| At(s, g) == Leaving(true);
      assert Enabled(s, Mark(g)) && !Latest(s, g);
      assert !Next(s, Mark(g)).connected;
    } else {
      forall step | Enabled(s, step) && !step.Install? && !Latest(s, step.h)
        ensures Shown(Next(s, step)) && !HalfCleaned(Next(s, step))
      {
        var t := Next(s, step);
        assert Latest(t, h) && At(t, h).Registered?;
        forall g
          ensures At(t, g) != Leaving(true)
        {
          assert At(s, g) != Leaving(true);
          assert g != step.h ==> At(t, g) == At(s, g);
        }
      }
    }
  }

  /** The source is shown as connected, nobody serves it as the owner of its entry, and nobody is about to clear the
      flag. */
  ghost predicate Orphaned(s: State) {
    s.connected && s.entry == None && !HalfCleaned(s)
  }

  /** A source becomes orphaned exactly when a handler registers although the entry is gone and its last owner has
      finished cleaning up. */
  lemma OrphanedExactly(s: State, steps: seq<Step>, step: Step)
    requires Reachable(s, steps) && Enabled(s, step) && !Orphaned(s)
    ensures Orphaned(Next(s, step)) <==> step.Register? && s.entry == None && !HalfCleaned(s)
  {
    var t := Next(s, step);
    assert At(t, step.h) == t.handlers[step.h];
    assert forall g :: g != step.h ==> At(t, g) == At(s, g);
    if HalfCleaned(s) && !(step.Mark? && At(s, step.h) == Leaving(true)) {
      var g :| At(s, g) == Leaving(true);
      assert At(t, g) == Leaving(true);
    }
    if step.Leave? && s.entry == Some(step.h) {
      assert At(t, step.h) == Leaving(true);
    }
  }

  /** ... and stays so until a new handler is installed. */
  lemma OrphanedStays(s: State, step: Step)
    requires Orphaned(s) && Enabled(s, step)
    ensures Orphaned(Next(s, step)) <==> !step.Install?
  {
    var t := Next(s, step);
    if !step.Install? {
      forall g
        ensures At(t, g) != Leaving(true)
      {
        assert At(s, g) != Leaving(true);
        assert g != step.h ==> At(t, g) == At(s, g);
      }
    }
  }

  // ---- Both failures occur -----------------------------------------------------------------------------------

  ghost predicate CanReach(s: State) {
    exists steps :: Reachable(s, steps)
  }

  lemma Reach(s: State, step: Step, t: State)
    requires CanReach(s) && Enabled(s, step) && t == Next(s, step)
    ensures CanReach(t)
  {
    var steps :| Reachable(s, steps);
    var all := steps + [step];
    assert all[..|all| - 1] == steps && all[|all| - 1] == step;
    assert Reachable(t, all);
  }

  lemma FirstInstalled()
    ensures CanReach(State(Some(0), false, map[0 := Installed], [0], {}))
  {
    assert Reachable(START, []);
    assert [] + [0] == [0];
    Reach(START, Install(0), State(Some(0), false, map[0 := Installed], [0], {}));
  }

  /** The owner has given up the entry; its successor registers before the flag is cleared. */
  lemma SuccessorRegistered()
    ensures CanReach(State(Some(1), true, map[0 := Leaving(true), 1 := Registered], [0, 1], {}))
  {
    FirstInstalled();
    var a := State(Some(0), false, map[0 := Installed], [0], {});
    var b := State(Some(0), true, map[0 := Registered], [0], {});
    var c := State(None, true, map[0 := Leaving(true)], [0], {});
    var d := State(Some(1), true, map[0 := Leaving(true), 1 := Installed], [0, 1], {});
    Reach(a, Register(0), b);
    Reach(b, Leave(0), c);
    assert [0] + [1] == [0, 1];
    Reach(c, Install(1), d);
    Reach(d, Register(1), State(Some(1), true, map[0 := Leaving(true), 1 := Registered], [0, 1], {}));
  }

  /** Half-cleaned owners do occur: the live successor can end up shown as disconnected. */
  lemma LiveShownDisconnected()
    ensures exists s :: CanReach(s) && s.entry == Some(1) && At(s, 1).Registered? && !s.connected
  {
    SuccessorRegistered();
    var s := State(Some(1), false, map[0 := Gone, 1 := Registered], [0, 1], {});
    Reach(State(Some(1), true, map[0 := Leaving(true), 1 := Registered], [0, 1], {}), Mark(0), s);
    assert At(s, 1).Registered?;
  }

  lemma Preempted()
    ensures CanReach(State(Some(1), false, map[0 := Installed, 1 := Installed], [0, 1], {0}))
  {
    FirstInstalled();
    var a := State(Some(0), false, map[0 := Installed], [0], {});
    assert [0] + [1] == [0, 1];
    assert (set g | g in a.handlers && Serving(a.handlers[g])) == {0};
    Reach(a, Install(1), State(Some(1), false, map[0 := Installed, 1 := Installed], [0, 1], {0}));
  }

  /** The first handler is preempted before it registers, and its successor has come and gone. */
  lemma SuccessorGone()
    ensures CanReach(State(None, false, map[0 := Installed, 1 := Gone], [0, 1], {0}))
  {
    Preempted();
    var b := State(Some(1), false, map[0 := Installed, 1 := Installed], [0, 1], {0});
    var c := State(None, false, map[0 := Installed, 1 := Leaving(true)], [0, 1], {0});
    Reach(b, Leave(1), c);
    Reach(c, Mark(1), State(None, false, map[0 := Installed, 1 := Gone], [0, 1], {0}));
  }

  /** The first handler registers now, and leaves. */
  lemma RegisteredLate()
    ensures CanReach(State(None, true, map[0 := Leaving(false), 1 := Gone], [0, 1], {0}))
  {
    SuccessorGone();
    var a := State(None, false, map[0 := Installed, 1 := Gone], [0, 1], {0});
    var b := State(None, true, map[0 := Registered, 1 := Gone], [0, 1], {0});
    Reach(a, Register(0), b);
    Reach(b, Leave(0), State(None, true, map[0 := Leaving(false), 1 := Gone], [0, 1], {0}));
  }

  /** A preempted handler that registers late leaves a source shown as connected with nobody left to serve it. */
  lemma NobodyShownConnected()
    ensures exists s :: CanReach(s) && Orphaned(s) && forall h :: !Serving(At(s, h)) && !At(s, h).Leaving?
  {
    RegisteredLate();
    var d := State(None, true, map[0 := Gone, 1 := Gone], [0, 1], {0});
    Reach(State(None, true, map[0 := Leaving(false), 1 := Gone], [0, 1], {0}), Mark(0), d);
    assert forall h :: At(d, h) == Gone || At(d, h) == Outside;
  }
}
