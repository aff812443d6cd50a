/** The resume protocol between a probe's ingest sink and the collector, as a step system. */
module Resume {
  import opened Basics
  import opened Envelopes
  import opened Processor
  import opened Probe
  import opened Snapshot
  import opened Sections
  import Ring

  /** Room in the send queue (1024 in the sink) and in the emitter's ring. */
  datatype Limits = Limits(queue: nat, ring: nat)

  const SINK_LIMITS := Limits(1024, Ring.DEFAULT_RING_BUFFER_SIZE)

  /** How many strings a catch-up has read, and how far the log had come by then. */
  datatype Reading = Reading(strings: nat, at: nat)

  /** The sink's send queue, whether its write pump has a connection, what is in flight on the latest one, and the
      snapshot it is in the middle of reading. */
  datatype Link = Link(queue: seq<Envelope>, connected: bool, wire: seq<Envelope>, reading: Option<Reading>)

  /** The collector's state for the source, the boot it has registered, and the live sequence numbers it has
      applied: since its cursor was last reset, and ever since it started or saw the boot for the first time. */
  datatype Collector = Collector(core: Core, registered: Option<nat>, applied: seq<nat>, ever: seq<nat>)

  /** A section of a probe operation adds all its envelopes to the log at once and emits them one by one: `emitted`
      counts those that have left. `refused` holds the sequence numbers the full queue turned away in this boot. */
  datatype System = System(
    host: Host, emitted: nat, boot: nat, link: Link, collector: Collector, refused: set<nat>)

  const BLANK := Core(NO_ALIASES, 0)

  const START_SYSTEM := System(START_HOST, 0, 0, Link([], false, [], None), Collector(BLANK, None, [], []), {})

  datatype Step =
    | Work(sec: Section)                   // the host reports activity, one locked section at a time
    | Emit                                 // one envelope gets its number, enters the ring and is offered to the queue
    | Pump                                 // the write pump writes the head of the queue
    | PumpFails(kept: nat)                 // ... or loses it together with the connection
    | Deliver                              // the collector reads and applies one envelope
    | Drop(kept: nat)                      // the connection breaks; only a prefix in flight still arrives
    | Attach                               // handshake, then a replay or the reading of the snapshot's strings
    | SendSnapshot(snap: Snap)             // the snapshot's maps are read, and it is sent
    | AttachFails                          // the handshake breaks after the boot check
    | RestartProbe(kept: nat)
    | RestartCollector(remembers: bool)    // whether the registered boot was persisted

  // ---- Steps -------------------------------------------------------------------------------------------

  /** Everything the probe has said or is about to say. */
  function Saying(s: System): seq<Envelope> {
    s.host.state.log
  }

  /** Everything emitted so far. */
  function Log(s: System): seq<Envelope>
    requires s.emitted <= |Saying(s)|
  {
    Saying(s)[..s.emitted]
  }

  /** Whether the ring can bring a collector with this cursor up to date. */
  predicate Replays(ring: nat, log: seq<Envelope>, cursor: nat) {
    cursor > 0 && Ring.EventsFrom(ring, log, cursor + 1).Some?
  }

  /** The ring covers a cursor exactly when no more than its capacity was emitted since. */
  lemma ReplaysExactly(ring: nat, log: seq<Envelope>, cursor: nat)
    ensures Replays(ring, log, cursor) <==> cursor > 0 && |log| <= cursor + ring
  {
  }

  /** The sink's side of a catch-up for this cursor: a replay is sent at once, a snapshot is begun. */
  function Catchup(ring: nat, s: System, cursor: nat): Link
    requires s.emitted <= |Saying(s)|
  {
    if Replays(ring, Log(s), cursor)
    then Link(s.link.queue, true, Ring.EventsFrom(ring, Log(s), cursor + 1).value, None)
    else Link(s.link.queue, false, [], Some(Reading(|s.host.state.table.strings|, |Saying(s)|)))
  }

  /** Reset unless this very boot is registered. */
  function Greet(c: Collector, boot: nat): Collector {
    if c.registered == Some(boot) then c else Collector(BLANK, c.registered, [], [])
  }

  function Receive(c: Collector, e: Envelope): Collector {
    var news := if Applies(c.core.cursor, e) then [e.seqNo] else [];
    Collector(ApplyCore(c.core, e), c.registered,
              (if e.payload.SnapshotStart? then [] else c.applied) + news, c.ever + news)
  }

  /** A live envelope above the cursor takes effect. */
  predicate Applies(cursor: nat, e: Envelope) {
    !e.payload.SnapshotStart? && !e.payload.SnapshotEnd? && e.seqNo > cursor
  }

  /** The snapshot has the strings read before and the maps of now. */
  ghost predicate ReadsAs(s: System, snap: Snap) {
    && s.link.reading.Some? && s.link.reading.value.strings <= |s.host.state.table.strings|
    && snap.strings == s.host.state.table.strings[..s.link.reading.value.strings]
    && ListsNet(Actual(s.host.state, s.host.leaving).net, snap)
  }

  ghost predicate Enabled(lim: Limits, s: System, step: Step) {
    match step
    case Work(sec) => s.emitted == |Saying(s)| && CanRun(s.host, sec)
    case Emit => s.emitted < |Saying(s)|
    case Pump => s.link.connected && s.link.queue != []
    case PumpFails(kept) => s.link.connected && s.link.queue != [] && kept <= |s.link.wire|
    case Deliver => s.link.wire != []
    case Drop(kept) => kept <= |s.link.wire|
    case Attach => !s.link.connected && s.link.reading.None? && s.emitted <= |Saying(s)|
    case SendSnapshot(snap) => ReadsAs(s, snap)
    case AttachFails => !s.link.connected && s.link.reading.None?
    case RestartProbe(kept) => kept <= |s.link.wire|
    case RestartCollector(_) => true
  }

  function Offer(lim: Limits, s: System): System
    requires s.emitted < |Saying(s)|
  {
    var e := Saying(s)[s.emitted];
    if |s.link.queue| < lim.queue then s.(emitted := s.emitted + 1, link := s.link.(queue := s.link.queue + [e]))
    else s.(emitted := s.emitted + 1, refused := s.refused + {e.seqNo})
  }

  function Broken(l: Link, kept: nat): Link
    requires kept <= |l.wire|
  {
    Link(l.queue, false, l.wire[..kept], None)
  }

  ghost function Next(lim: Limits, now: Time, s: System, step: Step): System
    requires Enabled(lim, s, step)
  {
    match step
    case Work(sec) => s.(host := Act(s.host, now, sec))
    case Emit => Offer(lim, s)
    case Pump => s.(link := Link(s.link.queue[1..], true, s.link.wire + [s.link.queue[0]], s.link.reading))
    case PumpFails(kept) => s.(link := Broken(s.link.(queue := s.link.queue[1..]), kept))
    case Deliver =>
      s.(link := s.link.(wire := s.link.wire[1..]), collector := Receive(s.collector, s.link.wire[0]))
    case Drop(kept) => s.(link := Broken(s.link, kept))
    case Attach =>
      var c := Greet(s.collector, s.boot);
      s.(collector := c.(registered := Some(s.boot)), link := Catchup(lim.ring, s, c.core.cursor))
    case SendSnapshot(snap) => s.(link := Link(s.link.queue, true, EnvelopesOf(snap), None))
    case AttachFails => s.(collector := Greet(s.collector, s.boot), link := s.link.(wire := []))
    case RestartProbe(kept) =>
      System(START_HOST, 0, s.boot + 1, Link([], false, s.link.wire[..kept], None), s.collector, {})
    case RestartCollector(remembers) =>
      s.(collector := Collector(BLANK, if remembers then s.collector.registered else None, [], []),
         link := Link(s.link.queue, false, [], None))
  }

  ghost predicate Reachable(lim: Limits, now: Time, s: System, steps: seq<Step>)
    decreases |steps|
  {
    if steps == [] then s == START_SYSTEM else
      var n := |steps| - 1;
      exists before ::
        && Reachable(lim, now, before, steps[..n]) && Enabled(lim, before, steps[n])
        && s == Next(lim, now, before, steps[n])
  }

  lemma {:induction false} SameStepsSameState(lim: Limits, now: Time, s: System, t: System, steps: seq<Step>)
    requires Reachable(lim, now, s, steps) && Reachable(lim, now, t, steps)
    ensures s == t
    decreases |steps|
  {
    if steps == [] {
      assert s == START_SYSTEM && t == START_SYSTEM;
    } else {
      var n := |steps| - 1;
      var a :|
        && Reachable(lim, now, a, steps[..n]) && Enabled(lim, a, steps[n]) && s == Next(lim, now, a, steps[n]);
      var b :|
        && Reachable(lim, now, b, steps[..n]) && Enabled(lim, b, steps[n]) && t == Next(lim, now, b, steps[n]);
      SameStepsSameState(lim, now, a, b, steps[..n]);
    }
  }
}
