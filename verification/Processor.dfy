/** The collector's per-source state and the effect of applying one envelope to it. */
module Processor {
  import opened Basics
  import opened Envelopes
  import opened Gossip
  import opened SlotClock
  import opened SlotTables
  import Peers
  import Slots

  /** Buffers of the two directions of a gossipsub stream. */
  datatype Decoder = Decoder(inBuf: seq<Byte>, outBuf: seq<Byte>)

  /** Streams of other protocols have no decoder. */
  datatype Stream = Stream(protocol: string, decoder: Option<Decoder>)

  datatype Source = Source(
    strings: map<nat, string>,
    streams: map<nat, Stream>,
    peers: Peers.Index,
    slots: map<nat, Table>,
    lastSlot: nat,
    lastAppliedSeq: nat)

  const NEW_SOURCE := Source(map[], map[], Peers.EMPTY, map[], 0, 0)

  datatype Config = Config(clock: Clock, maxRpcSize: nat, decode: PayloadDecoder)

  /** Clears what an attach must rebuild; slot aggregates survive. */
  function Reset(s: Source): Source {
    s.(strings := map[], streams := map[], peers := Peers.EMPTY, lastAppliedSeq := 0)
  }

  predicate IsGossip(protocol: string) {
    "/meshsub/" <= protocol || "/floodsub/" <= protocol
  }

  function NewStream(protocol: string): Stream {
    Stream(protocol, if IsGossip(protocol) then Some(Decoder([], [])) else None)
  }

  /** A missing string reads as empty. */
  function Text(strings: map<nat, string>, id: nat): string {
    GetOr(strings, id, "")
  }

  function DirectionText(d: Direction): string {
    match d
    case In => "inbound"
    case Out => "outbound"
    case Unknown => "unknown"
  }

  function Describe(strings: map<nat, string>, c: ConnectionInfo): Peers.ConnState {
    Peers.ConnState(c.peerAlias, c.remoteAddr, c.localAddr, DirectionText(c.direction),
                    Text(strings, c.transportId), Text(strings, c.securityId), Text(strings, c.muxerId), c.openedAtNs)
  }

  // ---- Chunks ------------------------------------------------------------------------------------

  /** How many slots late a payload is. */
  function BleedDistance(slot: nat, payloadSlot: Option<nat>): nat {
    if payloadSlot.Some? && payloadSlot.value < slot then slot - payloadSlot.value else 0
  }

  function ShareOf(ref: SlotRef, dir: Direction, protocol: string, r: Record): Observation {
    Share(Bucket(ref), dir, r.bytes, Key(protocol, r.topic, r.kind), BleedDistance(ref.slot, r.slot), r.facts)
  }

  function PlainShare(ref: SlotRef, dir: Direction, protocol: string, kind: string, bytes: nat): Observation {
    Share(Bucket(ref), dir, bytes, Key(protocol, "", kind), 0, NO_FACTS)
  }

  /** What decoding a chunk of a gossipsub stream yields: the drained buffer, or nothing for other directions. */
  function Decode(cfg: Config, d: Decoder, dir: Direction, data: seq<Byte>): Outcome {
    match dir
    case In => Drain(cfg.decode, cfg.maxRpcSize, d.inBuf + data)
    case Out => Drain(cfg.decode, cfg.maxRpcSize, d.outBuf + data)
    case Unknown => Outcome([], [], None)
  }

  function DecoderAfter(d: Decoder, dir: Direction, out: Outcome): Decoder {
    if out.error.Some? then Decoder([], [])
    else match dir
      case In => d.(inBuf := out.rest)
      case Out => d.(outBuf := out.rest)
      case Unknown => d
  }

  function DecodedShares(ref: SlotRef, dir: Direction, protocol: string, out: Outcome, size: nat): seq<Observation> {
    Map(r => ShareOf(ref, dir, protocol, r), out.records)
    + if out.error.Some? then [PlainShare(ref, dir, protocol, "decode_error", size)] else []
  }

  /** What an accepted chunk records, where, and what becomes of its stream. */
  datatype Effect = Effect(ref: SlotRef, observations: seq<Observation>, stream: Stream)

  function ChunkEffect(cfg: Config, stream: Stream, ref: SlotRef, atNs: int, dir: Direction, data: seq<Byte>): Effect {
    var raw := Traffic(Bucket(ref), dir, |data|, atNs);
    match stream.decoder
    case None => Effect(ref, [raw, PlainShare(ref, dir, stream.protocol, "raw", |data|)], stream)
    case Some(d) =>
      var out := Decode(cfg, d, dir, data);
      Effect(ref, [raw] + DecodedShares(ref, dir, stream.protocol, out, |data|),
             stream.(decoder := Some(DecoderAfter(d, dir, out))))
  }

  /** Live envelopes at or below the cursor have been applied already. */
  predicate Duplicate(s: Source, e: Envelope) {
    e.seqNo != 0 && e.seqNo <= s.lastAppliedSeq
  }

  /** The effect of an envelope on slots and decoders, if it is a chunk that is accepted. */
  function Accepted(cfg: Config, s: Source, e: Envelope): Option<Effect> {
    if e.payload.StreamChunk? && !Duplicate(s, e) && e.payload.chunkAlias in s.streams then
      match At(cfg.clock, e.observedAtNs)
      case None => None
      case Some(ref) =>
        var stream := s.streams[e.payload.chunkAlias];
        Some(ChunkEffect(cfg, stream, ref, e.observedAtNs, e.payload.direction, e.payload.data))
    else None
  }

  // ---- Slots -------------------------------------------------------------------------------------

  /** The table handed to the finalize callback when a chunk of this slot arrives. */
  function FinalizedBy(s: Source, slot: nat): Option<Table> {
    if Slots.Advances(s.lastSlot, slot) then Lookup(s.slots, s.lastSlot) else None
  }

  function RecordChunk(s: Source, alias: nat, eff: Effect, victim: nat): Source {
    var kept := Slots.Kept(s.slots, s.lastSlot, eff.ref.slot, victim);
    var table := GetOr(kept, eff.ref.slot, NewTable(eff.ref));
    s.(slots := kept[eff.ref.slot := AddAll(table, eff.observations)],
       lastSlot := eff.ref.slot,
       streams := s.streams[alias := eff.stream])
  }

  // ---- One envelope ------------------------------------------------------------------------------

  function ApplyPayload(cfg: Config, s: Source, e: Envelope, victim: nat): Source {
    match e.payload
    case StringDef(id, value) => s.(strings := s.strings[id := value])
    case PeerUpsert(alias, id) => s.(peers := Peers.UpsertPeer(s.peers, alias, id))
    case ConnectionUpsert(c) => s.(peers := Peers.UpsertConnection(s.peers, c.connAlias, Describe(s.strings, c)))
    case ConnectionClosed(alias) => s.(peers := Peers.CloseConnection(s.peers, alias))
    case StreamUpsert(st) => s.(streams := s.streams[st.streamAlias := NewStream(Text(s.strings, st.protocolId))])
    case StreamClosed(alias, _) => s.(streams := s.streams - {alias})
    case StreamChunk(alias, _, _) =>
      (match Accepted(cfg, s, e)
       case None => s
       case Some(eff) => RecordChunk(s, alias, eff, victim))
    case _ => s
  }

  /** Applying one envelope; `victim` is the slot the eviction loop picks, should it run. */
  function Apply(cfg: Config, s: Source, e: Envelope, victim: nat): Source {
    if e.payload.SnapshotStart? then Reset(s)
    else if e.payload.SnapshotEnd? || Duplicate(s, e) then s
    else
      var t := ApplyPayload(cfg, s, e, victim);
      if e.seqNo != 0 then t.(lastAppliedSeq := e.seqNo) else t
  }

  /** What reaches a source: an envelope, or the listener's reset at a changed boot. */
  datatype Input = Event(env: Envelope, victim: nat) | BootReset

  ghost predicate Allowed(cfg: Config, s: Source, i: Input) {
    var accepted := AcceptedInput(cfg, s, i);
    accepted.Some? ==> Slots.MayEvict(s.slots, s.lastSlot, accepted.value.ref.slot, i.victim)
  }

  function Step(cfg: Config, s: Source, i: Input): Source {
    match i
    case Event(env, victim) => Apply(cfg, s, env, victim)
    case BootReset => Reset(s)
  }

  function After(cfg: Config, ins: seq<Input>): Source {
    if ins == [] then NEW_SOURCE else Step(cfg, After(cfg, ins[..|ins| - 1]), ins[|ins| - 1])
  }

  /** Every eviction of the run picked a slot its loop can pick. */
  ghost predicate Run(cfg: Config, ins: seq<Input>) {
    if ins == [] then true else
      Run(cfg, ins[..|ins| - 1]) && Allowed(cfg, After(cfg, ins[..|ins| - 1]), ins[|ins| - 1])
  }

  /** The accepted chunk of one input, if it is one. */
  function AcceptedInput(cfg: Config, s: Source, i: Input): Option<Effect> {
    if i.Event? then Accepted(cfg, s, i.env) else None
  }

  // ---- The part a snapshot rebuilds ----------------------------------------------------------------

  /** Strings, stream protocols and the peer index: what the alias envelopes build. */
  datatype Aliases = Aliases(strings: map<nat, string>, protocols: map<nat, string>, peers: Peers.Index)

  const NO_ALIASES := Aliases(map[], map[], Peers.EMPTY)

  ghost function AliasesOf(s: Source): Aliases {
    Aliases(s.strings, map a | a in s.streams :: s.streams[a].protocol, s.peers)
  }

  function ApplyAlias(a: Aliases, p: Payload): Aliases {
    match p
    case SnapshotStart => NO_ALIASES
    case StringDef(id, value) => a.(strings := a.strings[id := value])
    case PeerUpsert(alias, id) => a.(peers := Peers.UpsertPeer(a.peers, alias, id))
    case ConnectionUpsert(c) => a.(peers := Peers.UpsertConnection(a.peers, c.connAlias, Describe(a.strings, c)))
    case ConnectionClosed(alias) => a.(peers := Peers.CloseConnection(a.peers, alias))
    case StreamUpsert(st) => a.(protocols := a.protocols[st.streamAlias := Text(a.strings, st.protocolId)])
    case StreamClosed(alias, _) => a.(protocols := a.protocols - {alias})
    case _ => a
  }

  /** The collector as the resume protocol sees it: alias state and cursor. */
  datatype Core = Core(aliases: Aliases, cursor: nat)

  function ApplyCore(c: Core, e: Envelope): Core {
    if e.payload.SnapshotStart? then Core(NO_ALIASES, 0)
    else if e.payload.SnapshotEnd? || (e.seqNo != 0 && e.seqNo <= c.cursor) then c
    else Core(ApplyAlias(c.aliases, e.payload), if e.seqNo != 0 then e.seqNo else c.cursor)
  }

  lemma ChunkKeepsProtocol(cfg: Config, s: Source, e: Envelope)
    requires Accepted(cfg, s, e).Some?
    ensures e.payload.StreamChunk? && e.payload.chunkAlias in s.streams
    ensures Accepted(cfg, s, e).value.stream.protocol == s.streams[e.payload.chunkAlias].protocol
  {
  }

  lemma RecordKeepsAliases(s: Source, alias: nat, eff: Effect, victim: nat)
    requires alias in s.streams && eff.stream.protocol == s.streams[alias].protocol
    ensures AliasesOf(RecordChunk(s, alias, eff, victim)) == AliasesOf(s)
  {
  }

  lemma PayloadRefinesAliases(cfg: Config, s: Source, e: Envelope, victim: nat)
    requires !e.payload.SnapshotStart?
    ensures AliasesOf(ApplyPayload(cfg, s, e, victim)) == ApplyAlias(AliasesOf(s), e.payload)
  {
    if e.payload.StreamChunk? {
      if Accepted(cfg, s, e).Some? {
        ChunkKeepsProtocol(cfg, s, e);
        RecordKeepsAliases(s, e.payload.chunkAlias, Accepted(cfg, s, e).value, victim);
      }
    } else {
      QuietRefinesAliases(cfg, s, e, victim);
    }
  }

  lemma QuietRefinesAliases(cfg: Config, s: Source, e: Envelope, victim: nat)
    requires !e.payload.SnapshotStart? && !e.payload.StreamChunk?
    ensures AliasesOf(ApplyPayload(cfg, s, e, victim)) == ApplyAlias(AliasesOf(s), e.payload)
  {
  }

  /** Slots, decoders and evictions never reach the alias state: the processor projects onto the core. */
  lemma ProcessorRefinesCore(cfg: Config, s: Source, e: Envelope, victim: nat)
    ensures var t := Apply(cfg, s, e, victim);
      Core(AliasesOf(t), t.lastAppliedSeq) == ApplyCore(Core(AliasesOf(s), s.lastAppliedSeq), e)
  {
    if e.payload.SnapshotStart? {
      assert AliasesOf(Reset(s)) == NO_ALIASES;
    } else if !(e.payload.SnapshotEnd? || Duplicate(s, e)) {
      PayloadRefinesAliases(cfg, s, e, victim);
      var t := ApplyPayload(cfg, s, e, victim);
      assert AliasesOf(t.(lastAppliedSeq := e.seqNo)) == AliasesOf(t);
    }
  }
}
