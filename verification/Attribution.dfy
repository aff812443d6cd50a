/** What a chunk is attributed to, and how a stream's two directions are decoded over all its chunks. */
module Attribution {
  import opened Basics
  import opened Envelopes
  import opened Gossip
  import opened SlotClock
  import opened SlotTables
  import opened Processor

  /** The instant lies in the 100 ms that begin `bucket` milliseconds after the start of the slot. */
  ghost predicate InBucket(bucket: nat, ref: SlotRef, atNs: int) {
    bucket % 100 == 0 && bucket * 1_000_000 <= atNs - ref.startNs < (bucket + 100) * 1_000_000
  }

  /** The distance is positive exactly for a payload of an earlier slot, and then leads from that slot to this one. */
  ghost predicate LateBy(distance: nat, payloadSlot: Option<nat>, slot: nat) {
    && (distance > 0 <==> payloadSlot.Some? && payloadSlot.value < slot)
    && (distance > 0 ==> payloadSlot.value + distance == slot)
  }

  /** A record's bytes, topic, kind and block facts, under the stream's protocol. */
  ghost predicate Attributes(o: Observation, protocol: string, r: Record, slot: nat) {
    && o.Share? && o.bytes == r.bytes && o.facts == r.facts && LateBy(o.distance, r.slot, slot)
    && o.key.protocol == protocol && o.key.topic == r.topic && o.key.kind == r.kind
  }

  /** All bytes of a chunk, under a kind of their own. */
  ghost predicate Charges(o: Observation, protocol: string, kind: string, bytes: nat) {
    && o.Share? && o.bytes == bytes && o.facts == NO_FACTS && o.distance == 0
    && o.key.protocol == protocol && o.key.topic == "" && o.key.kind == kind
  }

  lemma BucketHolds(c: Clock, t: int, ref: SlotRef)
    requires At(c, t) == Some(ref)
    ensures InBucket(Bucket(ref), ref, t)
  {
    BucketsAreBounded(c, t);
    SlotsTileTime(c, t, ref.slot);
    assert ref.offsetNs == t - ref.startNs;
  }

  /** Everything lies in the bucket of the chunk's time and has its direction; the raw bytes come first. */
  ghost predicate Located(obs: seq<Observation>, ref: SlotRef, atNs: int, dir: Direction, bytes: nat) {
    && (forall i :: 0 <= i < |obs| ==> InBucket(obs[i].bucket, ref, atNs) && obs[i].dir == dir)
    && |obs| >= 1 && obs[0].Traffic? && obs[0].bytes == bytes && obs[0].atNs == atNs
  }

  /** What a direction's buffer and the new data give; nothing for an unknown direction. */
  function Decoded(cfg: Config, d: Decoder, dir: Direction, data: seq<Byte>): Outcome {
    if dir == Unknown then Outcome([], [], None)
    else Drain(cfg.decode, cfg.maxRpcSize, (if dir == In then d.inBuf else d.outBuf) + data)
  }

  /** Without a decoder all bytes are charged once more as raw; with one, each decoded record is attributed under its
      own topic and kind and as late as its payload is, and after an error all bytes are charged as a decode error. */
  ghost predicate Divided(
      cfg: Config, obs: seq<Observation>, st: Stream, slot: nat, dir: Direction, data: seq<Byte>)
  {
    match st.decoder
    case None => |obs| == 2 && Charges(obs[1], st.protocol, "raw", |data|)
    case Some(d) =>
      var out := Decoded(cfg, d, dir, data);
      && |obs| == 1 + |out.records| + (if out.error.Some? then 1 else 0)
      && (forall i :: 0 <= i < |out.records| ==> Attributes(obs[1 + i], st.protocol, out.records[i], slot))
      && (out.error.Some? ==> Charges(obs[|obs| - 1], st.protocol, "decode_error", |data|))
  }

  lemma EffectIsExact(
      cfg: Config, st: Stream, ref: SlotRef, atNs: int, dir: Direction, data: seq<Byte>, eff: Effect)
    requires eff == ChunkEffect(cfg, st, ref, atNs, dir, data) && InBucket(Bucket(ref), ref, atNs)
    ensures Located(eff.observations, ref, atNs, dir, |data|) && Divided(cfg, eff.observations, st, ref.slot, dir, data)
  {
    if st.decoder.Some? {
      SharesOf(ref, dir, st.protocol, Decode(cfg, st.decoder.value, dir, data), |data|);
    }
  }

  /** What an accepted chunk of an open stream is attributed to, in the slot of its time. */
  lemma SharesAreExact(cfg: Config, s: Source, e: Envelope, eff: Effect)
    requires Accepted(cfg, s, e) == Some(eff)
    ensures e.payload.StreamChunk? && e.payload.chunkAlias in s.streams
    ensures At(cfg.clock, e.observedAtNs) == Some(eff.ref)
    ensures var p, obs, st := e.payload, eff.observations, s.streams[e.payload.chunkAlias];
      && Located(obs, eff.ref, e.observedAtNs, p.direction, |p.data|)
      && Divided(cfg, obs, st, eff.ref.slot, p.direction, p.data)
  {
    var p := e.payload;
    BucketHolds(cfg.clock, e.observedAtNs, eff.ref);
    EffectIsExact(cfg, s.streams[p.chunkAlias], eff.ref, e.observedAtNs, p.direction, p.data, eff);
  }

  lemma SharesOf(ref: SlotRef, dir: Direction, protocol: string, out: Outcome, size: nat)
    ensures var shares := DecodedShares(ref, dir, protocol, out, size);
      && |shares| == |out.records| + (if out.error.Some? then 1 else 0)
      && (forall i :: 0 <= i < |shares| ==> shares[i].bucket == Bucket(ref) && shares[i].dir == dir)
      && (forall i :: 0 <= i < |out.records| ==> Attributes(shares[i], protocol, out.records[i], ref.slot))
      && (out.error.Some? ==> Charges(shares[|shares| - 1], protocol, "decode_error", size))
  {
  }

  // ---- Which streams are decoded -------------------------------------------------------------------------------

  /** The protocols of gossipsub and floodsub, in all their versions. */
  ghost predicate Spoken(protocol: string) {
    (|protocol| >= 9 && protocol[..9] == "/meshsub/") || (|protocol| >= 10 && protocol[..10] == "/floodsub/")
  }

  lemma ChunkKeepsDecoder(cfg: Config, st: Stream, ref: SlotRef, atNs: int, dir: Direction, data: seq<Byte>)
    ensures var t := ChunkEffect(cfg, st, ref, atNs, dir, data).stream;
      t.protocol == st.protocol && (t.decoder.Some? <==> st.decoder.Some?)
  {
  }

  lemma NewStreamDecodes(protocol: string)
    ensures NewStream(protocol).decoder.Some? <==> Spoken(protocol)
    ensures NewStream(protocol).protocol == protocol
    ensures NewStream(protocol).decoder.Some? ==> NewStream(protocol).decoder.value == Decoder([], [])
  {
  }

  /** Exactly the streams of these protocols have a decoder. */
  ghost predicate Sorted(streams: map<nat, Stream>) {
    forall a :: a in streams ==> (streams[a].decoder.Some? <==> Spoken(streams[a].protocol))
  }

  lemma ChunkKeepsSorted(cfg: Config, s: Source, e: Envelope, victim: nat)
    requires Sorted(s.streams) && e.payload.StreamChunk?
    ensures Sorted(ApplyPayload(cfg, s, e, victim).streams)
  {
    if Accepted(cfg, s, e).Some? {
      var p := e.payload;
      var ref := At(cfg.clock, e.observedAtNs).value;
      ChunkKeepsDecoder(cfg, s.streams[p.chunkAlias], ref, e.observedAtNs, p.direction, p.data);
    }
  }

  lemma PayloadKeepsSorted(cfg: Config, s: Source, e: Envelope, victim: nat)
    requires Sorted(s.streams)
    ensures Sorted(ApplyPayload(cfg, s, e, victim).streams)
  {
    if e.payload.StreamChunk? {
      ChunkKeepsSorted(cfg, s, e, victim);
    } else if e.payload.StreamUpsert? {
      NewStreamDecodes(Text(s.strings, e.payload.stream.protocolId));
    }
  }

  lemma StepKeepsSorted(cfg: Config, s: Source, i: Input)
    requires Sorted(s.streams)
    ensures Sorted(Step(cfg, s, i).streams)
  {
    if i.Event? {
      PayloadKeepsSorted(cfg, s, i.env, i.victim);
    }
  }

  /** In every run, exactly the streams of these protocols are decoded. */
  lemma {:induction false} DecodedExactly(cfg: Config, ins: seq<Input>)
    ensures Sorted(After(cfg, ins).streams)
    decreases |ins|
  {
    if ins == [] {
      assert After(cfg, ins).streams == map[];
    } else {
      var n := |ins| - 1;
      DecodedExactly(cfg, ins[..n]);
      StepKeepsSorted(cfg, After(cfg, ins[..n]), ins[n]);
    }
  }

  /** A stream announced with a string that is not defined has an empty protocol and is not decoded; a connection shows
      nothing for such strings. */
  lemma UndefinedReadsEmpty(cfg: Config, s: Source, e: Envelope, victim: nat)
    ensures var p, t := e.payload, ApplyPayload(cfg, s, e, victim);
      && (p.StreamUpsert? && p.stream.protocolId !in s.strings ==>
            p.stream.streamAlias in t.streams && t.streams[p.stream.streamAlias] == Stream("", None))
      && (p.ConnectionUpsert? && p.conn.peerAlias in s.peers.peers ==>
            p.conn.peerAlias in t.peers.peers && p.conn.connAlias in t.peers.peers[p.conn.peerAlias].connections
            && var cs := t.peers.peers[p.conn.peerAlias].connections[p.conn.connAlias];
              && (p.conn.transportId !in s.strings ==> cs.transport == "")
              && (p.conn.securityId !in s.strings ==> cs.security == "")
              && (p.conn.muxerId !in s.strings ==> cs.muxer == ""))
  {
  }

  // ---- The two directions of a stream --------------------------------------------------------------------------

  /** A chunk of one stream, with the slot and time it was accepted at. */
  datatype Arrival = Arrival(ref: SlotRef, atNs: int, dir: Direction, data: seq<Byte>)

  function StreamAfter(cfg: Config, st: Stream, cs: seq<Arrival>): Stream {
    if cs == [] then st else
      var c := cs[|cs| - 1];
      ChunkEffect(cfg, StreamAfter(cfg, st, cs[..|cs| - 1]), c.ref, c.atNs, c.dir, c.data).stream
  }

  /** What decoding the last chunk gives. */
  function LastCall(cfg: Config, st: Stream, cs: seq<Arrival>): Outcome
    requires cs != []
  {
    var before, c := StreamAfter(cfg, st, cs[..|cs| - 1]), cs[|cs| - 1];
    match before.decoder
    case None => Outcome([], [], None)
    case Some(d) => Decode(cfg, d, c.dir, c.data)
  }

  ghost predicate NeverFails(cfg: Config, st: Stream, cs: seq<Arrival>) {
    forall n :: 0 < n <= |cs| ==> LastCall(cfg, st, cs[..n]).error.None?
  }

  /** The bytes that passed in one direction. */
  function Passed(cs: seq<Arrival>, dir: Direction): seq<Byte> {
    if cs == [] then [] else
      Passed(cs[..|cs| - 1], dir) + if cs[|cs| - 1].dir == dir then cs[|cs| - 1].data else []
  }

  /** The records made of one direction. */
  function Made(cfg: Config, st: Stream, cs: seq<Arrival>, dir: Direction): seq<Record> {
    if cs == [] then [] else
      Made(cfg, st, cs[..|cs| - 1], dir) + if cs[|cs| - 1].dir == dir then LastCall(cfg, st, cs).records else []
  }

  function BufferOf(d: Decoder, dir: Direction): seq<Byte> {
    if dir == In then d.inBuf else d.outBuf
  }

  lemma NoFailureBefore(cfg: Config, st: Stream, cs: seq<Arrival>)
    requires cs != [] && NeverFails(cfg, st, cs)
    ensures NeverFails(cfg, st, cs[..|cs| - 1]) && LastCall(cfg, st, cs).error.None?
  {
    var pre := cs[..|cs| - 1];
    forall n | 0 < n <= |pre|
      ensures LastCall(cfg, st, pre[..n]).error.None?
    {
      assert cs[..n] == pre[..n];
    }
    assert cs[..|cs|] == cs;
  }

  /** Draining goes on where it stopped. */
  lemma DrainGoesOn(
      decode: PayloadDecoder, max: nat, passed: seq<Byte>, data: seq<Byte>, all: seq<Byte>, first: Outcome,
      out: Outcome)
    requires first == Drain(decode, max, passed) && first.error.None? && all == passed + data
    requires out == Drain(decode, max, first.rest + data)
    ensures Drain(decode, max, all) == Outcome(first.records + out.records, out.rest, out.error)
  {
    DrainAppend(decode, max, passed, data);
  }

  /** One more chunk: its own direction goes on from its buffer, the other stays. */
  lemma OneMoreCall(cfg: Config, d: Decoder, protocol: string, c: Arrival, dir: Direction, out: Outcome)
    requires dir == In || dir == Out
    requires out == Decode(cfg, d, c.dir, c.data) && out.error.None?
    ensures var after := ChunkEffect(cfg, Stream(protocol, Some(d)), c.ref, c.atNs, c.dir, c.data).stream;
      && after.protocol == protocol && after.decoder.Some?
      && BufferOf(after.decoder.value, dir) == (if c.dir == dir then out.rest else BufferOf(d, dir))
      && (c.dir == dir ==> out == Drain(cfg.decode, cfg.maxRpcSize, BufferOf(d, dir) + c.data))
  {
  }

  /** The records made of a direction and what it still waits for are those of all bytes that passed in it. */
  ghost predicate OnItsOwn(cfg: Config, st: Stream, cs: seq<Arrival>, dir: Direction)
    requires st.decoder.Some?
  {
    var after := StreamAfter(cfg, st, cs);
    && after.protocol == st.protocol && after.decoder.Some?
    && Drain(cfg.decode, cfg.maxRpcSize, BufferOf(st.decoder.value, dir) + Passed(cs, dir)) ==
       Outcome(Made(cfg, st, cs, dir), BufferOf(after.decoder.value, dir), None)
  }

  lemma SameDirection(cfg: Config, st: Stream, cs: seq<Arrival>, pre: seq<Arrival>, c: Arrival, dir: Direction)
    requires cs != [] && pre == cs[..|cs| - 1] && c == cs[|cs| - 1] && c.dir == dir && (dir == In || dir == Out)
    requires st.decoder.Some? && OnItsOwn(cfg, st, pre, dir) && LastCall(cfg, st, cs).error.None?
    ensures OnItsOwn(cfg, st, cs, dir)
  {
    var before, out, start := StreamAfter(cfg, st, pre), LastCall(cfg, st, cs), BufferOf(st.decoder.value, dir);
    OneMoreCall(cfg, before.decoder.value, before.protocol, c, dir, out);
    PassedOn(start, Passed(pre, dir), c.data);
    DrainGoesOn(cfg.decode, cfg.maxRpcSize, start + Passed(pre, dir), c.data, start + Passed(cs, dir),
                Outcome(Made(cfg, st, pre, dir), BufferOf(before.decoder.value, dir), None), out);
  }

  lemma PassedOn(start: seq<Byte>, passed: seq<Byte>, data: seq<Byte>)
    ensures start + (passed + data) == (start + passed) + data
  {
  }

  lemma OtherDirection(cfg: Config, st: Stream, cs: seq<Arrival>, pre: seq<Arrival>, c: Arrival, dir: Direction)
    requires cs != [] && pre == cs[..|cs| - 1] && c == cs[|cs| - 1] && c.dir != dir && (dir == In || dir == Out)
    requires st.decoder.Some? && OnItsOwn(cfg, st, pre, dir) && LastCall(cfg, st, cs).error.None?
    ensures OnItsOwn(cfg, st, cs, dir)
  {
    var before := StreamAfter(cfg, st, pre);
    OneMoreCall(cfg, before.decoder.value, before.protocol, c, dir, LastCall(cfg, st, cs));
    assert Passed(pre, dir) + [] == Passed(pre, dir) && Made(cfg, st, pre, dir) + [] == Made(cfg, st, pre, dir);
  }

  /** As long as no call fails, each direction is decoded on its own, after what it had buffered, however the other
      direction and unknown ones are interleaved. */
  lemma {:induction false} EachDirectionOnItsOwn(cfg: Config, st: Stream, cs: seq<Arrival>, dir: Direction)
    requires dir == In || dir == Out
    requires st.decoder.Some? && Settled(cfg.decode, cfg.maxRpcSize, BufferOf(st.decoder.value, dir))
    requires NeverFails(cfg, st, cs)
    ensures OnItsOwn(cfg, st, cs, dir)
    decreases |cs|
  {
    if cs == [] {
      assert BufferOf(st.decoder.value, dir) + [] == BufferOf(st.decoder.value, dir);
    } else {
      var pre, c := cs[..|cs| - 1], cs[|cs| - 1];
      NoFailureBefore(cfg, st, cs);
      EachDirectionOnItsOwn(cfg, st, pre, dir);
      if c.dir == dir {
        SameDirection(cfg, st, cs, pre, c, dir);
      } else {
        OtherDirection(cfg, st, cs, pre, c, dir);
      }
    }
  }

  /** A failing call empties both directions. */
  lemma FailureClears(cfg: Config, st: Stream, cs: seq<Arrival>)
    requires cs != [] && st.decoder.Some? && LastCall(cfg, st, cs).error.Some?
    ensures StreamAfter(cfg, st, cs).decoder == Some(Decoder([], []))
  {
  }
}
