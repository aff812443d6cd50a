/** The collector's objects, updated in place by each envelope and proved against the value model. */
module Collector {
  import opened Basics
  import opened Envelopes
  import opened Gossip
  import opened SlotClock
  import opened SlotTables
  import opened Processor
  import Peers
  import Slots

  /** The running tables of one slot. */
  class SlotAggregate {
    const ref: SlotRef
    var bytes: Entry
    var lastUpdatedNs: int
    var facts: BlockFacts
    var bleedIn: Option<nat>
    var bleedOut: Option<nat>
    var buckets: map<nat, Entry>
    var breakdown: map<Key, Row>
    var bucketBreakdown: map<nat, map<Key, Row>>

    ghost function Value(): Table
      reads this
    {
      Table(ref.slot, ref.epoch, ref.startNs, ref.endNs, bytes, lastUpdatedNs, facts, bleedIn, bleedOut,
            buckets, breakdown, bucketBreakdown)
    }

    constructor (ref: SlotRef)
      ensures Value() == NewTable(ref)
    {
      this.ref := ref;
      bytes, lastUpdatedNs, facts := EMPTY_ENTRY, ref.startNs, NO_FACTS;
      bleedIn, bleedOut := None, None;
      buckets, breakdown, bucketBreakdown := map[], map[], map[];
    }

    /** A copy, as handed to readers and to the finalize callback. */
    method Detail() returns (t: Table)
      ensures t == Value()
    {
      t := Table(ref.slot, ref.epoch, ref.startNs, ref.endNs, bytes, lastUpdatedNs, facts, bleedIn, bleedOut,
                 buckets, breakdown, bucketBreakdown);
    }

    method AddRawTraffic(atNs: int, bucket: nat, dir: Direction, size: nat)
      modifies this
      ensures Value() == AddTraffic(old(Value()), bucket, dir, size, atNs)
    {
      if bucket !in buckets {
        buckets := buckets[bucket := EMPTY_ENTRY];
      }
      match dir {
        case In =>
          bytes := bytes.(bytesIn := bytes.bytesIn + size);
          buckets := buckets[bucket := buckets[bucket].(bytesIn := buckets[bucket].bytesIn + size)];
        case Out =>
          bytes := bytes.(bytesOut := bytes.bytesOut + size);
          buckets := buckets[bucket := buckets[bucket].(bytesOut := buckets[bucket].bytesOut + size)];
        case Unknown =>
      }
      lastUpdatedNs := atNs;
    }

    /** Adds to the slot's row and to the bucket's row of the key. */
    method AddBreakdown(bucket: nat, dir: Direction, size: nat, key: Key, distance: nat)
      modifies this`breakdown, this`bucketBreakdown
      ensures breakdown == old(breakdown)[key := AddToRow(GetOr(old(breakdown), key, EMPTY_ROW), dir, size, distance)]
      ensures var rows := GetOr(old(bucketBreakdown), bucket, map[]);
        bucketBreakdown == old(bucketBreakdown)[bucket :=
          rows[key := AddToRow(GetOr(rows, key, EMPTY_ROW), dir, size, distance)]]
    {
      breakdown := UpdateRows(breakdown, dir, size, key, distance);
      if bucket !in bucketBreakdown {
        bucketBreakdown := bucketBreakdown[bucket := map[]];
      }
      var rows := UpdateRows(bucketBreakdown[bucket], dir, size, key, distance);
      bucketBreakdown := bucketBreakdown[bucket := rows];
    }

    /** The breakdown callback of the decoder: rows, the slot's bleed totals, and the block's facts. */
    method AddRecord(bucket: nat, dir: Direction, size: nat, key: Key, distance: nat, newFacts: BlockFacts)
      modifies this
      ensures Value() == AddShare(old(Value()), bucket, dir, size, key, distance, newFacts)
    {
      AddBreakdown(bucket, dir, size, key, distance);
      if distance > 0 {
        match dir {
          case In => bleedIn := if bleedIn.None? then Some(size) else Some(bleedIn.value + size);
          case Out => bleedOut := if bleedOut.None? then Some(size) else Some(bleedOut.value + size);
          case Unknown =>
        }
      }
      if key.topic == "beacon_block" && key.kind == "PUBLISH" && dir == In {
        NoteFacts(newFacts);
      }
    }

    /** Facts a later block publication does not state stay as they were. */
    method NoteFacts(newFacts: BlockFacts)
      modifies this`facts
      ensures facts == Overlay(old(facts), newFacts)
    {
      if newFacts.proposer.Some? {
        facts := facts.(proposer := newFacts.proposer);
      }
      if newFacts.attestations.Some? {
        facts := facts.(attestations := newFacts.attestations);
      }
      if newFacts.commitments.Some? {
        facts := facts.(commitments := newFacts.commitments);
      }
      if newFacts.transactions.Some? {
        facts := facts.(transactions := newFacts.transactions);
      }
    }
  }

  /** A missing row starts empty. */
  method UpdateRows(
      rows: map<Key, Row>, dir: Direction, size: nat, key: Key, distance: nat) returns (next: map<Key, Row>)
    ensures next == rows[key := AddToRow(GetOr(rows, key, EMPTY_ROW), dir, size, distance)]
  {
    var row := if key in rows then rows[key] else EMPTY_ROW;
    row := UpdateRow(row, dir, size, distance);
    next := rows[key := row];
  }

  method UpdateRow(r: Row, dir: Direction, size: nat, distance: nat) returns (row: Row)
    ensures row == AddToRow(r, dir, size, distance)
  {
    row := r.(msgCount := r.msgCount + 1);
    match dir {
      case In =>
        row := row.(bytesIn := row.bytesIn + size);
        if distance > 0 {
          row := row.(bleedIn := row.bleedIn + size);
        }
      case Out =>
        row := row.(bytesOut := row.bytesOut + size);
        if distance > 0 {
          row := row.(bleedOut := row.bleedOut + size);
        }
      case Unknown =>
    }
    if distance > 0 {
      var d := if distance >= 4 then FourPlus else Class(distance);
      var entry := GetOr(row.byDistance, d, EMPTY_ENTRY);
      match dir {
        case In => entry := entry.(bytesIn := entry.bytesIn + size);
        case Out => entry := entry.(bytesOut := entry.bytesOut + size);
        case Unknown =>
      }
      row := row.(byDistance := row.byDistance[d := entry]);
    }
  }

  lemma UpdateTwice<K, V>(m: map<K, V>, k: K, v: V, w: V)
    ensures m[k := v][k := w] == m[k := w]
  {
  }

  ghost function TablesOf(slots: map<nat, SlotAggregate>): map<nat, Table>
    reads slots.Values
  {
    map k | k in slots :: slots[k].Value()
  }

  class SourceState {
    var strings: map<nat, string>
    var streams: map<nat, Stream>
    const peers: Peers.PeerMap
    var slots: map<nat, SlotAggregate>
    var lastSlot: nat
    var lastAppliedSeq: nat

    /** No two slots share their tables. */
    ghost predicate Valid()
      reads this
    {
      forall a, b :: a in slots && b in slots && a != b ==> slots[a] != slots[b]
    }

    ghost function Value(): Source
      reads this, peers, slots.Values
    {
      Source(strings, streams, peers.Value(), TablesOf(slots), lastSlot, lastAppliedSeq)
    }

    constructor ()
      ensures Valid() && fresh(peers) && Value() == NEW_SOURCE
    {
      strings, streams, slots := map[], map[], map[];
      peers := new Peers.PeerMap();
      lastSlot, lastAppliedSeq := 0, 0;
    }

    method Reset()
      requires Valid()
      modifies this, peers
      ensures Valid() && slots == old(slots) && Value() == Processor.Reset(old(Value()))
    {
      strings, streams := map[], map[];
      peers.ClearAll();
      lastAppliedSeq := 0;
    }

    /** The eviction loop, with 0 standing for "none yet". */
    method Oldest() returns (oldest: nat)
      requires |slots| > 0
      ensures Slots.Victim(slots.Keys, oldest)
    {
      oldest := 0;
      var todo := slots.Keys;
      while todo != {}
        invariant todo <= slots.Keys
        invariant todo != slots.Keys ==> oldest in slots && oldest !in todo
        invariant todo == slots.Keys ==> oldest == 0
        invariant 0 !in slots && todo != slots.Keys ==> forall k :: k in slots && k !in todo ==> oldest <= k
        decreases |todo|
      {
        var s :| s in todo;
        todo := todo - {s};
        if oldest == 0 || s < oldest {
          oldest := s;
        }
      }
    }

    method DropOldest() returns (oldest: nat)
      requires Valid() && |slots| > 0
      modifies this`slots
      ensures Valid() && slots == old(slots) - {oldest} && Slots.Victim(old(slots).Keys, oldest)
      ensures TablesOf(slots) == old(TablesOf(slots)) - {oldest}
    {
      oldest := Oldest();
      slots := slots - {oldest};
    }

    method DetailOf(slot: nat) returns (t: Option<Table>)
      ensures t == Lookup(TablesOf(slots), slot)
    {
      if slot !in slots {
        return None;
      }
      var detail := slots[slot].Detail();
      t := Some(detail);
    }

    lemma TablesSize()
      ensures TablesOf(slots).Keys == slots.Keys && |TablesOf(slots)| == |slots|
    {
      assert |TablesOf(slots).Keys| == |TablesOf(slots)| && |slots.Keys| == |slots|;
    }

    /** At a slot boundary the slot left behind is handed over, and the oldest one goes if there are too many. */
    method TurnTo(slot: nat) returns (handed: Option<Table>, ghost victim: nat)
      requires Valid()
      modifies this`slots
      ensures handed == if Slots.Advances(lastSlot, slot) then Lookup(old(TablesOf(slots)), lastSlot) else None
      ensures Valid() && slots.Values <= old(slots).Values
      ensures Slots.MayEvict(old(TablesOf(slots)), lastSlot, slot, victim)
      ensures TablesOf(slots) == Slots.Kept(old(TablesOf(slots)), lastSlot, slot, victim)
    {
      handed, victim := None, 0;
      TablesSize();
      if lastSlot > 0 && slot > lastSlot {
        handed := DetailOf(lastSlot);
        if |slots| > Slots.MAX_LIVE_SLOTS {
          victim := DropOldest();
        }
      }
    }

    method EnsureSlot(ref: SlotRef) returns (agg: SlotAggregate)
      requires Valid()
      modifies this`slots
      ensures Valid() && ref.slot in slots && agg == slots[ref.slot]
      ensures agg in old(slots.Values) || fresh(agg)
      ensures fresh(slots.Values - old(slots.Values))
      ensures agg.Value() == GetOr(old(TablesOf(slots)), ref.slot, NewTable(ref))
      ensures TablesOf(slots) == old(TablesOf(slots))[ref.slot := agg.Value()]
    {
      if ref.slot in slots {
        return slots[ref.slot];
      }
      agg := new SlotAggregate(ref);
      slots := slots[ref.slot := agg];
    }

    /** Updating one slot's tables changes that entry alone. */
    twostate lemma OnlyThatSlot(slot: nat)
      requires old(Valid()) && slots == old(slots) && slot in slots
      requires forall k :: k in slots && slots[k] != slots[slot] ==> slots[k].Value() == old(slots[k].Value())
      ensures TablesOf(slots) == old(TablesOf(slots))[slot := slots[slot].Value()]
    {
    }

    /** What becomes of a chunk of this stream: nothing if the stream or the time is unknown. */
    ghost function EffectOf(cfg: Config, alias: nat, atNs: int, dir: Direction, data: seq<Byte>): Option<Effect>
      reads this
    {
      if alias in streams && At(cfg.clock, atNs).Some?
      then Some(ChunkEffect(cfg, streams[alias], At(cfg.clock, atNs).value, atNs, dir, data)) else None
    }

    /** Adds a chunk to the tables of its slot, creating them if need be. */
    method RecordIn(
        cfg: Config, ref: SlotRef, atNs: int, stream: Stream, dir: Direction, data: seq<Byte>, ghost eff: Effect)
      returns (next: Stream)
      requires Valid() && eff == ChunkEffect(cfg, stream, ref, atNs, dir, data)
      modifies this`slots, slots.Values
      ensures Valid() && fresh(slots.Values - old(slots.Values))
      ensures TablesOf(slots) == old(TablesOf(slots))[ref.slot :=
        AddAll(GetOr(old(TablesOf(slots)), ref.slot, NewTable(ref)), eff.observations)]
      ensures next == eff.stream
    {
      ghost var before := TablesOf(slots);
      var agg := EnsureSlot(ref);
      ghost var t := agg.Value();
      assert TablesOf(slots) == before[ref.slot := t];
      next := AccountIn(agg, cfg, ref, atNs, stream, dir, data, eff);
      UpdateTwice(before, ref.slot, t, AddAll(t, eff.observations));
    }

    method AccountIn(
      agg: SlotAggregate, cfg: Config, ref: SlotRef, atNs: int, stream: Stream, dir: Direction, data: seq<Byte>,
      ghost eff: Effect)
      returns (next: Stream)
      requires Valid() && ref.slot in slots && agg == slots[ref.slot]
      requires eff == ChunkEffect(cfg, stream, ref, atNs, dir, data)
      modifies agg
      ensures TablesOf(slots) == old(TablesOf(slots))[ref.slot := AddAll(old(agg.Value()), eff.observations)]
      ensures next == eff.stream
    {
      next := Account(cfg, agg, stream, ref, atNs, dir, data);
      OnlyThatSlot(ref.slot);
    }

    twostate lemma TablesUntouched()
      requires slots == old(slots) && forall k :: k in slots ==> unchanged(slots[k])
      ensures TablesOf(slots) == old(TablesOf(slots))
    {
    }

    /** A chunk of a known stream at a known time. */
    method ChunkAt(cfg: Config, ref: SlotRef, atNs: int, alias: nat, dir: Direction, data: seq<Byte>, ghost eff: Effect)
      returns (handed: Option<Table>, ghost victim: nat)
      requires Valid() && alias in streams && eff == ChunkEffect(cfg, streams[alias], ref, atNs, dir, data)
      modifies this`slots, this`streams, this`lastSlot, slots.Values
      ensures Valid() && fresh(slots.Values - old(slots.Values))
      ensures handed ==
        if Slots.Advances(old(lastSlot), ref.slot) then Lookup(old(TablesOf(slots)), old(lastSlot)) else None
      ensures Slots.MayEvict(old(TablesOf(slots)), old(lastSlot), ref.slot, victim)
      ensures var kept := Slots.Kept(old(TablesOf(slots)), old(lastSlot), ref.slot, victim);
        TablesOf(slots) == kept[ref.slot := AddAll(GetOr(kept, ref.slot, NewTable(ref)), eff.observations)]
      ensures lastSlot == ref.slot && streams == old(streams)[alias := eff.stream]
    {
      handed, victim := TurnTo(ref.slot);
      var next := RecordIn(cfg, ref, atNs, streams[alias], dir, data, eff);
      label recorded:
      lastSlot := ref.slot;
      streams := streams[alias := next];
      TablesUntouched@recorded();
    }

    method HandleStreamChunk(cfg: Config, atNs: int, alias: nat, dir: Direction, data: seq<Byte>)
      returns (handed: Option<Table>, ghost victim: nat)
      requires Valid()
      modifies this`slots, this`streams, this`lastSlot, slots.Values
      ensures Valid() && fresh(slots.Values - old(slots.Values))
      ensures var eff := old(EffectOf(cfg, alias, atNs, dir, data));
        if eff.None? then Value() == old(Value()) && handed == None
        else
          && handed == FinalizedBy(old(Value()), eff.value.ref.slot)
          && Slots.MayEvict(old(Value()).slots, old(lastSlot), eff.value.ref.slot, victim)
          && Value() == RecordChunk(old(Value()), alias, eff.value, victim)
    {
      handed, victim := None, 0;
      if alias !in streams {
        return;
      }
      var at := At(cfg.clock, atNs);
      if at.None? {
        return;
      }
      ghost var eff := EffectOf(cfg, alias, atNs, dir, data).value;
      handed, victim := ChunkAt(cfg, at.value, atNs, alias, dir, data, eff);
    }

    /** Strings, peers, connections and streams. */
    method ApplyAliasPayload(e: Envelope, ghost cfg: Config, ghost victim: nat)
      requires Valid() && !e.payload.StreamChunk? && !e.payload.SnapshotStart?
      modifies this`strings, this`streams, peers
      ensures Value() == ApplyPayload(cfg, old(Value()), e, victim)
    {
      match e.payload
      case StringDef(id, value) => strings := strings[id := value];
      case PeerUpsert(alias, id) => peers.UpsertPeerState(alias, id);
      case ConnectionUpsert(c) => peers.UpsertConnectionState(c.connAlias, Describe(strings, c));
      case ConnectionClosed(alias) => peers.Close(alias);
      case StreamUpsert(st) => streams := streams[st.streamAlias := NewStream(Text(strings, st.protocolId))];
      case StreamClosed(alias, _) => streams := streams - {alias};
      case _ =>
    }

    method ApplyChunk(cfg: Config, e: Envelope) returns (handed: Option<Table>, ghost victim: nat)
      requires Valid() && e.payload.StreamChunk? && !Duplicate(Value(), e)
      modifies this`streams, this`slots, this`lastSlot, slots.Values
      ensures Valid() && fresh(slots.Values - old(slots.Values))
      ensures Value() == ApplyPayload(cfg, old(Value()), e, victim)
      ensures Allowed(cfg, old(Value()), Event(e, victim))
      ensures handed == HandedBy(cfg, old(Value()), e)
    {
      ghost var s := Value();
      ghost var eff := EffectOf(cfg, e.payload.chunkAlias, e.observedAtNs, e.payload.direction, e.payload.data);
      assert eff == Accepted(cfg, s, e);
      handed, victim :=
        HandleStreamChunk(cfg, e.observedAtNs, e.payload.chunkAlias, e.payload.direction, e.payload.data);
      ChunkApplies(cfg, s, e, eff, victim);
      ChunkHandsOver(cfg, s, e, eff, victim);
    }

    method ApplyNew(cfg: Config, e: Envelope) returns (handed: Option<Table>, ghost victim: nat)
      requires Valid() && !e.payload.SnapshotStart? && !Duplicate(Value(), e)
      modifies this`strings, this`streams, this`slots, this`lastSlot, peers, slots.Values
      ensures Valid() && fresh(slots.Values - old(slots.Values))
      ensures Value() == ApplyPayload(cfg, old(Value()), e, victim)
      ensures Allowed(cfg, old(Value()), Event(e, victim))
      ensures handed == HandedBy(cfg, old(Value()), e)
    {
      handed, victim := None, 0;
      if e.payload.StreamChunk? {
        handed, victim := ApplyChunk(cfg, e);
      } else {
        ApplyAliasPayload(e, cfg, victim);
      }
    }

    method MoveCursor(seqNo: nat)
      modifies this`lastAppliedSeq
      ensures Value() == old(Value()).(lastAppliedSeq :=
        if seqNo > old(lastAppliedSeq) then seqNo else old(lastAppliedSeq))
    {
      if seqNo > lastAppliedSeq {
        lastAppliedSeq := seqNo;
      }
      TablesUntouched();
    }

    /** One envelope. A live one that has been applied before is skipped, a snapshot marker resets. */
    method ApplyForSource(cfg: Config, e: Envelope) returns (handed: Option<Table>, ghost victim: nat)
      requires Valid()
      modifies this, peers, slots.Values
      ensures Valid() && fresh(slots.Values - old(slots.Values))
      ensures Value() == Apply(cfg, old(Value()), e, victim)
      ensures Allowed(cfg, old(Value()), Event(e, victim))
      ensures handed == HandedBy(cfg, old(Value()), e)
    {
      handed, victim := None, 0;
      if e.payload.SnapshotStart? {
        Reset();
        return;
      }
      if e.payload.SnapshotEnd? || (e.seqNo != 0 && e.seqNo <= lastAppliedSeq) {
        return;
      }
      handed, victim := ApplyNew(cfg, e);
      MoveCursor(e.seqNo);
    }
  }

  lemma ChunkApplies(cfg: Config, s: Source, e: Envelope, eff: Option<Effect>, victim: nat)
    requires e.payload.StreamChunk? && eff == Accepted(cfg, s, e)
    ensures ApplyPayload(cfg, s, e, victim) ==
      if eff.None? then s else RecordChunk(s, e.payload.chunkAlias, eff.value, victim)
  {
  }

  lemma ChunkHandsOver(cfg: Config, s: Source, e: Envelope, eff: Option<Effect>, victim: nat)
    requires eff == Accepted(cfg, s, e)
    ensures Allowed(cfg, s, Event(e, victim)) <==>
      (eff.Some? ==> Slots.MayEvict(s.slots, s.lastSlot, eff.value.ref.slot, victim))
    ensures HandedBy(cfg, s, e) == if eff.None? then None else FinalizedBy(s, eff.value.ref.slot)
  {
  }

  /** The slot an envelope hands over to the finalize callback, if any. */
  ghost function HandedBy(cfg: Config, s: Source, e: Envelope): Option<Table> {
    match Accepted(cfg, s, e)
    case None => None
    case Some(eff) => FinalizedBy(s, eff.ref.slot)
  }

  /** The decoder's records, one after the other. */
  method AccountRecords(agg: SlotAggregate, ref: SlotRef, dir: Direction, protocol: string, records: seq<Record>)
    modifies agg
    ensures agg.Value() == AddAll(old(agg.Value()), Map(r => ShareOf(ref, dir, protocol, r), records))
  {
    ghost var shares := Map(r => ShareOf(ref, dir, protocol, r), records);
    ghost var t := agg.Value();
    for i := 0 to |records|
      invariant agg.Value() == AddAll(t, shares[..i])
    {
      var r := records[i];
      agg.AddRecord(
        Bucket(ref), dir, r.bytes, Key(protocol, r.topic, r.kind), BleedDistance(ref.slot, r.slot), r.facts);
      AddOne(t, shares[..i], shares[i]);
      assert shares[..i + 1] == shares[..i] + [shares[i]];
    }
    assert shares[..|records|] == shares;
  }

  /** A share attributed to the whole chunk: bytes that are not decoded, or that failed to. */
  method AccountPlain(agg: SlotAggregate, ref: SlotRef, dir: Direction, protocol: string, kind: string, size: nat)
    modifies agg
    ensures agg.Value() == AddAll(old(agg.Value()), [PlainShare(ref, dir, protocol, kind, size)])
  {
    ghost var t := agg.Value();
    agg.AddRecord(Bucket(ref), dir, size, Key(protocol, "", kind), 0, NO_FACTS);
    AddOne(t, [], PlainShare(ref, dir, protocol, kind, size));
    assert [] + [PlainShare(ref, dir, protocol, kind, size)] == [PlainShare(ref, dir, protocol, kind, size)];
  }

  method AccountDecoded(agg: SlotAggregate, ref: SlotRef, dir: Direction, protocol: string, out: Outcome, size: nat)
    modifies agg
    ensures agg.Value() == AddAll(old(agg.Value()), DecodedShares(ref, dir, protocol, out, size))
  {
    ghost var t := agg.Value();
    ghost var shares := Map(r => ShareOf(ref, dir, protocol, r), out.records);
    AccountRecords(agg, ref, dir, protocol, out.records);
    if out.error.Some? {
      AccountPlain(agg, ref, dir, protocol, "decode_error", size);
      AddAllAppend(t, shares, [PlainShare(ref, dir, protocol, "decode_error", size)]);
    } else {
      assert shares + [] == shares;
    }
  }

  /** Raw traffic of a chunk first, then what decoding it attributes. */
  method Account(
      cfg: Config, agg: SlotAggregate, stream: Stream, ref: SlotRef, atNs: int, dir: Direction, data: seq<Byte>)
    returns (next: Stream)
    modifies agg
    ensures var eff := ChunkEffect(cfg, stream, ref, atNs, dir, data);
      agg.Value() == AddAll(old(agg.Value()), eff.observations) && next == eff.stream
  {
    ghost var t, raw := agg.Value(), Traffic(Bucket(ref), dir, |data|, atNs);
    agg.AddRawTraffic(atNs, Bucket(ref), dir, |data|);
    AddOne(t, [], raw);
    assert [] + [raw] == [raw];
    if stream.decoder.None? {
      AccountPlain(agg, ref, dir, stream.protocol, "raw", |data|);
      AddAllAppend(t, [raw], [PlainShare(ref, dir, stream.protocol, "raw", |data|)]);
      return stream;
    }
    var out := Decode(cfg, stream.decoder.value, dir, data);
    AccountDecoded(agg, ref, dir, stream.protocol, out, |data|);
    AddAllAppend(t, [raw], DecodedShares(ref, dir, stream.protocol, out, |data|));
    next := stream.(decoder := Some(DecoderAfter(stream.decoder.value, dir, out)));
  }
}
