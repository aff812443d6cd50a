/** Byte accounting over whole runs: raw traffic against attributed, buffered and dropped bytes. */
module Conservation {
  import opened Basics
  import opened Gossip
  import opened SlotClock
  import opened SlotTables
  import opened Processor

  /** Everything recorded by a run, in all slots, including slots evicted since. */
  ghost function History(cfg: Config, ins: seq<Input>): seq<Observation> {
    if ins == [] then [] else
      History(cfg, ins[..|ins| - 1]) + Observed(cfg, After(cfg, ins[..|ins| - 1]), ins[|ins| - 1])
  }

  /** Bytes counted in either direction, as raw traffic or as shares. */
  function Bytes(h: seq<Observation>, traffic: bool): nat {
    Sum(h, Query(traffic, None, None, BytesIn)) + Sum(h, Query(traffic, None, None, BytesOut))
  }

  function BufferedIn(st: Stream): nat {
    match st.decoder
    case None => 0
    case Some(d) => |d.inBuf| + |d.outBuf|
  }

  function BufferedAt(streams: map<nat, Stream>, alias: nat): nat {
    if alias in streams then BufferedIn(streams[alias]) else 0
  }

  /** Bytes waiting for the rest of their frame, over all open streams. */
  ghost function Buffered(streams: map<nat, Stream>): int {
    SumOver(streams.Keys, a => BufferedAt(streams, a))
  }

  /** The failing decode of an input, if it is one. */
  ghost function Failure(cfg: Config, s: Source, i: Input): Option<Outcome> {
    if AcceptedInput(cfg, s, i).Some? then
      var p := i.env.payload;
      var st := s.streams[p.chunkAlias];
      if st.decoder.Some? && Decode(cfg, st.decoder.value, p.direction, p.data).error.Some?
      then Some(Decode(cfg, st.decoder.value, p.direction, p.data))
      else None
    else None
  }

  /** Buffered bytes an input throws away: with a reset, a replaced or closed stream, or a decode error. */
  ghost function DroppedBy(cfg: Config, s: Source, i: Input): int {
    if i.BootReset? || i.env.payload.SnapshotStart? then Buffered(s.streams)
    else if Duplicate(s, i.env) then 0
    else match i.env.payload
      case StreamUpsert(st) => BufferedAt(s.streams, st.streamAlias)
      case StreamClosed(alias, _) => BufferedAt(s.streams, alias)
      case StreamChunk(alias, _, _) => if Failure(cfg, s, i).Some? then BufferedAt(s.streams, alias) else 0
      case _ => 0
  }

  /** Bytes attributed twice by a failing call: its complete frames, and again as part of the charged chunk. */
  ghost function DoubledBy(cfg: Config, s: Source, i: Input): int {
    match Failure(cfg, s, i)
    case None => 0
    case Some(out) => SumBytes(out.records)
  }

  ghost function Dropped(cfg: Config, ins: seq<Input>): int {
    if ins == [] then 0 else
      Dropped(cfg, ins[..|ins| - 1]) + DroppedBy(cfg, After(cfg, ins[..|ins| - 1]), ins[|ins| - 1])
  }

  ghost function Doubled(cfg: Config, ins: seq<Input>): int {
    if ins == [] then 0 else
      Doubled(cfg, ins[..|ins| - 1]) + DoubledBy(cfg, After(cfg, ins[..|ins| - 1]), ins[|ins| - 1])
  }

  lemma {:induction false} SumAppend(g: seq<Observation>, h: seq<Observation>, q: Query)
    ensures Sum(g + h, q) == Sum(g, q) + Sum(h, q)
    decreases |h|
  {
    if h == [] {
      assert g + h == g;
    } else {
      var pre, o := h[..|h| - 1], h[|h| - 1];
      SumAppend(g, pre, q);
      SumStep(g + pre, o, q);
      assert (g + pre) + [o] == g + h;
    }
  }

  lemma BytesAppend(g: seq<Observation>, h: seq<Observation>, traffic: bool)
    ensures Bytes(g + h, traffic) == Bytes(g, traffic) + Bytes(h, traffic)
  {
    SumAppend(g, h, Query(traffic, None, None, BytesIn));
    SumAppend(g, h, Query(traffic, None, None, BytesOut));
  }

  lemma BytesOfOne(o: Observation, traffic: bool)
    ensures Bytes([o], traffic) == if o.Traffic? == traffic && o.dir != Unknown then o.bytes else 0
  {
    SumStep([], o, Query(traffic, None, None, BytesIn));
    SumStep([], o, Query(traffic, None, None, BytesOut));
    assert [] + [o] == [o];
  }

  /** The shares of decoded records carry exactly the records' bytes. */
  lemma {:induction false} BytesOfShares(ref: SlotRef, dir: Direction, protocol: string, records: seq<Gossip.Record>)
    requires dir != Unknown
    ensures Bytes(Map(r => ShareOf(ref, dir, protocol, r), records), false) == SumBytes(records)
    ensures Bytes(Map(r => ShareOf(ref, dir, protocol, r), records), true) == 0
    decreases |records|
  {
    var f := r => ShareOf(ref, dir, protocol, r);
    if records != [] {
      var first, rest := records[0], records[1..];
      BytesOfShares(ref, dir, protocol, rest);
      assert Map(f, records) == [ShareOf(ref, dir, protocol, first)] + Map(r => ShareOf(ref, dir, protocol, r), rest);
      BytesAppend([ShareOf(ref, dir, protocol, first)], Map(r => ShareOf(ref, dir, protocol, r), rest), false);
      BytesAppend([ShareOf(ref, dir, protocol, first)], Map(r => ShareOf(ref, dir, protocol, r), rest), true);
      BytesOfOne(ShareOf(ref, dir, protocol, first), false);
      BytesOfOne(ShareOf(ref, dir, protocol, first), true);
    }
  }

  lemma BytesOfDecoded(ref: SlotRef, dir: Direction, protocol: string, out: Outcome, size: nat)
    requires dir != Unknown
    ensures var shares := DecodedShares(ref, dir, protocol, out, size);
      && Bytes(shares, true) == 0
      && Bytes(shares, false) == SumBytes(out.records) + if out.error.Some? then size else 0
  {
    var records := Map(r => ShareOf(ref, dir, protocol, r), out.records);
    BytesOfShares(ref, dir, protocol, out.records);
    var error := PlainShare(ref, dir, protocol, "decode_error", size);
    if out.error.Some? {
      BytesAppend(records, [error], true);
      BytesAppend(records, [error], false);
      BytesOfOne(error, true);
      BytesOfOne(error, false);
    } else {
      assert records + [] == records;
    }
  }

  /** One chunk balances: shares plus change of buffer equal its raw bytes, up to what a failure doubles and drops. */
  lemma ChunkBalances(cfg: Config, st: Stream, ref: SlotRef, atNs: int, dir: Direction, data: seq<Byte>)
    requires Sound(cfg.decode)
    ensures var eff := ChunkEffect(cfg, st, ref, atNs, dir, data);
      var raw := Bytes(eff.observations, true);
      var shares := Bytes(eff.observations, false);
      if st.decoder.None? then raw == shares && BufferedIn(eff.stream) == BufferedIn(st) == 0
      else
        var out := Decode(cfg, st.decoder.value, dir, data);
        if out.error.None? then shares + BufferedIn(eff.stream) == raw + BufferedIn(st)
        else shares == raw + SumBytes(out.records) && BufferedIn(eff.stream) == 0
  {
    var eff := ChunkEffect(cfg, st, ref, atNs, dir, data);
    var raw := Traffic(Bucket(ref), dir, |data|, atNs);
    BytesOfOne(raw, true);
    BytesOfOne(raw, false);
    match st.decoder
    case None =>
      var share := PlainShare(ref, dir, st.protocol, "raw", |data|);
      assert eff.observations == [raw] + [share];
      BytesAppend([raw], [share], true);
      BytesAppend([raw], [share], false);
      BytesOfOne(share, true);
      BytesOfOne(share, false);
    case Some(d) =>
      var out := Decode(cfg, d, dir, data);
      var shares := DecodedShares(ref, dir, st.protocol, out, |data|);
      BytesAppend([raw], shares, true);
      BytesAppend([raw], shares, false);
      if dir == Unknown {
        assert shares == [];
      } else {
        BytesOfDecoded(ref, dir, st.protocol, out, |data|);
        DrainConserves(cfg.decode, cfg.maxRpcSize, (if dir == In then d.inBuf else d.outBuf) + data);
      }
  }

  /** Replacing, adding or removing one stream changes what is buffered by that stream alone. */
  lemma BufferedUpdate(streams: map<nat, Stream>, alias: nat, st: Stream)
    ensures Buffered(streams[alias := st]) == Buffered(streams) - BufferedAt(streams, alias) + BufferedIn(st)
    ensures Buffered(streams - {alias}) == Buffered(streams) - BufferedAt(streams, alias)
  {
    var f := (a: nat) => BufferedAt(streams, a);
    var removed := streams - {alias};
    var updated := streams[alias := st];
    var rest := streams.Keys - {alias};
    assert removed.Keys == rest && updated.Keys - {alias} == rest;
    SumOverSame(rest, f, a => BufferedAt(removed, a));
    SumOverSame(rest, f, a => BufferedAt(updated, a));
    SumOverSplit(updated.Keys, a => BufferedAt(updated, a), alias);
    if alias in streams {
      SumOverSplit(streams.Keys, f, alias);
    } else {
      assert streams.Keys == rest;
    }
    SumOverSame(streams.Keys, f, a => BufferedAt(streams, a));
  }

  ghost function Observed(cfg: Config, s: Source, i: Input): seq<Observation> {
    match AcceptedInput(cfg, s, i)
    case None => []
    case Some(eff) => eff.observations
  }

  ghost predicate Balances(cfg: Config, s: Source, i: Input) {
    Bytes(Observed(cfg, s, i), false) + Buffered(Step(cfg, s, i).streams) + DroppedBy(cfg, s, i)
    == Bytes(Observed(cfg, s, i), true) + Buffered(s.streams) + DoubledBy(cfg, s, i)
  }

  lemma StreamsAfterChunk(cfg: Config, s: Source, i: Input)
    requires AcceptedInput(cfg, s, i).Some?
    ensures i.Event? && i.env.payload.StreamChunk? && i.env.payload.chunkAlias in s.streams
    ensures Step(cfg, s, i).streams == s.streams[i.env.payload.chunkAlias := AcceptedInput(cfg, s, i).value.stream]
  {
  }

  lemma AcceptedChunkBalances(cfg: Config, s: Source, i: Input)
    requires Sound(cfg.decode) && AcceptedInput(cfg, s, i).Some?
    ensures Balances(cfg, s, i)
  {
    StreamsAfterChunk(cfg, s, i);
    var eff, p := AcceptedInput(cfg, s, i).value, i.env.payload;
    ChunkBalances(cfg, s.streams[p.chunkAlias], eff.ref, i.env.observedAtNs, p.direction, p.data);
    BufferedUpdate(s.streams, p.chunkAlias, eff.stream);
  }

  lemma StepBalances(cfg: Config, s: Source, i: Input)
    requires Sound(cfg.decode)
    ensures Balances(cfg, s, i)
  {
    if AcceptedInput(cfg, s, i).Some? {
      AcceptedChunkBalances(cfg, s, i);
    } else if i.BootReset? || i.env.payload.SnapshotStart? {
      assert Buffered(map[]) == 0;
    } else {
      QuietInputBalances(cfg, s, i);
    }
  }

  lemma QuietInputBalances(cfg: Config, s: Source, i: Input)
    requires AcceptedInput(cfg, s, i).None? && i.Event? && !i.env.payload.SnapshotStart?
    ensures Balances(cfg, s, i)
  {
    var streams := Step(cfg, s, i).streams;
    QuietStreams(cfg, s, i);
    if !Duplicate(s, i.env) {
      match i.env.payload
      case StreamUpsert(st) =>
        BufferedUpdate(s.streams, st.streamAlias, NewStream(Text(s.strings, st.protocolId)));
      case StreamClosed(alias, _) =>
        BufferedUpdate(s.streams, alias, NewStream(""));
      case _ =>
    }
  }

  lemma QuietStreams(cfg: Config, s: Source, i: Input)
    requires AcceptedInput(cfg, s, i).None? && i.Event? && !i.env.payload.SnapshotStart?
    ensures Step(cfg, s, i).streams ==
      if Duplicate(s, i.env) then s.streams
      else match i.env.payload
        case StreamUpsert(st) => s.streams[st.streamAlias := NewStream(Text(s.strings, st.protocolId))]
        case StreamClosed(alias, _) => s.streams - {alias}
        case _ => s.streams
  {
  }

  /** Over every run: attributed + still buffered + dropped = raw + counted twice by failing calls. */
  lemma {:induction false} BytesBalance(cfg: Config, ins: seq<Input>)
    requires Sound(cfg.decode)
    ensures Bytes(History(cfg, ins), false) + Buffered(After(cfg, ins).streams) + Dropped(cfg, ins)
         == Bytes(History(cfg, ins), true) + Doubled(cfg, ins)
    decreases |ins|
  {
    if ins != [] {
      var pre, i := ins[..|ins| - 1], ins[|ins| - 1];
      var s := After(cfg, pre);
      BytesBalance(cfg, pre);
      StepBalances(cfg, s, i);
      BytesAppend(History(cfg, pre), Observed(cfg, s, i), true);
      BytesAppend(History(cfg, pre), Observed(cfg, s, i), false);
    }
  }

  ghost predicate ErrorFree(cfg: Config, ins: seq<Input>) {
    forall n :: 0 <= n < |ins| ==> Failure(cfg, After(cfg, ins[..n]), ins[n]).None?
  }

  lemma {:induction false} NothingDoubled(cfg: Config, ins: seq<Input>)
    requires ErrorFree(cfg, ins)
    ensures Doubled(cfg, ins) == 0
    decreases |ins|
  {
    if ins != [] {
      var pre := ins[..|ins| - 1];
      assert forall n :: 0 <= n < |pre| ==> pre[..n] == ins[..n];
      NothingDoubled(cfg, pre);
    }
  }

  /** Without decode errors every raw byte is attributed once, still buffered, or went with a dropped buffer. */
  lemma BytesConserved(cfg: Config, ins: seq<Input>)
    requires Sound(cfg.decode) && ErrorFree(cfg, ins)
    ensures Bytes(History(cfg, ins), false) + Buffered(After(cfg, ins).streams) + Dropped(cfg, ins)
         == Bytes(History(cfg, ins), true)
  {
    BytesBalance(cfg, ins);
    NothingDoubled(cfg, ins);
  }
}
