/** Incremental decoding of length-prefixed gossipsub RPC frames, with every byte attributed. */
module Gossip {
  import opened Basics
  import opened Varint

  const DEFAULT_MAX_RPC_SIZE: nat := 0x10_0000

  /** What a published beacon block says about itself, where the payload carries it. */
  datatype BlockFacts = BlockFacts(
    proposer: Option<nat>, attestations: Option<nat>, commitments: Option<nat>, transactions: Option<nat>)

  const NO_FACTS := BlockFacts(None, None, None, None)

  /** One observation handed to the emit callback: its bytes and the tags the processor looks at. */
  datatype Record = Record(bytes: nat, kind: string, topic: string, slot: Option<nat>, facts: BlockFacts)

  datatype Subscription = Subscription(subscribe: bool, topic: Option<string>, size: nat)
  datatype Publication = Publication(topic: Option<string>, data: seq<Byte>, size: nat)
  datatype ControlItem = ControlItem(topic: Option<string>, size: nat)
  datatype Control = Control(
    ihave: seq<ControlItem>, iwant: seq<ControlItem>, graft: seq<ControlItem>,
    prune: seq<ControlItem>, idontwant: seq<ControlItem>)
  datatype Rpc = Rpc(subscriptions: seq<Subscription>, publish: seq<Publication>, control: Option<Control>)

  /** Tags of a published message once the application-level decoder has seen it. */
  datatype Annotation = Annotation(topic: string, slot: Option<nat>, facts: BlockFacts)

  /** The two outside functions: the protobuf parser and the application-level message decoder. */
  datatype Library = Library(parse: seq<Byte> -> Option<Rpc>, annotate: Publication -> Annotation)

  function Map<T, R>(f: T -> R, xs: seq<T>): seq<R> {
    seq(|xs|, i requires 0 <= i < |xs| => f(xs[i]))
  }

  function SumBytes(records: seq<Record>): nat {
    if records == [] then 0 else records[0].bytes + SumBytes(records[1..])
  }

  lemma {:induction false} SumBytesAppend(a: seq<Record>, b: seq<Record>)
    ensures SumBytes(a + b) == SumBytes(a) + SumBytes(b)
    decreases |a|
  {
    if a == [] {
      assert a + b == b;
    } else {
      assert (a + b)[1..] == a[1..] + b;
      SumBytesAppend(a[1..], b);
    }
  }

  function OrEmpty(topic: Option<string>): string {
    if topic.Some? then topic.value else ""
  }

  function SubscriptionRecord(s: Subscription): Record {
    Record(s.size, if s.subscribe then "SUBSCRIBE" else "UNSUBSCRIBE", OrEmpty(s.topic), None, NO_FACTS)
  }

  function PublishRecord(lib: Library, m: Publication): Record {
    var a := lib.annotate(m);
    Record(m.size, "PUBLISH", a.topic, a.slot, a.facts)
  }

  function ControlRecord(kind: string, c: ControlItem): Record {
    Record(c.size, kind, OrEmpty(c.topic), None, NO_FACTS)
  }

  function PlainRecord(kind: string, c: ControlItem): Record {
    Record(c.size, kind, "", None, NO_FACTS)
  }

  /** One record per logical action of an RPC, in emission order. */
  function Actions(lib: Library, rpc: Rpc): seq<Record> {
    var messages := Map(SubscriptionRecord, rpc.subscriptions) + Map(m => PublishRecord(lib, m), rpc.publish);
    match rpc.control
    case None => messages
    case Some(c) =>
      messages
      + Map(i => ControlRecord("IHAVE", i), c.ihave)
      + Map(i => PlainRecord("IWANT", i), c.iwant)
      + Map(i => ControlRecord("GRAFT", i), c.graft)
      + Map(i => ControlRecord("PRUNE", i), c.prune)
      + Map(i => PlainRecord("IDONTWANT", i), c.idontwant)
  }

  /** Framing bytes carry neither topic nor kind. */
  function FramingRecord(bytes: nat): Record {
    Record(bytes, "", "", None, NO_FACTS)
  }

  /** What decoding one frame's payload yields: the records of its actions, or None on a parse error. */
  type PayloadDecoder = seq<Byte> -> Option<seq<Record>>

  function GossipPayload(lib: Library): PayloadDecoder {
    payload => match lib.parse(payload)
      case None => None
      case Some(rpc) => Some(Actions(lib, rpc))
  }

  /** The parser's contract: the actions found in a payload are not larger than the payload. */
  ghost predicate Sound(decode: PayloadDecoder) {
    forall payload :: decode(payload).Some? ==> SumBytes(decode(payload).value) <= |payload|
  }

  function FrameRecords(actions: seq<Record>, total: nat): seq<Record> {
    actions + if total > SumBytes(actions) then [FramingRecord(total - SumBytes(actions))] else []
  }

  datatype DecodeError = VarintOverflow | TooLarge | BadRpc

  /** What the front of the buffer holds. */
  datatype Next = Wait | Fail(error: DecodeError) | Frame(total: nat, actions: seq<Record>)

  function NextFrame(decode: PayloadDecoder, max: nat, buf: seq<Byte>): (next: Next)
    ensures next.Frame? ==> 1 <= next.total <= |buf|
  {
    UvarintStable(buf, [], 0);
    match Uvarint(buf)
    case NeedMore => Wait
    case Overflow => Fail(VarintOverflow)
    case Value(msgLen, headerLen) =>
      if msgLen > max then Fail(TooLarge)
      else if |buf| < headerLen + msgLen then Wait
      else match decode(buf[headerLen..headerLen + msgLen])
        case None => Fail(BadRpc)
        case Some(actions) => Frame(headerLen + msgLen, actions)
  }

  /** Everything one call of observe does to a buffer that already includes the new data. */
  datatype Outcome = Outcome(records: seq<Record>, rest: seq<Byte>, error: Option<DecodeError>)

  function Drain(decode: PayloadDecoder, max: nat, buf: seq<Byte>): Outcome
    decreases |buf|
  {
    match NextFrame(decode, max, buf)
    case Wait => Outcome([], buf, None)
    case Fail(e) => Outcome([], buf, Some(e))
    case Frame(total, actions) =>
      var later := Drain(decode, max, buf[total..]);
      Outcome(FrameRecords(actions, total) + later.records, later.rest, later.error)
  }

  // ---- Conservation ----------------------------------------------------------------------------

  /** The records of a frame add up to its length on the wire, and the last one, alone, is framing. */
  lemma FrameConserves(decode: PayloadDecoder, max: nat, buf: seq<Byte>)
    requires Sound(decode) && NextFrame(decode, max, buf).Frame?
    ensures var f := NextFrame(decode, max, buf);
      && SumBytes(FrameRecords(f.actions, f.total)) == f.total
      && exists framing: nat :: framing > 0 &&
           FrameRecords(f.actions, f.total) == f.actions + [FramingRecord(framing)]
  {
    var f := NextFrame(decode, max, buf);
    UvarintStable(buf, [], 0);
    var framing := f.total - SumBytes(f.actions);
    assert framing > 0;
    assert FrameRecords(f.actions, f.total) == f.actions + [FramingRecord(framing)];
    SumBytesAppend(f.actions, [FramingRecord(framing)]);
  }

  /** No action is ever mistaken for framing. */
  lemma ActionsHaveKinds(lib: Library, rpc: Rpc)
    ensures forall i :: 0 <= i < |Actions(lib, rpc)| ==> Actions(lib, rpc)[i].kind != ""
  {
    assert forall s: Subscription :: SubscriptionRecord(s).kind != "";
  }

  /** No byte is lost or invented: records plus leftover are exactly what was in the buffer. */
  lemma {:induction false} DrainConserves(decode: PayloadDecoder, max: nat, buf: seq<Byte>)
    requires Sound(decode)
    ensures var d := Drain(decode, max, buf); SumBytes(d.records) + |d.rest| == |buf|
    decreases |buf|
  {
    var next := NextFrame(decode, max, buf);
    if next.Frame? {
      FrameConserves(decode, max, buf);
      DrainConserves(decode, max, buf[next.total..]);
      SumBytesAppend(FrameRecords(next.actions, next.total), Drain(decode, max, buf[next.total..]).records);
    }
  }

  // ---- Chunking --------------------------------------------------------------------------------

  /** A frame or a failure, once seen, is seen whatever arrives behind it. */
  lemma NextFrameStable(decode: PayloadDecoder, max: nat, buf: seq<Byte>, more: seq<Byte>)
    requires !NextFrame(decode, max, buf).Wait?
    ensures NextFrame(decode, max, buf + more) == NextFrame(decode, max, buf)
  {
    UvarintStable(buf, more, 0);
    if Uvarint(buf).Value? {
      var v := Uvarint(buf);
      if v.v <= max {
        assert (buf + more)[v.len..v.len + v.v] == buf[v.len..v.len + v.v];
      }
    }
  }

  /** Draining a then a+b: the second drain continues where the first one stopped. */
  lemma {:induction false} DrainAppend(decode: PayloadDecoder, max: nat, a: seq<Byte>, b: seq<Byte>)
    ensures var first := Drain(decode, max, a);
      Drain(decode, max, a + b) ==
        if first.error.Some? then Outcome(first.records, first.rest + b, first.error)
        else var second := Drain(decode, max, first.rest + b);
          Outcome(first.records + second.records, second.rest, second.error)
    decreases |a|
  {
    var next := NextFrame(decode, max, a);
    if !next.Wait? {
      NextFrameStable(decode, max, a, b);
    }
    if next.Frame? {
      var tail := a[next.total..];
      assert (a + b)[next.total..] == tail + b;
      DrainAppend(decode, max, tail, b);
      var first := Drain(decode, max, tail);
      Regroup(FrameRecords(next.actions, next.total), first.records, Drain(decode, max, first.rest + b).records);
    }
  }

  function Concat(chunks: seq<seq<Byte>>): seq<Byte> {
    if chunks == [] then [] else chunks[0] + Concat(chunks[1..])
  }

  /** Feeding chunks one by one, stopping at the first failing call; `unfed` is what was never offered. */
  datatype Feed = Feed(outcome: Outcome, unfed: seq<seq<Byte>>)

  function FeedAll(decode: PayloadDecoder, max: nat, buf: seq<Byte>, chunks: seq<seq<Byte>>): Feed
    decreases |chunks|
  {
    if chunks == [] then Feed(Outcome([], buf, None), []) else
      var call := Drain(decode, max, buf + chunks[0]);
      if call.error.Some? then Feed(call, chunks[1..]) else
        var later := FeedAll(decode, max, call.rest, chunks[1..]);
        Feed(later.outcome.(records := call.records + later.outcome.records), later.unfed)
  }

  /** The buffer between calls: it holds no complete frame and no decidable failure. */
  predicate Settled(decode: PayloadDecoder, max: nat, buf: seq<Byte>) {
    NextFrame(decode, max, buf).Wait?
  }

  /** However a byte stream is cut into chunks, the same records come out in the same order, with the same
      error and the same leftover, as when it arrives at once. After an error the leftover still lacks only
      the chunks that were never offered. */
  lemma {:induction false} ChunkingInvariance(decode: PayloadDecoder, max: nat, buf: seq<Byte>, chunks: seq<seq<Byte>>)
    requires Settled(decode, max, buf)
    ensures var whole := Drain(decode, max, buf + Concat(chunks));
      var fed := FeedAll(decode, max, buf, chunks);
      && fed.outcome.records == whole.records
      && fed.outcome.error == whole.error
      && fed.outcome.rest + Concat(fed.unfed) == whole.rest
      && (whole.error.None? ==> fed.unfed == [] && Settled(decode, max, fed.outcome.rest))
    decreases |chunks|
  {
    if chunks == [] {
      assert buf + Concat(chunks) == buf && buf + Concat([]) == buf;
    } else {
      var tail := Concat(chunks[1..]);
      var call := Drain(decode, max, buf + chunks[0]);
      assert buf + Concat(chunks) == (buf + chunks[0]) + tail;
      DrainAppend(decode, max, buf + chunks[0], tail);
      DrainSettles(decode, max, buf + chunks[0]);
      if call.error.None? {
        ChunkingInvariance(decode, max, call.rest, chunks[1..]);
      }
    }
  }

  /** After a successful drain nothing complete is left, and the leftover is bounded. */
  lemma {:induction false} DrainSettles(decode: PayloadDecoder, max: nat, buf: seq<Byte>)
    ensures var d := Drain(decode, max, buf);
      && (d.error.None? <==> Settled(decode, max, d.rest))
      && (d.error.None? && max >= 1 ==> |d.rest| <= max + 9)
    decreases |buf|
  {
    UvarintStable(buf, [], 0);
    var next := NextFrame(decode, max, buf);
    if next.Frame? {
      DrainSettles(decode, max, buf[next.total..]);
    }
  }

  // ---- The decoder object ----------------------------------------------------------------------

  /** One loop of emitActions: a record per item, and the running total of attributed bytes. */
  method EmitEach<T>(record: T -> Record, items: seq<T>, emitted: seq<Record>, inner: nat)
    returns (records: seq<Record>, total: nat)
    requires inner == SumBytes(emitted)
    ensures records == emitted + Map(record, items)
    ensures total == SumBytes(records)
  {
    records, total := emitted, inner;
    for i := 0 to |items|
      invariant records == emitted + Map(record, items[..i])
      invariant total == SumBytes(records)
    {
      var r := record(items[i]);
      total := total + r.bytes;
      SumBytesAppend(records, [r]);
      records := records + [r];
      assert Map(record, items[..i + 1]) == Map(record, items[..i]) + [r];
    }
    assert items[..|items|] == items;
  }

  /** Atomises an RPC; the second result is the number of bytes attributed to actions. */
  method EmitActions(lib: Library, rpc: Rpc) returns (records: seq<Record>, inner: nat)
    ensures records == Actions(lib, rpc) && inner == SumBytes(records)
  {
    records, inner := EmitEach(SubscriptionRecord, rpc.subscriptions, [], 0);
    assert records == Map(SubscriptionRecord, rpc.subscriptions);
    records, inner := EmitEach(m => PublishRecord(lib, m), rpc.publish, records, inner);
    if rpc.control.Some? {
      var ctrl := rpc.control.value;
      records, inner := EmitEach(i => ControlRecord("IHAVE", i), ctrl.ihave, records, inner);
      records, inner := EmitEach(i => PlainRecord("IWANT", i), ctrl.iwant, records, inner);
      records, inner := EmitEach(i => ControlRecord("GRAFT", i), ctrl.graft, records, inner);
      records, inner := EmitEach(i => ControlRecord("PRUNE", i), ctrl.prune, records, inner);
      records, inner := EmitEach(i => PlainRecord("IDONTWANT", i), ctrl.idontwant, records, inner);
    }
  }

  /** A consumed frame: its actions, then its framing bytes. */
  method EmitFrame(lib: Library, rpc: Rpc, totalLen: nat) returns (records: seq<Record>)
    ensures records == FrameRecords(Actions(lib, rpc), totalLen)
  {
    var inner;
    records, inner := EmitActions(lib, rpc);
    if totalLen - inner > 0 {
      records := records + [FramingRecord(totalLen - inner)];
    }
  }

  class BufferingRpc {
    const max: nat
    var buf: seq<Byte>

    constructor (maxRpcSize: nat)
      ensures buf == [] && max == if maxRpcSize == 0 then 1024 * 1024 else maxRpcSize
    {
      max := if maxRpcSize == 0 then DEFAULT_MAX_RPC_SIZE else maxRpcSize;
      buf := [];
    }

    method Reset()
      modifies this
      ensures buf == []
    {
      buf := [];
    }

    method Observe(lib: Library, data: seq<Byte>) returns (records: seq<Record>, error: Option<DecodeError>)
      modifies this
      ensures Outcome(records, buf, error) == Drain(GossipPayload(lib), max, old(buf) + data)
    {
      buf := buf + data;
      records := [];
      ghost var whole := Drain(GossipPayload(lib), max, buf);
      while true
        invariant whole == Outcome(records + Drain(GossipPayload(lib), max, buf).records,
                                   Drain(GossipPayload(lib), max, buf).rest, Drain(GossipPayload(lib), max, buf).error)
        decreases |buf|
      {
        if buf == [] {
          break;
        }
        UvarintStable(buf, [], 0);
        match Uvarint(buf) {
          case NeedMore => break;
          case Overflow => return records, Some(VarintOverflow);
          case Value(msgLen, headerLen) =>
            if msgLen > max {
              return records, Some(TooLarge);
            }
            var totalLen := headerLen + msgLen;
            if |buf| < totalLen {
              break;
            }
            match lib.parse(buf[headerLen..totalLen]) {
              case None => return records, Some(BadRpc);
              case Some(rpc) =>
                var frame := EmitFrame(lib, rpc, totalLen);
                ghost var later := Drain(GossipPayload(lib), max, buf[totalLen..]).records;
                assert records + (frame + later) == (records + frame) + later;
                records := records + frame;
                buf := buf[totalLen..];
            }
        }
      }
      error := None;
    }
  }
}
