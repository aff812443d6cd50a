/** Decoding inverts framing: what the frame decoder makes of a stream of length-prefixed payloads. */
module Frames {
  import opened Basics
  import opened Varint
  import opened Gossip

  /** A payload behind its length. */
  function Framed(payload: seq<Byte>): seq<Byte> {
    PutUvarint(|payload|) + payload
  }

  function FramedAll(payloads: seq<seq<Byte>>): seq<Byte> {
    if payloads == [] then [] else Framed(payloads[0]) + FramedAll(payloads[1..])
  }

  /** The decoder makes records of the payload. */
  predicate Good(decode: PayloadDecoder, max: nat, payload: seq<Byte>) {
    |payload| <= max && |payload| < TWO_64 && decode(payload).Some?
  }

  /** Records of a framed payload: its actions, and the bytes they leave over as framing. */
  function RecordsOf(decode: PayloadDecoder, payload: seq<Byte>): seq<Record>
    requires decode(payload).Some?
  {
    FrameRecords(decode(payload).value, |Framed(payload)|)
  }

  function AllRecords(decode: PayloadDecoder, max: nat, payloads: seq<seq<Byte>>): seq<Record>
    requires forall p :: p in payloads ==> Good(decode, max, p)
  {
    if payloads == [] then [] else
      assert Good(decode, max, payloads[0]);
      RecordsOf(decode, payloads[0]) + AllRecords(decode, max, payloads[1..])
  }

  /** The frame at the front of a stream is decoded from exactly the payload that was framed; one that is too large or
      that the parser rejects is an error of its kind. */
  lemma FrameIsPayload(decode: PayloadDecoder, max: nat, payload: seq<Byte>, more: seq<Byte>)
    requires |payload| < TWO_64
    ensures NextFrame(decode, max, Framed(payload) + more) ==
      if |payload| > max then Fail(TooLarge)
      else if decode(payload).None? then Fail(BadRpc)
      else Frame(|Framed(payload)|, decode(payload).value)
  {
    var header := PutUvarint(|payload|);
    var buf := Framed(payload) + more;
    assert buf == header + (payload + more);
    PutThenRead(|payload|, payload + more);
    assert buf[|header|..|header| + |payload|] == payload;
  }

  /** The records of a framed payload are its actions, and one more without topic and kind for all remaining bytes. */
  lemma FramingIsTheRest(decode: PayloadDecoder, payload: seq<Byte>)
    requires Sound(decode) && decode(payload).Some?
    ensures var actions, records := decode(payload).value, RecordsOf(decode, payload);
      && |records| == |actions| + 1 && records[..|actions|] == actions
      && records[|actions|] == Record(|Framed(payload)| - SumBytes(actions), "", "", None, NO_FACTS)
      && SumBytes(records) == |Framed(payload)|
  {
    var actions := decode(payload).value;
    assert SumBytes(actions) <= |payload| < |Framed(payload)|;
    SumBytesAppend(actions, [FramingRecord(|Framed(payload)| - SumBytes(actions))]);
  }

  lemma {:induction false} HeaderCut(x: nat, depth: nat, n: nat)
    requires n < |PutUvarint(x)| && depth + |PutUvarint(x)| <= MAX_VARINT_LEN
    ensures UvarintFrom(PutUvarint(x)[..n], depth) == NeedMore
    decreases x
  {
    var bytes := PutUvarint(x);
    if n > 0 {
      assert bytes[..n][1..] == PutUvarint(x / 128)[..n - 1];
      HeaderCut(x / 128, depth + 1, n - 1);
    }
  }

  /** A frame that has not arrived in full is waited for. */
  lemma CutFrameWaits(decode: PayloadDecoder, max: nat, payload: seq<Byte>, n: nat)
    requires |payload| < TWO_64 && |payload| <= max && n < |Framed(payload)|
    ensures NextFrame(decode, max, Framed(payload)[..n]) == Wait
  {
    var header := PutUvarint(|payload|);
    var part := Framed(payload)[..n];
    PutThenRead(|payload|, []);
    if n < |header| {
      assert part == header[..n];
      HeaderCut(|payload|, 0, n);
    } else {
      assert part == header + payload[..n - |header|];
      PutThenRead(|payload|, payload[..n - |header|]);
    }
  }

  lemma DrainFirst(decode: PayloadDecoder, max: nat, payload: seq<Byte>, more: seq<Byte>)
    requires Good(decode, max, payload)
    ensures var later := Drain(decode, max, more);
      Drain(decode, max, Framed(payload) + more) ==
      Outcome(RecordsOf(decode, payload) + later.records, later.rest, later.error)
  {
    FrameIsPayload(decode, max, payload, more);
    assert (Framed(payload) + more)[|Framed(payload)|..] == more;
  }

  /** Draining good frames and then anything else: the records of the frames in order, and then what the rest gives. */
  lemma {:induction false} DrainFrames(decode: PayloadDecoder, max: nat, payloads: seq<seq<Byte>>, more: seq<Byte>)
    requires forall p :: p in payloads ==> Good(decode, max, p)
    ensures var later := Drain(decode, max, more);
      Drain(decode, max, FramedAll(payloads) + more) ==
      Outcome(AllRecords(decode, max, payloads) + later.records, later.rest, later.error)
    decreases |payloads|
  {
    var later := Drain(decode, max, more);
    if payloads == [] {
      assert FramedAll(payloads) + more == more;
      assert AllRecords(decode, max, payloads) + later.records == later.records;
    } else {
      var first, tail := payloads[0], payloads[1..];
      assert Good(decode, max, first);
      DrainFrames(decode, max, tail, more);
      assert FramedAll(payloads) + more == Framed(first) + (FramedAll(tail) + more);
      DrainFirst(decode, max, first, FramedAll(tail) + more);
      Regroup(RecordsOf(decode, first), AllRecords(decode, max, tail), later.records);
    }
  }

  /** Decoding inverts framing: for every list of payloads the parser takes, however their frames are cut into chunks,
      their records come out in order, and of a last frame that is still incomplete exactly its bytes are kept. */
  lemma DecodingInvertsFraming(
      decode: PayloadDecoder, max: nat, payloads: seq<seq<Byte>>, last: seq<Byte>, n: nat, chunks: seq<seq<Byte>>)
    requires forall p :: p in payloads ==> Good(decode, max, p)
    requires |last| <= max && |last| < TWO_64 && n < |Framed(last)|
    requires Concat(chunks) == FramedAll(payloads) + Framed(last)[..n]
    ensures FeedAll(decode, max, [], chunks) ==
      Feed(Outcome(AllRecords(decode, max, payloads), Framed(last)[..n], None), [])
  {
    var part := Framed(last)[..n];
    CutFrameWaits(decode, max, last, n);
    DrainFrames(decode, max, payloads, part);
    assert AllRecords(decode, max, payloads) + [] == AllRecords(decode, max, payloads);
    assert [] + Concat(chunks) == Concat(chunks);
    ChunkingInvariance(decode, max, [], chunks);
    assert FeedAll(decode, max, [], chunks).outcome.rest + Concat([]) == FeedAll(decode, max, [], chunks).outcome.rest;
  }

  /** Good frames before a bad one are still decoded; the bad one is reported and stays at the front. */
  lemma BadFrameStops(
      decode: PayloadDecoder, max: nat, payloads: seq<seq<Byte>>, bad: seq<Byte>, more: seq<Byte>)
    requires forall p :: p in payloads ==> Good(decode, max, p)
    requires |bad| < TWO_64 && !Good(decode, max, bad)
    ensures Drain(decode, max, FramedAll(payloads) + (Framed(bad) + more)) ==
      Outcome(AllRecords(decode, max, payloads), Framed(bad) + more, Some(if |bad| > max then TooLarge else BadRpc))
  {
    FrameIsPayload(decode, max, bad, more);
    DrainFrames(decode, max, payloads, Framed(bad) + more);
    assert AllRecords(decode, max, payloads) + [] == AllRecords(decode, max, payloads);
  }

  // ---- What an RPC's records say -------------------------------------------------------------------------------

  function OfKind(records: seq<Record>, kind: string): seq<Record> {
    if records == [] then [] else
      OfKind(records[..|records| - 1], kind) +
      if records[|records| - 1].kind == kind then [records[|records| - 1]] else []
  }

  lemma {:induction false} OfKindAppend(a: seq<Record>, b: seq<Record>, kind: string)
    ensures OfKind(a + b, kind) == OfKind(a, kind) + OfKind(b, kind)
    decreases |b|
  {
    if b == [] {
      assert a + b == a;
    } else {
      var all := a + b;
      assert all[..|all| - 1] == a + b[..|b| - 1];
      OfKindAppend(a, b[..|b| - 1], kind);
    }
  }

  lemma {:induction false} OfOneKind(records: seq<Record>, own: string, kind: string)
    requires forall i :: 0 <= i < |records| ==> records[i].kind == own
    ensures OfKind(records, kind) == if own == kind then records else []
    decreases |records|
  {
    if records != [] {
      OfOneKind(records[..|records| - 1], own, kind);
      assert records == records[..|records| - 1] + [records[|records| - 1]];
    }
  }

  /** The records report these sizes and topics, and nothing about slots and blocks. */
  ghost predicate Reports(records: seq<Record>, items: seq<ControlItem>, withTopic: bool) {
    && |records| == |items|
    && forall i :: 0 <= i < |items| ==>
         && records[i].bytes == items[i].size && records[i].slot == None && records[i].facts == NO_FACTS
         && records[i].topic == (if withTopic && items[i].topic.Some? then items[i].topic.value else "")
  }

  ghost predicate ReportsPublished(lib: Library, records: seq<Record>, messages: seq<Publication>) {
    && |records| == |messages|
    && forall i :: 0 <= i < |messages| ==>
         && records[i].bytes == messages[i].size && records[i].topic == lib.annotate(messages[i]).topic
         && records[i].slot == lib.annotate(messages[i]).slot && records[i].facts == lib.annotate(messages[i]).facts
  }

  /** The subscriptions, or the unsubscriptions, as items. */
  function Chosen(subs: seq<Subscription>, subscribe: bool): seq<ControlItem> {
    if subs == [] then [] else
      var last := subs[|subs| - 1];
      Chosen(subs[..|subs| - 1], subscribe) +
      if last.subscribe == subscribe then [ControlItem(last.topic, last.size)] else []
  }

  const NO_CONTROL := Control([], [], [], [], [])

  function ControlOf(rpc: Rpc): Control {
    if rpc.control.Some? then rpc.control.value else NO_CONTROL
  }

  lemma {:induction false} SubscriptionsReport(subs: seq<Subscription>, subscribe: bool)
    ensures var kind := if subscribe then "SUBSCRIBE" else "UNSUBSCRIBE";
      Reports(OfKind(Map(SubscriptionRecord, subs), kind), Chosen(subs, subscribe), true)
    decreases |subs|
  {
    if subs != [] {
      var records := Map(SubscriptionRecord, subs);
      assert records[..|subs| - 1] == Map(SubscriptionRecord, subs[..|subs| - 1]);
      SubscriptionsReport(subs[..|subs| - 1], subscribe);
    }
  }

  lemma {:induction false} SubscriptionsOnly(subs: seq<Subscription>, kind: string)
    requires kind != "SUBSCRIBE" && kind != "UNSUBSCRIBE"
    ensures OfKind(Map(SubscriptionRecord, subs), kind) == []
    decreases |subs|
  {
    if subs != [] {
      var records := Map(SubscriptionRecord, subs);
      assert records[..|subs| - 1] == Map(SubscriptionRecord, subs[..|subs| - 1]);
      SubscriptionsOnly(subs[..|subs| - 1], kind);
    }
  }

  /** The records of a control message without topics, or with them. */
  function Controls(kind: string, withTopic: bool, items: seq<ControlItem>): seq<Record> {
    if withTopic then Map(i => ControlRecord(kind, i), items) else Map(i => PlainRecord(kind, i), items)
  }

  lemma ControlsReport(kind: string, withTopic: bool, items: seq<ControlItem>, asked: string)
    ensures OfKind(Controls(kind, withTopic, items), asked) ==
      if kind == asked then Controls(kind, withTopic, items) else []
    ensures Reports(Controls(kind, withTopic, items), items, withTopic)
  {
    OfOneKind(Controls(kind, withTopic, items), kind, asked);
  }

  /** The records of one kind are those of one kind in each part of the RPC. */
  lemma KindOfParts(
      a: seq<Record>, b: seq<Record>, c: seq<Record>, d: seq<Record>, e: seq<Record>, f: seq<Record>, g: seq<Record>,
      kind: string)
    ensures OfKind(a + b + c + d + e + f + g, kind) ==
      OfKind(a, kind) + OfKind(b, kind) + OfKind(c, kind) + OfKind(d, kind) + OfKind(e, kind) + OfKind(f, kind)
      + OfKind(g, kind)
  {
    OfKindAppend(a + b + c + d + e + f, g, kind);
    OfKindAppend(a + b + c + d + e, f, kind);
    OfKindAppend(a + b + c + d, e, kind);
    OfKindAppend(a + b + c, d, kind);
    OfKindAppend(a + b, c, kind);
    OfKindAppend(a, b, kind);
  }

  lemma ActionsOfKind(lib: Library, rpc: Rpc, kind: string)
    ensures var c := ControlOf(rpc);
      OfKind(Actions(lib, rpc), kind) ==
      OfKind(Map(SubscriptionRecord, rpc.subscriptions), kind)
      + (if kind == "PUBLISH" then Map(m => PublishRecord(lib, m), rpc.publish) else [])
      + (if kind == "IHAVE" then Controls("IHAVE", true, c.ihave) else [])
      + (if kind == "IWANT" then Controls("IWANT", false, c.iwant) else [])
      + (if kind == "GRAFT" then Controls("GRAFT", true, c.graft) else [])
      + (if kind == "PRUNE" then Controls("PRUNE", true, c.prune) else [])
      + (if kind == "IDONTWANT" then Controls("IDONTWANT", false, c.idontwant) else [])
  {
    var c := ControlOf(rpc);
    var subs, published := Map(SubscriptionRecord, rpc.subscriptions), Map(m => PublishRecord(lib, m), rpc.publish);
    OfOneKind(published, "PUBLISH", kind);
    ControlsReport("IHAVE", true, c.ihave, kind);
    ControlsReport("IWANT", false, c.iwant, kind);
    ControlsReport("GRAFT", true, c.graft, kind);
    ControlsReport("PRUNE", true, c.prune, kind);
    ControlsReport("IDONTWANT", false, c.idontwant, kind);
    KindOfParts(subs, published, Controls("IHAVE", true, c.ihave), Controls("IWANT", false, c.iwant),
                Controls("GRAFT", true, c.graft), Controls("PRUNE", true, c.prune),
                Controls("IDONTWANT", false, c.idontwant), kind);
    ActionsAreParts(lib, rpc, c);
  }

  lemma ActionsAreParts(lib: Library, rpc: Rpc, c: Control)
    requires c == ControlOf(rpc)
    ensures Actions(lib, rpc) ==
      Map(SubscriptionRecord, rpc.subscriptions) + Map(m => PublishRecord(lib, m), rpc.publish)
      + Controls("IHAVE", true, c.ihave) + Controls("IWANT", false, c.iwant) + Controls("GRAFT", true, c.graft)
      + Controls("PRUNE", true, c.prune) + Controls("IDONTWANT", false, c.idontwant)
  {
  }

  /** An RPC can be read off its records: those of each kind report, in order, the sizes and topics of exactly the
      items of that kind, and there are no others. */
  lemma ActionsReportRpc(lib: Library, rpc: Rpc)
    ensures var c, all := ControlOf(rpc), Actions(lib, rpc);
      && Reports(OfKind(all, "SUBSCRIBE"), Chosen(rpc.subscriptions, true), true)
      && Reports(OfKind(all, "UNSUBSCRIBE"), Chosen(rpc.subscriptions, false), true)
      && ReportsPublished(lib, OfKind(all, "PUBLISH"), rpc.publish)
      && Reports(OfKind(all, "IHAVE"), c.ihave, true) && Reports(OfKind(all, "IWANT"), c.iwant, false)
      && Reports(OfKind(all, "GRAFT"), c.graft, true) && Reports(OfKind(all, "PRUNE"), c.prune, true)
      && Reports(OfKind(all, "IDONTWANT"), c.idontwant, false)
      && |all| == |rpc.subscriptions| + |rpc.publish| + |c.ihave| + |c.iwant| + |c.graft| + |c.prune| + |c.idontwant|
  {
    ActionsAreParts(lib, rpc, ControlOf(rpc));
    SubscribedReport(lib, rpc);
    PublishedReport(lib, rpc);
    IhaveReport(lib, rpc);
    IwantReport(lib, rpc);
    GraftReport(lib, rpc);
    PruneReport(lib, rpc);
    IdontwantReport(lib, rpc);
  }

  /** Among empty parts, one is the whole, wherever it stands. */
  lemma Alone(x: seq<Record>)
    ensures [] + [] + x + [] + [] + [] + [] == x && [] + [] + [] + x + [] + [] + [] == x
    ensures [] + [] + [] + [] + x + [] + [] == x && [] + [] + [] + [] + [] + x + [] == x
    ensures [] + [] + [] + [] + [] + [] + x == x && [] + x + [] + [] + [] + [] + [] == x
    ensures x + [] + [] + [] + [] + [] + [] == x
  {
  }

  lemma IhaveReport(lib: Library, rpc: Rpc)
    ensures Reports(OfKind(Actions(lib, rpc), "IHAVE"), ControlOf(rpc).ihave, true)
  {
    var items := Controls("IHAVE", true, ControlOf(rpc).ihave);
    SubscriptionsOnly(rpc.subscriptions, "IHAVE");
    ActionsOfKind(lib, rpc, "IHAVE");
    ControlsReport("IHAVE", true, ControlOf(rpc).ihave, "IHAVE");
    Alone(items);
  }

  lemma IwantReport(lib: Library, rpc: Rpc)
    ensures Reports(OfKind(Actions(lib, rpc), "IWANT"), ControlOf(rpc).iwant, false)
  {
    var items := Controls("IWANT", false, ControlOf(rpc).iwant);
    SubscriptionsOnly(rpc.subscriptions, "IWANT");
    ActionsOfKind(lib, rpc, "IWANT");
    ControlsReport("IWANT", false, ControlOf(rpc).iwant, "IWANT");
    Alone(items);
  }

  lemma GraftReport(lib: Library, rpc: Rpc)
    ensures Reports(OfKind(Actions(lib, rpc), "GRAFT"), ControlOf(rpc).graft, true)
  {
    var items := Controls("GRAFT", true, ControlOf(rpc).graft);
    SubscriptionsOnly(rpc.subscriptions, "GRAFT");
    ActionsOfKind(lib, rpc, "GRAFT");
    ControlsReport("GRAFT", true, ControlOf(rpc).graft, "GRAFT");
    Alone(items);
  }

  lemma PruneReport(lib: Library, rpc: Rpc)
    ensures Reports(OfKind(Actions(lib, rpc), "PRUNE"), ControlOf(rpc).prune, true)
  {
    var items := Controls("PRUNE", true, ControlOf(rpc).prune);
    SubscriptionsOnly(rpc.subscriptions, "PRUNE");
    ActionsOfKind(lib, rpc, "PRUNE");
    ControlsReport("PRUNE", true, ControlOf(rpc).prune, "PRUNE");
    Alone(items);
  }

  lemma IdontwantReport(lib: Library, rpc: Rpc)
    ensures Reports(OfKind(Actions(lib, rpc), "IDONTWANT"), ControlOf(rpc).idontwant, false)
  {
    var items := Controls("IDONTWANT", false, ControlOf(rpc).idontwant);
    SubscriptionsOnly(rpc.subscriptions, "IDONTWANT");
    ActionsOfKind(lib, rpc, "IDONTWANT");
    ControlsReport("IDONTWANT", false, ControlOf(rpc).idontwant, "IDONTWANT");
    Alone(items);
  }

  lemma PublishedReport(lib: Library, rpc: Rpc)
    ensures ReportsPublished(lib, OfKind(Actions(lib, rpc), "PUBLISH"), rpc.publish)
  {
    SubscriptionsOnly(rpc.subscriptions, "PUBLISH");
    ActionsOfKind(lib, rpc, "PUBLISH");
    Alone(Map(m => PublishRecord(lib, m), rpc.publish));
  }

  lemma SubscribedReport(lib: Library, rpc: Rpc)
    ensures Reports(OfKind(Actions(lib, rpc), "SUBSCRIBE"), Chosen(rpc.subscriptions, true), true)
    ensures Reports(OfKind(Actions(lib, rpc), "UNSUBSCRIBE"), Chosen(rpc.subscriptions, false), true)
  {
    SubscriptionsReport(rpc.subscriptions, true);
    SubscriptionsReport(rpc.subscriptions, false);
    ActionsOfKind(lib, rpc, "SUBSCRIBE");
    ActionsOfKind(lib, rpc, "UNSUBSCRIBE");
    Alone(OfKind(Map(SubscriptionRecord, rpc.subscriptions), "SUBSCRIBE"));
    Alone(OfKind(Map(SubscriptionRecord, rpc.subscriptions), "UNSUBSCRIBE"));
  }
}
