/** The whole path of a published block: from the bytes of a gossip stream to the facts its slot shows. */
module BlockPath {
  import opened Basics
  import opened Varint
  import opened Gossip
  import opened SlotClock
  import opened SlotTables
  import opened Processor
  import opened Frames
  import opened Attribution
  import opened Topics
  import Ssz
  import PayloadCache

  // ---- Topic names ---------------------------------------------------------------------------------------------

  /** The parts between the slashes, as strings.Split gives them. */
  function Split(s: string): (parts: seq<string>)
    ensures |parts| >= 1
  {
    if s == "" then [""]
    else if s[0] == '/' then [""] + Split(s[1..])
    else var parts := Split(s[1..]); [[s[0]] + parts[0]] + parts[1..]
  }

  /** /eth2/<fork digest>/<name>/<encoding> becomes <name>; other topics stay as they are. */
  function NormalizeTopic(topic: string): string {
    var parts := Split(topic);
    if "/eth2/" <= topic && |parts| >= 5 && parts[3] != "" then parts[3] else topic
  }

  predicate NoSlash(s: string) {
    forall c :: c in s ==> c != '/'
  }

  lemma {:induction false} SplitFirst(part: string, more: string)
    requires NoSlash(part)
    ensures Split(part + "/" + more) == [part] + Split(more)
    decreases |part|
  {
    var s := part + "/" + more;
    if part == "" {
      assert s == "/" + more && s[1..] == more;
    } else {
      assert part[0] in part && s[1..] == part[1..] + "/" + more;
      forall c | c in part[1..]
        ensures c != '/'
      {
        assert c in part;
      }
      SplitFirst(part[1..], more);
      assert ([part[1..]] + Split(more))[1..] == Split(more);
      assert s[0] == part[0] && [part[0]] + part[1..] == part;
    }
  }

  function EthTopic(digest: string, name: string, encoding: string): string {
    "" + "/" + ("eth2" + "/" + (digest + "/" + (name + "/" + encoding)))
  }

  /** The name of an Ethereum topic is found, whatever the fork digest and the encoding are. */
  lemma NameIsFound(digest: string, name: string, encoding: string)
    requires NoSlash(digest) && NoSlash(name) && name != ""
    ensures NormalizeTopic(EthTopic(digest, name, encoding)) == name
  {
    SplitFirst(name, encoding);
    EthParts(digest, name + "/" + encoding);
  }

  lemma EthParts(digest: string, last: string)
    requires NoSlash(digest)
    ensures var topic := "" + "/" + ("eth2" + "/" + (digest + "/" + last));
      && |topic| >= 6 && topic[..6] == "/eth2/"
      && Split(topic) == ["", "eth2", digest] + Split(last)
  {
    SplitFirst(digest, last);
    SplitFirst("eth2", digest + "/" + last);
    SplitFirst("", "eth2" + "/" + (digest + "/" + last));
    assert [""] + (["eth2"] + ([digest] + Split(last))) == ["", "eth2", digest] + Split(last);
  }

  lemma {:induction false} SplitWhole(s: string)
    requires NoSlash(s)
    ensures Split(s) == [s]
    decreases |s|
  {
    if s != "" {
      assert s[0] in s;
      forall c | c in s[1..]
        ensures c != '/'
      {
        assert c in s;
      }
      SplitWhole(s[1..]);
      assert [s[0]] + s[1..] == s;
    }
  }

  /** Any other topic stays as it is: one that does not begin with /eth2/, one whose name is empty, and one that ends
      with its name or before. */
  lemma OtherTopicsStay(topic: string, digest: string, name: string, encoding: string)
    requires NoSlash(digest)
    requires || |topic| < 6 || topic[..6] != "/eth2/"
             || topic == EthTopic(digest, "", encoding)
             || (NoSlash(name) && topic == "" + "/" + ("eth2" + "/" + (digest + "/" + name)))
             || topic == "" + "/" + ("eth2" + "/" + digest)
    ensures NormalizeTopic(topic) == topic
  {
    if |topic| >= 6 && topic[..6] == "/eth2/" {
      if topic == EthTopic(digest, "", encoding) {
        SplitFirst("", encoding);
        EthParts(digest, "" + "/" + encoding);
      } else if topic == "" + "/" + ("eth2" + "/" + digest) {
        SplitWhole(digest);
        SplitFirst("eth2", digest);
        SplitFirst("", "eth2" + "/" + digest);
      } else {
        SplitWhole(name);
        EthParts(digest, name);
      }
    }
  }

  // ---- Published messages --------------------------------------------------------------------------------------

  /** What the Ethereum decoder says about a published message. */
  function Annotate(lib: PayloadCache.Library, m: Publication): Annotation {
    match m.topic
    case None => Annotation("", None, NO_FACTS)
    case Some(topic) =>
      var name := NormalizeTopic(topic);
      var d := PayloadCache.Uncached(lib, name, m.data);
      Annotation(name, d.slot,
                 BlockFacts(d.meta.proposer, d.meta.attestations, d.meta.commitments, d.meta.transactions))
  }

  function EthDecoder(parse: seq<Byte> -> Option<Rpc>, lib: PayloadCache.Library): PayloadDecoder {
    GossipPayload(Gossip.Library(parse, m => Annotate(lib, m)))
  }

  /** The facts of a block. */
  function FactsIn(b: Ssz.SignedBlock): BlockFacts {
    BlockFacts(Some(b.proposerIndex), Some(|b.body.attestations|), Some(|b.body.commitments|),
               Some(|b.body.payload.transactions|))
  }

  /** The message is on the block topic of some fork. */
  ghost predicate OnBlockTopic(m: Publication) {
    exists digest, encoding :: NoSlash(digest) && m.topic == Some(EthTopic(digest, "beacon_block", encoding))
  }

  /** ... and carries the block. */
  ghost predicate Publishes(lib: PayloadCache.Library, m: Publication, b: Ssz.SignedBlock) {
    OnBlockTopic(m) && Ssz.WellFormed(b) && Delivers(lib, m.data, Ssz.Encode(b))
  }

  lemma BlockTopic(m: Publication)
    requires OnBlockTopic(m)
    ensures m.topic.Some? && NormalizeTopic(m.topic.value) == "beacon_block"
  {
    var digest, encoding :| NoSlash(digest) && m.topic == Some(EthTopic(digest, "beacon_block", encoding));
    NameIsFound(digest, "beacon_block", encoding);
  }

  lemma BlockDecoded(lib: PayloadCache.Library, m: Publication, b: Ssz.SignedBlock)
    requires Publishes(lib, m, b)
    ensures var d := PayloadCache.Uncached(lib, "beacon_block", m.data);
      && d.slot == Some(b.slot)
      && BlockFacts(d.meta.proposer, d.meta.attestations, d.meta.commitments, d.meta.transactions) == FactsIn(b)
  {
    BlockComesBack(lib, b, m.data);
  }

  lemma BlockAnnotated(lib: PayloadCache.Library, m: Publication, b: Ssz.SignedBlock)
    requires Publishes(lib, m, b)
    ensures Annotate(lib, m) == Annotation("beacon_block", Some(b.slot), FactsIn(b))
  {
    BlockTopic(m);
    BlockDecoded(lib, m, b);
  }

  /** An RPC that publishes one message becomes one record, as it is annotated. */
  lemma PublishedRecord(
      parse: seq<Byte> -> Option<Rpc>, lib: PayloadCache.Library, payload: seq<Byte>, m: Publication, a: Annotation)
    requires parse(payload) == Some(Rpc([], [m], None)) && a == Annotate(lib, m)
    ensures EthDecoder(parse, lib)(payload) == Some([Record(m.size, "PUBLISH", a.topic, a.slot, a.facts)])
  {
    var glib := Gossip.Library(parse, x => Annotate(lib, x));
    assert Actions(glib, Rpc([], [m], None)) == [PublishRecord(glib, m)];
  }

  // ---- A block arrives -----------------------------------------------------------------------------------------

  /** A chunk that completes the frame of such a payload, with nothing else in it. */
  lemma BlockDrained(decode: PayloadDecoder, max: nat, payload: seq<Byte>, r: Record)
    requires decode(payload) == Some([r]) && |payload| <= max && |payload| < TWO_64 && r.bytes <= |payload|
    ensures Drain(decode, max, Framed(payload)) == Outcome([r, FramingRecord(|Framed(payload)| - r.bytes)], [], None)
  {
    assert Framed(payload) + [] == Framed(payload);
    DrainFirst(decode, max, payload, []);
    assert SumBytes([r]) == r.bytes + SumBytes([]);
    assert RecordsOf(decode, payload) == [r, FramingRecord(|Framed(payload)| - r.bytes)];
  }

  /** The whole path: a chunk of a gossip stream, with nothing buffered before it, that holds the frame of an RPC which
      publishes a block. Whatever fork and encoding its topic names and however the block is compressed, the message is
      attributed to beacon_block and PUBLISH, the new slot shows exactly the block's proposer and counts, and its bytes
      count as bleed if and only if the block is of an earlier slot. */
  lemma BlockArrives(
      cfg: Config, parse: seq<Byte> -> Option<Rpc>, lib: PayloadCache.Library, protocol: string, out: seq<Byte>,
      atNs: int, ref: SlotRef, payload: seq<Byte>, m: Publication, b: Ssz.SignedBlock)
    requires cfg.decode == EthDecoder(parse, lib) && |payload| <= cfg.maxRpcSize && |payload| < TWO_64
    requires parse(payload) == Some(Rpc([], [m], None)) && m.size <= |payload| && Publishes(lib, m, b)
    requires At(cfg.clock, atNs) == Some(ref)
    ensures var obs :=
        ChunkEffect(cfg, Stream(protocol, Some(Decoder([], out))), ref, atNs, In, Framed(payload)).observations;
      && |obs| == 3 && obs[1].Share? && obs[1].key == Key(protocol, "beacon_block", "PUBLISH")
      && obs[1].bytes == m.size && LateBy(obs[1].distance, Some(b.slot), ref.slot)
      && AddAll(NewTable(ref), obs).facts == FactsIn(b)
      && AddAll(NewTable(ref), obs).bleedIn == if b.slot < ref.slot then Some(m.size) else None
  {
    var st, data := Stream(protocol, Some(Decoder([], out))), Framed(payload);
    var r := Record(m.size, "PUBLISH", "beacon_block", Some(b.slot), FactsIn(b));
    BlockAnnotated(lib, m, b);
    PublishedRecord(parse, lib, payload, m, Annotate(lib, m));
    BlockShown(cfg, st, atNs, ref, payload, r);
  }

  lemma BlockShown(cfg: Config, st: Stream, atNs: int, ref: SlotRef, payload: seq<Byte>, r: Record)
    requires cfg.decode(payload) == Some([r]) && |payload| <= cfg.maxRpcSize && |payload| < TWO_64
    requires r.bytes <= |payload| && r.kind == "PUBLISH" && r.topic == "beacon_block"
    requires At(cfg.clock, atNs) == Some(ref) && st.decoder.Some? && st.decoder.value.inBuf == []
    ensures var obs := ChunkEffect(cfg, st, ref, atNs, In, Framed(payload)).observations;
      && |obs| == 3 && Attributes(obs[1], st.protocol, r, ref.slot)
      && AddAll(NewTable(ref), obs).facts == r.facts
      && AddAll(NewTable(ref), obs).bleedIn ==
         if r.slot.Some? && r.slot.value < ref.slot then Some(r.bytes) else None
  {
    var eff := ChunkEffect(cfg, st, ref, atNs, In, Framed(payload));
    var framing := FramingRecord(|Framed(payload)| - r.bytes);
    BucketHolds(cfg.clock, atNs, ref);
    EffectIsExact(cfg, st, ref, atNs, In, Framed(payload), eff);
    assert [] + Framed(payload) == Framed(payload);
    BlockDrained(cfg.decode, cfg.maxRpcSize, payload, r);
    assert Decoded(cfg, st.decoder.value, In, Framed(payload)).records == [r, framing];
    RecordShown(ref, eff.observations, st.protocol, r, framing);
  }

  /** What the slot's tables show of it: the block's facts, and its bytes as late as the block is. */
  lemma RecordShown(ref: SlotRef, obs: seq<Observation>, protocol: string, r: Record, framing: Record)
    requires |obs| == 3 && obs[0].Traffic? && obs[1].dir == In && obs[2].dir == In
    requires Attributes(obs[1], protocol, r, ref.slot) && Attributes(obs[2], protocol, framing, ref.slot)
    requires r.kind == "PUBLISH" && r.topic == "beacon_block" && framing.kind == "" && framing.slot == None
    ensures AddAll(NewTable(ref), obs).facts == r.facts
    ensures AddAll(NewTable(ref), obs).bleedIn ==
      if r.slot.Some? && r.slot.value < ref.slot then Some(r.bytes) else None
  {
    var t := NewTable(ref);
    AddThree(t, obs);
    assert obs[2].distance == 0;
  }

  lemma AddThree(t: Table, obs: seq<Observation>)
    requires |obs| == 3
    ensures AddAll(t, obs) == Add(Add(Add(t, obs[0]), obs[1]), obs[2])
  {
    AddOne(t, [], obs[0]);
    AddOne(t, [obs[0]], obs[1]);
    AddOne(t, [obs[0], obs[1]], obs[2]);
    assert [] + [obs[0]] == [obs[0]] && [obs[0]] + [obs[1]] == [obs[0], obs[1]];
    assert [obs[0], obs[1]] + [obs[2]] == obs;
  }
}
