/** Decoding gossip payloads by topic, and the cache that spares decompressing the same payload twice. */
module PayloadCache {
  import opened Basics
  import opened Ssz

  const DECODE_CACHE_MAX: nat := 256

  /** The two outside functions: a content fingerprint and the decompressor. */
  datatype Library = Library(fingerprint: seq<Byte> -> nat, decompress: seq<Byte> -> Option<seq<Byte>>)

  const SUBNET_PREFIXES: seq<string> :=
    ["beacon_attestation_", "sync_committee_", "data_column_sidecar_", "blob_sidecar_"]

  function SlotOffset(base: string): Option<nat> {
    match base
    case "beacon_block" => Some(100)
    case "beacon_aggregate_and_proof" => Some(212)
    case "beacon_attestation" => Some(4)
    case "proposer_slashing" => Some(0)
    case "attester_slashing" => Some(12)
    case "sync_committee" => Some(0)
    case "sync_committee_contribution_and_proof" => Some(8)
    case "data_column_sidecar" => Some(20)
    case "blob_sidecar" => Some(131176)
    case _ => None
  }

  predicate IsDigits(s: string) {
    forall c :: c in s ==> '0' <= c <= '9'
  }

  function StripWith(prefixes: seq<string>, topic: string): string
    requires forall i :: 0 <= i < |prefixes| ==> |prefixes[i]| > 0
  {
    if prefixes == [] then topic
    else if prefixes[0] <= topic && |topic| > |prefixes[0]| && IsDigits(topic[|prefixes[0]|..])
    then topic[..|prefixes[0]| - 1]
    else StripWith(prefixes[1..], topic)
  }

  /** Drops the subnet number of a subnet-parameterized topic. */
  function StripSubnetId(topic: string): string {
    StripWith(SUBNET_PREFIXES, topic)
  }

  function DecodeMeta(topic: string, data: seq<Byte>): Meta {
    match StripSubnetId(topic)
    case "beacon_block" => DecodeBeaconBlockMeta(data)
    case "blob_sidecar" => if |data| >= 8 then NO_META.(sidecar := Some(U64(data, 0))) else NO_META
    case "data_column_sidecar" => if |data| >= 8 then NO_META.(sidecar := Some(U64(data, 0))) else NO_META
    case _ => NO_META
  }

  /** Payloads that do not decompress are read as they are. */
  function Plain(lib: Library, data: seq<Byte>): seq<Byte> {
    match lib.decompress(data)
    case Some(d) => d
    case None => data
  }

  function SlotAt(offset: Option<nat>, plain: seq<Byte>): Option<nat> {
    match offset
    case None => None
    case Some(n) => if |plain| < n + 8 then None else Some(U64(plain, n))
  }

  function DecodeSlot(lib: Library, topic: string, data: seq<Byte>): Option<nat> {
    SlotAt(SlotOffset(StripSubnetId(topic)), Plain(lib, data))
  }

  datatype Decoded = Decoded(slot: Option<nat>, meta: Meta)

  /** What a call returns without any cache. */
  function Uncached(lib: Library, topic: string, data: seq<Byte>): Decoded {
    Decoded(DecodeSlot(lib, topic, data), DecodeMeta(topic, Plain(lib, data)))
  }

  type Cache = map<nat, Decoded>

  /** The two critical sections of a call; calls of several streams interleave between them. */
  datatype Event = Lookup(topic: string, data: seq<Byte>) | Store(topic: string, data: seq<Byte>)

  function Answer(lib: Library, cache: Cache, topic: string, data: seq<Byte>): Decoded {
    var key := lib.fingerprint(data);
    if key in cache then cache[key] else Uncached(lib, topic, data)
  }

  function StoreIn(lib: Library, cache: Cache, topic: string, data: seq<Byte>): Cache {
    (if |cache| >= DECODE_CACHE_MAX then map[] else cache)[lib.fingerprint(data) := Uncached(lib, topic, data)]
  }

  /** The cache after any interleaving of lookups and stores. */
  function After(lib: Library, events: seq<Event>): Cache {
    if events == [] then map[] else
      var before := After(lib, events[..|events| - 1]);
      match events[|events| - 1]
      case Lookup(_, _) => before
      case Store(topic, data) => StoreIn(lib, before, topic, data)
  }

  /** The topics keep their slot at the same place, or have none both. */
  predicate SameOffset(a: string, b: string) {
    SlotOffset(StripSubnetId(a)) == SlotOffset(StripSubnetId(b))
  }

  /** Equal fingerprints mean equal payloads, and a payload occurs only under topics with the same slot offset. */
  ghost predicate Coherent(lib: Library, events: seq<Event>) {
    forall a, b :: a in events && b in events && lib.fingerprint(a.data) == lib.fingerprint(b.data) ==>
      a.data == b.data && SameOffset(a.topic, b.topic)
  }

  /** The slot offset tells topics with metadata apart, so it decides the whole answer. */
  lemma OffsetDecides(lib: Library, a: string, b: string, data: seq<Byte>)
    requires SameOffset(a, b)
    ensures Uncached(lib, a, data) == Uncached(lib, b, data)
  {
  }

  /** In every interleaving the cache is invisible: any event's call is answered as if nothing were cached,
      and its slot is what DecodeSlot alone returns. */
  lemma {:induction false} CacheIsTransparent(lib: Library, events: seq<Event>, e: Event)
    requires Coherent(lib, events + [e])
    ensures Answer(lib, After(lib, events), e.topic, e.data) == Uncached(lib, e.topic, e.data)
    ensures Answer(lib, After(lib, events), e.topic, e.data).slot == DecodeSlot(lib, e.topic, e.data)
    decreases |events|
  {
    if events != [] {
      var n := |events| - 1;
      var last := events[n];
      var all := events + [e];
      assert all[n] == last && all[n + 1] == e;
      forall x | x in events[..n] + [e]
        ensures x in all
      {
      }
      CacheIsTransparent(lib, events[..n], e);
      if last.Store? && lib.fingerprint(last.data) == lib.fingerprint(e.data) {
        OffsetDecides(lib, last.topic, e.topic, e.data);
      }
    }
  }

  /** What is stored is found again, and as long as there is room nothing else is forgotten. */
  lemma StoredIsFound(lib: Library, events: seq<Event>, topic: string, data: seq<Byte>)
    ensures var before, after := After(lib, events), After(lib, events + [Store(topic, data)]);
      && lib.fingerprint(data) in after && after[lib.fingerprint(data)] == Uncached(lib, topic, data)
      && (|before| < 256 ==>
            forall k :: k in before && k != lib.fingerprint(data) ==> k in after && after[k] == before[k])
  {
    var all := events + [Store(topic, data)];
    assert all[..|all| - 1] == events;
  }

  /** The cache never holds more than its limit. */
  lemma {:induction false} CacheIsBounded(lib: Library, events: seq<Event>)
    ensures |After(lib, events)| <= 256
    decreases |events|
  {
    if events != [] {
      var n := |events| - 1;
      var before := After(lib, events[..n]);
      CacheIsBounded(lib, events[..n]);
      match events[n]
      case Lookup(_, _) =>
      case Store(topic, data) =>
        var room: Cache := if |before| >= DECODE_CACHE_MAX then map[] else before;
        var key := lib.fingerprint(data);
        assert room[key := Uncached(lib, topic, data)].Keys == room.Keys + {key};
    }
  }

  /** Some payload decompresses, or fails to and reads, as these bytes. */
  ghost predicate Receivable(lib: Library, plain: seq<Byte>) {
    exists data :: Plain(lib, data) == plain
  }

  /** Different offsets disagree on payloads just long enough for the smaller one. */
  lemma OffsetsDisagree(x: Option<nat>, y: Option<nat>) returns (plain: seq<Byte>)
    requires x != y
    ensures SlotAt(x, plain) != SlotAt(y, plain)
  {
    var n := if x.None? || (y.Some? && y.value < x.value) then y.value else x.value;
    plain := seq(n + 8, _ => 0);
  }

  lemma CachedAnswer(lib: Library, a: string, b: string, data: seq<Byte>)
    ensures Answer(lib, After(lib, [Store(a, data)]), b, data) == Uncached(lib, a, data)
  {
    assert [Store(a, data)][..0] == [];
  }

  /** A payload cached under one topic answers for another as if it had not been cached, whatever the payload, if and
      only if the two topics have the same slot offset. */
  lemma TopicsShareExactly(lib: Library, a: string, b: string)
    requires forall plain :: Receivable(lib, plain)
    ensures (forall data :: Answer(lib, After(lib, [Store(a, data)]), b, data) == Uncached(lib, b, data))
      <==> SameOffset(a, b)
  {
    if SameOffset(a, b) {
      forall data
        ensures Answer(lib, After(lib, [Store(a, data)]), b, data) == Uncached(lib, b, data)
      {
        CachedAnswer(lib, a, b, data);
        OffsetDecides(lib, a, b, data);
      }
    } else {
      var plain := OffsetsDisagree(SlotOffset(StripSubnetId(a)), SlotOffset(StripSubnetId(b)));
      assert Receivable(lib, plain);
      var data :| Plain(lib, data) == plain;
      CachedAnswer(lib, a, b, data);
      assert Uncached(lib, a, data).slot != Uncached(lib, b, data).slot;
    }
  }

  /** The hypothesis is needed: the key ignores the topic, so a payload first seen as a block
      is later reported with a slot under a topic that carries none. */
  lemma KeyIgnoresTopic(lib: Library, data: seq<Byte>)
    requires |Plain(lib, data)| >= 108
    ensures Uncached(lib, "voluntary_exit", data).slot == None
    ensures Answer(lib, After(lib, [Store("beacon_block", data)]), "voluntary_exit", data).slot.Some?
  {
    var events := [Store("beacon_block", data)];
    assert events[..0] == [];
    assert StripSubnetId("beacon_block") == "beacon_block" by {
      StripKeeps("beacon_block");
    }
    assert StripSubnetId("voluntary_exit") == "voluntary_exit" by {
      assert "blob_sidecar_"[0] != "voluntary_exit"[0];
      StripKeeps("voluntary_exit");
    }
  }

  lemma StripKeeps(topic: string)
    requires forall i :: 0 <= i < |SUBNET_PREFIXES| ==> !(SUBNET_PREFIXES[i] <= topic)
    ensures StripSubnetId(topic) == topic
  {
    var p := SUBNET_PREFIXES;
    assert StripWith(p[4..], topic) == topic;
    assert p[3..][1..] == p[4..] && p[2..][1..] == p[3..] && p[1..][1..] == p[2..];
    assert StripWith(p[3..], topic) == topic;
    assert StripWith(p[2..], topic) == topic;
    assert StripWith(p[1..], topic) == topic;
  }

  class DecodeCache {
    var cache: Cache

    constructor ()
      ensures cache == map[]
    {
      cache := map[];
    }

    method DecodePayload(lib: Library, topic: string, data: seq<Byte>) returns (slot: Option<nat>, meta: Meta)
      modifies this
      ensures Decoded(slot, meta) == Answer(lib, old(cache), topic, data)
      ensures cache == if lib.fingerprint(data) in old(cache) then old(cache)
                       else StoreIn(lib, old(cache), topic, data)
    {
      var key := lib.fingerprint(data);
      if key in cache {
        return cache[key].slot, cache[key].meta;
      }
      var plain := Plain(lib, data);
      var base := StripSubnetId(topic);
      slot := None;
      var offset := SlotOffset(base);
      if offset.Some? {
        var end := offset.value + 8;
        if |plain| >= end {
          slot := Some(U64(plain, offset.value));
        }
      }
      meta := DecodeMeta(topic, plain);
      if |cache| >= DECODE_CACHE_MAX {
        cache := map[];
      }
      cache := cache[key := Decoded(slot, meta)];
    }
  }
}
