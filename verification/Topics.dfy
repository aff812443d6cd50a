/** The gossip payloads of each topic, laid out per the consensus-specs SimpleSerialize document, and what is read from
    them. */
module Topics {
  import opened Basics
  import opened Ssz
  import opened PayloadCache

  // ---- Topics with a subnet number -----------------------------------------------------------------------------

  /** The topic is a subnet prefix with a number behind it. */
  ghost predicate Numbered(topic: string, i: nat) {
    && i < |SUBNET_PREFIXES| && SUBNET_PREFIXES[i] <= topic && |topic| > |SUBNET_PREFIXES[i]|
    && IsDigits(topic[|SUBNET_PREFIXES[i]|..])
  }

  lemma {:induction false} StripFirst(prefixes: seq<string>, topic: string, i: nat)
    requires forall k :: 0 <= k < |prefixes| ==> |prefixes[k]| > 0
    requires i < |prefixes| && prefixes[i] <= topic && |topic| > |prefixes[i]| && IsDigits(topic[|prefixes[i]|..])
    requires forall k :: 0 <= k < i ==> !(prefixes[k] <= topic)
    ensures StripWith(prefixes, topic) == prefixes[i][..|prefixes[i]| - 1]
    decreases i
  {
    if i > 0 {
      StripFirst(prefixes[1..], topic, i - 1);
    }
  }

  lemma {:induction false} StripNone(prefixes: seq<string>, topic: string)
    requires forall k :: 0 <= k < |prefixes| ==> |prefixes[k]| > 0
    requires forall k :: 0 <= k < |prefixes| ==>
      !(prefixes[k] <= topic && |topic| > |prefixes[k]| && IsDigits(topic[|prefixes[k]|..]))
    ensures StripWith(prefixes, topic) == topic
    decreases |prefixes|
  {
    if prefixes != [] {
      StripNone(prefixes[1..], topic);
    }
  }

  /** No topic starts with two of the prefixes. */
  lemma PrefixesDiffer(i: nat, k: nat, topic: string)
    requires i < |SUBNET_PREFIXES| && k < |SUBNET_PREFIXES| && i != k && SUBNET_PREFIXES[i] <= topic
    ensures !(SUBNET_PREFIXES[k] <= topic)
  {
    assert SUBNET_PREFIXES[0][..2] == "be" && SUBNET_PREFIXES[1][..2] == "sy";
    assert SUBNET_PREFIXES[2][..2] == "da" && SUBNET_PREFIXES[3][..2] == "bl";
    assert SUBNET_PREFIXES[i][0] == topic[0] && SUBNET_PREFIXES[i][1] == topic[1];
  }

  /** Exactly the number of a subnet topic, with its underscore, is taken off, and any other topic is left as it is. */
  lemma StripExactly(topic: string)
    ensures forall i: nat :: Numbered(topic, i) ==> StripSubnetId(topic) + "_" == SUBNET_PREFIXES[i]
    ensures (forall i: nat :: !Numbered(topic, i)) ==> StripSubnetId(topic) == topic
  {
    forall i: nat | Numbered(topic, i)
      ensures StripSubnetId(topic) + "_" == SUBNET_PREFIXES[i]
    {
      forall k | 0 <= k < i
        ensures !(SUBNET_PREFIXES[k] <= topic)
      {
        PrefixesDiffer(i, k, topic);
      }
      StripFirst(SUBNET_PREFIXES, topic, i);
      assert SUBNET_PREFIXES[i][|SUBNET_PREFIXES[i]| - 1] == '_';
    }
    if forall i: nat :: !Numbered(topic, i) {
      forall k | 0 <= k < |SUBNET_PREFIXES|
        ensures var p := SUBNET_PREFIXES[k]; !(p <= topic && |topic| > |p| && IsDigits(topic[|p|..]))
      {
        assert !Numbered(topic, k);
      }
      StripNone(SUBNET_PREFIXES, topic);
    }
  }

  // ---- Payloads ------------------------------------------------------------------------------------------------

  /** What is published on each topic, as far as the position of its slot depends on it; runs of fields behind the slot
      are kept as bytes, and words are offsets. */
  datatype Message =
    | Block(block: SignedBlock)
    | Aggregate(signature: seq<Byte>, aggregator: nat, proof: seq<Byte>, bitsAt: nat, slot: nat, rest: seq<Byte>)
    | Attestation(bitsAt: nat, slot: nat, rest: seq<Byte>)
    | ProposerSlashing(slot: nat, rest: seq<Byte>)
    | AttesterSlashing(firstAt: nat, secondAt: nat, indicesAt: nat, slot: nat, rest: seq<Byte>)
    | SyncMessage(slot: nat, rest: seq<Byte>)
    | Contribution(aggregator: nat, slot: nat, rest: seq<Byte>)
    | DataColumn(index: nat, columnAt: nat, commitmentsAt: nat, proofsAt: nat, slot: nat, rest: seq<Byte>)
    | Blob(index: nat, blob: seq<Byte>, commitment: seq<Byte>, proof: seq<Byte>, slot: nat, rest: seq<Byte>)

  function SlotIn(m: Message): nat {
    if m.Block? then m.block.slot else m.slot
  }

  function BaseTopic(m: Message): string {
    match m
    case Block(_) => "beacon_block"
    case Aggregate(_, _, _, _, _, _) => "beacon_aggregate_and_proof"
    case Attestation(_, _, _) => "beacon_attestation"
    case ProposerSlashing(_, _) => "proposer_slashing"
    case AttesterSlashing(_, _, _, _, _) => "attester_slashing"
    case SyncMessage(_, _) => "sync_committee"
    case Contribution(_, _, _) => "sync_committee_contribution_and_proof"
    case DataColumn(_, _, _, _, _, _) => "data_column_sidecar"
    case Blob(_, _, _, _, _, _) => "blob_sidecar"
  }

  /** The fields in order: fixed-size ones in place, offsets for the others. */
  function Layout(m: Message): seq<Piece> {
    match m
    case Block(b) => BlockPieces(b)
    case Aggregate(signature, aggregator, proof, bitsAt, slot, rest) =>
      [Word(100), Raw(signature), Long(aggregator), Word(108), Raw(proof), Word(bitsAt), Long(slot), Raw(rest)]
    case Attestation(bitsAt, slot, rest) => [Word(bitsAt), Long(slot), Raw(rest)]
    case ProposerSlashing(slot, rest) => [Long(slot), Raw(rest)]
    case AttesterSlashing(first, second, indices, slot, rest) =>
      [Word(first), Word(second), Word(indices), Long(slot), Raw(rest)]
    case SyncMessage(slot, rest) => [Long(slot), Raw(rest)]
    case Contribution(aggregator, slot, rest) => [Long(aggregator), Long(slot), Raw(rest)]
    case DataColumn(index, column, commitments, proofs, slot, rest) =>
      [Long(index), Word(column), Word(commitments), Word(proofs), Long(slot), Raw(rest)]
    case Blob(index, blob, commitment, proof, slot, rest) =>
      [Long(index), Raw(blob), Raw(commitment), Raw(proof), Long(slot), Raw(rest)]
  }

  /** Fixed-size fields have their size, numbers fit 64 bits. */
  ghost predicate Proper(m: Message) {
    && SlotIn(m) < TWO_64
    && (m.Block? ==> WellFormed(m.block))
    && (m.Aggregate? ==> |m.signature| == 96 && |m.proof| == 96)
    && (m.Blob? ==> |m.blob| == 131072 && |m.commitment| == 48 && |m.proof| == 48)
    && (m.DataColumn? || m.Blob? ==> m.index < TWO_64)
  }

  /** The piece that holds the slot. */
  function SlotPiece(m: Message): nat {
    match m
    case Block(_) => 2
    case Aggregate(_, _, _, _, _, _) => 6
    case Attestation(_, _, _) => 1
    case ProposerSlashing(_, _) => 0
    case AttesterSlashing(_, _, _, _, _) => 3
    case SyncMessage(_, _) => 0
    case Contribution(_, _, _) => 1
    case DataColumn(_, _, _, _, _, _) => 4
    case Blob(_, _, _, _, _, _) => 4
  }

  /** A 64-bit field of a serialization is read back. */
  lemma FieldReads(pieces: seq<Piece>, i: nat, at: nat, x: nat)
    requires i < |pieces| && pieces[i] == Long(x) && at == Start(pieces, i) && x < TWO_64
    ensures at + 8 <= |Serialize(pieces)| && U64(Serialize(pieces), at) == x
  {
    PieceHeld(pieces, i, at, LittleEndian(x, 8));
    LongReads(Serialize(pieces), at, x);
  }

  lemma LongStarts(m: Message)
    requires Proper(m) && (m.Aggregate? || m.Blob? || m.DataColumn?)
    ensures SlotPiece(m) <= |Layout(m)|
    ensures Start(Layout(m), SlotPiece(m)) == if m.Aggregate? then 212 else if m.Blob? then 131176 else 20
  {
    var f := Layout(m);
    assert Start(f, 1) == Size(f[0]) && Start(f, 2) == Start(f, 1) + Size(f[1]);
    assert Start(f, 3) == Start(f, 2) + Size(f[2]) && Start(f, 4) == Start(f, 3) + Size(f[3]);
    if m.Aggregate? {
      assert Start(f, 5) == Start(f, 4) + Size(f[4]) && Start(f, 6) == Start(f, 5) + Size(f[5]);
    }
  }

  lemma ShortStarts(m: Message)
    requires Proper(m) && !m.Aggregate? && !m.Blob? && !m.DataColumn?
    ensures SlotPiece(m) <= |Layout(m)|
    ensures Start(Layout(m), SlotPiece(m)) ==
      if m.Block? then 100 else if m.Attestation? then 4 else if m.AttesterSlashing? then 12
      else if m.Contribution? then 8 else 0
  {
    var f := Layout(m);
    assert Start(f, 1) == Size(f[0]);
    if m.Block? || m.AttesterSlashing? {
      assert Start(f, 2) == Start(f, 1) + Size(f[1]) && Start(f, 3) == Start(f, 2) + Size(f[2]);
    }
  }

  lemma SlotIsThere(m: Message)
    ensures SlotPiece(m) < |Layout(m)| && Layout(m)[SlotPiece(m)] == Long(SlotIn(m))
  {
  }

  /** Where the reader looks is where the slot lies. */
  lemma OffsetIsStart(m: Message)
    requires Proper(m)
    ensures SlotPiece(m) <= |Layout(m)| && SlotOffset(BaseTopic(m)) == Some(Start(Layout(m), SlotPiece(m)))
  {
    if m.Aggregate? || m.Blob? || m.DataColumn? {
      LongStarts(m);
    } else {
      ShortStarts(m);
    }
  }

  /** The topic is the message's, with a subnet number if it has subnets. */
  ghost predicate Carries(topic: string, m: Message) {
    topic == BaseTopic(m) || exists i: nat :: Numbered(topic, i) && SUBNET_PREFIXES[i] == BaseTopic(m) + "_"
  }

  lemma BaseHasNoNumber(m: Message, i: nat)
    ensures !Numbered(BaseTopic(m), i)
  {
    BaseEndsInLetter(m);
    EndsInDigit(BaseTopic(m), i);
  }

  lemma BaseEndsInLetter(m: Message)
    ensures var base := BaseTopic(m); base != "" && 'a' <= base[|base| - 1] <= 'z'
  {
  }

  lemma EndsInDigit(topic: string, i: nat)
    ensures Numbered(topic, i) ==> '0' <= topic[|topic| - 1] <= '9'
  {
    if Numbered(topic, i) {
      var digits := topic[|SUBNET_PREFIXES[i]|..];
      assert digits[|digits| - 1] in digits;
    }
  }

  lemma StripGivesBase(topic: string, m: Message)
    requires Carries(topic, m)
    ensures StripSubnetId(topic) == BaseTopic(m)
  {
    StripExactly(topic);
    if topic == BaseTopic(m) {
      forall i: nat
        ensures !Numbered(topic, i)
      {
        BaseHasNoNumber(m, i);
      }
    } else {
      var i: nat :| Numbered(topic, i) && SUBNET_PREFIXES[i] == BaseTopic(m) + "_";
      var strip := StripSubnetId(topic);
      assert (strip + "_")[..|strip|] == (BaseTopic(m) + "_")[..|BaseTopic(m)|];
    }
  }

  /** The data decompresses to this payload, or does not decompress and is it. */
  predicate Delivers(lib: Library, data: seq<Byte>, payload: seq<Byte>) {
    if lib.decompress(data).Some? then lib.decompress(data).value == payload else data == payload
  }

  /** From every payload of a topic with a slot, however it is compressed and whatever subnet number the topic has, the
      slot comes back. */
  lemma SlotComesBack(lib: Library, m: Message, topic: string, data: seq<Byte>)
    requires Proper(m) && Carries(topic, m) && Delivers(lib, data, Serialize(Layout(m)))
    ensures DecodeSlot(lib, topic, data) == Some(SlotIn(m))
  {
    StripGivesBase(topic, m);
    SlotIsThere(m);
    OffsetIsStart(m);
    FieldReads(Layout(m), SlotPiece(m), Start(Layout(m), SlotPiece(m)), SlotIn(m));
  }

  /** The index of a sidecar comes back. */
  lemma SidecarIndexComesBack(m: Message, topic: string)
    requires Proper(m) && Carries(topic, m) && (m.DataColumn? || m.Blob?)
    ensures DecodeMeta(topic, Serialize(Layout(m))) == Meta(None, None, None, None, Some(m.index))
  {
    StripGivesBase(topic, m);
    FieldReads(Layout(m), 0, 0, m.index);
  }

  /** Slot, proposer and all three counts of a published block come back. */
  lemma BlockComesBack(lib: Library, b: SignedBlock, data: seq<Byte>)
    requires WellFormed(b) && Delivers(lib, data, Encode(b))
    ensures Uncached(lib, "beacon_block", data) ==
      Decoded(Some(b.slot), Meta(Some(b.proposerIndex), Some(|b.body.attestations|), Some(|b.body.commitments|),
                                 Some(|b.body.payload.transactions|), None))
  {
    BlockSlot(lib, b, data);
    BlockMeta(b, Plain(lib, data));
  }

  lemma BlockSlot(lib: Library, b: SignedBlock, data: seq<Byte>)
    requires WellFormed(b) && Delivers(lib, data, Encode(b))
    ensures DecodeSlot(lib, "beacon_block", data) == Some(b.slot)
  {
    SlotComesBack(lib, Block(b), "beacon_block", data);
  }

  lemma BlockMeta(b: SignedBlock, plain: seq<Byte>)
    requires WellFormed(b) && plain == Encode(b)
    ensures DecodeMeta("beacon_block", plain) ==
      Meta(Some(b.proposerIndex), Some(|b.body.attestations|), Some(|b.body.commitments|),
           Some(|b.body.payload.transactions|), None)
  {
    StripGivesBase("beacon_block", Block(b));
    ExtractionInvertsEncoding(b);
  }
}
