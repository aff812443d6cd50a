/** Reading metadata out of SSZ payloads, and the SSZ layout of a signed beacon block it relies on. */
module Ssz {
  import opened Basics

  const TWO_32: nat := 0x1_0000_0000
  const TWO_64: nat := 0x1_0000_0000_0000_0000

  /** The little-endian number in the n bytes at `at`. */
  function Uint(data: seq<Byte>, at: nat, n: nat): nat
    requires at + n <= |data|
    decreases n
  {
    if n == 0 then 0 else data[at] as int + 0x100 * Uint(data, at + 1, n - 1)
  }

  /** The n-byte little-endian encoding of x. */
  function LittleEndian(x: nat, n: nat): (bytes: seq<Byte>)
    ensures |bytes| == n
    decreases n
  {
    if n == 0 then [] else [x % 0x100] + LittleEndian(x / 0x100, n - 1)
  }

  function Pow256(n: nat): nat {
    if n == 0 then 1 else 0x100 * Pow256(n - 1)
  }

  function U32(data: seq<Byte>, at: nat): nat
    requires at + 4 <= |data|
  {
    Uint(data, at, 4)
  }

  function U64(data: seq<Byte>, at: nat): nat
    requires at + 8 <= |data|
  {
    Uint(data, at, 8)
  }

  datatype Meta = Meta(
    proposer: Option<nat>, attestations: Option<nat>, commitments: Option<nat>, transactions: Option<nat>,
    sidecar: Option<nat>)

  const NO_META := Meta(None, None, None, None, None)

  const BLOCK_BASE: nat := 100

  /** Number of elements of a list of variable-size elements found between two offsets: its first offset
      word divided by four, or zero when the region is empty. */
  function ListCount(data: seq<Byte>, start: nat, end: nat): Option<nat> {
    if end > start && start + 4 <= |data| then
      var firstOff := U32(data, start);
      if firstOff > 0 && firstOff % 4 == 0 then Some(firstOff / 4) else None
    else if end == start then Some(0)
    else None
  }

  /** Total on every byte string: each read is guarded by the length. */
  function DecodeBeaconBlockMeta(data: seq<Byte>): Meta {
    if |data| < BLOCK_BASE + 84 then NO_META else
      var m := NO_META.(proposer := Some(U64(data, BLOCK_BASE + 8)));
      var body := BLOCK_BASE + U32(data, BLOCK_BASE + 80);
      if |data| < body + 396 then m else
        var attestations := ListCount(data, body + U32(data, body + 208), body + U32(data, body + 212));
        var region := U32(data, body + 392) - U32(data, body + 388);
        var commitments := if region >= 0 then Some(region / 48) else None;
        var ep := body + U32(data, body + 380);
        var transactions :=
          if ep + 512 <= |data| then ListCount(data, ep + U32(data, ep + 504), ep + U32(data, ep + 508))
          else None;
        m.(attestations := attestations, commitments := commitments, transactions := transactions)
  }

  // ---- The layout ------------------------------------------------------------------------------

  /** A piece of a serialized container: an offset word, a 64-bit number, or bytes. */
  datatype Piece = Word(x: nat) | Long(x: nat) | Raw(bytes: seq<Byte>)

  function Bytes(p: Piece): (out: seq<Byte>)
    ensures |out| == Size(p)
  {
    match p
    case Word(x) => LittleEndian(x, 4)
    case Long(x) => LittleEndian(x, 8)
    case Raw(bytes) => bytes
  }

  function Size(p: Piece): nat {
    match p
    case Word(_) => 4
    case Long(_) => 8
    case Raw(bytes) => |bytes|
  }

  function Serialize(pieces: seq<Piece>): seq<Byte> {
    if pieces == [] then [] else Bytes(pieces[0]) + Serialize(pieces[1..])
  }

  /** Where piece i begins. */
  function Start(pieces: seq<Piece>, i: nat): nat
    requires i <= |pieces|
  {
    if i == 0 then 0 else Start(pieces, i - 1) + Size(pieces[i - 1])
  }

  function Concat(elems: seq<seq<Byte>>): seq<Byte> {
    if elems == [] then [] else elems[0] + Concat(elems[1..])
  }

  /** The offset words of a list of variable-size elements, the first of them pointing to `at`. */
  function Offsets(elems: seq<seq<Byte>>, at: nat): (out: seq<Byte>)
    ensures |out| == 4 * |elems|
  {
    if elems == [] then [] else LittleEndian(at, 4) + Offsets(elems[1..], at + |elems[0]|)
  }

  function VariableList(elems: seq<seq<Byte>>): seq<Byte> {
    Offsets(elems, 4 * |elems|) + Concat(elems)
  }

  /** Runs of fixed-size fields are kept as one byte string of their joint length. */
  datatype ExecutionPayload = ExecutionPayload(
    upToTimestamp: seq<Byte>,
    extraData: seq<Byte>,
    baseFeeAndBlockHash: seq<Byte>,
    transactions: seq<seq<Byte>>,
    withdrawals: seq<Byte>,
    blobGas: seq<Byte>)

  datatype Body = Body(
    randaoEth1Graffiti: seq<Byte>,
    proposerSlashings: seq<Byte>,
    attesterSlashings: seq<Byte>,
    attestations: seq<seq<Byte>>,
    deposits: seq<Byte>,
    voluntaryExits: seq<Byte>,
    syncAggregate: seq<Byte>,
    payload: ExecutionPayload,
    blsChanges: seq<Byte>,
    commitments: seq<seq<Byte>>,
    executionRequests: seq<Byte>)

  datatype SignedBlock = SignedBlock(
    signature: seq<Byte>, slot: nat, proposerIndex: nat, roots: seq<Byte>, body: Body)

  ghost predicate WellFormed(b: SignedBlock) {
    && |b.signature| == 96 && b.slot < TWO_64 && b.proposerIndex < TWO_64 && |b.roots| == 64
    && |b.body.randaoEth1Graffiti| == 200 && |b.body.syncAggregate| == 160
    && (forall c :: c in b.body.commitments ==> |c| == 48)
    && |b.body.payload.upToTimestamp| == 436 && |b.body.payload.baseFeeAndBlockHash| == 64
    && |b.body.payload.blobGas| == 16
    && |Encode(b)| < TWO_32
  }

  /** The variable-size fields of the payload: extra_data, transactions, withdrawals. */
  function PayloadVariable(p: ExecutionPayload): seq<Piece> {
    [Raw(p.extraData), Raw(VariableList(p.transactions)), Raw(p.withdrawals)]
  }

  function PayloadOffset(p: ExecutionPayload, field: nat): nat
    requires field <= 3
  {
    528 + Start(PayloadVariable(p), field)
  }

  function PayloadFixed(p: ExecutionPayload): seq<Piece> {
    [Raw(p.upToTimestamp), Word(PayloadOffset(p, 0)), Raw(p.baseFeeAndBlockHash),
     Word(PayloadOffset(p, 1)), Word(PayloadOffset(p, 2)), Raw(p.blobGas)]
  }

  function EncodePayload(p: ExecutionPayload): seq<Byte> {
    Serialize(PayloadFixed(p) + PayloadVariable(p))
  }

  /** The variable-size fields of a block body, in order. */
  function BodyVariable(b: Body): seq<Piece> {
    [Raw(b.proposerSlashings), Raw(b.attesterSlashings), Raw(VariableList(b.attestations)), Raw(b.deposits),
     Raw(b.voluntaryExits), Raw(EncodePayload(b.payload)), Raw(b.blsChanges), Raw(Concat(b.commitments)),
     Raw(b.executionRequests)]
  }

  function BodyOffset(b: Body, field: nat): nat
    requires field <= 9
  {
    396 + Start(BodyVariable(b), field)
  }

  function BodyFixed(b: Body): seq<Piece> {
    [Raw(b.randaoEth1Graffiti), Word(BodyOffset(b, 0)), Word(BodyOffset(b, 1)), Word(BodyOffset(b, 2)),
     Word(BodyOffset(b, 3)), Word(BodyOffset(b, 4)), Raw(b.syncAggregate),
     Word(BodyOffset(b, 5)), Word(BodyOffset(b, 6)), Word(BodyOffset(b, 7)), Word(BodyOffset(b, 8))]
  }

  function EncodeBody(b: Body): seq<Byte> {
    Serialize(BodyFixed(b) + BodyVariable(b))
  }

  function BlockPieces(b: SignedBlock): seq<Piece> {
    [Word(100), Raw(b.signature), Long(b.slot), Long(b.proposerIndex), Raw(b.roots), Word(84),
     Raw(EncodeBody(b.body))]
  }

  function Encode(b: SignedBlock): seq<Byte> {
    Serialize(BlockPieces(b))
  }

  // ---- Numbers and pieces inside larger byte strings ---------------------------------------------

  /** `part` occupies the bytes of `data` from `at` on. */
  ghost predicate Holds(data: seq<Byte>, at: nat, part: seq<Byte>) {
    at + |part| <= |data| && data[at..at + |part|] == part
  }

  lemma HoldsWithin(data: seq<Byte>, at: nat, part: seq<Byte>, k: nat, inner: seq<Byte>, innerAt: nat)
    requires Holds(data, at, part) && Holds(part, k, inner) && innerAt == at + k
    ensures Holds(data, innerAt, inner)
  {
    var slice := data[innerAt..innerAt + |inner|];
    forall i | 0 <= i < |inner|
      ensures slice[i] == inner[i]
    {
      assert data[at..at + |part|][k + i] == part[k + i] && part[k..k + |inner|][i] == inner[i];
    }
    assert slice == inner;
  }

  lemma {:induction false} UintWithin(data: seq<Byte>, at: nat, part: seq<Byte>, k: nat, n: nat)
    requires Holds(data, at, part) && k + n <= |part|
    ensures Uint(data, at + k, n) == Uint(part, k, n)
    decreases n
  {
    if n > 0 {
      assert data[at..at + |part|][k] == part[k];
      UintWithin(data, at, part, k + 1, n - 1);
    }
  }

  lemma {:induction false} EncodeThenRead(x: nat, n: nat)
    requires x < Pow256(n)
    ensures Uint(LittleEndian(x, n), 0, n) == x
    decreases n
  {
    if n > 0 {
      EncodeThenRead(x / 0x100, n - 1);
      UintWithin(LittleEndian(x, n), 1, LittleEndian(x / 0x100, n - 1), 0, n - 1);
    }
  }

  lemma PowersOf256()
    ensures Pow256(4) == TWO_32 && Pow256(8) == TWO_64
  {
    assert Pow256(2) == 0x1_0000 && Pow256(3) == 0x100_0000 && Pow256(4) == TWO_32;
    assert Pow256(5) == 0x100_0000_0000 && Pow256(6) == 0x1_0000_0000_0000 && Pow256(7) == 0x100_0000_0000_0000;
  }

  /** A number held by the data is read back. */
  lemma WordReads(data: seq<Byte>, at: nat, x: nat)
    requires x < TWO_32 && Holds(data, at, LittleEndian(x, 4))
    ensures U32(data, at) == x
  {
    PowersOf256();
    EncodeThenRead(x, 4);
    UintWithin(data, at, LittleEndian(x, 4), 0, 4);
  }

  lemma LongReads(data: seq<Byte>, at: nat, x: nat)
    requires x < TWO_64 && Holds(data, at, LittleEndian(x, 8))
    ensures U64(data, at) == x
  {
    PowersOf256();
    EncodeThenRead(x, 8);
    UintWithin(data, at, LittleEndian(x, 8), 0, 8);
  }

  lemma {:induction false} StartShift(pieces: seq<Piece>, i: nat)
    requires 1 <= i <= |pieces|
    ensures Start(pieces, i) == Size(pieces[0]) + Start(pieces[1..], i - 1)
    decreases i
  {
    if i > 1 {
      StartShift(pieces, i - 1);
    } else {
      assert Start(pieces, 1) == Start(pieces, 0) + Size(pieces[0]);
    }
  }

  /** Piece i of a serialization sits right behind the pieces before it. */
  lemma {:induction false} PieceHeld(pieces: seq<Piece>, i: nat, at: nat, bytes: seq<Byte>)
    requires i < |pieces| && at == Start(pieces, i) && bytes == Bytes(pieces[i])
    ensures Holds(Serialize(pieces), at, bytes)
    decreases |pieces|
  {
    var front, tail := Bytes(pieces[0]), Serialize(pieces[1..]);
    if i > 0 {
      StartShift(pieces, i);
      PieceHeld(pieces[1..], i - 1, at - Size(pieces[0]), bytes);
      HeldBehind(front, tail, Serialize(pieces), at - |front|, bytes);
    } else {
      FrontHolds(front, tail, [], Serialize(pieces));
    }
  }

  lemma HeldBehind(front: seq<Byte>, tail: seq<Byte>, all: seq<Byte>, k: nat, bytes: seq<Byte>)
    requires all == front + tail && Holds(tail, k, bytes)
    ensures Holds(all, |front| + k, bytes)
  {
    assert Holds(all, |front|, tail);
    HoldsWithin(all, |front|, tail, k, bytes, |front| + k);
  }

  lemma {:induction false} StartWithin(a: seq<Piece>, b: seq<Piece>, all: seq<Piece>, i: nat)
    requires i <= |a| && all == a + b
    ensures Start(all, i) == Start(a, i)
    decreases i
  {
    if i > 0 {
      StartWithin(a, b, all, i - 1);
    }
  }

  lemma {:induction false} StartBehind(a: seq<Piece>, b: seq<Piece>, all: seq<Piece>, i: nat, k: nat)
    requires i <= |b| && all == a + b && k == |a| + i
    ensures Start(all, k) == Start(a, |a|) + Start(b, i)
    decreases i
  {
    if i > 0 {
      StartBehind(a, b, all, i - 1, k - 1);
      assert all[k - 1] == b[i - 1];
    } else {
      StartWithin(a, b, all, |a|);
    }
  }

  /** A container in the data: a word of its fixed part reads as the offset it was given. */
  lemma FixedWord(data: seq<Byte>, base: nat, fixed: seq<Piece>, variable: seq<Piece>, i: nat, x: nat, at: nat)
    requires |data| < TWO_32 && x < TWO_32 && Holds(data, base, Serialize(fixed + variable))
    requires i < |fixed| && fixed[i] == Word(x) && at == base + Start(fixed, i)
    ensures at + 4 <= |data| && U32(data, at) == x
  {
    var all := fixed + variable;
    StartWithin(fixed, variable, all, i);
    assert all[i] == Word(x);
    PieceHeld(all, i, at - base, LittleEndian(x, 4));
    HoldsWithin(data, base, Serialize(all), at - base, LittleEndian(x, 4), at);
    WordReads(data, at, x);
  }

  /** ... and a variable-size field lies behind the fixed part and the fields before it. */
  lemma VariableField(
      data: seq<Byte>, base: nat, fixed: seq<Piece>, variable: seq<Piece>, i: nat, bytes: seq<Byte>, at: nat)
    requires Holds(data, base, Serialize(fixed + variable))
    requires i < |variable| && variable[i] == Raw(bytes) && at == base + Start(fixed, |fixed|) + Start(variable, i)
    ensures Holds(data, at, bytes)
  {
    var all, k := fixed + variable, |fixed| + i;
    StartBehind(fixed, variable, all, i, k);
    assert all[k] == Raw(bytes);
    PieceHeld(all, k, at - base, bytes);
    HoldsWithin(data, base, Serialize(all), at - base, bytes, at);
  }

  /** Counting a variable list from its region gives its number of elements, for every list. */
  lemma ListCountExact(data: seq<Byte>, at: nat, end: nat, elems: seq<seq<Byte>>)
    requires |data| < TWO_32 && Holds(data, at, VariableList(elems)) && end == at + |VariableList(elems)|
    ensures ListCount(data, at, end) == Some(|elems|)
  {
    if elems != [] {
      var n := 4 * |elems|;
      ListStarts(elems, n, VariableList(elems), LittleEndian(n, 4));
      HoldsWithin(data, at, VariableList(elems), 0, LittleEndian(n, 4), at);
      WordReads(data, at, n);
      CountFromWord(data, at, end, |elems|);
    }
  }

  lemma ListStarts(elems: seq<seq<Byte>>, at: nat, list: seq<Byte>, first: seq<Byte>)
    requires elems != [] && list == Offsets(elems, at) + Concat(elems) && first == LittleEndian(at, 4)
    ensures |list| >= 4 * |elems| && Holds(list, 0, first)
  {
    var offsets, rest := Offsets(elems, at), Offsets(elems[1..], at + |elems[0]|);
    assert offsets == first + rest;
    FrontHolds(first, rest, Concat(elems), list);
  }

  lemma FrontHolds(first: seq<Byte>, rest: seq<Byte>, more: seq<Byte>, list: seq<Byte>)
    requires list == (first + rest) + more
    ensures Holds(list, 0, first)
  {
  }

  lemma CountFromWord(data: seq<Byte>, at: nat, end: nat, n: nat)
    requires n > 0 && end > at && at + 4 <= |data| && U32(data, at) == 4 * n
    ensures ListCount(data, at, end) == Some(n)
  {
  }

  lemma {:induction false} CommitmentsLength(cs: seq<seq<Byte>>)
    requires forall c :: c in cs ==> |c| == 48
    ensures |Concat(cs)| == 48 * |cs|
  {
    if cs != [] {
      CommitmentsLength(cs[1..]);
    }
  }

  // ---- Where the fields of a block lie -----------------------------------------------------------

  lemma PayloadFixedStarts(p: ExecutionPayload)
    requires |p.upToTimestamp| == 436 && |p.baseFeeAndBlockHash| == 64 && |p.blobGas| == 16
    ensures Start(PayloadFixed(p), 3) == 504 && Start(PayloadFixed(p), 4) == 508 && Start(PayloadFixed(p), 6) == 528
  {
    var f := PayloadFixed(p);
    assert Start(f, 1) == 436 && Start(f, 2) == 440 && Start(f, 3) == 504;
    assert Start(f, 4) == 508 && Start(f, 5) == 512;
  }

  lemma BodyFixedStarts(b: Body)
    requires |b.randaoEth1Graffiti| == 200 && |b.syncAggregate| == 160
    ensures Start(BodyFixed(b), 3) == 208 && Start(BodyFixed(b), 4) == 212 && Start(BodyFixed(b), 7) == 380
    ensures Start(BodyFixed(b), 9) == 388 && Start(BodyFixed(b), 10) == 392 && Start(BodyFixed(b), 11) == 396
  {
    var f := BodyFixed(b);
    assert Start(f, 1) == 200;
    assert Start(f, 2) == 204;
    assert Start(f, 3) == 208;
    assert Start(f, 4) == 212;
    assert Start(f, 5) == 216;
    assert Start(f, 6) == 220;
    assert Start(f, 7) == 380;
    assert Start(f, 8) == 384;
    assert Start(f, 9) == 388;
    assert Start(f, 10) == 392;
  }

  lemma BlockStarts(b: SignedBlock)
    requires |b.signature| == 96 && |b.roots| == 64
    ensures Start(BlockPieces(b), 3) == 108 && Start(BlockPieces(b), 5) == 180 && Start(BlockPieces(b), 6) == 184
  {
    var f := BlockPieces(b);
    assert Start(f, 1) == 4 && Start(f, 2) == 100 && Start(f, 3) == 108;
    assert Start(f, 4) == 116 && Start(f, 5) == 180;
  }

  /** The transaction count is recovered wherever the payload lies in the data. */
  lemma PayloadCount(data: seq<Byte>, ep: nat, p: ExecutionPayload) returns (start: nat, end: nat)
    requires |p.upToTimestamp| == 436 && |p.baseFeeAndBlockHash| == 64 && |p.blobGas| == 16
    requires |data| < TWO_32 && Holds(data, ep, EncodePayload(p))
    ensures ep + 512 <= |data|
    ensures start == ep + U32(data, ep + 504) && end == ep + U32(data, ep + 508)
    ensures ListCount(data, start, end) == Some(|p.transactions|)
  {
    var fixed, variable := PayloadFixed(p), PayloadVariable(p);
    var o1, o2 := PayloadOffset(p, 1), PayloadOffset(p, 2);
    PayloadFixedStarts(p);
    VariableField(data, ep, fixed, variable, 1, VariableList(p.transactions), ep + o1);
    VariableField(data, ep, fixed, variable, 2, p.withdrawals, ep + o2);
    FixedWord(data, ep, fixed, variable, 3, o1, ep + 504);
    FixedWord(data, ep, fixed, variable, 4, o2, ep + 508);
    assert o2 == o1 + |VariableList(p.transactions)|;
    start, end := ep + o1, ep + o2;
    ListCountExact(data, start, end, p.transactions);
  }

  /** A body field: its word reads as its offset, and its bytes are at that offset. */
  lemma BodyField(data: seq<Byte>, base: nat, b: Body, i: nat, field: nat, bytes: seq<Byte>, offset: nat)
    requires |b.randaoEth1Graffiti| == 200 && |b.syncAggregate| == 160
    requires |data| < TWO_32 && Holds(data, base, EncodeBody(b))
    requires i < 11 && field < 9 && offset == BodyOffset(b, field)
    requires BodyFixed(b)[i] == Word(offset) && BodyVariable(b)[field] == Raw(bytes)
    ensures base + Start(BodyFixed(b), i) + 4 <= |data| && U32(data, base + Start(BodyFixed(b), i)) == offset
    ensures Holds(data, base + offset, bytes)
    ensures BodyOffset(b, field + 1) == offset + |bytes|
  {
    BodyFixedStarts(b);
    VariableField(data, base, BodyFixed(b), BodyVariable(b), field, bytes, base + offset);
    FixedWord(data, base, BodyFixed(b), BodyVariable(b), i, offset, base + Start(BodyFixed(b), i));
  }

  lemma AttestationRegion(data: seq<Byte>, base: nat, b: Body) returns (start: nat, end: nat)
    requires |b.randaoEth1Graffiti| == 200 && |b.syncAggregate| == 160
    requires |data| < TWO_32 && Holds(data, base, EncodeBody(b))
    ensures base + 216 <= |data|
    ensures start == base + U32(data, base + 208) && end == base + U32(data, base + 212)
    ensures ListCount(data, start, end) == Some(|b.attestations|)
  {
    var o2, o3 := BodyOffset(b, 2), BodyOffset(b, 3);
    BodyFixedStarts(b);
    BodyField(data, base, b, 3, 2, VariableList(b.attestations), o2);
    BodyField(data, base, b, 4, 3, b.deposits, o3);
    start, end := base + o2, base + o3;
    ListCountExact(data, start, end, b.attestations);
  }

  lemma CommitmentRegion(data: seq<Byte>, base: nat, b: Body)
    requires |b.randaoEth1Graffiti| == 200 && |b.syncAggregate| == 160
    requires |data| < TWO_32 && Holds(data, base, EncodeBody(b))
    requires forall c :: c in b.commitments ==> |c| == 48
    ensures base + 396 <= |data|
    ensures U32(data, base + 392) - U32(data, base + 388) == 48 * |b.commitments|
  {
    BodyFixedStarts(b);
    BodyField(data, base, b, 9, 7, Concat(b.commitments), BodyOffset(b, 7));
    BodyField(data, base, b, 10, 8, b.executionRequests, BodyOffset(b, 8));
    CommitmentsLength(b.commitments);
  }

  lemma PayloadRegion(data: seq<Byte>, base: nat, b: Body) returns (ep: nat)
    requires |b.randaoEth1Graffiti| == 200 && |b.syncAggregate| == 160
    requires |data| < TWO_32 && Holds(data, base, EncodeBody(b))
    ensures base + 384 <= |data| && ep == base + U32(data, base + 380)
    ensures Holds(data, ep, EncodePayload(b.payload))
  {
    BodyFixedStarts(b);
    BodyField(data, base, b, 7, 5, EncodePayload(b.payload), BodyOffset(b, 5));
    ep := base + BodyOffset(b, 5);
  }

  lemma HeaderReads(b: SignedBlock, data: seq<Byte>)
    requires WellFormed(b) && data == Encode(b)
    ensures |data| >= 184 && U64(data, 108) == b.proposerIndex && U32(data, 180) == 84
    ensures Holds(data, 184, EncodeBody(b.body))
  {
    BlockStarts(b);
    PieceHeld(BlockPieces(b), 3, 108, LittleEndian(b.proposerIndex, 8));
    PieceHeld(BlockPieces(b), 5, 180, LittleEndian(84, 4));
    PieceHeld(BlockPieces(b), 6, 184, EncodeBody(b.body));
    LongReads(data, 108, b.proposerIndex);
    WordReads(data, 180, 84);
  }

  /** What the extraction returns, in terms of the words it reads. */
  lemma DecodeFromWords(
    data: seq<Byte>, base: nat, attStart: nat, attEnd: nat, ep: nat, txStart: nat, txEnd: nat,
    attestations: nat, commitments: nat, transactions: nat)
    requires base == 184 && |data| >= base + 396 && U32(data, 180) == 84
    requires attStart == base + U32(data, base + 208) && attEnd == base + U32(data, base + 212)
    requires ListCount(data, attStart, attEnd) == Some(attestations)
    requires U32(data, base + 392) - U32(data, base + 388) == 48 * commitments
    requires ep == base + U32(data, base + 380) && ep + 512 <= |data|
    requires txStart == ep + U32(data, ep + 504) && txEnd == ep + U32(data, ep + 508)
    requires ListCount(data, txStart, txEnd) == Some(transactions)
    ensures DecodeBeaconBlockMeta(data) ==
      Meta(Some(U64(data, 108)), Some(attestations), Some(commitments), Some(transactions), None)
  {
  }

  /** The body's three counts, read from a block's data. */
  lemma ExtractionFromBody(data: seq<Byte>, base: nat, b: Body)
    requires base == 184 && |data| < TWO_32 && Holds(data, base, EncodeBody(b)) && U32(data, 180) == 84
    requires |b.randaoEth1Graffiti| == 200 && |b.syncAggregate| == 160
    requires forall c :: c in b.commitments ==> |c| == 48
    requires |b.payload.upToTimestamp| == 436 && |b.payload.baseFeeAndBlockHash| == 64 && |b.payload.blobGas| == 16
    ensures DecodeBeaconBlockMeta(data) ==
      Meta(Some(U64(data, 108)), Some(|b.attestations|), Some(|b.commitments|), Some(|b.payload.transactions|), None)
  {
    var attStart, attEnd := AttestationRegion(data, base, b);
    CommitmentRegion(data, base, b);
    var ep := PayloadRegion(data, base, b);
    var txStart, txEnd := PayloadCount(data, ep, b.payload);
    DecodeFromWords(data, base, attStart, attEnd, ep, txStart, txEnd,
                    |b.attestations|, |b.commitments|, |b.payload.transactions|);
  }

  /** Extraction inverts the encoding: for every well-formed block the proposer and all three counts,
      including zero, come back exactly. */
  lemma ExtractionInvertsEncoding(b: SignedBlock)
    requires WellFormed(b)
    ensures DecodeBeaconBlockMeta(Encode(b)) ==
      Meta(Some(b.proposerIndex), Some(|b.body.attestations|), Some(|b.body.commitments|),
           Some(|b.body.payload.transactions|), None)
  {
    var data := Encode(b);
    HeaderReads(b, data);
    ExtractionFromBody(data, 184, b.body);
  }
}
