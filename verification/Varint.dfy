/** Base 128 varints as defined by the Protocol Buffers encoding: the standard reader and writer. */
module Varint {
  import opened Basics

  /** A 64-bit varint has at most ten bytes. */
  const MAX_VARINT_LEN: nat := 10

  const TWO_64: nat := 0x1_0000_0000_0000_0000

  /** Outcome of reading a varint from the front of a buffer. */
  datatype Read = NeedMore | Overflow | Value(v: nat, len: nat)

  /** 128 to the power n: the weight of the n-th varint byte. */
  function Pow128(n: nat): (p: nat)
    ensures p >= 1
  {
    if n == 0 then 1 else 128 * Pow128(n - 1)
  }

  /** The value read after one more (continuation) byte b has been put in front. */
  function Prepend(b: Byte, r: Read): Read
    requires b >= 128
  {
    match r
    case Value(v, len) => Value(b - 128 + 128 * v, len + 1)
    case _ => r
  }

  /** The standard library's Uvarint, entered after `depth` continuation bytes. */
  function UvarintFrom(buf: seq<Byte>, depth: nat): Read {
    if buf == [] then NeedMore
    else if depth >= MAX_VARINT_LEN then Overflow
    else if buf[0] < 128 then
      if depth == MAX_VARINT_LEN - 1 && buf[0] > 1 then Overflow else Value(buf[0], 1)
    else Prepend(buf[0], UvarintFrom(buf[1..], depth + 1))
  }

  function Uvarint(buf: seq<Byte>): Read {
    UvarintFrom(buf, 0)
  }

  /** The standard library's PutUvarint. */
  function PutUvarint(x: nat): (bytes: seq<Byte>)
    ensures |bytes| >= 1
  {
    if x < 128 then [x] else [x % 128 + 128] + PutUvarint(x / 128)
  }

  /** How large a value still fits after `depth` bytes: 2^64 / 128^depth. */
  function Room(depth: nat): nat
    requires depth < MAX_VARINT_LEN
    decreases MAX_VARINT_LEN - depth
  {
    if depth == MAX_VARINT_LEN - 1 then 2 else 128 * Room(depth + 1)
  }

  lemma RoomIs64Bits()
    ensures Room(0) == TWO_64
  {
    assert Room(8) == 256 && Room(7) == 0x8000 && Room(6) == 0x40_0000;
    assert Room(5) == 0x2000_0000 && Room(4) == 0x10_0000_0000 && Room(3) == 0x800_0000_0000;
    assert Room(2) == 0x4_0000_0000_0000 && Room(1) == 0x200_0000_0000_0000;
  }

  lemma {:induction false} PutThenReadFrom(x: nat, rest: seq<Byte>, depth: nat)
    requires depth < MAX_VARINT_LEN && x < Room(depth)
    ensures UvarintFrom(PutUvarint(x) + rest, depth) == Value(x, |PutUvarint(x)|)
    ensures |PutUvarint(x)| <= MAX_VARINT_LEN - depth
    decreases x
  {
    var bytes := PutUvarint(x);
    if x >= 128 {
      assert (bytes + rest)[1..] == PutUvarint(x / 128) + rest;
      PutThenReadFrom(x / 128, rest, depth + 1);
    }
  }

  /** Every 64-bit value survives PutUvarint and Uvarint, whatever bytes follow. */
  lemma PutThenRead(x: nat, rest: seq<Byte>)
    requires x < TWO_64
    ensures Uvarint(PutUvarint(x) + rest) == Value(x, |PutUvarint(x)|)
    ensures |PutUvarint(x)| <= MAX_VARINT_LEN
  {
    RoomIs64Bits();
    PutThenReadFrom(x, rest, 0);
  }

  /** A decision is never revised by bytes that arrive later, and it only looked at bytes it has. */
  lemma {:induction false} UvarintStable(buf: seq<Byte>, more: seq<Byte>, depth: nat)
    ensures var r := UvarintFrom(buf, depth);
      && (!r.NeedMore? ==> UvarintFrom(buf + more, depth) == r)
      && (r.Value? ==> 1 <= r.len <= |buf| && depth + r.len <= MAX_VARINT_LEN)
      && (r.NeedMore? && depth <= MAX_VARINT_LEN ==> depth + |buf| <= MAX_VARINT_LEN)
    decreases |buf|
  {
    if buf != [] {
      assert (buf + more)[0] == buf[0];
      if depth < MAX_VARINT_LEN && buf[0] >= 128 {
        assert (buf + more)[1..] == buf[1..] + more;
        UvarintStable(buf[1..], more, depth + 1);
      }
    }
  }
}
