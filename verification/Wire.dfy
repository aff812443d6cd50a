/** The typed, length-delimited framing that probe and collector speak. */
module Wire {
  import opened Basics
  import opened Varint

  const MAX_MESSAGE_SIZE: nat := 0x40_0000

  /** The message library, seen from outside: Marshal may fail, Unmarshal undoes it. */
  datatype Codec<!M> = Codec(marshal: M -> Option<seq<Byte>>, unmarshal: seq<Byte> -> Option<M>)

  ghost predicate Faithful<M(!new)>(c: Codec<M>) {
    forall m: M :: c.marshal(m).Some? ==> c.unmarshal(c.marshal(m).value) == Some(m)
  }

  datatype Error = ShortRead | WrongType | VarintOverflow | TooLarge | BadMessage

  datatype Result<+T> = Ok(value: T) | Err(error: Error)

  /** What a read returned and the bytes it left unread. */
  datatype Parsed<+T> = Parsed(result: Result<T>, rest: seq<Byte>)

  /** The bytes WriteTyped puts on the wire; None when the message cannot be marshalled. */
  function WriteTyped<M>(c: Codec<M>, typ: Byte, m: M): (out: Option<seq<Byte>>)
    ensures out.Some? <==> c.marshal(m).Some?
  {
    match c.marshal(m)
    case None => None
    case Some(data) => Some([typ] + PutUvarint(|data|) + data)
  }

  /** The hand-written varint loop after `depth` continuation bytes. Its tenth byte is shifted by 63, so
      only its lowest bit survives in 64 bits, and a continuation bit there is an overflow at once. */
  function LoopVarint(buf: seq<Byte>, depth: nat): Read {
    if buf == [] then NeedMore
    else if buf[0] < 128 then Value(if depth == MAX_VARINT_LEN - 1 then buf[0] % 2 else buf[0], 1)
    else if depth >= MAX_VARINT_LEN - 1 then Overflow
    else Prepend(buf[0], LoopVarint(buf[1..], depth + 1))
  }

  /** Wherever the standard reader accepts, the loop returns the same value and length. The loop accepts
      more in exactly one case: a ten-byte varint whose last byte exceeds 1. */
  lemma {:induction false} LoopAgreesFrom(buf: seq<Byte>, depth: nat)
    requires depth < MAX_VARINT_LEN
    ensures UvarintFrom(buf, depth).Value? ==> LoopVarint(buf, depth) == UvarintFrom(buf, depth)
    ensures var l := LoopVarint(buf, depth);
      l.Value? ==>
        && 1 <= l.len <= |buf|
        && (UvarintFrom(buf, depth) == l <==> !(depth + l.len == MAX_VARINT_LEN && buf[l.len - 1] > 1))
        && (depth + l.len == MAX_VARINT_LEN && buf[l.len - 1] > 1 ==> UvarintFrom(buf, depth) == Overflow)
    decreases |buf|
  {
    if buf != [] && buf[0] >= 128 && depth + 1 < MAX_VARINT_LEN {
      LoopAgreesFrom(buf[1..], depth + 1);
    }
  }

  /** The loop agrees with the standard Uvarint unless the tenth byte carries more than the top bit. */
  lemma LoopAgreesWithUvarint(buf: seq<Byte>)
    ensures Uvarint(buf).Value? ==> LoopVarint(buf, 0) == Uvarint(buf)
    ensures LoopVarint(buf, 0).Value? ==>
      1 <= LoopVarint(buf, 0).len <= |buf| &&
      (LoopVarint(buf, 0) == Uvarint(buf) <==>
       !(LoopVarint(buf, 0).len == MAX_VARINT_LEN && buf[MAX_VARINT_LEN - 1] > 1))
  {
    LoopAgreesFrom(buf, 0);
  }

  /** Continuation bytes that carry nothing, up to the tenth byte. */
  function Padded(depth: nat, last: Byte): seq<Byte>
    requires depth < MAX_VARINT_LEN
    decreases MAX_VARINT_LEN - depth
  {
    if depth == MAX_VARINT_LEN - 1 then [last] else [128] + Padded(depth + 1, last)
  }

  lemma {:induction false} PaddedReads(depth: nat, last: Byte)
    requires depth < MAX_VARINT_LEN && last < 128
    ensures var buf := Padded(depth, last);
      && |buf| == MAX_VARINT_LEN - depth && buf[|buf| - 1] == last
      && LoopVarint(buf, depth).Value? && LoopVarint(buf, depth).len == |buf|
    decreases MAX_VARINT_LEN - depth
  {
    if depth < MAX_VARINT_LEN - 1 {
      PaddedReads(depth + 1, last);
      assert Padded(depth, last)[1..] == Padded(depth + 1, last);
    }
  }

  /** Ten bytes of which the last is 2: the loop returns a length, the standard reader an overflow. */
  lemma LoopAcceptsMore()
    ensures var buf := Padded(0, 2); |buf| == 10 && LoopVarint(buf, 0).Value? && Uvarint(buf) == Overflow
  {
    PaddedReads(0, 2);
    LoopAgreesFrom(Padded(0, 2), 0);
  }

  /** How many bytes the loop takes off the reader when it does not return a value. */
  function LoopConsumed(buf: seq<Byte>, depth: nat): (n: nat)
    ensures n <= |buf|
  {
    if buf == [] then 0
    else if buf[0] < 128 || depth >= MAX_VARINT_LEN - 1 then 1
    else 1 + LoopConsumed(buf[1..], depth + 1)
  }

  lemma {:induction false} LoopConsumedIsLength(buf: seq<Byte>, depth: nat)
    ensures LoopVarint(buf, depth).Value? ==> LoopConsumed(buf, depth) == LoopVarint(buf, depth).len
    ensures LoopVarint(buf, depth).NeedMore? ==> LoopConsumed(buf, depth) == |buf|
    decreases |buf|
  {
    if buf != [] && buf[0] >= 128 && depth < MAX_VARINT_LEN - 1 {
      LoopConsumedIsLength(buf[1..], depth + 1);
    }
  }

  /** Reading one length-delimited message from the front of a byte stream. */
  function ReadDelimited<M>(c: Codec<M>, buf: seq<Byte>): Parsed<M> {
    var rest := buf[LoopConsumed(buf, 0)..];
    match LoopVarint(buf, 0)
    case NeedMore => Parsed(Err(ShortRead), rest)
    case Overflow => Parsed(Err(VarintOverflow), rest)
    case Value(length, _) =>
      if length > MAX_MESSAGE_SIZE then Parsed(Err(TooLarge), rest)
      else if |rest| < length then Parsed(Err(ShortRead), [])
      else match c.unmarshal(rest[..length])
        case None => Parsed(Err(BadMessage), rest[length..])
        case Some(m) => Parsed(Ok(m), rest[length..])
  }

  function ReadTyped<M>(c: Codec<M>, expected: Byte, buf: seq<Byte>): Parsed<M> {
    if buf == [] then Parsed(Err(ShortRead), [])
    else if buf[0] != expected then Parsed(Err(WrongType), buf[1..])
    else ReadDelimited(c, buf[1..])
  }

  /** One message survives the wire exactly when it is at most 4 MiB; the bytes behind it are untouched. */
  lemma RoundTrip<M(!new)>(c: Codec<M>, typ: Byte, m: M, more: seq<Byte>)
    requires Faithful(c) && c.marshal(m).Some? && |c.marshal(m).value| < TWO_64
    ensures var sent := WriteTyped(c, typ, m).value + more;
      if |c.marshal(m).value| <= 4 * 1024 * 1024
      then ReadTyped(c, typ, sent) == Parsed(Ok(m), more)
      else ReadTyped(c, typ, sent).result == Err(TooLarge)
  {
    var data := c.marshal(m).value;
    var sent := WriteTyped(c, typ, m).value + more;
    assert sent[1..] == PutUvarint(|data|) + (data + more);
    DelimitedRoundTrip(c, m, data, more, sent[1..]);
  }

  lemma DelimitedRoundTrip<M(!new)>(c: Codec<M>, m: M, data: seq<Byte>, more: seq<Byte>, body: seq<Byte>)
    requires Faithful(c) && c.marshal(m) == Some(data) && |data| < TWO_64
    requires body == PutUvarint(|data|) + (data + more)
    ensures if |data| <= MAX_MESSAGE_SIZE
      then ReadDelimited(c, body) == Parsed(Ok(m), more)
      else ReadDelimited(c, body).result == Err(TooLarge)
  {
    var header := PutUvarint(|data|);
    PutThenRead(|data|, data + more);
    LoopAgreesWithUvarint(body);
    LoopConsumedIsLength(body, 0);
    assert body[|header|..] == data + more;
    assert (data + more)[..|data|] == data && (data + more)[|data|..] == more;
  }

  /** A message of another type is refused, and only its type byte is consumed. */
  lemma OtherTypeRefused<M(!new)>(c: Codec<M>, expected: Byte, typ: Byte, m: M, more: seq<Byte>)
    requires c.marshal(m).Some? && expected != typ
    ensures var sent := WriteTyped(c, typ, m).value + more;
      ReadTyped(c, expected, sent) == Parsed(Err(WrongType), sent[1..])
  {
  }

  lemma {:induction false} CutLength(x: nat, depth: nat, n: nat)
    requires n < |PutUvarint(x)| && depth + |PutUvarint(x)| <= MAX_VARINT_LEN
    ensures LoopVarint(PutUvarint(x)[..n], depth) == NeedMore
    decreases x
  {
    if n > 0 {
      assert PutUvarint(x)[..n][1..] == PutUvarint(x / 128)[..n - 1];
      CutLength(x / 128, depth + 1, n - 1);
    }
  }

  lemma CutBody<M(!new)>(c: Codec<M>, data: seq<Byte>, n: nat)
    requires |data| <= MAX_MESSAGE_SIZE && n < |PutUvarint(|data|) + data|
    ensures ReadDelimited(c, (PutUvarint(|data|) + data)[..n]) == Parsed(Err(ShortRead), [])
  {
    var header := PutUvarint(|data|);
    var part := (header + data)[..n];
    PutThenRead(|data|, []);
    if n < |header| {
      assert part == header[..n];
      CutLength(|data|, 0, n);
    } else {
      assert part == header + data[..n - |header|];
      PutThenRead(|data|, data[..n - |header|]);
      LoopAgreesWithUvarint(part);
    }
    LoopConsumedIsLength(part, 0);
  }

  /** Of a message that is cut off anywhere, nothing is returned: the read runs short and drains the stream. */
  lemma CutMessageIsShort<M(!new)>(c: Codec<M>, typ: Byte, m: M, n: nat)
    requires c.marshal(m).Some? && |c.marshal(m).value| <= MAX_MESSAGE_SIZE && n < |WriteTyped(c, typ, m).value|
    ensures ReadTyped(c, typ, WriteTyped(c, typ, m).value[..n]) == Parsed(Err(ShortRead), [])
  {
    var data := c.marshal(m).value;
    var sent, body := WriteTyped(c, typ, m).value, PutUvarint(|data|) + data;
    assert sent == [typ] + body;
    if n == 0 {
      assert sent[..n] == [];
    } else {
      assert sent[..n][0] == typ && sent[..n][1..] == body[..n - 1];
      CutBody(c, data, n - 1);
    }
  }

  /** A typed message of the stream. */
  datatype Message<M> = Message(typ: Byte, body: M)

  /** The writer accepts the message; the reader also asks that it be at most 4 MiB. */
  ghost predicate Writable<M>(c: Codec<M>, m: Message<M>) {
    c.marshal(m.body).Some? && |c.marshal(m.body).value| < TWO_64
  }

  ghost predicate Sendable<M>(c: Codec<M>, m: Message<M>) {
    Writable(c, m) && |c.marshal(m.body).value| <= 4 * 1024 * 1024
  }

  /** Everything a writer puts on the wire for a list of messages. */
  ghost function WriteAll<M(!new)>(c: Codec<M>, ms: seq<Message<M>>): seq<Byte>
    requires forall m :: m in ms ==> Writable(c, m)
  {
    if ms == [] then [] else
      assert Writable(c, ms[0]);
      WriteTyped(c, ms[0].typ, ms[0].body).value + WriteAll(c, ms[1..])
  }

  /** Reads one message per expected type, stopping at the first failure. */
  function ReadAll<M>(c: Codec<M>, types: seq<Byte>, buf: seq<Byte>): Parsed<seq<M>> {
    if types == [] then Parsed(Ok([]), buf) else
      var first := ReadTyped(c, types[0], buf);
      if first.result.Err? then Parsed(Err(first.result.error), first.rest) else
        var later := ReadAll(c, types[1..], first.rest);
        if later.result.Err? then later
        else Parsed(Ok([first.result.value] + later.result.value), later.rest)
  }

  /** A list of messages is read back as it was, all its bytes consumed, if and only if each is at most 4 MiB; the
      writer does not mind a longer one, but reading fails at it. */
  lemma {:induction false} StreamRoundTrip<M(!new)>(c: Codec<M>, ms: seq<Message<M>>)
    requires Faithful(c)
    requires forall m :: m in ms ==> Writable(c, m)
    ensures if forall m :: m in ms ==> Sendable(c, m)
      then ReadAll(c, Types(ms), WriteAll(c, ms)) == Parsed(Ok(Bodies(ms)), [])
      else ReadAll(c, Types(ms), WriteAll(c, ms)).result == Err(TooLarge)
    decreases |ms|
  {
    if ms != [] {
      var tail := ms[1..];
      assert ms[0] in ms && Writable(c, ms[0]);
      RoundTrip(c, ms[0].typ, ms[0].body, WriteAll(c, tail));
      StreamRoundTrip(c, tail);
      FirstAndRest(ms);
      if Sendable(c, ms[0]) {
        ReadFirst(c, Types(ms), WriteAll(c, ms), ms[0].body, WriteAll(c, tail));
        assert forall m :: m in ms <==> m == ms[0] || m in tail;
      }
    } else {
      assert Types(ms) == [] && Bodies(ms) == [];
    }
  }

  function Types<M>(ms: seq<Message<M>>): seq<Byte> {
    seq(|ms|, i requires 0 <= i < |ms| => ms[i].typ)
  }

  function Bodies<M>(ms: seq<Message<M>>): seq<M> {
    seq(|ms|, i requires 0 <= i < |ms| => ms[i].body)
  }

  lemma FirstAndRest<M>(ms: seq<Message<M>>)
    requires ms != []
    ensures Types(ms)[0] == ms[0].typ && Types(ms)[1..] == Types(ms[1..])
    ensures Bodies(ms) == [ms[0].body] + Bodies(ms[1..])
  {
  }

  lemma ReadFirst<M>(c: Codec<M>, types: seq<Byte>, buf: seq<Byte>, m: M, rest: seq<Byte>)
    requires types != [] && ReadTyped(c, types[0], buf) == Parsed(Ok(m), rest)
    ensures var later := ReadAll(c, types[1..], rest);
      ReadAll(c, types, buf) ==
      if later.result.Err? then later else Parsed(Ok([m] + later.result.value), later.rest)
  {
  }

  /** An io.Reader over a byte stream: ReadFull either returns n bytes or fails having drained the stream. */
  class Reader {
    var rest: seq<Byte>

    constructor (data: seq<Byte>)
      ensures rest == data
    {
      rest := data;
    }

    method ReadFull(n: nat) returns (r: Result<seq<Byte>>)
      modifies this
      ensures r == if |old(rest)| < n then Err(ShortRead) else Ok(old(rest)[..n])
      ensures rest == if |old(rest)| < n then [] else old(rest)[n..]
    {
      if |rest| < n {
        rest := [];
        return Err(ShortRead);
      }
      r := Ok(rest[..n]);
      rest := rest[n..];
    }

    /** The length loop, with its 64-bit accumulator and shift count. */
    method ReadLength() returns (r: Result<nat>)
      modifies this
      ensures r == match LoopVarint(old(rest), 0)
                   case NeedMore => Err(ShortRead)
                   case Overflow => Err(VarintOverflow)
                   case Value(v, _) => Ok(v)
      ensures rest == old(rest)[LoopConsumed(old(rest), 0)..]
    {
      var length, shift := 0, 0;
      ghost var k: nat := 0;
      ghost var buf := rest;
      while true
        invariant k < MAX_VARINT_LEN && shift == 7 * k && 0 <= length < Pow128(k)
        invariant k <= |buf| && rest == buf[k..]
        invariant LoopVarint(buf, 0) == Continue(length, k, LoopVarint(rest, k))
        invariant LoopConsumed(buf, 0) == k + LoopConsumed(rest, k)
        decreases |rest|
      {
        ghost var before, low := rest, length;
        var one := ReadFull(1);
        if one.Err? {
          return Err(one.error);
        }
        var b := one.value[0];
        assert rest == buf[k + 1..];
        length := (length + ShiftLeft(b % 128, shift)) % TWO_64;
        LoopStep(before, k, low, length);
        if b < 128 {
          return Ok(length);
        }
        shift := shift + 7;
        if shift >= 64 {
          return Err(VarintOverflow);
        }
        k := k + 1;
      }
    }

    method ReadDelimitedInto<M>(c: Codec<M>) returns (r: Result<M>)
      modifies this
      ensures Parsed(r, rest) == ReadDelimited(c, old(rest))
    {
      var length := ReadLength();
      if length.Err? {
        return Err(length.error);
      }
      if length.value > MAX_MESSAGE_SIZE {
        return Err(TooLarge);
      }
      var data := ReadFull(length.value);
      if data.Err? {
        return Err(data.error);
      }
      match c.unmarshal(data.value)
      case None => return Err(BadMessage);
      case Some(m) => return Ok(m);
    }

    method ReadTypedMessage<M>(c: Codec<M>, expected: Byte) returns (r: Result<M>)
      modifies this
      ensures Parsed(r, rest) == ReadTyped(c, expected, old(rest))
    {
      var typ := ReadFull(1);
      if typ.Err? {
        return Err(typ.error);
      }
      if typ.value[0] != expected {
        return Err(WrongType);
      }
      r := ReadDelimitedInto(c);
    }
  }

  /** x shifted left by a multiple of seven bits. */
  function ShiftLeft(x: nat, shift: nat): nat
    requires shift % 7 == 0
  {
    x * Pow128(shift / 7)
  }

  /** Accumulated low part plus what the remaining bytes contribute, k bytes further up. */
  ghost function Continue(low: nat, k: nat, r: Read): Read {
    match r
    case Value(v, len) => Value(low + Pow128(k) * v, len + k)
    case _ => r
  }

  /** One iteration: the accumulator takes in the byte at the front, and what is left to read moves on. */
  lemma LoopStep(buf: seq<Byte>, k: nat, low: nat, next: nat)
    requires buf != [] && k < MAX_VARINT_LEN && low < Pow128(k)
    requires next == (low + ShiftLeft(buf[0] % 128, 7 * k)) % TWO_64
    ensures buf[0] < 128 ==> Continue(low, k, LoopVarint(buf, k)) == Value(next, k + 1)
    ensures buf[0] >= 128 && k < MAX_VARINT_LEN - 1 ==>
      && next < Pow128(k + 1)
      && Continue(low, k, LoopVarint(buf, k)) == Continue(next, k + 1, LoopVarint(buf[1..], k + 1))
    ensures buf[0] >= 128 && k == MAX_VARINT_LEN - 1 ==> LoopVarint(buf, k) == Overflow
  {
    NextLow(buf[0] % 128, k, low, next);
    if buf[0] < 128 {
      LastByte(buf, k, low, Pow128(k));
    } else if k < MAX_VARINT_LEN - 1 {
      NextByte(buf, k, low, next);
    }
  }

  /** What the accumulator holds after one more byte. */
  lemma NextLow(payload: nat, k: nat, low: nat, next: nat)
    requires payload < 128 && k < MAX_VARINT_LEN && low < Pow128(k)
    requires next == (low + ShiftLeft(payload, 7 * k)) % TWO_64
    ensures next == low + (if k == MAX_VARINT_LEN - 1 then payload % 2 else payload) * Pow128(k)
    ensures k < MAX_VARINT_LEN - 1 ==> next < Pow128(k + 1)
  {
    assert ShiftLeft(payload, 7 * k) == payload * Pow128(k);
    ShiftedByte(payload, k, low);
  }

  lemma NextByte(buf: seq<Byte>, k: nat, low: nat, next: nat)
    requires buf != [] && buf[0] >= 128 && k < MAX_VARINT_LEN - 1 && next == low + (buf[0] - 128) * Pow128(k)
    ensures Continue(low, k, LoopVarint(buf, k)) == Continue(next, k + 1, LoopVarint(buf[1..], k + 1))
  {
    ContinueStep(low, k, buf[0], LoopVarint(buf[1..], k + 1));
  }

  lemma LastByte(buf: seq<Byte>, k: nat, low: nat, weight: nat)
    requires buf != [] && buf[0] < 128 && weight == Pow128(k)
    ensures Continue(low, k, LoopVarint(buf, k)) ==
      Value(low + (if k == MAX_VARINT_LEN - 1 then buf[0] % 2 else buf[0]) * weight, k + 1)
  {
    var v := if k == MAX_VARINT_LEN - 1 then buf[0] % 2 else buf[0];
    assert v * weight == weight * v;
  }

  /** Shifting seven payload bits into place never disturbs the lower ones, and wraps only at the tenth byte. */
  lemma ShiftedByte(payload: nat, k: nat, low: nat)
    requires payload < 128 && k < MAX_VARINT_LEN && low < Pow128(k)
    ensures k < MAX_VARINT_LEN - 1 ==>
      (low + payload * Pow128(k)) % TWO_64 == low + payload * Pow128(k) < Pow128(k + 1)
    ensures k == MAX_VARINT_LEN - 1 ==>
      (low + payload * Pow128(k)) % TWO_64 == low + payload % 2 * Pow128(k)
  {
    assert Pow128(1) == 0x80 && Pow128(2) == 0x4000 && Pow128(3) == 0x20_0000 && Pow128(4) == 0x1000_0000;
    assert Pow128(5) == 0x8_0000_0000 && Pow128(6) == 0x400_0000_0000 && Pow128(7) == 0x2_0000_0000_0000;
    assert Pow128(8) == 0x100_0000_0000_0000 && Pow128(9) == 0x8000_0000_0000_0000;
  }

  lemma ContinueStep(low: nat, k: nat, b: Byte, r: Read)
    requires b >= 128
    ensures Continue(low, k, Prepend(b, r)) == Continue(low + (b - 128) * Pow128(k), k + 1, r)
  {
    if r.Value? {
      Distribute(Pow128(k), b - 128, r.v, Pow128(k + 1));
    }
  }

  lemma Distribute(w: nat, x: nat, v: nat, next: nat)
    requires next == 128 * w
    ensures w * (x + 128 * v) == x * w + next * v
  {
    assert w * (x + 128 * v) == w * x + w * (128 * v);
    assert w * (128 * v) == (w * 128) * v;
  }
}
