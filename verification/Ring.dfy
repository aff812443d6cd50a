/** The emitter: sequence numbers and the ring buffer that keeps the tail of the log for catch-up. */
module Ring {
  import opened Basics
  import opened Envelopes

  const DEFAULT_RING_BUFFER_SIZE: nat := 65536

  function Min(a: nat, b: nat): nat {
    if a < b then a else b
  }

  /** The part of the log a ring of the given capacity still holds. */
  function Tail(capacity: nat, log: seq<Envelope>): seq<Envelope> {
    log[|log| - Min(capacity, |log|)..]
  }

  /** What a replay request answers: the log from startSeq on, or None when part of it has rolled out. */
  function EventsFrom(capacity: nat, log: seq<Envelope>, startSeq: nat): Option<seq<Envelope>> {
    if log == [] then Some([])
    else if startSeq <= |log| - Min(capacity, |log|) then None
    else Some(log[Min(startSeq - 1, |log|)..])
  }

  /** A replay is granted exactly when every envelope it needs is still held, and then it is precisely those. */
  lemma ReplayIsExact(capacity: nat, log: seq<Envelope>, startSeq: nat)
    requires Numbered(log) && capacity > 0 && startSeq >= 1
    ensures var r := EventsFrom(capacity, log, startSeq);
      && (r.Some? <==> forall e :: e in log && e.seqNo >= startSeq ==> e in Tail(capacity, log))
      && (r.Some? ==>
            && |r.value| <= |Tail(capacity, log)|
            && r.value == Tail(capacity, log)[|Tail(capacity, log)| - |r.value|..]
            && (forall e :: e in r.value <==> e in log && e.seqNo >= startSeq)
            && (forall i, j :: 0 <= i < j < |r.value| ==> r.value[i].seqNo < r.value[j].seqNo))
  {
    var r := EventsFrom(capacity, log, startSeq);
    var tail := Tail(capacity, log);
    var first := |log| - |tail|;
    if r.None? {
      assert log[first - 1].seqNo == first;
      NotInTail(log, first, tail, log[first - 1]);
    } else {
      var k := |log| - |r.value|;
      assert r.value == log[k..] && r.value == tail[k - first..];
      forall e | e in log && e.seqNo >= startSeq
        ensures e in r.value && e in tail
      {
        var i :| 0 <= i < |log| && log[i] == e;
        assert r.value[i - k] == e && tail[i - first] == e;
      }
    }
  }

  lemma NotInTail(log: seq<Envelope>, first: nat, tail: seq<Envelope>, e: Envelope)
    requires Numbered(log) && first <= |log| && tail == log[first..] && e.seqNo <= first
    ensures e !in tail
  {
  }

  /** The cell `back` steps behind position idx. */
  function Behind(idx: nat, back: nat, capacity: nat): (cell: nat)
    requires idx < capacity && 1 <= back <= capacity
    ensures cell < capacity
  {
    if back <= idx then idx - back else idx + capacity - back
  }

  /** Reducing an index that overran the ring by less than one turn. */
  lemma WrapOnce(x: nat, capacity: nat)
    requires capacity > 0 && x < 2 * capacity
    ensures x % capacity == if x < capacity then x else x - capacity
  {
    if x >= capacity {
      assert x == 1 * capacity + (x - capacity);
    }
  }

  class Emitter {
    var nextSeq: nat
    var buffer: array<Envelope>
    var bufferIdx: nat
    var bufferLen: nat
    var closed: bool
    /** Every envelope ever emitted. */
    ghost var log: seq<Envelope>

    ghost predicate Valid()
      reads this, buffer
    {
      && buffer.Length > 0
      && Numbered(log)
      && nextSeq == |log| + 1
      && bufferLen == Min(buffer.Length, |log|)
      && bufferIdx < buffer.Length
      && (|log| < buffer.Length ==> bufferIdx == |log|)
      && forall k :: 1 <= k <= bufferLen ==> buffer[Behind(bufferIdx, k, buffer.Length)] == log[|log| - k]
    }

    constructor (bufferSize: int)
      ensures Valid() && fresh(buffer) && log == [] && !closed
      ensures buffer.Length == if bufferSize <= 0 then 65536 else bufferSize
    {
      var size := if bufferSize <= 0 then DEFAULT_RING_BUFFER_SIZE else bufferSize;
      buffer := new Envelope[size](_ => Envelope(0, 0, NoPayload));
      nextSeq := 1;
      bufferIdx, bufferLen := 0, 0;
      closed := false;
      log := [];
    }

    /** Numbers and records the event; the result is what is fanned out to the sinks. */
    method Emit(payload: Payload, nowNs: int) returns (sent: Option<Envelope>)
      requires Valid()
      modifies this, buffer
      ensures Valid() && buffer == old(buffer) && closed == old(closed)
      ensures sent == if closed then None else Some(Envelope(|old(log)| + 1, nowNs, payload))
      ensures log == if closed then old(log) else old(log) + [sent.value]
    {
      if closed {
        return None;
      }
      var env := Envelope(nextSeq, nowNs, payload);
      nextSeq := nextSeq + 1;
      AddToBuffer(env);
      sent := Some(env);
    }

    method AddToBuffer(env: Envelope)
      requires buffer.Length > 0 && Numbered(log) && nextSeq == |log| + 2 && env.seqNo == |log| + 1
      requires bufferLen == Min(buffer.Length, |log|) && bufferIdx < buffer.Length
      requires |log| < buffer.Length ==> bufferIdx == |log|
      requires forall k :: 1 <= k <= bufferLen ==> buffer[Behind(bufferIdx, k, buffer.Length)] == log[|log| - k]
      modifies this`bufferIdx, this`bufferLen, this`log, buffer
      ensures Valid() && log == old(log) + [env]
    {
      ghost var idx := bufferIdx;
      buffer[bufferIdx] := env;
      WrapOnce(bufferIdx + 1, buffer.Length);
      bufferIdx := (bufferIdx + 1) % buffer.Length;
      if bufferLen < buffer.Length {
        bufferLen := bufferLen + 1;
      }
      log := log + [env];
      forall k | 2 <= k <= bufferLen
        ensures buffer[Behind(bufferIdx, k, buffer.Length)] == log[|log| - k]
      {
        assert Behind(bufferIdx, k, buffer.Length) == Behind(idx, k - 1, buffer.Length) != idx;
      }
    }

    /** Walks the ring from its oldest cell and keeps what the caller has not seen. */
    method EventsFromSeq(startSeq: nat) returns (out: seq<Envelope>, ok: bool)
      requires Valid()
      ensures (if ok then Some(out) else None) == EventsFrom(buffer.Length, log, startSeq)
    {
      if bufferLen == 0 {
        return [], true;
      }
      var oldestIdx := if bufferLen == buffer.Length then bufferIdx else 0;
      ghost var first := |log| - bufferLen;
      assert buffer[oldestIdx] == log[first] by {
        assert oldestIdx == Behind(bufferIdx, bufferLen, buffer.Length);
      }
      var oldestSeq := buffer[oldestIdx].seqNo;
      if startSeq < oldestSeq {
        return [], false;
      }
      out := [];
      ghost var k := Min(startSeq - 1, |log|);
      for i := 0 to bufferLen
        invariant out == if first + i <= k then [] else log[k..first + i]
      {
        WrapOnce(oldestIdx + i, buffer.Length);
        assert (oldestIdx + i) % buffer.Length == Behind(bufferIdx, bufferLen - i, buffer.Length);
        var env := buffer[(oldestIdx + i) % buffer.Length];
        if env.seqNo >= startSeq {
          out := out + [env];
        }
      }
      assert out == log[k..];
      ok := true;
    }
  }
}
