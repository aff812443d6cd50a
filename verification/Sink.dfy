/** The ingest sink: a bounded queue in front of a connection, and the catch-up after each handshake. */
module Sink {
  import opened Basics
  import opened Envelopes
  import opened Probe
  import opened Snapshot
  import opened Resume
  import opened Network
  import Ring

  class SinkIngest {
    const network: WrappedNetwork
    var sendCh: seq<Envelope>
    /** What has been written to the current connection, while there is one. */
    var conn: Option<seq<Envelope>>
    var closed: bool

    constructor (network: WrappedNetwork)
      ensures this.network == network && sendCh == [] && conn == None && !closed
    {
      this.network := network;
      sendCh, conn, closed := [], None, false;
    }

    /** Takes the envelope unless the sink is closed or the queue full. */
    method Write(env: Envelope) returns (ok: bool)
      modifies this`sendCh
      ensures ok <==> !closed && |old(sendCh)| < 1024
      ensures sendCh == if ok then old(sendCh) + [env] else old(sendCh)
    {
      if closed || |sendCh| >= SINK_LIMITS.queue {
        return false;
      }
      sendCh := sendCh + [env];
      ok := true;
    }

    /** Writes the envelopes until the connection fails, which it does after `room` of them. */
    method WriteAll(envs: seq<Envelope>, room: nat) returns (ok: bool)
      requires conn.Some?
      modifies this`conn
      ensures conn == Some(old(conn.value) + if |envs| <= room then envs else envs[..room])
      ensures ok <==> |envs| <= room
    {
      ghost var before := conn.value;
      for i := 0 to |envs|
        invariant conn.Some? && conn.value == before + envs[..i] && i <= room
      {
        if i == room {
          return false;
        }
        conn := Some(conn.value + [envs[i]]);
      }
      assert envs[..|envs|] == envs;
      ok := true;
    }

    /** After the handshake: the ring's tail when the server has a cursor and the ring covers it, else a snapshot. */
    method SendCatchup(lastAcked: nat, room: nat, ghost snap: Snap) returns (ok: bool)
      requires network.Ready() && Valid(network.Value()) && SnapshotOf(network.Value(), snap)
      modifies this`conn
      ensures old(conn).None? ==> !ok && conn == None
      ensures old(conn).Some? ==>
        var ring, log := network.emitter.buffer.Length, network.emitter.log;
        var sent := if Replays(ring, log, lastAcked) then Ring.EventsFrom(ring, log, lastAcked + 1).value
          else EnvelopesOf(snap);
        && conn == Some(old(conn.value) + if |sent| <= room then sent else sent[..room])
        && (ok <==> |sent| <= room)
    {
      if conn.None? {
        return false;
      }
      if lastAcked > 0 {
        var replay, covered := network.emitter.EventsFromSeq(lastAcked + 1);
        if covered {
          ok := WriteAll(replay, room);
          return;
        }
      }
      var current := network.Snapshot();
      SnapshotIsUnique(network.Value(), current, snap);
      var envs := SnapshotEnvelopes(current);
      ok := WriteAll(envs, room);
    }

    /** One turn of the write pump: the head of the queue is written, or lost when there is no working connection. */
    method Pump(works: bool) returns (goesOn: bool)
      requires sendCh != []
      modifies this`sendCh, this`conn
      ensures sendCh == old(sendCh)[1..]
      ensures goesOn <==> old(conn).Some? && works
      ensures conn == if goesOn then Some(old(conn.value) + [old(sendCh)[0]]) else old(conn)
    {
      var env := sendCh[0];
      sendCh := sendCh[1..];
      if conn.None? || !works {
        return false;
      }
      conn := Some(conn.value + [env]);
      goesOn := true;
    }
  }
}
