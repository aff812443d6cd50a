/** The events a probe emits and a collector applies. */
module Envelopes {
  import opened Basics

  /** libp2p peer identity: opaque bytes. */
  type PeerId = seq<Byte>

  datatype ConnectionInfo = ConnectionInfo(
    connAlias: nat,
    peerAlias: nat,
    remoteAddr: string,
    localAddr: string,
    direction: Direction,
    transportId: nat,
    securityId: nat,
    muxerId: nat,
    openedAtNs: int)

  datatype StreamInfo = StreamInfo(
    streamAlias: nat,
    connAlias: nat,
    direction: Direction,
    protocolId: nat,
    openedAtNs: int)

  datatype CloseReason = Closed | Reset | ConnClosed

  datatype Payload =
    | NoPayload
    | SnapshotStart
    | SnapshotEnd
    | StringDef(id: nat, value: string)
    | PeerUpsert(peerAlias: nat, peerId: PeerId)
    | ConnectionUpsert(conn: ConnectionInfo)
    | ConnectionClosed(connAlias: nat)
    | StreamUpsert(stream: StreamInfo)
    | StreamClosed(streamAlias: nat, reason: CloseReason)
    | StreamChunk(chunkAlias: nat, direction: Direction, data: seq<Byte>)

  /** seqNo 0 is reserved for the synthesized envelopes of a snapshot. */
  datatype Envelope = Envelope(seqNo: nat, observedAtNs: int, payload: Payload)

  /** The log of one boot: live envelopes numbered densely from 1. */
  ghost predicate Numbered(log: seq<Envelope>) {
    forall i :: 0 <= i < |log| ==> log[i].seqNo == i + 1
  }
}
