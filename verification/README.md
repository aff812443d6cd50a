# xray, modelled in Dafny

xray is a probe and a collector. The probe wraps a libp2p host, turns its activity into a numbered log of envelopes
and streams them to the collector. The collector rebuilds the probe's strings, peers, connections and streams from
that log, decodes gossipsub traffic and adds it up per Ethereum slot. This project models both ends and the protocol
between them, and proves what they guarantee over whole runs.

`dafny verify dfyconfig.toml` checks everything.

## How it is organised

- **Probe.** `Probe` gives the tracked state and its operations as functions; `Network` holds the objects
  (`StringInterner`, `WrappedNetwork`) that update maps in place and are proved against those functions; `Interner`
  is the double-checked locking of the interner under arbitrary interleavings; `Ring` is the emitter and its ring.
- **Snapshot and log.** `Mirror` says when a collector's alias state mirrors a probe and that every operation carries
  a mirror along. `Snapshot` shows that a snapshot rebuilds the same mirror, and `Overlap` that log entries replayed
  over a snapshot which already contains them are absorbed, even if its strings were read earlier than its maps.
  `Sections` takes the operations apart into the locked sections between which a snapshot can be taken. `Chronicle`
  tells what is tracked, logged and shown from nothing but the list of operations.
- **Resume protocol.** `Resume` is the step system: locked sections of the host, emission into ring and queue, the
  write pump, delivery, broken connections, handshakes, replays, snapshots read in two instants, restarts of either
  side. `Delivery`, `Convergence`, `Remembered` and `Once` prove order, state and uniqueness over all its runs,
  `Progress` that a collector can always catch up and recover; `Refusal` shows what a full queue and what a snapshot
  break, `Late` and `Preempted` what an envelope of a preempted handler breaks. `Sink` is the sink object, `Sessions`
  the listener's session table.
- **Collector.** `Processor` is the effect of one envelope on a source as a function, `Collector` the objects proved
  against it, `Peers` the peer index. `Gossip` is the incremental frame decoder, `Frames` shows that it inverts
  framing, `Attribution` what each chunk is attributed to, `Conservation` the byte balance.
  `SlotTables` recomputes all redundant tables from history, `Slots` and `Finalization` treat slot boundaries,
  eviction and persistence over runs, `SlotClock` the slot arithmetic, `SlotMerge` the list the server returns.
- **Codecs.** `Varint`, `Wire`, `Ssz`, `PayloadCache`, `Topics` for the payloads of each topic, and `BlockPath`
  for the whole path of a block from a gossip stream to its slot. `Sorting`, `Basics` and `Envelopes` are shared.

## What turned out not to hold

- The sink's comment (`probe/sink_ingest.go:77-80`) says that an envelope refused by a full queue is delivered on
  reconnect. The collector's cursor is a maximum, so an envelope it has passed is never replayed:
  `Refusal.RefusedCanBeLost` builds such a run for every queue size. `Refusal.RedeliveredExactly` says exactly which
  envelopes a catch-up applies, and `Refusal.PassedIsPassed` that the others stay unapplied until a reset. A snapshot
  makes up for them (`Convergence.SnapshotMakesUp`).
- The comments at `internal/processor/processor.go:95-98` and 234-237 promise no double application. A snapshot resets
  the cursor while slot tables and the send queue live on: `Refusal.CanRepeat` builds, for every size of queue and
  ring, a run in which a chunk is counted twice. `Once.RepeatsExactly` says exactly when a snapshot leads to a
  repetition, and `Refusal.NeverRepeatsExactly` that runs without refusals are free of it if and only if the queue has
  at most one place more than the ring. The queue has 1024; the ring is configurable (`probe/options.go:18-24`).
- The connected flag of a source can disagree with its session in both directions. A live session can be shown as
  disconnected (`Sessions.LiveShownDisconnected`, exactly when: `Sessions.ShownExactly`), and a source nobody serves as
  connected (`Sessions.NobodyShownConnected`, exactly when: `Sessions.OrphanedExactly`).
- An envelope that a preempted handler applies late can make the collector skip others for good. If it comes between
  the reset and the reading of the cursor, the comment at `internal/ingest/ingest.go:139-141` (a new boot is told 0 and
  sends a snapshot) fails; exactly when is `Preempted.LateBeforeCursorExactly`. If it comes later, exactly when others
  are lost is `Late.LateHarmsExactly`. `Preempted.LateLosesEnvelope` builds a run for each of the two cases.
- The sink writes envelopes of any size, and the reader rejects those over 4 MiB (`Wire.StreamRoundTrip`).
- A thread can use an interned id before its definition is in the log (`Interner.IdBeforeDefinition`); exactly when is
  `Interner.DefinedUnlessPending`.
- The hand-written varint reader accepts one family of inputs the standard one rejects (`Wire.LoopAgreesWithUvarint`,
  with one of them in `Wire.LoopAcceptsMore`).
- The payload cache ignores the topic (`PayloadCache.KeyIgnoresTopic`); two topics can share it exactly when they have
  the same slot offset (`PayloadCache.TopicsShareExactly`).
- The store keeps the first version of a slot, which a chunk from the past makes stale (`Slots.StoredCanBeStale`);
  exactly when it is the final one is `Slots.StoredIsFinalExactly`. The callback skips slot 0 and can fire twice for a
  slot (`Slots.WithoutForwardTimes`); exactly when it fires is `Slots.FinalizesAtAscents`.

## Model

| member | source | states |
|---|---|---|
| Snapshot.SnapshotEqualsLog | probe/sink_file.go:138-169 | After every run of connect, wrap, chunk, close and disconnect operations, a collector in any state that applies the current snapshot shows the same strings, stream protocols, connections and listed peers as one that applied the whole emitted log. |
| Snapshot.LogMirrorsProbe | internal/processor/processor.go:108-153 | After every run, replaying the log yields exactly the probe's strings, open streams with their protocols, and tracked connections filed under the right peer with the right description. |
| Mirror.OperationCarries | probe/stream.go:128-313 | Every probe operation: whoever mirrors the probe before and applies what the operation emitted mirrors it afterwards. |
| Mirror.MirrorsLookAlike | internal/processor/peers.go:87-104 | Any two mirrors of one probe show a user the same view. |
| Chronicle.StreamsAreTold | probe/stream.go:265-313 | After every run, the open streams are exactly those that some operation wrapped and nothing has closed since, each filed under the connection it was wrapped on, with the protocol, direction and time it was given. |
| Chronicle.ConnectionsAreTold | probe/stream.go:128-171 | After every run, the tracked connections are exactly those that some operation introduced and nothing has disconnected since, each with that operation's description and time and with the number of ids spent before it as its id. |
| Chronicle.DisconnectClosesExactly | probe/host.go:171-201 | In every run, a disconnect closes exactly the still open streams that were wrapped on that connection, each once, and then the connection. |
| Chronicle.TrafficIsTold | probe/stream.go:67-102 | After every run, the log reports exactly the traffic that passed and the closes that were asked for, in order, with stream, direction, bytes and reason, and every envelope has the time of its emission. |
| Chronicle.ShownAsTold | internal/processor/processor.go:108-153 | After every run, a collector that replays the log shows exactly the streams that are still open, each with its protocol, and exactly the connections that are still up, each under its peer and described, down to the wording of its direction, as the operation that introduced it said. |
| Snapshot.SnapshotRebuilds | probe/sink_file.go:138-169 | Applying a snapshot to any alias state rebuilds one in which every entry has its one possible value, except those described with strings that were read too early and announced again later, in which every known peer is present, and in which exactly the listed streams and connections are open. |
| Sections.SectionTells | probe/stream.go:128-313 | Every locked section keeps the log true: definitions agree with the final tables and come before their uses, no connection or stream alias is announced twice, each connection is announced right after its peer, and what the log leaves open is what is tracked. |
| Sections.SectionCarries | probe/host.go:152-201 | Whoever tracks the probe and applies what a locked section emits tracks it afterwards, also between the two sections of a disconnect. |
| Sections.SectionKeepsHost | probe/stream.go:128-313 | Every locked section keeps state, log and mirror in step. |
| Sections.OperationIsSections | probe/host.go:152-201 | Every operation is a run of locked sections that leads to the same probe and the same log. |
| Overlap.OverlapIsAbsorbed | probe/emitter.go:138-146 | A snapshot whose strings were read when the log had reached some position and whose maps are read now, possibly in the middle of a disconnect, followed by the log from any position up to there, leaves a mirror of the probe. |
| Snapshot.Absorbed | probe/sink_ingest.go:172-178 | For streams and connections alike: replaying a suffix of a log over any set keeps every alias right that was right. |
| Delivery.AppliedInOrder | internal/processor/processor.go:95-106 | In every run of the protocol, the live sequence numbers applied since the last reset strictly increase, the cursor is the last of them, and every hole among them was refused by the full queue. |
| Delivery.AppliedIsContiguous | internal/processor/processor.go:155-162 | If this boot's queue has refused nothing, they form a contiguous interval. |
| Delivery.StepKeepsInv | probe/sink_ingest.go:109-227 | Every step, a snapshot in the middle of an operation included, keeps: queue in log order with only refusals missing, wire followed by queue continuing from the cursor, and the probe's own invariants. |
| Convergence.CaughtUpMirrorsLog | probe/sink_ingest.go:15-23 | In every run in which this boot's queue has refused nothing, whatever broke or restarted and whenever snapshots were taken, a collector that has caught up shows what applying the boot's whole log in order would show. |
| Convergence.SnapshotMakesUp | probe/sink_ingest.go:172-205 | In every run, if all numbers this boot's queue has refused lay below its head when some snapshot's strings were read, a collector that has caught up since shows what applying the boot's whole log in order would show. |
| Convergence.StepConverges | internal/ingest/ingest.go:139-184 | Every step that refuses nothing further keeps the collector resumable: whatever prefix of the data in flight arrives, replaying the log from its cursor mirrors the probe as long as the ring covers the cursor, and the queue goes on from there. |
| Convergence.SnapshotIsGood | probe/sink_ingest.go:179-205 | A snapshot read in two instants and sent while older envelopes are queued or still to be emitted leads to a mirror once they are applied. |
| Progress.CanCatchUp | probe/sink_ingest.go:109-139 | From every reachable state some continuation without restart or refusal leads to a collector that has caught up, and mirrors the log if nothing was refused. |
| Progress.CanRecover | probe/sink_ingest.go:109-139 | From every reachable state, whatever was refused and passed over, some continuation with one restart of the collector and none of the probe leads to a collector that mirrors the log. |
| Once.NeverAppliedTwice | internal/processor/processor.go:95-106 | With a queue of at most one place more than the ring and nothing refused, one collector never applies a live envelope of a boot twice, across all resets of its cursor. |
| Once.RepeatsExactly | internal/processor/processor.go:216-232 | In every run, whatever was refused or repeated before: a snapshot and then the queue apply exactly the queued numbers, each once, and none of them was applied before if and only if the queue is empty or its head lies above everything ever applied. |
| Once.ReplayNeverRepeats | probe/sink_ingest.go:187-197 | In every run, whatever was refused or repeated before: a replay applies all it sends, and nothing of it was ever applied before. |
| Remembered.PassedWasApplied | internal/processor/processor.go:99-106 | In every run, a queued number at or below one that was ever applied was applied itself. |
| Remembered.AboveCursorRolledOut | probe/emitter.go:95-125 | In every run, what was ever applied and lies above the cursor, which a snapshot has reset since, has left the ring. |
| Once.RolledPast | probe/emitter.go:95-125 | If the ring no longer covers the cursor, a queue of at most one place more than the ring that has refused nothing holds only envelopes above the cursor. |
| Refusal.RedeliveredExactly | probe/sink_ingest.go:77-91 | In every run, when the sink attaches: an unapplied envelope is applied by the catch-up if and only if the collector's cursor is positive and below it and no more than the ring's capacity was emitted since the cursor. |
| Refusal.PassedIsPassed | internal/processor/processor.go:99-106 | Over every run in which the collector does not start over, exactly those numbers up to the cursor are applied that were applied at the beginning. |
| Refusal.RefusedCanBeLost | probe/sink_ingest.go:77-91 | For every queue size there is a run ending with a reconnect and a caught-up cursor in which a refused envelope was never applied. |
| Refusal.CanRepeat | internal/processor/processor.go:216-232 | For every size of queue and ring there is a run in which one chunk is applied twice, without any refusal exactly when the queue has at least two places more than the ring. |
| Refusal.NeverRepeatsExactly | probe/options.go:18-24 | No run without refusals applies an envelope twice if and only if the queue has at most one place more than the ring. |
| Late.LateHarmsExactly | internal/ingest/ingest.go:170-184 | Whatever envelope comes late, of this boot or an earlier one, and whatever is to come: each envelope that would have taken effect still does, or is the late one itself, if and only if the late one does not apply, or is numbered below the first to apply before a snapshot starts, or is that one. |
| Late.LateHarmsReplayExactly | internal/ingest/ingest.go:170-184 | For a catch-up that begins with a live envelope: if and only if there is nothing to come, or the late one is numbered below its first, or is its first. |
| Late.SnapshotHeals | internal/processor/processor.go:216-232 | A snapshot that starts after the late envelope leaves no trace of it in alias state and cursor. |
| Late.SameBootHarmsExactly | internal/ingest/ingest.go:170-184 | In every run, whatever was refused: an envelope of the same boot left over from the previous connection does a replay no harm if and only if it is numbered right above the cursor, and then the replay leads to the same collector as without it. |
| Late.SameBootIsHarmless | internal/ingest/ingest.go:170-184 | In every run without refusals, such an envelope makes no difference to what the replay leads to. |
| Preempted.LateBeforeCursorExactly | internal/ingest/ingest.go:139-146 | In every run in which an envelope of an earlier boot, numbered n, is applied between the reset and the reading of the cursor: the new boot is told n, sends a snapshot if and only if it has emitted more than the ring holds beyond n, and otherwise serves exactly the envelopes above n. |
| Preempted.PassedAreSkipped | internal/processor/processor.go:99-106 | Numbers up to the cursor, whenever and however they come, are skipped until a snapshot starts. |
| Preempted.LateLosesEnvelope | internal/ingest/ingest.go:139-184 | For all sizes of queue and ring, and both for an envelope that comes before the cursor is read and for one that comes after the snapshot: a run in which nothing is refused, and after which a caught-up collector lacks a string the log defines. |
| Processor.ProcessorRefinesCore | internal/processor/processor.go:82-163 | The full effect of an envelope projects onto alias state and cursor alone: slots, decoders and evictions never reach them. |
| Collector.SourceState.ApplyForSource | internal/processor/processor.go:82-163 | One envelope changes the source object to exactly the value the model gives, evicts only what the loop may pick, and hands over exactly the slot left behind. |
| Collector.SourceState.HandleStreamChunk | internal/processor/processor.go:310-455 | A chunk of an unknown stream or time changes nothing; any other is recorded in its slot, and the stream's decoder moves on. |
| Collector.SourceState.Reset | internal/processor/processor.go:220-232 | Alias maps, peers and cursor are cleared; slots survive. |
| Collector.SourceState.TurnTo | internal/processor/processor.go:336-353 | At a slot boundary the table left behind is handed over as it is, and at most one slot is evicted. |
| Collector.SourceState.Oldest | internal/processor/processor.go:344-351 | The eviction loop picks a live slot, the smallest one unless slot 0 is live. |
| Collector.SlotAggregate.AddRawTraffic | internal/processor/processor.go:539-556 | Adds to summary and bucket in place as the model's traffic observation does. |
| Collector.SlotAggregate.AddRecord | internal/processor/processor.go:385-432 | Adds to rows, bucket rows, slot bleed and block facts in place as the model's share observation does. |
| Collector.UpdateRow | internal/processor/processor.go:566-600 | One row gains one message, its bytes, its bleed and its distance class. |
| Collector.Account | internal/processor/processor.go:357-447 | Raw traffic, then one share per decoded record, then the decode-error share, end up in the tables in this order. |
| Peers.IndexAgreesOverRuns | internal/processor/peers.go:39-119 | Over every run in which a connection alias keeps its peer, the two maps are mutual inverses and the listed peers are exactly those some connection points to. |
| Peers.UpsertConnectionAgrees | internal/processor/peers.go:51-68 | Announcing a connection keeps the maps inverse if and only if it does not move to another known peer. |
| Peers.CloseConnectionAgrees | internal/processor/peers.go:70-85 | Closing removes the connection alone; its peer disappears exactly when it was the last one. |
| Peers.SeenTimes | internal/processor/peers.go:60-67 | Over every run in which a newly announced peer stays known, it was last seen at its latest opening, and, if none is at time zero, first seen at its earliest. |
| Peers.PeerMap.UpsertConnectionState | internal/processor/peers.go:51-68 | The in-place update equals the model's, including the seen-times. |
| Peers.PeerMap.Close | internal/processor/peers.go:70-85 | The in-place removal equals the model's. |
| Peers.PeerMap.ListPeers | internal/processor/peers.go:87-104 | Lists each peer with a connection once, with its state, and no other. |
| Peers.PeerMap.Count | internal/processor/peers.go:106-114 | Counts exactly the listed peers. |
| Ring.ReplayIsExact | probe/emitter.go:95-125 | A replay is granted if and only if every emitted envelope from the start on is still in the ring, and then it is exactly those, in order. |
| Ring.Emitter.Emit | probe/emitter.go:70-93 | Numbers the envelope, appends it to the log and keeps the ring equal to the log's tail across wraparounds; a closed emitter does nothing. |
| Ring.Emitter.EventsFromSeq | probe/emitter.go:101-125 | Walking the ring yields the log's suffix from the start sequence, or a refusal when part of it has rolled out. |
| Interner.EveryInterleavingIsSafe | probe/intern.go:27-51 | For any number of threads: list and map stay mutual inverses with dense ids, ids handed out keep their meaning, and each id is defined at most once and is either defined or about to be, by its allocating thread. |
| Interner.IdsAreStable | probe/intern.go:27-51 | In every continuation of every run, the strings interned so far keep their ids. |
| Interner.EqualStringsEqualIds | probe/intern.go:27-51 | In every run, calls that have returned have equal ids if and only if they were for equal strings. |
| Interner.DefinedUnlessPending | probe/intern.go:44-50 | In every run, a returned id is defined in the log if and only if no thread still has to emit its definition. |
| Interner.IdBeforeDefinition | probe/intern.go:28-33 | There is a run in which a caller holds an id whose definition is not in the log yet. |
| Network.StringInterner.Intern | probe/intern.go:27-51 | A call keeps list and map inverse, returns the string's id, and emits a definition exactly for a new string while the emitter is open. |
| Network.WrappedNetwork.ConnectionUpsertFor | probe/stream.go:128-171 | Interns the three strings, then tracks a connection that is not tracked yet under its peer's alias, old or new. |
| Network.WrappedNetwork.Connected | probe/host.go:152-169 | A new connection is tracked and announced after its peer; a known one only spends an id. |
| Network.WrappedNetwork.WrapStream | probe/stream.go:265-313 | Tracks an unannounced connection first, then interns the protocol and announces the stream under a fresh id. |
| Network.WrappedNetwork.EmitChunk | probe/stream.go:67-79 | Emits the bytes that passed and changes no tracked state. |
| Network.WrappedNetwork.EmitClosed | probe/stream.go:91-102 | Forgets the stream and says so. |
| Network.WrappedNetwork.RemoveStreamsForConn | probe/stream.go:204-215 | Removes exactly the connection's streams and returns each of them once. |
| Network.WrappedNetwork.Disconnected | probe/host.go:171-201 | Forgets the connection and its streams, and emits the streams' closes, each once, before the connection's. |
| Network.WrappedNetwork.Snapshot | probe/stream.go:232-255 | Lists exactly the tracked peers, connections and streams, in ascending order of alias. |
| Network.SnapshotEnvelopes | probe/sink_file.go:138-169 | The four loops produce the markers around strings, peers, connections and streams, in this order. |
| Network.SnapshotIsUnique | probe/stream.go:229-231 | One state has one snapshot, so replays are byte-stable. |
| Sink.SinkIngest.Write | probe/sink_ingest.go:81-91 | The envelope is queued exactly when the sink is open and holds fewer than 1024. |
| Sink.SinkIngest.SendCatchup | probe/sink_ingest.go:179-205 | Writes the protocol model's catch-up, or the prefix the connection took, and says which. |
| Sink.SinkIngest.Pump | probe/sink_ingest.go:207-227 | The head of the queue leaves it, and is written exactly when there is a working connection. |
| Sessions.EntryIsLatest | internal/ingest/ingest.go:109-137 | In every interleaving of handlers the entry is the most recently installed connection unless that handler has cleaned up. |
| Sessions.PreemptedIsHarmless | internal/ingest/ingest.go:118-137 | Neither half of a preempted handler's cleanup changes the entry or the connected flag. |
| Sessions.ShownExactly | internal/ingest/ingest.go:118-137 | In every interleaving, a registered session stays shown as connected, whatever others do, if and only if no earlier owner stands between the two halves of its cleanup. |
| Sessions.LiveShownDisconnected | internal/ingest/ingest.go:122-133 | There is a run in which the live successor ends up shown as disconnected. |
| Sessions.OrphanedExactly | internal/ingest/ingest.go:118-166 | In every interleaving, a source comes to be shown as connected with no owner and nobody to clear the flag exactly when a handler registers although the entry is gone and its last owner has finished cleaning up. |
| Sessions.OrphanedStays | internal/ingest/ingest.go:118-137 | It stays so until a new handler is installed. |
| Sessions.NobodyShownConnected | internal/ingest/ingest.go:157-166 | There is a run in which a source is shown as connected with no handler left. |
| Sessions.SessionTable.Install | internal/ingest/ingest.go:109-116 | Replaces the source's entry and returns the connection to close. |
| Sessions.SessionTable.Release | internal/ingest/ingest.go:122-128 | Removes the entry if and only if it is still this connection's. |
| Gossip.ChunkingInvariance | internal/gossipsub/decoder.go:90-133 | However a byte stream is cut, feeding the chunks yields the records, error and leftover of feeding it at once. |
| Gossip.DrainSettles | internal/gossipsub/decoder.go:90-133 | The call succeeds if and only if the leftover holds no complete or offending frame, and then it is at most max + 9 bytes. |
| Gossip.FrameConserves | internal/gossipsub/decoder.go:117-128 | The records of a frame add up to its wire length, the last of them being its one framing record. |
| Gossip.DrainConserves | internal/gossipsub/decoder.go:90-133 | Records plus leftover are exactly the bytes there were. |
| Gossip.ActionsHaveKinds | internal/gossipsub/decoder.go:137-186 | No action carries the empty kind that marks framing. |
| Gossip.BufferingRpc.Observe | internal/gossipsub/decoder.go:90-133 | The loop over the buffer computes the drain of old buffer plus data. |
| Gossip.EmitActions | internal/gossipsub/decoder.go:137-186 | The loops emit the RPC's actions in order and return their total size. |
| Frames.FrameIsPayload | internal/gossipsub/decoder.go:96-128 | The frame at the front of a stream is decoded from exactly the payload that was framed; one over the maximum is too large, one the parser rejects a bad RPC. |
| Frames.DecodingInvertsFraming | internal/gossipsub/decoder.go:90-133 | For every list of payloads the parser takes, however their frames are cut into chunks, their records come out in order, and of a last incomplete frame exactly its bytes are kept. |
| Frames.BadFrameStops | internal/gossipsub/decoder.go:90-133 | Good frames before a bad one are decoded; the bad one is reported with its kind of error and stays at the front. |
| Frames.FramingIsTheRest | internal/gossipsub/decoder.go:117-128 | The records of a framed payload are its actions and one record without topic and kind for all remaining bytes. |
| Frames.ActionsReportRpc | internal/gossipsub/decoder.go:137-186 | The records of each kind report, in order, the sizes and topics of exactly the RPC's items of that kind, with topics left out for IWANT and IDONTWANT, and there are no others. |
| Attribution.SharesAreExact | internal/processor/processor.go:356-447 | An accepted chunk records its raw bytes, and each decoded record under its protocol, topic and kind with its bytes and block facts, its distance leading exactly from an earlier payload slot to the chunk's; undecoded streams are charged as raw and failed calls as decode errors; all in the slot and 100 ms bucket of the chunk's time. |
| Attribution.EachDirectionOnItsOwn | internal/gossipsub/decoder.go:52-66 | As long as no call fails, the records made of a direction and what it still buffers are those of all bytes that passed in it, however the directions are interleaved. |
| Attribution.FailureClears | internal/processor/processor.go:441-445 | A failing call empties the buffers of both directions. |
| Attribution.DecodedExactly | internal/gossipsub/decoder.go:34-37 | In every run, a stream is decoded if and only if its protocol begins with /meshsub/ or /floodsub/. |
| Attribution.UndefinedReadsEmpty | internal/processor/processor.go:279-293 | Streams and connections announced with undefined strings show empty ones. |
| Conservation.BytesBalance | internal/processor/processor.go:356-447 | Over every run: attributed, still buffered and dropped bytes together equal the raw bytes plus what failing calls counted twice. |
| Conservation.BytesConserved | internal/processor/processor.go:356-447 | Over every run without decode errors, every raw byte is attributed once, still buffered, or went with a dropped buffer. |
| Conservation.ChunkBalances | internal/processor/processor.go:376-447 | One chunk balances, whichever direction, protocol and outcome it has. |
| SlotTables.TablesRefineHistory | internal/processor/processor.go:539-634 | After any observations all incrementally updated tables equal their recomputation from the list of observations. |
| SlotTables.SummaryIsBucketTotal | internal/processor/processor.go:539-556 | Summary bytes are the sum over the buckets. |
| SlotTables.RowsAgree | internal/processor/processor.go:558-634 | Every slot row is the sum of its bucket rows in bytes, messages, bleed and each distance class. |
| SlotTables.BleedIsRowTotal | internal/processor/processor.go:389-406 | The slot's bleed is the sum of its rows' bleed. |
| SlotTables.DistancesAgree | internal/processor/processor.go:602-633 | The bleed of every row, in the slot and in each bucket, is the sum over the four distance classes. |
| SlotTables.ClassesAreExact | internal/processor/processor.go:602-633 | The distance classes of every row hold exactly the bytes that were one, two, three, and four or more slots late. |
| SlotTables.FactsAreLatest | internal/processor/processor.go:411-431 | Each fact a slot shows about its block is that of the last inbound publication on beacon_block that states it, and none if there is none. |
| SlotTables.RowsHoldAllShares | internal/processor/processor.go:558-634 | The rows together hold everything that was attributed, in every measure. |
| Finalization.LiveTablesRefineHistory | internal/processor/processor.go:376-409 | In every run each live slot's tables equal their recomputation from what was recorded since the slot was created, and with forward times from everything ever recorded in it. |
| Finalization.FinalizationIsExact | internal/processor/processor.go:334-373 | With forward times, resets and reconnects included, the callback fires in strictly increasing slot order exactly for the slots left behind, and what the store keeps for a slot is its recomputation from everything ever recorded in it. |
| Finalization.RetentionIsExact | internal/processor/processor.go:337-356 | With forward times the live slots are exactly the 257 largest seen, or all if fewer. |
| Finalization.ForwardTimesGiveForwardSlots | internal/eth/clock.go:37-64 | Observed times that never go backwards give slots that never go backwards. |
| Slots.FinalizesAtAscents | internal/processor/processor.go:337-341 | In every run, whatever the times, the callback fires exactly where a slot from 1 on is directly followed by a later one. |
| Slots.PersistedIsFinal | internal/storage/storage.go:219-240 | With forward times, insert-if-absent keeps exactly the slots left behind, each with everything recorded in it. |
| Slots.HandedOverIsFinal | internal/processor/processor.go:334-373 | With forward times no later chunk changes a slot that was handed over. |
| Slots.RetentionWindow | internal/processor/processor.go:343-352 | The window law of eviction on its own, for any recorded values. |
| Slots.WithoutForwardTimes | internal/processor/processor.go:337-341 | Slot 0 is never handed over, and a step back in time hands a slot over twice. |
| Slots.StoredIsFinalExactly | internal/storage/storage.go:219-240 | In every run, whatever the times: the stored version of a slot is everything ever recorded in it if and only if no eviction dropped records of it before it was first handed over and nothing is recorded in it from then on. |
| Slots.StoredIsFinalUnless | internal/storage/storage.go:219-240 | Since every chunk records something: if and only if the slot was not evicted before and no chunk of it follows. |
| Slots.StoredCanBeStale | internal/storage/storage.go:219-240 | There is a run in which the stored version of a slot lacks what a later chunk recorded. |
| Slots.RecordsAreAccounted | internal/processor/processor.go:343-352 | In every run, what a slot recorded is what evictions dropped, and then what it holds. |
| Finalization.StoreKeepsFirst | internal/storage/storage.go:219-240 | In every run of the processor, the store keeps for a slot its recomputation from what it held when it was first handed over, with the exact condition for that to be everything. |
| SlotClock.SlotsTileTime | internal/eth/clock.go:37-64 | From genesis on, a slot contains exactly the instants of its half-open interval, and start plus offset is the instant. |
| SlotClock.EpochsTileSlots | internal/eth/clock.go:37-64 | An epoch contains exactly the slots of its half-open interval, 32 by default. |
| SlotClock.SlotsAreMonotone | internal/eth/clock.go:37-64 | Later times never fall into earlier slots or epochs. |
| SlotClock.BucketsAreBounded | internal/processor/processor.go:539-545 | Bucket keys are multiples of 100 ms that contain their instant, at most ten per second of a slot. |
| SlotMerge.MergeIsExact | internal/server/server.go:113-141 | Cutting both lists first loses nothing: the merge is the newest rows of the union in strictly descending slot order, the live version winning. |
| SlotMerge.TopIsUnique | internal/server/server.go:136-139 | The newest rows of a table are determined by it. |
| SlotMerge.HandleSlots | internal/server/server.go:100-142 | The response is the newest rows of live and persisted slots, of live ones alone without storage, or an error when storage fails; the limit defaults to 256. |
| SlotMerge.ListSlots | internal/processor/processor.go:165-196 | Collecting, sorting and cutting gives the newest rows, and all rows without a positive limit. |
| SlotMerge.ListSummaries | internal/storage/storage.go:269-286 | The storage query gives the newest rows, and none without a positive limit. |
| Wire.StreamRoundTrip | proto/xray/wire/wire.go:58-111 | A list of messages is read back as it was, all bytes consumed, if and only if each is at most 4 MiB; otherwise reading fails as too large. |
| Wire.RoundTrip | proto/xray/wire/wire.go:58-111 | One message survives if and only if it is at most 4 MiB, and the bytes behind it are untouched. |
| Wire.OtherTypeRefused | proto/xray/wire/wire.go:75-84 | A message of another type is refused, and only its type byte is consumed. |
| Wire.CutMessageIsShort | proto/xray/wire/wire.go:75-111 | A message cut off anywhere is read as nothing: the read runs short and drains the stream. |
| Wire.LoopAgreesWithUvarint | proto/xray/wire/wire.go:86-102 | Where the standard Uvarint accepts, the loop returns the same value and length; it accepts more exactly for ten-byte varints whose last byte exceeds 1. |
| Wire.LoopAcceptsMore | proto/xray/wire/wire.go:86-102 | One ten-byte input the loop accepts and the standard reader rejects. |
| Wire.Reader.ReadLength | proto/xray/wire/wire.go:86-102 | The shifting loop over the reader computes the model's varint and consumes the same bytes, on every error path too. |
| Wire.Reader.ReadTypedMessage | proto/xray/wire/wire.go:75-111 | The reader returns what the model parses from its bytes and is left with the model's rest. |
| Varint.PutThenRead | proto/xray/wire/wire.go:66-70 | Every 64-bit value survives PutUvarint and Uvarint, whatever follows. |
| Varint.UvarintStable | internal/gossipsub/decoder.go:98-104 | A varint decision is never revised by later bytes, and one that is still open has at most ten bytes. |
| Ssz.ExtractionInvertsEncoding | internal/eth/ssz_meta.go:66-135 | For every block laid out per the consensus-specs SimpleSerialize document, with any number of attestations, commitments and transactions, the proposer and all three counts come back exactly. |
| Topics.SlotComesBack | internal/eth/ssz_slot.go:36-57 | For every topic with a slot, with or without a subnet number, and every payload laid out per the consensus-specs SimpleSerialize document, compressed or not, the slot comes back. |
| Topics.BlockComesBack | internal/eth/ssz_slot.go:92-128 | Slot, proposer and all three counts of a published block come back. |
| Topics.SidecarIndexComesBack | internal/eth/ssz_meta.go:45-64 | The index of a blob or data column sidecar comes back. |
| Topics.StripExactly | internal/eth/ssz_slot.go:133-144 | Exactly the number of a subnet topic, with its underscore, is taken off; any other topic stays as it is. |
| BlockPath.NameIsFound | internal/eth/gossipsub.go:47-56 | The name of an Ethereum topic is found, whatever the fork digest and the encoding are. |
| BlockPath.OtherTopicsStay | internal/eth/gossipsub.go:47-56 | Any other topic, or one without a name or anything behind it, stays as it is. |
| BlockPath.BlockAnnotated | internal/eth/gossipsub.go:18-45 | A message that publishes a block is annotated with beacon_block, the block's slot, its proposer and its three counts. |
| BlockPath.BlockArrives | internal/processor/processor.go:356-447 | The whole path: for a chunk that holds the frame of an RPC which publishes a block, whatever its fork, encoding and compression, the message is attributed to beacon_block and PUBLISH, the new slot shows exactly the block's proposer and counts, and its bytes are bleed if and only if the block is of an earlier slot. |
| PayloadCache.CacheIsTransparent | internal/eth/ssz_slot.go:92-128 | In every interleaving of lookups and stores, with injective fingerprints and each payload only under topics of one slot offset, each call answers as if nothing were cached, and its slot is what DecodeSlot returns. |
| PayloadCache.TopicsShareExactly | internal/eth/ssz_slot.go:92-99 | If every content can be received: a payload cached under one topic answers correctly for another, whatever it is, if and only if the topics have the same slot offset. |
| PayloadCache.CacheIsBounded | internal/eth/ssz_slot.go:118-125 | The cache never holds more than 256 entries. |
| PayloadCache.StoredIsFound | internal/eth/ssz_slot.go:118-125 | What is stored is found again, and while there are fewer than 256 entries nothing else is forgotten. |
| PayloadCache.KeyIgnoresTopic | internal/eth/ssz_slot.go:93-99 | A payload first seen as a block is later reported with a slot under a topic that has none. |
| PayloadCache.DecodeCache.DecodePayload | internal/eth/ssz_slot.go:92-128 | A call answers and updates the cache as the model's lookup and store do. |

## Left out

- Concurrency inside the probe: a locked section and the emissions it leads to finish before the next section begins, and numbering an envelope and offering it to the queue are one step. Threads that emit at the same time can make enqueue order differ from sequence order, which is not modelled. Snapshots do run at the same time, also in the middle of an operation.
- Concurrency inside the collector: applying one envelope is one step. The envelope a preempted handler may still apply is part of the runs of `Preempted`, one at a time; what `Delivery`, `Convergence`, `Remembered`, `Once` and `Progress` prove is about runs without it.
- Envelopes over 4 MiB: the steps of the resume protocol deliver every envelope, while a replay that begins with such a one fails until the ring has rolled past it.
- Envelopes of an earlier boot arriving after a restart are delivered to the state that is about to be reset; nothing is claimed about that state.
- A probe restart always picks a boot id that was not used before.
- First- and last-seen times of peers and decoder buffers are not rebuilt by a snapshot and are not part of the compared view.
- Several sources at once: the model follows one source; the processor keeps them in a map by source id.
- Closing is final: an emitter that was closed and opened again is not modelled.
- `SetProtocol` on a wrapped stream, which changes no tracked state.
- Stream decoders are values inside the source object; the buffer object itself is modelled and proved separately.
- Protobuf, snappy and the FNV hash are abstract functions. Assumed where stated: unmarshalling undoes marshalling, and the actions of an RPC are together no longer than its payload.
- Identifiers and byte counts are unbounded numbers; 32-bit id and 64-bit sum wrap-around are not modelled. Varint arithmetic is modelled at 64 bits.
- Times are whole nanoseconds without the limit of Go durations.
- Collector.SlotAggregate.Detail: the detail shares the bleed counters of the slot and the distance maps of its rows with the live tables (internal/processor/processor.go:457-515); the model copies them, so what a reader sees of them later is not modelled.
- Sorting of breakdown rows and buckets in a slot's detail, and the finalized flag computed from the wall clock.
- The search term of the slot list and the other HTTP and WebSocket handlers.
- SQLite, file sinks, legacy migration and pruning; storage is an insert-if-absent map.
- Sinks other than the ingest sink, dialing, timers and retries.
- Collector.SourceState.Oldest: with slot 0 live the pick depends on map order, so only membership is stated for that case.
- Sink.SinkIngest.SendCatchup: requires a probe state that keeps its invariants, which Sections.SectionKeepsHost shows of every section.
