# Verified models of the Postgres connector and of the dispatch core

Two developments, mostly independent.

**The change-capture protocol (`pg`).** A scanner walks a table in key order, chunk by chunk, while a streamer
delivers committed transactions. The merger decides for each change whether to send it on, hold it back or drop it.
What it sends is drained from a channel; acknowledgements come back in any order and grouping and move a resume cursor
that is saved with each of them; the process may crash at any point and start again from what was saved.

**The dispatch core (`broadway`).** A consistent hash ring and its repair after a failure, the batcher's queues on
shared slices, the batch processor's lock that a sender takes and the worker releases, the fate of messages when a
handler panics, and the producer's two dispatch loops.

## How it is organised

| files | content |
|---|---|
| `keys`, `uuid_text`, `cdc` | keys, their order and text; events, ranges, counting |
| `merger_spec`, `merger` | routing and chunk ends as functions; the class with its fields, proved equal to them |
| `engine_spec`, `engine`, `positions` | tracking and acknowledging as functions; the class; the reported position as a state machine |
| `snapshotter`, `wal` | the scanner's loop on a static table; the streamer's loop over the replication stream |
| `capture*` | database, scanner, streamer and merger as one state machine; its invariant; its theorems |
| `watermark`, `reads`, `delivery` | the engine's state as a function of progress; rows in order; drained and acknowledged messages |
| `protocol*` | the whole connector with channel, acknowledgements, saving, reporting and crashes; theorems over all runs, what restarts skip and the order of a key's changes among them; runs that lose a row or a change or turn two round |
| `limits` | concrete inputs on which the documentation is not met |
| `ring_spec`, `hash_ring` | ownership by clockwise distance; the ring and the replacement of a failed processor |
| `slice_queue`, `batcher`, `batcher_object` | the queue on backing arrays; the batcher's interleavings; its loops |
| `batch_processor`, `message_processor`, `producer` | lock hand-off; one fate per message; the dispatch loops |

Code that updates an object is a class whose methods are proved against functions or relations of the old state, but
for the batch processor, which is a state machine only. The state machines of `capture*`, `protocol*` and `positions`
run on those functions; `batcher` is a machine of its own beside the class in `batcher_object`. A step of a state
machine is one section of code between two points where another goroutine can come in, unless it says otherwise under
"Left out". Next to what the program holds, the states carry history: what arrived, was sent on, dropped, read,
drained, acknowledged.

## What is assumed

- Transactions commit with increasing positions, and a change is delivered after its transaction has committed. A
  snapshot's xmin is the least transaction id not finished when it is taken.
- A transaction's changes carry its id, and a row keeps its key when it is updated.
- The database starts replication at the position asked for or at the slot's, whichever is higher, with the first
  transaction that commits at or after it; the slot's position never moves back.
- One table per run; `limits` shows what goes wrong with two.
- Every drained message is acknowledged without error at most once. Messages carry their event as metadata.
- A row *stays in the table* if it is there from the start and no committed transaction deletes it. On a static table
  that is every row.
- The batch processor's and the message processor's messages have an acknowledger, which does not panic.
- On the ring, members have distinct 32-bit hashes where a statement says so; the hash function is a parameter.

## Where code and documentation disagree

- `pg/connector.go:432-434` says the streaming phase is never saved before all snapshot rows are processed. The switch
  at lines 220-223 looks at drained rows only. `ProtocolAcks.PhaseTurnsExactlyInEveryRun` says when the phase turns,
  `NothingLeftBehindInEveryRun` and `TurningThePhaseIsSafe` when that is harmless, and
  `ProtocolLimits.EarlySwitchLosesARow` gives a run that loses a row.
- `pg/merger.go:156` says that a change not yet scanned can be dropped because the snapshot will show it, and
  `pg/connector.go:91-92` that every change is delivered at least once. This fails in four ways, each with its exact
  condition, and of a process that completes its snapshot in no other (`ProtocolRestarts.EveryChangeIsAccountedFor`).
  In three the merger drops a change for good: during a chunk, for a key beyond its estimated window
  (`ProtocolChanges.NoLostChangeInEveryRun`; concrete cases in `Limits.SparseKeyIsLost` and
  `UuidChunksBufferNothing`); between the last, empty chunk's begin and the completion, for a key above the scan and
  beyond that chunk's window (`ChangeAboveTheScanInEveryRun`; the run `ProtocolLimits.InsertAboveTheScanIsLost`); and
  before the completion, for a key the process resumed above (`ChangeOutsideTheScanInEveryRun`; the run
  `ProtocolLimits.ChangeBelowTheResumedCursorIsLost`).
- The fourth way is a restart. `docs/connectors/postgres.md:55` says that no events are skipped, but the confirmed
  position is the highest acknowledged one (`pg/connector.go:194-200`), not one below which all is acknowledged. An
  unacknowledged change is skipped, and for good, exactly if its position is below the one resumed from
  (`ProtocolRestarts.ComesAgainExactly`, `SkippedForGood`; the run `ProtocolStreaming.UnacknowledgedChangeIsSkipped`).
  A scan that goes on after the restart shows the outcome for keys above the saved cursor only
  (`RescanShowsWhatWasSkipped`): a row that is acknowledged and saved as scanned can have lost a change.
- `pg/merger.go:84-106` sends after releasing the lock, so a later change of a key can come first, exactly if the
  streamer sends it while the scanner has an older one to send (`ProtocolOrder.InLineExactly`; the run
  `ProtocolStreaming.LaterChangeOvertakes`).
- Text of a UUID without dashes can be taken for an integer key: `UuidText.TextOfUuidIsItsKeyExactly`.
- A processor that is resumed after its handler has panicked can strand a sender, which then holds the lock for ever:
  `BatchProcessorSpec.StrandedOnlyByResume`, `StrandedExactly`, `ResumeCanStrandASender`.

## Model

| member | source | states |
|---|---|---|
| Keys.UuidCmp | pg/pk.go:100-110 | the byte loop orders UUIDs as their 128-bit big-endian numbers and says 0 only for equal ones |
| Keys.InRange | pg/pk.go:54-65 | on every input that does not panic, membership of the interval (low, high], an unset bound being no bound and an unset key never inside |
| Keys.WindowExtent | pg/pk.go:44-50 | which keys lie in (cursor, cursor.Next(n)]: all for an unset cursor, none for a UUID or an overflowing integer, the next n integers otherwise |
| UuidText.ParseOfText | pg/pk.go:112-138 | every 16-byte value survives printing and parsing |
| UuidText.TextOfParse | pg/pk.go:112-138 | printing a parsed string gives its canonical form: the same digits in lower case, dashes at 8, 13, 18, 23 |
| UuidText.TextOrderIsNumericOrder | pg/pk.go:100-124 | the order of the printed texts is the order of the 128-bit numbers, hence of uuidCmp |
| UuidText.TextAndBytesGiveTheSameKey | pg/pk.go:20-39 | a UUID gives the same key as canonical text and as bytes, though text is first tried as an integer |
| UuidText.TextOfUuidIsItsKeyExactly | pg/pk.go:20-39 | any other text of a UUID gives its key if and only if it does not parse as a 64-bit decimal |
| UuidText.UndashedTextMayBeTakenForAnInteger | pg/pk.go:28-34 | a concrete family of undashed UUID texts that become integer keys |
| UuidText.DecimalTextIsRead | pg/pk.go:28-31 | reading the decimal text of any number gives the number back exactly when it has 64 bits |
| UuidText.NumberAndTextGiveTheSameKey | pg/pk.go:20-31 | an integer column gives the same key as a number and as its decimal text |
| UuidText.UuidToString | pg/pk.go:112-124 | the filled 36-byte buffer is the canonical text of RFC 9562, section 4 |
| UuidText.Encode | pg/pk.go:112-124 | writes two digits per byte into its part of the buffer and nothing else |
| UuidText.UuidFromString | pg/pk.go:126-138 | dashes dropped wherever they are; success exactly for 32 hexadecimal digits of either case, with the bytes they spell |
| UuidText.Decode | pg/pk.go:132-136 | fails exactly if some character is not a hexadecimal digit, otherwise the bytes spelled |
| UuidText.Marshal | pg/pk.go:67-98 | a key survives the saved JSON form |
| MergerSpec.FindRange | pg/merger.go:167-175 | a range found is one of the list and covers the key; none found means none covers it |
| MergerSpec.DecidedConserves | pg/merger.go:125-158 | a batch splits into emitted, buffered, below-xmin and unscanned events, each counted once |
| MergerSpec.StampedDecided | pg/merger.go:125-134 | the events that meet a decision are those of the batch, each with the transaction's commit position and otherwise unchanged, that are routed that way |
| MergerSpec.ChunkTakesWholeKey | pg/merger.go:55-82 | a chunk's end takes all buffered events of a key, in order, or none |
| MergerSpec.KeySettledWhole | pg/merger.go:138-158 | in one state the events of one key are all settled on arrival or none is |
| MergerObject.FindScannedRange | pg/merger.go:167-175 | the loop returns the first covering range |
| MergerObject.Merger.constructor | pg/merger.go:28-34 | initial state with the given ranges and phase |
| MergerObject.Merger.OnBeginChunk | pg/merger.go:38-47 | only the current chunk changes |
| MergerObject.Merger.OnEndChunk | pg/merger.go:55-89 | the whole new state and exactly the events sent; nothing happens for another chunk id |
| MergerObject.Merger.SettlePending | pg/merger.go:69-82 | in-range events not below the xmin come out in order, out-of-range events stay buffered in order |
| MergerObject.Merger.OnSnapshotComplete | pg/merger.go:94-106 | overflow is sent in order, the state is reset to streaming |
| MergerObject.Merger.OnSnapshotEvent | pg/merger.go:109-111 | a row goes straight to the output |
| MergerObject.Merger.RouteEvent | pg/merger.go:138-158 | emit if and only if the routing decision says so; buffered if and only if it says so |
| MergerObject.Merger.CollectWALBatch | pg/merger.go:125-134 | every event is stamped with the commit position; the emitted ones come out in order, the buffered ones are appended in order |
| MergerObject.Merger.OnWALBatch | pg/merger.go:114-122 | the whole new state and what is sent for a transaction |
| EngineObject.WalStreamer.AdvanceConfirmedLSN | pg/wal.go:183-188 | a notification is queued, or dropped if the channel is full |
| EngineObject.WalStreamer.TakeConfirmedLSN | pg/wal.go:73-80 | at most one notification is taken and only raises the position |
| EngineObject.CdcEngine.constructor | pg/connector.go:77-89 | empty maps and the loaded state |
| EngineObject.CdcEngine.HandleDemand | pg/connector.go:134-163 | drains the first min(demand, buffered) events in order; every chunk with a row among them becomes pending, with the size, high key and table of the last of its rows; no other entry, count, completed chunk or cursor changes |
| EngineSpec.RegisteredDetermines | pg/connector.go:143-156 | that determines the whole state |
| Protocol.HandingOutIsDraining | pg/connector.go:134-163 | the state HandleDemand leaves is the one that as many single draining steps of the protocol reach |
| EngineObject.CdcEngine.TrackEvent | pg/connector.go:143-156 | a row registers its chunk's size, high key and table and makes it pending; other events change nothing |
| EngineObject.CdcEngine.Acknowledger | pg/connector.go:169-229 | an error changes nothing; a success counts, advances the cursor, switches the phase, notifies the streamer and saves |
| EngineObject.CdcEngine.Tally | pg/connector.go:176-189 | highest commit position and rows per chunk of a group of messages |
| EngineObject.CdcEngine.ApplyAcks | pg/connector.go:202-215 | whatever order the map is walked in, the counts are those of the whole group |
| EngineObject.CdcEngine.AcknowledgeChunks | pg/connector.go:202-223 | the chunk part of an acknowledgement, start to end |
| EngineObject.CdcEngine.MinPending | pg/connector.go:240-245 | the least pending chunk, or the greatest int |
| EngineObject.CdcEngine.AdvanceSnapshotCursor | pg/connector.go:239-265 | the cursor becomes the high key of the greatest completed chunk that no pending chunk precedes, and the chunks up to it are dropped |
| EngineSpec.AcknowledgeRest | pg/connector.go:194-223 | besides the watermark: the confirmed position becomes the maximum, the phase turns exactly when the scan is done and nothing is in flight |
| Positions.ReportedPositionIsBounded | pg/connector.go:176-200 | every interleaving, dropped notifications included: the confirmed position is the maximum of the loaded one and all acknowledged ones; the channel is strictly increasing and bounded by it; the streamer is monotone, within max(start, confirmed), and reaches it if nothing was dropped |
| WalObject.Streamer.Run | pg/wal.go:139-176 | the loop over logical messages, with its state and batches, as a function whose batches LogCarriesItsChanges describes |
| WalObject.StreamedTransaction | pg/wal.go:140-175 | whatever was left over, the messages of a transaction give exactly its batch |
| WalObject.StreamedLog | pg/wal.go:128-176 | the stream of a log of transactions becomes one batch per transaction, in commit order |
| WalObject.AnnouncedIsLast | pg/wal.go:140-141 | a relation is what the last announcement of its id said |
| WalObject.BatchCarriesItsChanges | pg/wal.go:140-240 | whatever was left over from before, a transaction gives one batch with its commit position and one event, in order, for each change of a known relation and no other: the names last announced, the kind, old and new row as decoded, the key of the new row or for a delete of the old one, the transaction's id |
| WalObject.LogCarriesItsChanges | pg/wal.go:128-240 | the same for every transaction of a log, with the relations last announced anywhere in the stream before it |
| SnapshotterObject.JoiningUndoesSplitting | pg/snapshot.go:166-171 | joining schema and table undoes the split exactly for names not starting with a dot |
| SnapshotterObject.Snapshotter.Turn | pg/snapshot.go:43-74 | one turn of the loop: begin, read, end with the xmin of that read, rows with the chunk's id, size and high key |
| SnapshotterObject.Snapshotter.FinishChunk | pg/snapshot.go:58-71 | buffered changes are sent before the chunk's rows |
| SnapshotterObject.Snapshotter.Run | pg/snapshot.go:39-76 | the loop ends on a finite static table; each chunk holds the next keys above where its predecessor stopped and the xmin of its own read, none is left, and the chunks account for all the merger did and sent |
| SnapshotterObject.FirstRows | pg/snapshot.go:80-152 | the first rows above the cursor are what the capture protocol takes a chunk query to return, for full and for short reads |
| SnapshotterObject.ScanDeliversTheTable | pg/snapshot.go:39-76 | the chunks of a full scan of a static table tile it, and to whatever was sent before it adds one row for each key above the cursor, ascending, and no other row |
| SnapshotterObject.RowOfScanShows | pg/snapshot.go:60-71 | row j of chunk i is where the rows of the chunks before it end: the table's names, the key, its image as the only one, and the chunk's number, size and last key |
| SnapshotterObject.ScanRecordsItsRanges | pg/snapshot.go:43-58 | the merger has recorded the range of each chunk with the xmin of its read, in scan order |
| SnapshotterObject.ScanSettlesBuffered | pg/snapshot.go:43-58 | all copies of a change buffered before the scan are sent if its transaction is not below the xmin of the read of the first chunk that holds its key, and none otherwise; none stays buffered |
| SnapshotterObject.OthersStayBuffered | pg/merger.go:69-82 | a buffered change that no chunk of the scan holds stays buffered and is not sent |
| CaptureTheorems.InvKept | pg/merger.go:38-158 | what every step of database, scanner, streamer and merger keeps |
| CaptureTheorems.ChunkShowsItsSnapshot | pg/snapshot.go:80-152 | a chunk delivers exactly the rows its snapshot holds in its range |
| CaptureTheorems.SearchOrderDoesNotMatter | pg/merger.go:167-175 | the search gives the same range in whatever order the ranges are listed |
| CaptureTheorems.SkippedExactlyWhenBeyondWindow | pg/merger.go:138-158 | a change of a chunk's key arriving after its begin is dropped as not yet scanned if and only if it comes before the end with a key beyond the estimated window |
| Watermark.TrackKeeps | pg/connector.go:143-156 | draining the next row leaves the engine in the one state its progress calls for |
| Watermark.AcknowledgeKeeps | pg/connector.go:169-265 | so does any acknowledgement of drained rows |
| Watermark.ProgressDetermines | pg/connector.go:51-75 | maps and cursor are a function of where the scan started, the chunks seen so far and how many rows of each are acknowledged; chunks scanned beyond do not matter |
| Delivery.DrainedIsProgress | pg/snapshot.go:60-71 | two scans of which the same messages have been drained agree on every chunk seen and its acknowledgements, whatever either has read beyond |
| Watermark.WaitingHasPendingPredecessor | pg/connector.go:231-265 | a completed chunk still in the map has a smaller pending one |
| ProtocolInvariant.RunningKept | pg/connector.go:124-229 | every step keeps the capture invariant, the flow of rows and the engine's state, a restart included |
| ProtocolTheorems.EveryRunIsSafe | pg/connector.go:374-449 | the invariant in every state of every run with any number of crashes |
| ProtocolRuns.WatermarkSafetyInEveryRun | pg/connector.go:202-261 | watermark safety and the pending predecessor, in every run |
| ProtocolRuns.SavedCursorNeverMovesBack | pg/connector.go:225-227 | the saved cursor never moves back, across crashes too |
| ProtocolRuns.RowsComeOutInOrder | pg/snapshot.go:60-75 | a process's rows come out once each, ascending, above the cursor it resumed from |
| ProtocolRuns.CrashResumeCoverage | pg/connector.go:394-414 | in every run: rows up to the saved cursor are acknowledged; after a finished scan every row that stays in the table was acknowledged earlier or read |
| ProtocolRuns.NothingIsReadTwice | pg/connector.go:401-414 | after a crash no row at or below the saved cursor is read again |
| ProtocolAcks.IdleExactlyWhenSettled | pg/connector.go:220-223 | no chunk is pending or waiting if and only if all drained rows are acknowledged and no chunk is half drained |
| ProtocolAcks.TurningThePhaseIsSafe | pg/connector.go:432-434 | with none under way, every row that stays in the table has been acknowledged |
| ProtocolChanges.EveryRunConserves | pg/merger.go:84-122 | the copies of a change in the channel, about to be sent and drained are those the merger sent on |
| ProtocolChanges.NoLostChangeInEveryRun | pg/merger.go:38-158 | no lost change from the log to the pipeline, with its exact exception, in every run |
| ProtocolChanges.MergerAccountingInEveryRun | pg/merger.go:55-158 | received = sent on + held back + dropped; held-back keys lie outside every scanned range; nothing below its xmin is sent on while snapshotting |
| ProtocolLimits.EarlySwitchLosesARow | pg/connector.go:432-448 | a run in which the streaming phase is saved with a row still in the channel and a crash then loses the row |
| ProtocolLimits.AbandonedForever | pg/connector.go:360-369 | a process that has read nothing and thinks the snapshot is over never scans again in the rest of the run, crashes and restarts included |
| Limits.SparseKeyIsLost | pg/merger.go:149-157 | a concrete change lost beyond the estimated window |
| Limits.UuidChunksBufferNothing | pg/pk.go:44-50 | for UUID keys no chunk after the first buffers anything |
| Limits.CursorOfTheWrongTable | pg/connector.go:394-399 | with two tables the cursor of one can be saved for the other |
| ProtocolRuns.CursorIsSafeToSave | pg/connector.go:225-261 | the engine's cursor never moves back while the process runs, and every row that stays in the table and lies up to it is acknowledged, now or by an earlier process |
| ProtocolRuns.RangesTileInEveryRun | pg/snapshot.go:39-76 | a key lies in one scanned range, and only one, if and only if it is above the cursor resumed from and not above the scanner's |
| ProtocolAcks.AcksAreConfluentInEveryRun | pg/connector.go:169-265 | any two orders and groupings of the same acknowledgements end in the same state, phase and confirmed position included |
| ProtocolAcks.ProgressDeterminesInEveryRun | pg/connector.go:124-265 | two runs whose processes resumed from the same cursor and have drained and acknowledged the same messages agree on maps, chunks and cursor, whatever their tables, histories and what they have read beyond |
| ProtocolAcks.PhaseTurnsExactlyInEveryRun | pg/connector.go:220-223 | only a successful acknowledgement turns the phase, and it does if and only if the scan is done and the drained rows are then settled |
| ProtocolAcks.NothingLeftBehindInEveryRun | pg/connector.go:425-446 | then all rows read are acknowledged if and only if none is still under way |
| ProtocolChanges.DecidedByItsChunkInEveryRun | pg/merger.go:55-158 | while snapshotting a change is decided against the xmin of the one chunk that covers its key |
| ProtocolChanges.ChangeAboveTheScanInEveryRun | pg/merger.go:91-158 | the whole fate of a change above the last scanned key that the last read does not show: held back until completion and then sent on as often as delivered, unless it arrived before completion with a key outside (cursor, cursor.Next(n)], and then not at all |
| ProtocolChanges.ChangeOutsideTheScanInEveryRun | pg/merger.go:91-158 | the whole fate of a change of a key at or below the resumed cursor or of another table: sent on as often as delivered if the process does not scan or had completed its snapshot, not at all otherwise |
| ProtocolChanges.LostForGood | pg/merger.go:149-158 | a change lost in one of these three ways has no copy in the rest of the run of its process |
| ProtocolLimits.InsertAboveTheScanIsLost | pg/connector.go:425-449 | a complete run in which an insert above the scan, delivered before the completion, is lost for good |
| ProtocolLimits.ChangeBelowTheResumedCursorIsLost | pg/connector.go:401-414 | a complete run in which a change of a row saved as scanned is lost after a restart |
| ProtocolRestarts.PositionNeverMovesBack | pg/connector.go:194-200 | the position that a restart resumes from never moves back, across crashes too, and is never beyond the log: no transaction yet to commit is below it |
| ProtocolRestarts.PositionIsTheSavedOne | pg/connector.go:322-325 | as long as no save fails that position is the saved confirmed one, and what is reported to the database is no further |
| ProtocolRestarts.RestartSkipsExactly | pg/connector.go:322-334 | a restart passes over exactly the transactions below the position |
| ProtocolRestarts.NothingBeforeTheStart | pg/wal.go:50-65 | a process has no copy, drained, on the way or held back, of any change of a transaction before the one it started at |
| ProtocolRestarts.SkippedForGood | pg/connector.go:194-200 | what a restart has passed over comes from no later process either, and if it was not acknowledged then it never will be |
| ProtocolRestarts.ComesAgainExactly | pg/connector.go:322-334 | for every state of every run and every committed transaction: after a crash here it can be delivered again if and only if it is not below the position, acknowledged or not |
| ProtocolRestarts.RescanShowsWhatWasSkipped | pg/connector.go:401-414 | a process that has finished a scan has read every key above the cursor it resumed from as it was after all that the restart passed over, and no other key |
| ProtocolRestarts.EveryChangeIsAccountedFor | pg/connector.go:91-92 | there is no fifth way: once the snapshot is complete, each change was passed over at the restart, lost in one of the three ways of the merger, is on its way as often as delivered, or is shown by a snapshot taken after it |
| ProtocolStreaming.UnacknowledgedChangeIsSkipped | pg/connector.go:194-200 | a complete run in which a drained and unacknowledged change is skipped at the restart because a later one was acknowledged |
| ProtocolOrder.InLineExactly | pg/merger.go:84-122 | for every run and key: what is drained, in the channel, and still to be sent by scanner and streamer are the key's changes in the order decided, if and only if the streamer has never sent one while the scanner had one to send |
| ProtocolOrder.DecidedInCommitOrder | pg/merger.go:55-158 | the merger sends on the changes of one key in commit order, across chunk ends and the completion |
| ProtocolOrder.DrainedInCommitOrder | pg/merger.go:84-122 | so without overtaking the pipeline gets each key's changes in commit order |
| ProtocolStreaming.LaterChangeOvertakes | pg/merger.go:91-106 | a complete run that leaves two changes of a key in the channel the wrong way round |
| ProtocolChanges.SameKeyInOrderInEveryRun | pg/merger.go:55-158 | same-key changes are settled in arrival order, across chunk ends |
| HashRingObject.UntouchedKeysStay | broadway/message_processor_supervisor.go:82-109 | over any number of failures a key keeps its processor while that processor neither fails nor is paused |
| RingSpec.OnlyMembersMatter | broadway/hash_ring.go:49-54 | two hash-sorted lists of the same members are equal: no trace of the history of additions and removals |
| RingSpec.RemovalMovesOnlyItsKeys | broadway/hash_ring.go:62-79 | removing a node moves only its own keys, all to its ring successor |
| RingSpec.AdditionMovesOnlyFromTheFollower | broadway/hash_ring.go:41-55 | a joining node takes keys only from the node that follows it |
| HashRingObject.HashRing.AddNode | broadway/hash_ring.go:41-55 | member set and order; a node whose hash is taken is ignored |
| HashRingObject.HashRing.SortByHash | broadway/hash_ring.go:51-54 | sorted, with the same members |
| HashRingObject.HashRing.RemoveNode | broadway/hash_ring.go:62-79 | member set and order; list and map still agree if and only if no other member has the removed node's hash |
| HashRingObject.HashRing.GetNode | broadway/hash_ring.go:92-110 | the scan with wrap-around returns the one node nearest clockwise from the key, modulo 2^32 |
| HashRingObject.HashRing.GetNextNode | broadway/hash_ring.go:120-140 | the binary search returns the one node that comes first strictly clockwise |
| HashRingObject.Supervisor.HandleProcessorPanic | broadway/message_processor_supervisor.go:82-109 | when the failed processor leaves, its keys go to its ring successor and no other key moves; when the replacement joins, keys move only to it and only from the one processor that the call has paused |
| HashRingObject.Supervisor.Leave | broadway/message_processor_supervisor.go:89-89 | the first half: the removal and what it moves |
| HashRingObject.Supervisor.Join | broadway/message_processor_supervisor.go:91-109 | the second half: pause, join, resume, and what the joining moves |
| HashRingObject.ReplacementMoves | broadway/batcher.go:263-282 | over the whole replacement, keys of neither the failed nor the paused processor stay where they are |
| SliceQueue.Append | broadway/concurrent_queue.go:25-29 | append in place or in a new array: the contents, and what is not touched |
| SliceQueue.ConcurrentQueue.Enqueue | broadway/concurrent_queue.go:25-29 | contents appended; no batch handed out changes |
| SliceQueue.ConcurrentQueue.Dequeue | broadway/concurrent_queue.go:50-63 | first items out, rest kept, array shared |
| SliceQueue.ConcurrentQueue.DequeueAll | broadway/concurrent_queue.go:70-77 | everything out |
| SliceQueue.ConcurrentQueue.Prepend | broadway/concurrent_queue.go:35-39 | batch followed by queue, even when the batch's own array is overwritten behind it; no other batch handed out changes |
| SliceQueue.ConcurrentQueue.TakeAndGiveBack | broadway/batcher.go:204-221 | a batch taken and put back after any arrivals, reallocating or not, leaves the queue as if it had never left |
| BatcherSpec.KeysStayInOrder | broadway/batcher.go:111-228 | in every interleaving: accepted batches, batch in hand and queue of a key are the messages received with it, in order; batches hold 1 to BatchSize messages before the flush |
| BatcherSpec.FlushDeliversAll | broadway/batcher.go:165-186 | when the flush returns, every message received has been accepted, each key's in order |
| BatcherObject.Batcher.Receive | broadway/batcher.go:111-121 | every key's queue grows by the group's messages of that key, in order |
| BatcherObject.Batcher.Offer | broadway/batcher.go:201-221 | a full batch leaves the queue, or on a tick whatever is there, only if accepted, and is otherwise put back |
| BatcherObject.Batcher.Round | broadway/batcher.go:192-228 | one round over all queues in any order: a willing key's queue of at least BatchSize loses exactly its first BatchSize messages, a shorter one everything on a tick and nothing otherwise, and exactly that batch is accepted; no other queue changes and no key's line is disturbed |
| BatcherObject.Batcher.FlushRound | broadway/batcher.go:165-181 | one round of the flush delivers each willing key's queue whole as one batch, and deletes exactly the delivered and the empty queues |
| BatchProcessorSpec.HandOffIsSafe | broadway/batch_processor.go:61-154 | in every interleaving: one batch at a time under the lock; no send on the closed channel; no close while a batch is handled; batches acknowledged once each, in the order accepted, each with what became of its handling |
| BatchProcessorSpec.AcksTellTheEndings | broadway/batch_processor.go:76-100 | in every run the acknowledgements made, followed by the panic still to be told, are the endings of the handlings in order: a batch is acknowledged as panicked exactly if its handler panicked, and otherwise with the messages and error it returned |
| BatchProcessorSpec.TerminatedAcceptsNothing | broadway/batch_processor.go:132-143 | once a terminate has swapped the flag, nothing is accepted in the rest of the run |
| BatchProcessorSpec.PausedAcceptsAtMostOne | broadway/batch_processor.go:145-149 | from a pause or a panic until a resume, exactly what was accepted or on its way in to the channel before is accepted or on its way: at most the batch of a sender already past its check |
| BatchProcessorSpec.StrandedForever | broadway/batch_processor.go:117-131 | in the rest of the run the sender waiting for a dead worker is never freed and no batch is accepted |
| BatchProcessorSpec.StrandedOnlyByResume | broadway/batch_processor.go:80-90 | that happens only after somebody resumed the processor once its handler had panicked |
| BatchProcessorSpec.StrandedExactly | broadway/batch_processor.go:117-131 | the step that strands a sender, exactly: it looks at the flags while the worker is on its way out and finds the processor neither paused nor terminated |
| BatchProcessorSpec.ResumeCanStrandASender | broadway/batcher.go:275-281 | a run in which it happens |
| MessageProcessorObject.MessageProcessor.HandleOne | broadway/message_processor.go:218-240 | the default batcher, and for a message without a batch key of its own its partition key or the default; acknowledged at once exactly if nothing batches it or it failed |
| MessageProcessorObject.MessageProcessor.HandleAll | broadway/message_processor.go:218-243 | messages before a panic are handled, those from it on untouched |
| MessageProcessorObject.MessageProcessor.TrySend | broadway/message_processor.go:266-294 | accepted if and only if refused at most ten times |
| MessageProcessorObject.MessageProcessor.SendToBatchers | broadway/message_processor.go:257-300 | each configured batcher's group is taken whole or acknowledged as failed whole; a group of an unknown batcher is passed over; batcher and batch key stay as they are |
| MessageProcessorObject.MessageProcessor.Process | broadway/message_processor.go:215-255 | without a panic each message is acknowledged once or accepted once, never both, exactly if it was settled by the handler or its batcher is configured, under the batcher and batch key its handling gave it and with the error to match |
| MessageProcessorObject.MessageProcessor.FlushAndFailAll | broadway/message_processor.go:197-206 | everything queued is acknowledged once as failed |
| MessageProcessorObject.MessageProcessor.Turn | broadway/message_processor.go:97-154 | with a panic at any message, every message of the queue ends up acknowledged exactly once and accepted by nobody |
| ProducerObject.Request.Reply | broadway/request.go:35-46 | true exactly if the request was open and not closed while waiting |
| ProducerObject.Request.Close | broadway/request.go:27-32 | closed, whether or not it was before |
| ProducerObject.Producer.Serve | broadway/producer.go:225-243 | a request gets the next min(demand, left) messages or nothing; if it gets any, its demand or the rest is at zero |
| ProducerObject.Producer.Sweep | broadway/producer.go:245-250 | exactly the satisfied requests are closed and dropped |
| ProducerObject.Producer.Round | broadway/producer.go:216-253 | a round conserves messages and demand; if anything is left, every request that was open and not closing has had all it asked for |
| ProducerObject.Producer.SendMessages | broadway/producer.go:214-255 | over any rounds with arriving and closing requests: delivered in order + left = input; nobody gets more than was asked; if anything is left, every request, those that arrived included, was closed at the start or by its processor or was given all it asked for |
| ProducerObject.Producer.GroupByKey | broadway/producer.go:262-264 | each key's messages in their order |
| ProducerObject.Producer.FindRequest | broadway/producer.go:282-288 | the first request of the processor, and none only if it has none |
| ProducerObject.Producer.ServeGroup | broadway/producer.go:276-302 | a key's group goes out whole, to the first request of its processor, if and only if it has an owner, the owner is not closing its requests and has one, and its first one is open; how much that one asked for does not matter |
| ProducerObject.Producer.OfferGroup | broadway/producer.go:276-302 | a group is left exactly if at its lookup its key had no owner, or the owner no request or a first one closed or closing |
| ProducerObject.Producer.RoundByKey | broadway/producer.go:276-309 | a group left after a round had, as of the round's start, no owner, or an owner without a request or with a first one closed or closing; the satisfied requests are closed and dropped, and no other |
| ProducerObject.Producer.SendPartitionedMessages | broadway/producer.go:260-314 | over any rounds with a changing ring: every key's messages go out whole, in order, at most once, each group to the owner of its key on the ring as looked up in the round of its delivery; a group left at the end had in every single round no owner, or an owner that was closing, had a request closed from the start, or had no request arriving; nothing left means all delivered |

## Left out

- Connections, SQL text, replication calls, the offset store's own storage, JSON parsing: input and output. A chunk read is an ordered read with a snapshot point and an xmin; saving records the state and may fail, which the source ignores.
- Decoding of tuples and column values, except for keys: a parameter of the streamer, which depends on the relation as announced; rows and columns are opaque.
- Timers, tickers, sleeps, idle detection, contexts and their cancellation: steps happen in any order at any time. No liveness is claimed.
- Integer widths of transaction ids and log positions: natural numbers. `parseXMin` cuts 64-bit ids to 32 bits, which is not modelled. Chunk ids stay below the greatest int. `PK.Next` wraps around as int64 does.
- Several producers draining at once: taking an event from the channel and registering its chunk are one step here, although the source takes the lock only in between.
- Several tables in one run: chunk ids may collide and the cursor is reset while acknowledgements are outstanding. Events of other tables may be in the log.
- Saved scanned ranges: the source reads them at start but never writes them, so a process starts with none; duplicates across restarts are not excluded, and what this loses is in ProtocolChanges.ChangeOutsideTheScanInEveryRun.
- The order of rows against changes in the output: buffered changes go out before the chunk's rows, so replaying the output with the last write winning does not give the table. Delivery is proved, not replay.
- Protocol.Apply: the streamer's report is a step with any position up to the confirmed one; which positions it can be, notifications and drops included, is in module Positions.
- SnapshotterObject.Snapshotter.Run: runs on a table nobody writes to and with nobody else using the merger; concurrent transactions are in the state machine of module Capture, which takes the same steps.
- SnapshotterObject.ScanDeliversTheTable: on a static table likewise; on a changing one ProtocolRuns.CrashResumeCoverage says which rows are read.
- SnapshotterObject.Snapshotter.ReadChunk: takes the rows from the table's keys in order and the xmin from a given function of the chunk's number; that the query does so is Postgres' business.
- MergerObject.Merger.OnWALBatch: the channel is an unbounded sequence, so a send never blocks.
- BatcherObject.Batcher.Round: one round without arrivals in between; the interleaving is in BatcherSpec.
- HashRingObject.HashRing.GetNode: the read-write lock of the ring is not modelled, operations are atomic.
- HashRingObject.Supervisor.HandleProcessorPanic: processors are ids with a set of paused ones; that a paused processor finishes what it has begun is part of the other models.
- Deadlock freedom of batch processors: false, see BatchProcessorSpec.ResumeCanStrandASender.
- MessageProcessorObject.MessageProcessor.Turn: messages received while the recovery runs, a panic during flush, and handlers that return another message than they were given are not modelled.
- ProducerObject.Producer.SendPartitionedMessages: what each lookup finds of the ring is a parameter, any list in hash order; that the ring's list is in that order is HashRing's invariant.
- ProducerObject.Producer.RoundByKey: requests arrive between rounds, not during one, and a request is closed by its processor in answer to a reply.
- ProducerObject.Producer.SendMessages: the loop runs for any finite number of rounds; the wait between rounds and the termination flag are the end of the list of rounds.
- FNV-1a, pipeline wiring, producer and batcher supervisors, `concurrentMap` and `concurrentSlice` on their own, and the examples are not modelled.
