/** Where the merger and the engine fall short of their documentation, on concrete inputs. The exact
    conditions are in NoLostChange (module CaptureTheorems) and PhaseTurnsExactly (module ProtocolAcks). */
module Limits {
  import opened Keys
  import opened Wrappers
  import opened Cdc
  import opened MergerSpec
  import opened EngineSpec

  function ChangeOf(k: int, xid: nat, lsn: nat): CDCEvent
    requires MIN_INT64 <= k <= MAX_INT64
  {
    CDCEvent("", "t", Update, IntKey(k), None, Some(0), xid, lsn, 0, 0, Unset)
  }

  /** With sparse keys a chunk can reach beyond its estimated window. A change that arrives during the chunk with a
      key in between is dropped as not yet scanned, although the chunk's range then covers the key and its
      transaction is not below the xmin. */
  lemma SparseKeyIsLost()
    ensures var m := BeginChunk(MergerState(Snapshotting, [], None, []), Chunk(1, "t", IntKey(0), Next(IntKey(0), 10)));
            var e := ChangeOf(50, 7, 1);
            var received := Receive(m, [e]);
            && Decided(m, [e], Emit) == [] && received.pending == []
            && EndChunkEmits(received, 1, IntKey(60), 5) == []
            && Covers(EndChunk(received, 1, "t", IntKey(60), 5).scannedRanges[0], TableOf(e), e.pk) && e.commitXID >= 5
  {
    var m := BeginChunk(MergerState(Snapshotting, [], None, []), Chunk(1, "t", IntKey(0), Next(IntKey(0), 10)));
    var e := ChangeOf(50, 7, 1);
    WindowExtent(IntKey(0), 10, e.pk);
    assert Route(m, e) == Unscanned;
    assert [e][..0] == [];
  }

  /** For UUID keys the window is empty once the cursor is set: no chunk after the first buffers anything. */
  lemma UuidChunksBufferNothing(m: MergerState, u: Uuid, chunkID: int, size: nat, e: CDCEvent)
    requires 0 < size <= MAX_INT64
    ensures Route(BeginChunk(m, Chunk(chunkID, TableOf(e), UuidKey(u), Next(UuidKey(u), size))), e) != Buffer
  {
    WindowExtent(UuidKey(u), size, e.pk);
  }

  /** With a second table, the cursor of one can be saved for the other: the scanner has gone on to table b and reset
      the cursor while the last chunk of table a is unacknowledged; its acknowledgement sets a's key as b's cursor. */
  lemma CursorOfTheWrongTable()
    ensures var row := CDCEvent("", "a", Read, IntKey(100), None, Some(0), 0, 0, 1, 1, IntKey(100));
            var start := EngineState(map[], map[], map[], map[], {}, map[], false,
                                     CDCState(Snapshotting, 0, "a", Unset));
            var tracked := Track(start, row);
            var moved := tracked.(state := tracked.state.(currentSnapshotTable := "b", snapshotCursor := Unset));
            var acked := Acknowledge(moved, [row]);
            acked.state.currentSnapshotTable == "b" && acked.state.snapshotCursor == IntKey(100)
  {
    var row := CDCEvent("", "a", Read, IntKey(100), None, Some(0), 0, 0, 1, 1, IntKey(100));
    var start := EngineState(map[], map[], map[], map[], {}, map[], false, CDCState(Snapshotting, 0, "a", Unset));
    var tracked := Track(start, row);
    var moved := tracked.(state := tracked.state.(currentSnapshotTable := "b", snapshotCursor := Unset));
    OneRowOf(row);
    AcknowledgeRest(moved, [row]);
    OneChunkAcked(moved, row);
  }

  lemma OneRowOf(row: CDCEvent)
    requires row.operation == Read
    ensures MaxLSN([row]) == 0 && ReadIds([row]) == {row.chunkID} && ReadCount([row], row.chunkID) == 1
  {
    assert [row][..0] == [];
    assert row in [row];
  }

  /** The acknowledgement of the only row of the only chunk in flight. */
  lemma OneChunkAcked(e: EngineState, row: CDCEvent)
    requires row.operation == Read && 0 <= row.chunkID < MAX_INT && e.pendingChunks == {row.chunkID}
    requires e.completedChunks == map[] && e.chunkAcked == map[]
    requires e.chunkSizes == map[row.chunkID := 1] && e.chunkHighPK == map[row.chunkID := row.chunkHighPK]
    ensures Acknowledge(e, [row]).state.snapshotCursor == row.chunkHighPK
  {
    OneRowOf(row);
    var counted := CountAcks(e, [row], {row.chunkID});
    assert Finished(e, [row], {row.chunkID}) == {row.chunkID};
    assert counted.completedChunks == map[row.chunkID := row.chunkHighPK];
    var safe := Eligible(counted.pendingChunks, counted.completedChunks.Keys);
    assert safe == {row.chunkID};
    assert Greatest(safe) == row.chunkID;
  }
}
