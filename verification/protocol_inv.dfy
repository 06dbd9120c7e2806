/** What every step of the connector keeps: the engine's state is the one its drained and acknowledged
    rows call for, and no row at or below the saved cursor is unacknowledged. */
module ProtocolInvariant {
  import opened Keys
  import opened Wrappers
  import opened Cdc
  import opened EngineSpec
  import opened Watermark
  import opened Reads
  import opened Delivery
  import opened Protocol
  import Capture
  import CaptureInvariant
  import CaptureTheorems

  /** Chunk ids stay within an int. */
  ghost predicate Bounded(c: Capture.State) {
    && |c.chunks| < MAX_INT
    && (c.point == Capture.Begun || c.point.Snapped? ==> c.chunkID < MAX_INT - 1)
  }

  lemma ChunksAreNotEmpty(c: Capture.State)
    requires CaptureInvariant.Tiled(c)
    ensures NoEmptyChunk(c.chunks)
  {
    forall j | 0 <= j < |c.chunks| ensures c.chunks[j].rows != [] {
      assert CaptureInvariant.ChunkOk(c.config, c.chunks[j]);
    }
  }

  function Seen(d: seq<Message>): int {
    SeenOf(Rows(Events(d)))
  }

  ghost predicate EngineTracks(config: Capture.Config, start: PK, chunks: seq<Capture.ChunkRecord>, d: seq<Message>,
                               e: EngineState) {
    0 <= Seen(d) && Tracks(start, TableName(config), Extents(chunks), Seen(d), AcksOf(d, |chunks|), e)
  }

  lemma EngineTracksExtended(config: Capture.Config, start: PK, chunks: seq<Capture.ChunkRecord>,
                             c: Capture.ChunkRecord,
                             d: seq<Message>, underWay: seq<CDCEvent>, e: EngineState)
    requires FlowOk(config, chunks, d, underWay) && NoEmptyChunk(chunks) && |chunks| < MAX_INT - 1 && c.rows != []
    requires EngineTracks(config, start, chunks, d, e)
    ensures EngineTracks(config, start, chunks + [c], d, e)
  {
    CountsShaped(config, chunks, d, underWay);
    DrainedRowsPerChunk(config, chunks, d, underWay, |chunks| + 1);
    AckedWithin(d, |chunks| + 1);
    ExtendKeeps(start, TableName(config), Extents(chunks), Seen(d), AcksOf(d, |chunks|), e, Extent(|c.rows|, c.high));
    assert Extents(chunks + [c]) == Extents(chunks) + [Extent(|c.rows|, c.high)];
    assert AcksOf(d, |chunks + [c]|) == AcksOf(d, |chunks|) + [0];
  }

  lemma AcksUnchanged(d: seq<Message>, m: Message, n: nat)
    requires !m.acked
    ensures AcksOf(d + [m], n) == AcksOf(d, n)
  {
    assert (d + [m])[..|d|] == d;
  }

  lemma SeenAfter(d: seq<Message>, event: CDCEvent)
    ensures Seen(d + [Message(event, false)]) == if event.operation == Read then event.chunkID else Seen(d)
  {
    RowsOfDrained(d, event);
    RowsOfOne(event);
  }

  lemma EngineTracksRow(config: Capture.Config, start: PK, chunks: seq<Capture.ChunkRecord>,
                        d: seq<Message>, e: EngineState, event: CDCEvent, rest: seq<CDCEvent>)
    requires FlowOk(config, chunks, d, [event] + rest) && NoEmptyChunk(chunks) && |chunks| < MAX_INT
    requires EngineTracks(config, start, chunks, d, e) && event.operation == Read
    ensures 0 <= event.chunkID
    ensures Tracks(start, TableName(config), Extents(chunks), event.chunkID, AcksOf(d, |chunks|), Track(e, event))
  {
    CountsShaped(config, chunks, d, [event] + rest);
    NextRow(config, chunks, d, event, rest);
    TrackKeeps(start, TableName(config), Extents(chunks), Seen(d), AcksOf(d, |chunks|), e, event);
  }

  lemma EngineTracksDrain(config: Capture.Config, start: PK, chunks: seq<Capture.ChunkRecord>,
                          d: seq<Message>, e: EngineState, event: CDCEvent, rest: seq<CDCEvent>)
    requires FlowOk(config, chunks, d, Rows([event]) + rest) && NoEmptyChunk(chunks) && |chunks| < MAX_INT
    requires EngineTracks(config, start, chunks, d, e)
    ensures EngineTracks(config, start, chunks, d + [Message(event, false)], Track(e, event))
  {
    SeenAfter(d, event);
    AcksUnchanged(d, Message(event, false), |chunks|);
    RowsOfOne(event);
    if event.operation == Read {
      EngineTracksRow(config, start, chunks, d, e, event, rest);
    }
  }

  lemma EngineTracksAck(config: Capture.Config, start: PK, chunks: seq<Capture.ChunkRecord>,
                        d: seq<Message>, underWay: seq<CDCEvent>, e: EngineState, picks: seq<nat>)
    requires FlowOk(config, chunks, d, underWay) && NoEmptyChunk(chunks) && |chunks| < MAX_INT && Pickable(d, picks)
    requires EngineTracks(config, start, chunks, d, e)
    ensures EngineTracks(config, start, chunks, Mark(d, picks), Acknowledge(e, Picked(d, picks)))
    ensures Lead(Extents(chunks), AcksOf(d, |chunks|), 0) <= Lead(Extents(chunks), AcksOf(Mark(d, picks), |chunks|), 0)
  {
    CountsShaped(config, chunks, d, underWay);
    PickedMayAck(config, chunks, d, underWay, picks);
    AcknowledgeKeeps(start, TableName(config), Extents(chunks), Seen(d), AcksOf(d, |chunks|), e, Picked(d, picks));
  }

  ghost predicate WorldTracks(w: World) {
    EngineTracks(w.capture.config, w.capture.start, w.capture.chunks, w.drained, w.engine)
  }

  lemma WorldTracksCapture(w: World, s: Capture.Step)
    requires WorldTracks(w) && Flowing(w) && CaptureInvariant.Tiled(w.capture) && Bounded(w.capture)
    requires Enabled(w, Captures(s))
    ensures WorldTracks(AfterCapture(w, s))
  {
    ChunksAreNotEmpty(w.capture);
    if s.DoScanEnd? {
      var c := Capture.NewChunk(w.capture, s.rows);
      EngineTracksExtended(w.capture.config, w.capture.start, w.capture.chunks, c, w.drained, UnderWay(w), w.engine);
    } else {
      var w' := AfterCapture(w, s);
      assert w'.capture.chunks == w.capture.chunks && w'.capture.config == w.capture.config;
      assert w'.capture.start == w.capture.start && w'.drained == w.drained && w'.engine == w.engine;
    }
  }

  lemma HeadUnderWay(output: seq<CDCEvent>, out: seq<CDCEvent>)
    requires output != []
    ensures Rows([output[0]]) + (Rows(output[1..]) + out) == Rows(output) + out
  {
    RowsOfHead(output);
  }

  lemma WorldTracksDrain(w: World)
    requires WorldTracks(w) && Flowing(w) && CaptureInvariant.Tiled(w.capture) && Bounded(w.capture) && w.output != []
    ensures EngineTracks(w.capture.config, w.capture.start, w.capture.chunks,
                         w.drained + [Message(w.output[0], false)], Track(w.engine, w.output[0]))
  {
    ChunksAreNotEmpty(w.capture);
    HeadUnderWay(w.output, Rows(w.scanOut));
    EngineTracksDrain(w.capture.config, w.capture.start, w.capture.chunks, w.drained, w.engine, w.output[0],
                      Rows(w.output[1..]) + Rows(w.scanOut));
  }

  lemma WorldTracksSuccess(w: World, picks: seq<nat>)
    requires WorldTracks(w) && Flowing(w) && CaptureInvariant.Tiled(w.capture) && Bounded(w.capture)
    requires Pickable(w.drained, picks)
    ensures WorldTracks(AfterSuccess(w, picks))
  {
    ChunksAreNotEmpty(w.capture);
    EngineTracksAck(w.capture.config, w.capture.start, w.capture.chunks, w.drained, UnderWay(w), w.engine, picks);
  }

  lemma WorldTracksStart(config: Capture.Config, db: Capture.Db, saved: CDCState, from: nat, slot: nat,
                         earlier: set<PK>, earlierChanges: set<CDCEvent>)
    requires Resumable(config.table, saved)
    ensures WorldTracks(Started(config, db, saved, from, slot, earlier, earlierChanges))
    ensures Flowing(Started(config, db, saved, from, slot, earlier, earlierChanges))
  {
    var w := Started(config, db, saved, from, slot, earlier, earlierChanges);
    assert Events([]) == [];
    assert Extents([]) == [] && AcksOf([], 0) == [];
    TracksAtStart(w.capture.start, TableName(config), w.engine);
  }

  /** Everything about a running process. */
  ghost predicate RunningOf(c: Capture.State, d: seq<Message>, underWay: seq<CDCEvent>, walOut: seq<CDCEvent>,
                            e: EngineState) {
    && CaptureTheorems.Inv(c) && Bounded(c)
    && FlowingOf(c, d, underWay, walOut)
    && EngineTracks(c.config, c.start, c.chunks, d, e)
  }

  ghost predicate Running(w: World) {
    RunningOf(w.capture, w.drained, UnderWay(w), w.walOut, w.engine)
  }

  lemma BoundedKept(c: Capture.State, s: Capture.Step)
    requires Bounded(c) && c.chunkID == |c.chunks| + 1 && Capture.Enabled(c, s)
    ensures Bounded(Capture.Apply(c, s))
  {
  }

  lemma CaptureSteps(w: World, s: Capture.Step)
    requires Enabled(w, Captures(s))
    ensures AfterCapture(w, s).capture == Capture.Apply(w.capture, s)
  {
  }

  lemma RunningCapture(w: World, s: Capture.Step)
    requires Running(w) && Enabled(w, Captures(s))
    ensures Running(AfterCapture(w, s))
  {
    CaptureTheorems.InvKept(w.capture, s);
    BoundedKept(w.capture, s);
    CaptureSteps(w, s);
    FlowingCapture(w, s);
    WorldTracksCapture(w, s);
  }

  lemma RunningScannerSends(w: World)
    requires Running(w) && w.scanOut != []
    ensures Running(AfterScannerSends(w))
  {
    FlowingScannerSends(w);
  }

  lemma RunningStreamerSends(w: World)
    requires Running(w) && w.walOut != []
    ensures Running(AfterStreamerSends(w))
  {
    FlowingStreamerSends(w);
  }

  lemma RunningDrain(w: World)
    requires Running(w) && w.output != []
    ensures Running(AfterDrain(w))
  {
    FlowingDrain(w);
    WorldTracksDrain(w);
  }

  lemma RunningSuccess(w: World, picks: seq<nat>)
    requires Running(w) && Pickable(w.drained, picks)
    ensures Running(AfterSuccess(w, picks))
  {
    FlowingSuccess(w, picks);
    WorldTracksSuccess(w, picks);
  }

  lemma RunningMarked(w: World)
    requires Running(w)
    ensures Running(AfterMark(w))
  {
    StateFieldsDoNotMatter(w.capture.start, TableName(w.capture.config), Extents(w.capture.chunks), Seen(w.drained),
                           AcksOf(w.drained, |w.capture.chunks|), w.engine, w.engine.(snapshotScanDone := true));
  }

  lemma RunningKept(w: World, step: Step)
    requires Running(w) && Enabled(w, step) && (step.Crash? ==> Resumable(w.capture.config.table, w.saved))
    ensures Running(Apply(w, step))
  {
    match step
    case Captures(s) => RunningCapture(w, s);
    case MarkScanDone => RunningMarked(w);
    case WaitEnds =>
    case ScannerSends => RunningScannerSends(w);
    case StreamerSends => RunningStreamerSends(w);
    case Drain => RunningDrain(w);
    case Ack(picks, failed, stored) => RunningSuccess(w, picks);
    case Report(position) =>
    case Crash(from) =>
      RunningAtStart(w.capture.config, w.capture.db, w.saved, from, w.slot,
                     w.earlier + AckedKeys(w.drained), w.earlierChanges + AckedChanges(w.drained));
  }

  lemma RunningAtStart(config: Capture.Config, db: Capture.Db, saved: CDCState, from: nat, slot: nat,
                       earlier: set<PK>, earlierChanges: set<CDCEvent>)
    requires CaptureInvariant.LogOk(db) && from <= |db.log| && Resumable(config.table, saved)
    ensures Running(Started(config, db, saved, from, slot, earlier, earlierChanges))
  {
    var w := Started(config, db, saved, from, slot, earlier, earlierChanges);
    CaptureTheorems.InvAtStart(config, db, saved.phase, saved.snapshotCursor, from);
    WorldTracksStart(config, db, saved, from, slot, earlier, earlierChanges);
  }

  // ---- rows at or below the cursor are acknowledged ----

  /** Every drained row up to the cursor is acknowledged and no undrained row is. */
  ghost predicate AckedUpTo(w: World, cursor: PK) {
    && (forall p :: 0 <= p < |w.drained| && w.drained[p].event.operation == Read ==>
          Rank(w.drained[p].event.pk) <= Rank(cursor) ==> w.drained[p].acked)
    && (forall e <- UnderWay(w) :: Rank(e.pk) > Rank(cursor))
  }

  lemma RowAboveLow(config: Capture.Config, c: Capture.ChunkRecord, k: PK)
    requires Capture.IsChunkRead(c.rows, c.image, c.low, config.chunkSize) && k in c.rows
    ensures Rank(c.low) < Rank(k)
  {
    var i :| 0 <= i < |c.rows| && c.rows[i] == k;
  }

  lemma PlaceInScan(s: Capture.State, e: CDCEvent, j: nat)
    requires CaptureInvariant.ReadsOk(s) && RowOk(s.config, s.chunks, e) && e.chunkID == j + 1
    ensures Rank(s.chunks[j].low) < Rank(e.pk)
  {
    RowAboveLow(s.config, s.chunks[j], e.pk);
  }

  lemma FullBelow(c: Capture.State, acks: seq<nat>, id: int, j: nat, k: PK)
    requires CaptureInvariant.Tiled(c) && |acks| == |c.chunks| && j < |c.chunks| && id == j + 1
    requires Rank(c.chunks[j].low) < Rank(k)
    requires Rank(k) <= Rank(CursorAt(c.start, Extents(c.chunks), Lead(Extents(c.chunks), acks, 0)))
    ensures Full(Extents(c.chunks), acks, id)
  {
    var lead := Lead(Extents(c.chunks), acks, 0);
    if lead <= j {
      LowsAscend(c, lead, j);
    }
  }

  /** A row at or below the cursor belongs to one of the leading full chunks. */
  lemma RowBelowCursor(w: World, e: CDCEvent)
    requires Running(w) && RowOk(w.capture.config, w.capture.chunks, e)
    requires Rank(e.pk) <= Rank(w.engine.state.snapshotCursor)
    ensures Full(Extents(w.capture.chunks), AcksOf(w.drained, |w.capture.chunks|), e.chunkID)
  {
    var j: nat := e.chunkID - 1;
    PlaceInScan(w.capture, e, j);
    FullBelow(w.capture, AcksOf(w.drained, |w.capture.chunks|), e.chunkID, j, e.pk);
  }

  lemma LowsAscend(c: Capture.State, lead: nat, j: nat)
    requires CaptureInvariant.Tiled(c) && lead <= j < |c.chunks|
    ensures Rank(CursorAt(c.start, Extents(c.chunks), lead)) <= Rank(c.chunks[j].low)
  {
    if lead == 0 {
      CaptureTheorems.ChunkIsScanned(c.config, c.start, c.chunks, j);
    } else {
      assert c.chunks[lead - 1].high == Extents(c.chunks)[lead - 1].high;
    }
  }

  /** Watermark safety: every row read with a key at or below the engine's cursor has been drained
      and acknowledged without error. */
  lemma WatermarkSafety(w: World)
    requires Running(w)
    ensures AckedUpTo(w, w.engine.state.snapshotCursor)
  {
    var config, chunks := w.capture.config, w.capture.chunks;
    var cursor := w.engine.state.snapshotCursor;
    AllRowsOk(config, chunks);
    var all := AllReads(config, chunks);
    forall p | 0 <= p < |w.drained| && w.drained[p].event.operation == Read &&
           Rank(w.drained[p].event.pk) <= Rank(cursor)
      ensures w.drained[p].acked
    {
      var e := w.drained[p].event;
      assert Events(w.drained)[p] == e;
      RowsMembers(Events(w.drained), e);
      assert e in all;
      RowBelowCursor(w, e);
      FullChunkIsAcked(config, chunks, w.drained, UnderWay(w), e.chunkID);
    }
    forall e | e in UnderWay(w) ensures Rank(e.pk) > Rank(cursor) {
      assert e in all;
      if Rank(e.pk) <= Rank(cursor) {
        RowBelowCursor(w, e);
        FullChunkIsAcked(config, chunks, w.drained, UnderWay(w), e.chunkID);
      }
    }
  }

  /** A completed chunk that has not moved the cursor waits for an earlier one still pending. */
  lemma WaitingWorld(w: World)
    requires Running(w)
    ensures forall id <- w.engine.completedChunks :: exists p <- w.engine.pendingChunks :: p < id
  {
    if w.engine.completedChunks != map[] {
      ChunksAreNotEmpty(w.capture);
      CountsShaped(w.capture.config, w.capture.chunks, w.drained, UnderWay(w));
      WaitingHasPendingPredecessor(w.capture.start, TableName(w.capture.config), Extents(w.capture.chunks),
                                   Seen(w.drained), AcksOf(w.drained, |w.capture.chunks|), w.engine);
    }
  }
}
