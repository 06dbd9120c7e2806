/** What every step of the capture protocol keeps. */
module CaptureInvariant {
  import opened Keys
  import opened Wrappers
  import opened Cdc
  import opened MergerSpec
  import opened Capture

  /** A finished chunk has at least one row, and its range ends at the last of them. */
  ghost predicate ChunkOk(config: Config, c: ChunkRecord) {
    && c.window == Next(c.low, config.chunkSize)
    && c.rows != []
    && c.high == c.rows[|c.rows| - 1]
    && Rank(c.low) < Rank(c.high)
  }

  function LowOf(start: PK, chunks: seq<ChunkRecord>, j: nat): PK
    requires j <= |chunks|
  {
    if j == 0 then start else chunks[j - 1].high
  }

  /** Chunk j starts where its predecessor stopped. */
  predicate Linked(start: PK, chunks: seq<ChunkRecord>, j: nat)
    requires j < |chunks|
  {
    chunks[j].low == LowOf(start, chunks, j)
  }

  /** Chunks are contiguous, non-empty and ascending. */
  ghost predicate Tiling(config: Config, start: PK, chunks: seq<ChunkRecord>) {
    && (forall j :: 0 <= j < |chunks| ==> ChunkOk(config, chunks[j]))
    && (forall j :: 0 <= j < |chunks| ==> Linked(start, chunks, j))
    && Ascending(chunks)
  }

  ghost predicate Ascending(chunks: seq<ChunkRecord>) {
    forall i, j :: 0 <= i < j < |chunks| ==> Rank(chunks[i].high) <= Rank(chunks[j].low)
  }

  ghost predicate Tiled(s: State) {
    && s.chunkID == |s.chunks| + 1
    && s.cursor == LastHigh(s.start, s.chunks)
    && Tiling(s.config, s.start, s.chunks)
  }

  lemma AscendingExtended(config: Config, chunks: seq<ChunkRecord>, c: ChunkRecord)
    requires Ascending(chunks)
    requires chunks != [] ==> ChunkOk(config, chunks[|chunks| - 1]) && c.low == chunks[|chunks| - 1].high
    ensures Ascending(chunks + [c])
  {
  }

  lemma TilingExtended(config: Config, start: PK, chunks: seq<ChunkRecord>, c: ChunkRecord)
    requires Tiling(config, start, chunks) && ChunkOk(config, c) && c.low == LastHigh(start, chunks)
    ensures Tiling(config, start, chunks + [c])
  {
    AscendingExtended(config, chunks, c);
    forall j | 0 <= j < |chunks + [c]| ensures Linked(start, chunks + [c], j) {
      assert j < |chunks| ==> Linked(start, chunks, j);
    }
  }

  lemma NewChunkOk(s: State, rows: seq<PK>)
    requires rows != [] && MayScanRead(s, rows)
    ensures ChunkOk(s.config, NewChunk(s, rows))
  {
  }

  lemma TiledScanEnd(s: State, rows: seq<PK>)
    requires Tiled(s) && rows != [] && MayScanRead(s, rows)
    ensures Tiled(ScanEnd(s, rows))
  {
    NewChunkOk(s, rows);
    TilingExtended(s.config, s.start, s.chunks, NewChunk(s, rows));
  }

  lemma TiledKept(s: State, step: Step)
    requires Tiled(s) && Enabled(s, step)
    ensures Tiled(Apply(s, step))
  {
    if step.DoScanEnd? {
      TiledScanEnd(s, step.rows);
    } else {
      var s' := Apply(s, step);
      assert s'.chunks == s.chunks && s'.config == s.config && s'.start == s.start;
    }
  }

  /** Two chunks never cover the same key. */
  lemma OneChunkCovers(config: Config, start: PK, chunks: seq<ChunkRecord>, i: nat, j: nat, pk: PK)
    requires Tiling(config, start, chunks) && i < |chunks| && j < |chunks|
    requires Within(pk, chunks[i].low, chunks[i].high) && Within(pk, chunks[j].low, chunks[j].high)
    ensures i == j
  {
  }

  /** Each chunk holds exactly what its snapshot showed above its lower bound, up to its high. */
  ghost predicate ReadsOk(s: State) {
    forall j :: 0 <= j < |s.chunks| ==>
      IsChunkRead(s.chunks[j].rows, s.chunks[j].image, s.chunks[j].low, s.config.chunkSize)
  }

  lemma ReadsOkKept(s: State, step: Step)
    requires ReadsOk(s) && Enabled(s, step)
    ensures ReadsOk(Apply(s, step))
  {
  }

  /** While snapshotting the merger's ranges are those of the finished chunks, and its current chunk
      is the one the scanner is in; once streaming it holds nothing. */
  ghost predicate MergerKnown(s: State) {
    if s.merger.phase == Snapshotting then
      && s.point != Off && s.completed.None?
      && s.merger.scannedRanges == Ranges(s.config, s.chunks)
      && s.merger.currentChunk ==
         (if s.point == Ready then None
          else Some(Chunk(s.chunkID, s.config.table, s.cursor, Next(s.cursor, s.config.chunkSize))))
    else
      && s.merger == MergerState(Streaming, [], None, [])
      && (if s.point == Off then s.completed.None? && s.chunks == [] else s.point.Exhausted? && s.completed.Some?)
  }

  lemma NothingBufferedWhileStreaming(m: MergerState, events: seq<CDCEvent>)
    requires m.phase == Streaming
    ensures Decided(m, events, Buffer) == []
  {
    if Decided(m, events, Buffer) != [] {
      var e := Decided(m, events, Buffer)[0];
      DecidedMembers(m, events, Buffer, e);
    }
  }

  lemma MergerKnownKept(s: State, step: Step)
    requires MergerKnown(s) && Enabled(s, step)
    ensures MergerKnown(Apply(s, step))
  {
    match step
    case DoScanEnd(rows) =>
      var c := NewChunk(s, rows);
      assert Ranges(s.config, s.chunks + [c]) == Ranges(s.config, s.chunks) + [RangeOf(s.config, c)];
    case DoDeliver =>
      if s.merger.phase == Streaming {
        var events := EventsOf(s.db.log[s.delivered]);
        NothingBufferedWhileStreaming(s.merger, events);
      }
    case _ =>
  }

  /** The database's log is in commit order, and a snapshot's xmin bounds every later commit. */
  ghost predicate LogOk(db: Db) {
    && (forall a <- db.active :: a < db.nextXid)
    && (forall i, j :: 0 <= i < j < |db.log| ==> db.log[i].lsn < db.log[j].lsn)
    && (forall t, e :: 0 <= t < |db.log| && e in EventsOf(db.log[t]) ==>
          e.operation != Read && e.commitXID == db.log[t].xid && e.commitLSN == db.log[t].lsn)
  }

  lemma LogOkKept(s: State, step: Step)
    requires LogOk(s.db) && Enabled(s, step)
    ensures LogOk(Apply(s, step).db)
  {
  }

  ghost predicate XMinOk(db: Db, xmin: nat, visible: nat) {
    && visible <= |db.log|
    && xmin <= db.nextXid
    && (forall a <- db.active :: xmin <= a)
    && (forall t :: visible <= t < |db.log| ==> xmin <= db.log[t].xid)
  }

  ghost predicate SnapshotsOk(s: State) {
    && (forall j :: 0 <= j < |s.chunks| ==> XMinOk(s.db, s.chunks[j].xmin, s.chunks[j].visible))
    && (s.point.Snapped? ==> XMinOk(s.db, s.point.xmin, s.point.visible))
  }

  lemma XMinOkKept(s: State, step: Step, xmin: nat, visible: nat)
    requires XMinOk(s.db, xmin, visible) && Enabled(s, step)
    ensures XMinOk(Apply(s, step).db, xmin, visible)
  {
  }

  lemma SnapshotsOkKept(s: State, step: Step)
    requires SnapshotsOk(s) && Enabled(s, step)
    ensures SnapshotsOk(Apply(s, step))
  {
    forall xmin: nat, visible: nat | XMinOk(s.db, xmin, visible) ensures XMinOk(Apply(s, step).db, xmin, visible) {
      XMinOkKept(s, step, xmin, visible);
    }
  }

  /** The order of events in a run: chunks begin, take their snapshot and end one after another. */
  ghost predicate Timed(s: State) {
    && s.from <= s.begun <= s.delivered <= |s.db.log|
    && |s.arrivals| == s.delivered - s.from
    && (s.point.Snapped? || s.point.Exhausted? ==> s.begun <= s.point.visible)
    && (s.completed.Some? ==> s.point.Exhausted? && s.begun <= s.completed.value <= s.delivered)
    && (forall j :: 0 <= j < |s.chunks| ==>
          ChunkTimed(s.from, if s.point == Ready then s.delivered else s.begun, s.chunks[j]))
    && OneAfterAnother(s.chunks)
  }

  predicate ChunkTimed(from: nat, until: nat, c: ChunkRecord) {
    from <= c.begun <= c.ended <= until && c.begun <= c.visible
  }

  ghost predicate OneAfterAnother(chunks: seq<ChunkRecord>) {
    forall i, j :: 0 <= i < j < |chunks| ==> chunks[i].ended <= chunks[j].begun
  }

  lemma AnotherAfter(chunks: seq<ChunkRecord>, c: ChunkRecord)
    requires OneAfterAnother(chunks) && forall i :: 0 <= i < |chunks| ==> chunks[i].ended <= c.begun
    ensures OneAfterAnother(chunks + [c])
  {
  }

  lemma TimedKept(s: State, step: Step)
    requires Timed(s) && Enabled(s, step)
    ensures Timed(Apply(s, step))
  {
    match step
    case DoScanEnd(rows) => TimedScanEnd(s, rows);
    case DoDeliver => TimedDeliver(s);
    case _ =>
  }

  lemma TimedScanEnd(s: State, rows: seq<PK>)
    requires Timed(s) && rows != [] && MayScanRead(s, rows)
    ensures Timed(ScanEnd(s, rows))
  {
    AnotherAfter(s.chunks, NewChunk(s, rows));
  }

  lemma TimedDeliver(s: State)
    requires Timed(s) && s.delivered < |s.db.log|
    ensures Timed(Deliver(s))
  {
  }

  /** What the merger held when transaction t arrived, as far as finished chunk j goes: whether its
      range was there, and that it was the chunk in progress if t arrived between its begin and end. */
  ghost predicate FoundChunk(config: Config, c: ChunkRecord, j: nat, t: nat, a: Arrival) {
    && (c.ended <= t <==> j < a.ended)
    && (c.begun <= t < c.ended ==> FoundInProgress(config, a.merger, j + 1, c.low, c.window))
  }

  ghost predicate FoundInProgress(config: Config, m: MergerState, id: int, low: PK, window: PK) {
    m.phase == Snapshotting && m.currentChunk == Some(Chunk(id, config.table, low, window))
  }

  ghost predicate FoundChunks(config: Config, chunks: seq<ChunkRecord>, t: nat, a: Arrival) {
    forall j :: 0 <= j < |chunks| ==> FoundChunk(config, chunks[j], j, t, a)
  }

  ghost predicate FoundRanges(config: Config, chunks: seq<ChunkRecord>, a: Arrival) {
    a.ended <= |chunks| &&
    (a.merger.phase == Snapshotting ==> a.merger.scannedRanges == Ranges(config, chunks[..a.ended]))
  }

  /** Transaction t arrived when the merger passed everything on: the process never scans, or its snapshot was
      complete by then. */
  predicate PassedOn(s: State, t: nat) {
    s.point == Off || (s.completed.Some? && s.completed.value <= t)
  }

  /** Otherwise the merger was snapshotting; and if the chunk the scanner is in had begun, it was in progress. */
  ghost predicate FoundCurrent(s: State, t: nat, a: Arrival) {
    if PassedOn(s, t) then a.merger.phase == Streaming
    else
      && a.merger.phase == Snapshotting
      && (s.point != Ready && s.begun <= t ==>
            FoundInProgress(s.config, a.merger, s.chunkID, s.cursor, Next(s.cursor, s.config.chunkSize)))
  }

  ghost predicate Found(s: State, t: nat, a: Arrival) {
    FoundChunks(s.config, s.chunks, t, a) && FoundRanges(s.config, s.chunks, a) && FoundCurrent(s, t, a)
  }

  ghost predicate ArrivalsKnown(s: State) {
    |s.arrivals| == s.delivered - s.from &&
    forall i :: 0 <= i < |s.arrivals| ==> Found(s, s.from + i, s.arrivals[i])
  }

  lemma FoundChunksEnded(s: State, rows: seq<PK>, t: nat, a: Arrival)
    requires s.chunkID == |s.chunks| + 1 && s.completed.None?
    requires rows != [] && s.point.Snapped? && s.point.visible <= |s.db.log|
    requires t < s.delivered && Found(s, t, a)
    ensures FoundChunks(s.config, ScanEnd(s, rows).chunks, t, a)
  {
  }

  lemma FoundRangesExtended(config: Config, chunks: seq<ChunkRecord>, c: ChunkRecord, a: Arrival)
    requires FoundRanges(config, chunks, a)
    ensures FoundRanges(config, chunks + [c], a)
  {
    assert (chunks + [c])[..a.ended] == chunks[..a.ended];
  }

  lemma FoundKept(s: State, step: Step, t: nat, a: Arrival)
    requires s.chunkID == |s.chunks| + 1 && MergerKnown(s) && Timed(s) && Enabled(s, step)
    requires t < s.delivered && Found(s, t, a)
    ensures Found(Apply(s, step), t, a)
  {
    if step.DoScanEnd? {
      FoundChunksEnded(s, step.rows, t, a);
      FoundRangesExtended(s.config, s.chunks, NewChunk(s, step.rows), a);
    }
  }

  lemma ArrivalFound(s: State)
    requires MergerKnown(s) && Timed(s) && s.delivered < |s.db.log|
    ensures Found(Deliver(s), s.delivered, Arrival(s.merger, |s.chunks|))
  {
    assert s.chunks[..|s.chunks|] == s.chunks;
  }

  lemma ArrivalsKnownKept(s: State, step: Step)
    requires s.chunkID == |s.chunks| + 1 && MergerKnown(s) && Timed(s) && ArrivalsKnown(s) && Enabled(s, step)
    ensures ArrivalsKnown(Apply(s, step))
  {
    ArrivalsStayFound(s, step);
    if step.DoDeliver? {
      assert Found(Deliver(s), s.delivered, Arrival(s.merger, |s.chunks|)) by {
        ArrivalFound(s);
      }
      OneMoreFound(s, Deliver(s), Arrival(s.merger, |s.chunks|));
    } else {
      ArrivalsAsBefore(s, step);
      NoMoreFound(s, Apply(s, step));
    }
  }

  lemma NoMoreFound(s: State, s': State)
    requires s'.arrivals == s.arrivals && s'.from == s.from && s'.delivered == s.delivered && ArrivalsKnown(s)
    requires forall i :: 0 <= i < |s.arrivals| ==> Found(s', s.from + i, s.arrivals[i])
    ensures ArrivalsKnown(s')
  {
  }

  lemma OneMoreFound(s: State, s': State, a: Arrival)
    requires s'.arrivals == s.arrivals + [a] && s'.from == s.from && s'.delivered == s.delivered + 1 && ArrivalsKnown(s)
    requires forall i :: 0 <= i < |s.arrivals| ==> Found(s', s.from + i, s.arrivals[i])
    requires Found(s', s.delivered, a)
    ensures ArrivalsKnown(s')
  {
    assert s.from + |s.arrivals| == s.delivered;
  }

  lemma ArrivalsAsBefore(s: State, step: Step)
    requires Enabled(s, step) && !step.DoDeliver?
    ensures var s' := Apply(s, step); s'.arrivals == s.arrivals && s'.from == s.from && s'.delivered == s.delivered
  {
  }

  lemma ArrivalsStayFound(s: State, step: Step)
    requires s.chunkID == |s.chunks| + 1 && MergerKnown(s) && Timed(s) && ArrivalsKnown(s) && Enabled(s, step)
    ensures forall i :: 0 <= i < |s.arrivals| ==> Found(Apply(s, step), s.from + i, s.arrivals[i])
  {
    forall i | 0 <= i < |s.arrivals| ensures Found(Apply(s, step), s.from + i, s.arrivals[i]) {
      FoundKept(s, step, s.from + i, s.arrivals[i]);
    }
  }

  /** A chunk in progress is the table's and never reaches below the cursor the scan started from. */
  predicate StartsAbove(config: Config, start: PK, m: MergerState) {
    m.currentChunk.Some? ==>
      m.currentChunk.value.table == config.table && Rank(start) <= Rank(m.currentChunk.value.pkLow)
  }

  ghost predicate ArrivalsAbove(s: State) {
    forall i :: 0 <= i < |s.arrivals| ==> StartsAbove(s.config, s.start, s.arrivals[i].merger)
  }

  lemma CurrentStartsAbove(s: State)
    requires Tiled(s) && MergerKnown(s)
    ensures StartsAbove(s.config, s.start, s.merger)
  {
    if s.chunks != [] {
      assert ChunkOk(s.config, s.chunks[0]) && ChunkOk(s.config, s.chunks[|s.chunks| - 1]);
      assert Linked(s.start, s.chunks, 0);
    }
  }

  lemma ArrivalsAboveKept(s: State, step: Step)
    requires ArrivalsAbove(s) && Tiled(s) && MergerKnown(s) && Enabled(s, step)
    ensures ArrivalsAbove(Apply(s, step))
  {
    if step.DoDeliver? {
      CurrentStartsAbove(s);
    }
  }
}
