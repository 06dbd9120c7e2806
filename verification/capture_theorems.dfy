/** What the capture protocol guarantees in every reachable state. */
module CaptureTheorems {
  import opened Keys
  import opened Wrappers
  import opened Cdc
  import opened MergerSpec
  import opened Capture
  import opened CaptureInvariant
  import opened CaptureFate

  /** Every chunk's rows come from the table as its snapshot saw it. */
  ghost predicate ImagesOk(s: State) {
    && (forall j :: 0 <= j < |s.chunks| ==>
          s.chunks[j].visible <= |s.db.log| &&
          s.chunks[j].image == TableAt(s.config.table, s.db, s.chunks[j].visible))
    && (s.point.Snapped? ==> s.point.visible <= |s.db.log|)
  }

  lemma {:induction false} PastIsFixed(table: string, db: Db, db': Db, n: nat)
    requires n <= |db.log| <= |db'.log| && db.base == db'.base && db'.log[..|db.log|] == db.log
    ensures TableAt(table, db, n) == TableAt(table, db', n)
  {
    if n > 0 {
      PastIsFixed(table, db, db', n - 1);
      assert db'.log[n - 1] == db'.log[..|db.log|][n - 1];
    }
  }

  lemma ImagesOkKept(s: State, step: Step)
    requires ImagesOk(s) && Enabled(s, step)
    ensures ImagesOk(Apply(s, step))
  {
    var s' := Apply(s, step);
    assert s'.db.log[..|s.db.log|] == s.db.log;
    forall n: nat | n <= |s.db.log| ensures TableAt(s.config.table, s.db, n) == TableAt(s.config.table, s'.db, n) {
      PastIsFixed(s.config.table, s.db, s'.db, n);
    }
  }

  /** The last, empty read saw no key above the cursor. */
  ghost predicate LastReadOk(s: State) {
    s.point.Exhausted? ==>
      && s.point.visible <= |s.db.log|
      && forall k <- TableAt(s.config.table, s.db, s.point.visible) :: Rank(k) <= Rank(s.cursor)
  }

  lemma LastReadOkKept(s: State, step: Step)
    requires LastReadOk(s) && Enabled(s, step)
    ensures LastReadOk(Apply(s, step))
  {
    var s' := Apply(s, step);
    if s'.point.Exhausted? {
      assert s'.db.log[..|s.db.log|] == s.db.log;
      PastIsFixed(s.config.table, s.db, s'.db, s'.point.visible);
    }
  }

  ghost predicate Inv(s: State) {
    && Tiled(s) && ReadsOk(s) && MergerKnown(s) && LogOk(s.db) && SnapshotsOk(s) && Timed(s) && ArrivalsKnown(s)
    && ArrivalsAbove(s) && ImagesOk(s) && LastReadOk(s)
    && Accounted(s) && ArrivedOk(s) && PendingOutside(s) && EmittedCovered(s) && Fated(s) && Ordered(s)
  }

  lemma InvAtStart(config: Config, db: Db, phase: Phase, cursor: PK, from: nat)
    requires LogOk(db) && from <= |db.log|
    ensures Inv(Starting(config, db, phase, cursor, from))
  {
    var s := Starting(config, db, phase, cursor, from);
    assert Ranges(config, []) == [];
    NothingYet(s);
  }

  lemma NothingYet(s: State)
    requires s.arrived == [] && s.emitted == [] && s.discarded == [] && s.taken == [] && s.settled == [] &&
             s.merger.pending == []
    ensures Accounted(s) && Ordered(s)
  {
    assert forall e :: Balanced(s, e);
    assert forall pk :: KeyInOrder(s, pk);
  }

  lemma InvKept(s: State, step: Step)
    requires Inv(s) && Enabled(s, step)
    ensures Inv(Apply(s, step))
  {
    TiledKept(s, step);
    ReadsOkKept(s, step);
    MergerKnownKept(s, step);
    LogOkKept(s, step);
    SnapshotsOkKept(s, step);
    TimedKept(s, step);
    ArrivalsKnownKept(s, step);
    ArrivalsAboveKept(s, step);
    ImagesOkKept(s, step);
    LastReadOkKept(s, step);
    AccountedKept(s, step);
    ArrivedOkKept(s, step);
    PendingOutsideKept(s, step);
    EmittedCoveredKept(s, step);
    FatedKept(s, step);
    OrderedKept(s, step);
  }

  lemma RowsAreTheRange(config: Config, c: ChunkRecord, k: PK)
    requires ChunkOk(config, c) && IsChunkRead(c.rows, c.image, c.low, config.chunkSize)
    ensures k in c.rows <==> k in c.image && Within(k, c.low, c.high)
  {
    if k in c.rows {
      var i :| 0 <= i < |c.rows| && c.rows[i] == k;
      assert i < |c.rows| - 1 ==> Rank(c.rows[i]) < Rank(c.rows[|c.rows| - 1]);
    }
  }

  /** A chunk delivers as READ rows exactly the rows its snapshot holds in its range. */
  lemma ChunkShowsItsSnapshot(s: State, j: nat, k: PK)
    requires Inv(s) && j < |s.chunks|
    ensures s.chunks[j].visible <= |s.db.log|
    ensures k in s.chunks[j].rows <==>
            k in TableAt(s.config.table, s.db, s.chunks[j].visible) && Within(k, s.chunks[j].low, s.chunks[j].high)
  {
    RowsAreTheRange(s.config, s.chunks[j], k);
  }

  predicate HoldsKey(chunks: seq<ChunkRecord>, j: int, pk: PK) {
    0 <= j < |chunks| && Within(pk, chunks[j].low, chunks[j].high)
  }

  /** The scanned ranges tile the interval from the first cursor to the current one: each key in it
      lies in exactly one of them, and no key outside lies in any. */
  lemma RangesTile(s: State, pk: PK)
    requires Inv(s)
    ensures Rank(s.start) < Rank(pk) <= Rank(s.cursor) <==> exists j :: HoldsKey(s.chunks, j, pk)
    ensures forall i, j :: HoldsKey(s.chunks, i, pk) && HoldsKey(s.chunks, j, pk) ==> i == j
  {
    ChunksTile(s.config, s.start, s.chunks, pk);
  }

  lemma ChunksTile(config: Config, start: PK, chunks: seq<ChunkRecord>, pk: PK)
    requires Tiling(config, start, chunks)
    ensures Rank(start) < Rank(pk) <= Rank(LastHigh(start, chunks)) <==> exists j :: HoldsKey(chunks, j, pk)
    ensures forall i, j :: HoldsKey(chunks, i, pk) && HoldsKey(chunks, j, pk) ==> i == j
  {
    forall i, j | HoldsKey(chunks, i, pk) && HoldsKey(chunks, j, pk) ensures i == j {
      OneChunkCovers(config, start, chunks, i, j, pk);
    }
    if Rank(start) < Rank(pk) <= Rank(LastHigh(start, chunks)) {
      var j := ChunkOfKey(config, start, chunks, |chunks|, pk);
    }
    forall j | HoldsKey(chunks, j, pk) ensures Rank(start) < Rank(pk) <= Rank(LastHigh(start, chunks)) {
      ChunkIsScanned(config, start, chunks, j);
    }
  }

  lemma {:induction false} ChunkOfKey(config: Config, start: PK, chunks: seq<ChunkRecord>, n: nat, pk: PK)
    returns (j: nat)
    requires Tiling(config, start, chunks) && n <= |chunks|
    requires Rank(start) < Rank(pk) <= Rank(LowOf(start, chunks, n))
    ensures j < n && HoldsKey(chunks, j, pk)
  {
    assert n > 0;
    assert ChunkOk(config, chunks[n - 1]) && Linked(start, chunks, n - 1);
    if Rank(pk) <= Rank(LowOf(start, chunks, n - 1)) {
      j := ChunkOfKey(config, start, chunks, n - 1, pk);
    } else {
      j := n - 1;
    }
  }

  lemma ChunkIsScanned(config: Config, start: PK, chunks: seq<ChunkRecord>, j: nat)
    requires Tiling(config, start, chunks) && j < |chunks|
    ensures Rank(start) <= Rank(chunks[j].low)
    ensures Rank(chunks[j].high) <= Rank(LastHigh(start, chunks)) && chunks[j].high != Unset
  {
    var n := |chunks| - 1;
    assert ChunkOk(config, chunks[j]) && ChunkOk(config, chunks[0]) && ChunkOk(config, chunks[n]);
    assert Linked(start, chunks, 0);
  }

  /** Since the ranges are disjoint, the order in which findScannedRange looks at them does not matter. */
  lemma SearchOrderDoesNotMatter(s: State, ranges: seq<PKRange>, table: string, pk: PK)
    requires Inv(s) && s.merger.phase == Snapshotting
    requires forall r :: r in ranges <==> r in s.merger.scannedRanges
    ensures FindRange(ranges, table, pk) == FindRange(s.merger.scannedRanges, table, pk)
  {
    var a, b := FindRange(ranges, table, pk), FindRange(s.merger.scannedRanges, table, pk);
    if a.Some? && b.Some? {
      OneRangeCovers(s, a.value, b.value, table, pk);
    }
  }

  lemma OneRangeCovers(s: State, a: PKRange, b: PKRange, table: string, pk: PK)
    requires Tiled(s) && MergerKnown(s) && s.merger.phase == Snapshotting
    requires a in s.merger.scannedRanges && b in s.merger.scannedRanges && Covers(a, table, pk) && Covers(b, table, pk)
    ensures a == b
  {
    var i :| 0 <= i < |s.merger.scannedRanges| && s.merger.scannedRanges[i] == a;
    var j :| 0 <= j < |s.merger.scannedRanges| && s.merger.scannedRanges[j] == b;
    OneChunkCovers(s.config, s.start, s.chunks, i, j, pk);
  }

  /** A change that finds its chunk's range finished is never dropped as not yet scanned. */
  lemma NotSkippedAfterEnd(config: Config, chunks: seq<ChunkRecord>, m: MergerState, ended: nat, j: nat, e: CDCEvent)
    requires j < ended <= |chunks| && TableOf(e) == config.table
    requires Within(e.pk, chunks[j].low, chunks[j].high)
    requires m.phase == Snapshotting ==> m.scannedRanges == Ranges(config, chunks[..ended])
    ensures Route(m, e) != Unscanned
  {
    if m.phase == Snapshotting {
      assert m.scannedRanges[j] == RangeOf(config, chunks[j]);
      assert Covers(m.scannedRanges[j], TableOf(e), e.pk);
      assert m.scannedRanges[j] in m.scannedRanges;
    }
  }

  /** No chunk before the one that covers a key covers it. */
  lemma NoRangeBefore(config: Config, start: PK, chunks: seq<ChunkRecord>, j: nat, e: CDCEvent)
    requires Tiling(config, start, chunks) && j < |chunks| && Within(e.pk, chunks[j].low, chunks[j].high)
    ensures FindRange(Ranges(config, chunks[..j]), TableOf(e), e.pk).None?
  {
    var ranges := Ranges(config, chunks[..j]);
    forall r | r in ranges ensures !Covers(r, TableOf(e), e.pk) {
      var i :| 0 <= i < |ranges| && ranges[i] == r;
      assert r == RangeOf(config, chunks[i]) && Rank(chunks[i].high) <= Rank(chunks[j].low);
    }
  }

  /** A change that finds its chunk in progress is dropped if and only if it lies beyond the window. */
  lemma SkippedDuring(config: Config, start: PK, chunks: seq<ChunkRecord>, m: MergerState, j: nat, e: CDCEvent)
    requires Tiling(config, start, chunks) && j < |chunks| && TableOf(e) == config.table
    requires Within(e.pk, chunks[j].low, chunks[j].high)
    requires m.scannedRanges == Ranges(config, chunks[..j])
    requires FoundInProgress(config, m, j + 1, chunks[j].low, chunks[j].window)
    ensures Route(m, e) == Unscanned <==> !Within(e.pk, chunks[j].low, chunks[j].window)
  {
    NoRangeBefore(config, start, chunks, j, e);
    WindowDecides(config, m, j + 1, chunks[j].low, chunks[j].window, e);
  }

  /** What transaction t found of chunk j, which had begun by then. */
  ghost predicate FoundBegun(config: Config, chunks: seq<ChunkRecord>, j: nat, t: nat, a: Arrival)
    requires j < |chunks|
  {
    && FoundRanges(config, chunks, a)
    && (if t < chunks[j].ended
        then a.ended == j && FoundInProgress(config, a.merger, j + 1, chunks[j].low, chunks[j].window)
        else j < a.ended)
  }

  lemma ArrivalAt(s: State, j: nat, t: nat)
    requires OneAfterAnother(s.chunks) && ArrivalsKnown(s) && j < |s.chunks| && s.from <= t < s.delivered &&
             s.chunks[j].begun <= t
    ensures FoundBegun(s.config, s.chunks, j, t, s.arrivals[t - s.from])
  {
    var a := s.arrivals[t - s.from];
    assert Found(s, s.from + (t - s.from), a);
    assert FoundChunk(s.config, s.chunks[j], j, t, a);
    if t < s.chunks[j].ended && j > 0 {
      assert FoundChunk(s.config, s.chunks[j - 1], j - 1, t, a);
    }
  }

  lemma RoutedWhenBegun(config: Config, start: PK, chunks: seq<ChunkRecord>, j: nat, t: nat, a: Arrival, e: CDCEvent)
    requires Tiling(config, start, chunks) && j < |chunks| && TableOf(e) == config.table
    requires Within(e.pk, chunks[j].low, chunks[j].high) && FoundBegun(config, chunks, j, t, a)
    ensures Route(a.merger, e) == Unscanned <==> t < chunks[j].ended && !Within(e.pk, chunks[j].low, chunks[j].window)
  {
    if t < chunks[j].ended {
      SkippedDuring(config, start, chunks, a.merger, j, e);
    } else {
      NotSkippedAfterEnd(config, chunks, a.merger, a.ended, j, e);
    }
  }

  /** A change of a chunk's key that arrives after the chunk began is dropped on arrival exactly when
      it comes before the chunk's end with a key beyond the estimated window. */
  lemma SkippedExactlyWhenBeyondWindow(s: State, j: nat, t: nat, e: CDCEvent)
    requires Tiling(s.config, s.start, s.chunks) && OneAfterAnother(s.chunks) && ArrivalsKnown(s)
    requires j < |s.chunks| && Delivered(s, t, e)
    requires TableOf(e) == s.config.table && Within(e.pk, s.chunks[j].low, s.chunks[j].high)
    requires s.chunks[j].begun <= t
    ensures Skipped(s, t, e) <==> t < s.chunks[j].ended && !Within(e.pk, s.chunks[j].low, s.chunks[j].window)
  {
    var a := s.arrivals[t - s.from];
    assert FoundBegun(s.config, s.chunks, j, t, a) by {
      ArrivalAt(s, j, t);
    }
    RoutedWhenBegun(s.config, s.start, s.chunks, j, t, a, e);
  }

  lemma OnlyItsChunkDecides(s: State, j: nat, e: CDCEvent)
    requires Tiled(s) && j < |s.chunks|
    requires TableOf(e) == s.config.table && Within(e.pk, s.chunks[j].low, s.chunks[j].high)
    ensures AboveXMins(s.config, s.chunks, e) <==> s.chunks[j].xmin <= e.commitXID
  {
    forall i | 0 <= i < |s.chunks| && Within(e.pk, s.chunks[i].low, s.chunks[i].high) ensures i == j {
      OneChunkCovers(s.config, s.start, s.chunks, i, j, e.pk);
    }
  }

  lemma NotHeldBack(s: State, j: nat, e: CDCEvent)
    requires PendingOutside(s) && j < |s.chunks|
    requires Within(e.pk, s.chunks[j].low, s.chunks[j].high)
    ensures Count(s.merger.pending, e) == 0
  {
    CountMembers(s.merger.pending, e);
  }

  /** Nothing below its chunk's xmin is sent on while snapshotting. */
  lemma NothingBelowXMinIsEmitted(s: State, j: nat, e: CDCEvent)
    requires Tiled(s) && MergerKnown(s) && EmittedCovered(s) && s.merger.phase == Snapshotting && j < |s.chunks|
    requires TableOf(e) == s.config.table && Within(e.pk, s.chunks[j].low, s.chunks[j].high)
    requires e.commitXID < s.chunks[j].xmin
    ensures Count(s.emitted, e) == 0
  {
    CountMembers(s.emitted, e);
    var r := FindRange(s.merger.scannedRanges, TableOf(e), e.pk);
    if r.Some? {
      var i :| 0 <= i < |s.merger.scannedRanges| && s.merger.scannedRanges[i] == r.value;
      OneChunkCovers(s.config, s.start, s.chunks, i, j, e.pk);
    }
  }

  /** A delivered change of a finished chunk's key is accounted for, and unless it is below the chunk's xmin
      it was sent on if and only if it was not dropped on arrival. */
  lemma FateByItsChunk(s: State, j: nat, t: nat, e: CDCEvent)
    requires Tiled(s) && PendingOutside(s) && Fated(s) && Accounted(s) && j < |s.chunks| && Delivered(s, t, e)
    requires TableOf(e) == s.config.table && Within(e.pk, s.chunks[j].low, s.chunks[j].high)
    ensures Count(s.emitted, e) + Count(s.discarded, e) == Count(s.arrived, e)
    ensures Skipped(s, t, e) ==> Count(s.emitted, e) == 0
    ensures !Skipped(s, t, e) && s.chunks[j].xmin <= e.commitXID ==> Count(s.emitted, e) == Count(s.arrived, e)
  {
    assert AboveXMins(s.config, s.chunks, e) <==> s.chunks[j].xmin <= e.commitXID by {
      OnlyItsChunkDecides(s, j, e);
    }
    NotHeldBack(s, j, e);
    assert FateOk(s, t, e);
    assert Balanced(s, e);
  }

  /** No lost change. Take a finished chunk and a delivered change of a key in its range that the
      chunk's snapshot does not show. The change is sent on exactly as often as it was delivered,
      unless it arrived between the chunk's begin and end with a key beyond the estimated
      window; then, and only then, it is lost. */
  lemma NoLostChange(s: State, j: nat, t: nat, e: CDCEvent)
    requires Inv(s) && j < |s.chunks| && Delivered(s, t, e)
    requires TableOf(e) == s.config.table && Within(e.pk, s.chunks[j].low, s.chunks[j].high)
    requires s.chunks[j].visible <= t
    ensures Count(s.arrived, e) > 0
    ensures var lost := t < s.chunks[j].ended && !Within(e.pk, s.chunks[j].low, s.chunks[j].window);
            Count(s.emitted, e) == if lost then 0 else Count(s.arrived, e)
  {
    assert e in s.arrived;
    CountMembers(s.arrived, e);
    assert s.chunks[j].xmin <= e.commitXID by {
      assert XMinOk(s.db, s.chunks[j].xmin, s.chunks[j].visible);
      assert e.commitXID == s.db.log[t].xid;
    }
    assert Skipped(s, t, e) <==> t < s.chunks[j].ended && !Within(e.pk, s.chunks[j].low, s.chunks[j].window) by {
      SkippedExactlyWhenBeyondWindow(s, j, t, e);
    }
    FateByItsChunk(s, j, t, e);
  }

  /** While snapshotting, a change whose key some finished chunk covers is decided against that
      chunk's xmin and no other: it is sent on if and only if it was not dropped on arrival
      and its transaction is not below the xmin. */
  lemma DecidedByItsChunk(s: State, j: nat, t: nat, e: CDCEvent)
    requires Inv(s) && s.merger.phase == Snapshotting && j < |s.chunks| && Delivered(s, t, e)
    requires TableOf(e) == s.config.table && Within(e.pk, s.chunks[j].low, s.chunks[j].high)
    ensures Count(s.emitted, e) ==
            if !Skipped(s, t, e) && s.chunks[j].xmin <= e.commitXID then Count(s.arrived, e) else 0
    ensures Count(s.emitted, e) + Count(s.discarded, e) == Count(s.arrived, e)
  {
    FateByItsChunk(s, j, t, e);
    if e.commitXID < s.chunks[j].xmin {
      NothingBelowXMinIsEmitted(s, j, e);
    }
  }

  /** A change of a key no chunk covers is never dropped except on arrival: it was then sent on or is still held
      back. */
  lemma FateBeyondTheScan(s: State, t: nat, e: CDCEvent)
    requires Tiled(s) && Fated(s) && Accounted(s) && Delivered(s, t, e)
    requires TableOf(e) != s.config.table || !(Rank(s.start) < Rank(e.pk) <= Rank(s.cursor))
    ensures Count(s.emitted, e) + Count(s.merger.pending, e) == if Skipped(s, t, e) then 0 else Count(s.arrived, e)
  {
    NoXMinBeyondTheScan(s, e);
    assert FateOk(s, t, e);
    assert Balanced(s, e);
  }

  lemma NoXMinBeyondTheScan(s: State, e: CDCEvent)
    requires Tiled(s)
    requires TableOf(e) != s.config.table || !(Rank(s.start) < Rank(e.pk) <= Rank(s.cursor))
    ensures AboveXMins(s.config, s.chunks, e)
  {
    forall j | 0 <= j < |s.chunks| && TableOf(e) == s.config.table
      ensures !Within(e.pk, s.chunks[j].low, s.chunks[j].high)
    {
      ChunkIsScanned(s.config, s.start, s.chunks, j);
    }
  }

  /** A change that finds the merger passing everything on is not dropped. */
  lemma NotSkippedWhenPassedOn(s: State, t: nat, e: CDCEvent)
    requires ArrivalsKnown(s) && Delivered(s, t, e) && PassedOn(s, t)
    ensures t - s.from < |s.arrivals| && !Skipped(s, t, e)
  {
    assert Found(s, s.from + (t - s.from), s.arrivals[t - s.from]);
  }

  /** No range found by an arrival covers a key outside the scan. */
  lemma NoRangeOutside(s: State, ended: nat, e: CDCEvent)
    requires Tiled(s) && ended <= |s.chunks|
    requires TableOf(e) != s.config.table || !(Rank(s.start) < Rank(e.pk) <= Rank(s.cursor))
    ensures FindRange(Ranges(s.config, s.chunks[..ended]), TableOf(e), e.pk).None?
  {
    var ranges := Ranges(s.config, s.chunks[..ended]);
    forall r | r in ranges ensures !Covers(r, TableOf(e), e.pk) {
      var j :| 0 <= j < |ranges| && ranges[j] == r;
      assert r == RangeOf(s.config, s.chunks[j]);
      ChunkIsScanned(s.config, s.start, s.chunks, j);
    }
  }

  /** A change above the scan that arrives once the last chunk has begun and before the snapshot is complete is dropped
      exactly if it lies beyond that chunk's window. */
  lemma SkippedAboveTheScan(s: State, t: nat, e: CDCEvent)
    requires Tiled(s) && Timed(s) && ArrivalsKnown(s) && s.point.Exhausted? && Delivered(s, t, e)
    requires TableOf(e) == s.config.table && Rank(s.cursor) < Rank(e.pk)
    requires s.begun <= t && !PassedOn(s, t)
    ensures Skipped(s, t, e) <==> !Within(e.pk, s.cursor, Next(s.cursor, s.config.chunkSize))
  {
    var a := s.arrivals[t - s.from];
    var window := Next(s.cursor, s.config.chunkSize);
    assert FoundRanges(s.config, s.chunks, a) && FoundInProgress(s.config, a.merger, s.chunkID, s.cursor, window) by {
      assert Found(s, s.from + (t - s.from), a);
    }
    NoRangeOutside(s, a.ended, e);
    WindowDecides(s.config, a.merger, s.chunkID, s.cursor, window, e);
  }

  lemma WindowDecides(config: Config, m: MergerState, id: int, low: PK, window: PK, e: CDCEvent)
    requires FoundInProgress(config, m, id, low, window) && TableOf(e) == config.table
    requires FindRange(m.scannedRanges, TableOf(e), e.pk).None?
    ensures Route(m, e) == Unscanned <==> !Within(e.pk, low, window)
  {
  }

  /** A change of another table, or of a key the process resumed above, is dropped until the snapshot is complete. */
  lemma SkippedOutsideTheScan(s: State, t: nat, e: CDCEvent)
    requires Tiled(s) && Timed(s) && ArrivalsKnown(s) && ArrivalsAbove(s) && Delivered(s, t, e) && !PassedOn(s, t)
    requires TableOf(e) != s.config.table || Rank(e.pk) <= Rank(s.start)
    ensures Skipped(s, t, e)
  {
    var a := s.arrivals[t - s.from];
    assert FoundRanges(s.config, s.chunks, a) && a.merger.phase == Snapshotting by {
      assert Found(s, s.from + (t - s.from), a);
    }
    assert StartsAbove(s.config, s.start, a.merger);
    NoRangeOutside(s, a.ended, e);
    OutsideIsUnscanned(s.config, s.start, a.merger, e);
  }

  lemma OutsideIsUnscanned(config: Config, start: PK, m: MergerState, e: CDCEvent)
    requires m.phase == Snapshotting && StartsAbove(config, start, m)
    requires FindRange(m.scannedRanges, TableOf(e), e.pk).None?
    requires TableOf(e) != config.table || Rank(e.pk) <= Rank(start)
    ensures Route(m, e) == Unscanned
  {
  }

  /** Before the snapshot is complete nothing outside the scan is sent on; after it nothing is held back. */
  lemma HeldUntilComplete(s: State, e: CDCEvent)
    requires Tiled(s) && MergerKnown(s) && EmittedCovered(s) && s.point != Off
    requires TableOf(e) != s.config.table || !(Rank(s.start) < Rank(e.pk) <= Rank(s.cursor))
    ensures s.point.Exhausted? && s.completed.None? ==> Count(s.emitted, e) == 0
    ensures s.completed.Some? ==> Count(s.merger.pending, e) == 0
  {
    CountMembers(s.emitted, e);
    if s.merger.phase == Snapshotting {
      assert s.chunks[..|s.chunks|] == s.chunks;
      NoRangeOutside(s, |s.chunks|, e);
    }
  }

  /** The whole fate of a change above the last scanned key that the last read does not show. It is held back until
      the snapshot is complete and then sent on as often as it was delivered, unless it arrived before
      that with a key beyond the last chunk's window; then, and only then, it is lost. */
  lemma ChangeAboveTheScan(s: State, t: nat, e: CDCEvent)
    requires Inv(s) && s.point.Exhausted? && Delivered(s, t, e)
    requires TableOf(e) == s.config.table && Rank(s.cursor) < Rank(e.pk) && s.point.visible <= t
    ensures s.point.visible <= |s.db.log| && e.pk !in TableAt(s.config.table, s.db, s.point.visible)
    ensures Count(s.arrived, e) > 0
    ensures var lost := !PassedOn(s, t) && !Within(e.pk, s.cursor, Next(s.cursor, s.config.chunkSize));
            && Count(s.emitted, e) == (if lost || s.completed.None? then 0 else Count(s.arrived, e))
            && Count(s.merger.pending, e) == (if lost || s.completed.Some? then 0 else Count(s.arrived, e))
  {
    CountMembers(s.arrived, e);
    FateBeyondTheScan(s, t, e);
    HeldUntilComplete(s, e);
    if PassedOn(s, t) {
      NotSkippedWhenPassedOn(s, t, e);
    } else {
      SkippedAboveTheScan(s, t, e);
    }
  }

  /** The whole fate of a change of a key the process resumed above, or of another table: it is sent on as often as it
      was delivered if the process does not scan or its snapshot was complete when it arrived, and is
      lost otherwise. */
  lemma ChangeOutsideTheScan(s: State, t: nat, e: CDCEvent)
    requires Inv(s) && Delivered(s, t, e)
    requires s.point == Off || TableOf(e) != s.config.table || Rank(e.pk) <= Rank(s.start)
    ensures Count(s.arrived, e) > 0
    ensures Count(s.emitted, e) == if PassedOn(s, t) then Count(s.arrived, e) else 0
    ensures Count(s.merger.pending, e) == 0
  {
    CountMembers(s.arrived, e);
    FateBeyondTheScan(s, t, e);
    if PassedOn(s, t) {
      NotSkippedWhenPassedOn(s, t, e);
    } else {
      SkippedOutsideTheScan(s, t, e);
    }
  }
}
