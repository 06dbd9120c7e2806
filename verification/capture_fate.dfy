/** The fate of every delivered change: each one is sent on, held back or dropped, never two of
    these, and which one depends only on the chunk that covers its key. */
module CaptureFate {
  import opened Keys
  import opened Wrappers
  import opened Cdc
  import opened MergerSpec
  import opened Capture
  import opened CaptureInvariant

  // ---- conservation ----

  ghost predicate Balanced(s: State, e: CDCEvent) {
    Count(s.arrived, e) == Count(s.emitted, e) + Count(s.merger.pending, e) + Count(s.discarded, e)
  }

  ghost predicate Accounted(s: State) {
    forall e :: Balanced(s, e)
  }

  lemma BalancedDeliver(s: State, e: CDCEvent)
    requires Balanced(s, e) && s.delivered < |s.db.log|
    ensures Balanced(Deliver(s), e)
  {
    var events := EventsOf(s.db.log[s.delivered]);
    var emit, low, un := Decided(s.merger, events, Emit), Decided(s.merger, events, BelowXMin),
        Decided(s.merger, events, Unscanned);
    DecidedConserves(s.merger, events, e);
    CountConcat(s.arrived, events, e);
    CountConcat(s.emitted, emit, e);
    CountConcat(s.merger.pending, Decided(s.merger, events, Buffer), e);
    CountConcat(s.discarded, low, e);
    CountConcat(s.discarded + low, un, e);
  }

  lemma BalancedScanEnd(s: State, rows: seq<PK>, e: CDCEvent)
    requires Balanced(s, e) && MergerKnown(s) && rows != [] && MayScanRead(s, rows)
    ensures Balanced(ScanEnd(s, rows), e)
  {
    var inside := InChunk(s.merger.pending, s.cursor, rows[|rows| - 1]);
    ChunkConserves(s.merger.pending, s.cursor, rows[|rows| - 1], e);
    XMinConserves(inside, s.point.xmin, e);
    CountConcat(s.emitted, NotBelow(inside, s.point.xmin), e);
    CountConcat(s.discarded, Below(inside, s.point.xmin), e);
  }

  lemma AccountedKept(s: State, step: Step)
    requires Accounted(s) && MergerKnown(s) && Enabled(s, step)
    ensures Accounted(Apply(s, step))
  {
    forall e ensures Balanced(Apply(s, step), e) {
      assert Balanced(s, e);
      match step
      case DoDeliver => BalancedDeliver(s, e);
      case DoScanEnd(rows) => BalancedScanEnd(s, rows, e);
      case DoComplete => CountConcat(s.emitted, s.merger.pending, e);
      case _ =>
    }
  }

  // ---- what has arrived ----

  /** The changes delivered so far by this process. */
  ghost predicate Delivered(s: State, t: nat, e: CDCEvent) {
    s.from <= t < s.delivered <= |s.db.log| && e in EventsOf(s.db.log[t])
  }

  ghost predicate ArrivedOk(s: State) {
    && (forall e <- s.arrived :: s.from < s.delivered <= |s.db.log| && e.commitLSN <= s.db.log[s.delivered - 1].lsn)
    && (forall t: nat, e :: Delivered(s, t, e) ==> e in s.arrived)
  }

  lemma ArrivedOkDeliver(s: State)
    requires ArrivedOk(s) && LogOk(s.db) && Timed(s) && s.delivered < |s.db.log|
    ensures ArrivedOk(Deliver(s))
  {
    var s' := Deliver(s);
    forall t: nat, e | Delivered(s', t, e) ensures e in s'.arrived {
      assert t < s.delivered ==> Delivered(s, t, e);
    }
  }

  lemma ArrivedOkKept(s: State, step: Step)
    requires ArrivedOk(s) && LogOk(s.db) && Timed(s) && Enabled(s, step)
    ensures ArrivedOk(Apply(s, step))
  {
    if step.DoDeliver? {
      ArrivedOkDeliver(s);
    } else {
      var s' := Apply(s, step);
      forall t: nat, e | Delivered(s', t, e) ensures e in s'.arrived {
        assert Delivered(s, t, e);
      }
    }
  }

  /** A transaction about to be delivered brings only events that were not there before. */
  lemma NewcomersAreNew(s: State, e: CDCEvent)
    requires ArrivedOk(s) && Accounted(s) && LogOk(s.db) && Timed(s)
    requires s.delivered < |s.db.log| && e in EventsOf(s.db.log[s.delivered])
    ensures Count(s.emitted, e) == 0 && Count(s.merger.pending, e) == 0 && Count(s.discarded, e) == 0
    ensures forall t: nat :: !(t < s.delivered && Delivered(s, t, e))
  {
    assert Balanced(s, e);
    assert e !in s.arrived;
    CountMembers(s.arrived, e);
  }

  // ---- where buffered and emitted events stand ----

  /** A buffered event is the table's and lies outside every scanned range. */
  ghost predicate OutsideAll(config: Config, chunks: seq<ChunkRecord>, e: CDCEvent) {
    TableOf(e) == config.table && forall j :: 0 <= j < |chunks| ==> !Within(e.pk, chunks[j].low, chunks[j].high)
  }

  ghost predicate PendingOutside(s: State) {
    forall e <- s.merger.pending :: OutsideAll(s.config, s.chunks, e)
  }

  lemma BufferedIsOutside(s: State, e: CDCEvent)
    requires MergerKnown(s) && Route(s.merger, e) == Buffer
    ensures OutsideAll(s.config, s.chunks, e)
  {
    forall j | 0 <= j < |s.chunks| ensures !Within(e.pk, s.chunks[j].low, s.chunks[j].high) {
      var r := RangeOf(s.config, s.chunks[j]);
      assert r == s.merger.scannedRanges[j];
      assert !Covers(r, TableOf(e), e.pk);
    }
  }

  lemma PendingOutsideDeliver(s: State)
    requires PendingOutside(s) && MergerKnown(s) && s.delivered < |s.db.log|
    ensures PendingOutside(Deliver(s))
  {
    forall e | e in Deliver(s).merger.pending ensures OutsideAll(s.config, s.chunks, e) {
      if e !in s.merger.pending {
        DecidedMembers(s.merger, EventsOf(s.db.log[s.delivered]), Buffer, e);
        BufferedIsOutside(s, e);
      }
    }
  }

  lemma PendingOutsideScanEnd(s: State, rows: seq<PK>)
    requires PendingOutside(s) && MergerKnown(s) && rows != [] && MayScanRead(s, rows)
    ensures PendingOutside(ScanEnd(s, rows))
  {
    var s' := ScanEnd(s, rows);
    forall e | e in s'.merger.pending ensures OutsideAll(s'.config, s'.chunks, e) {
      ChunkMembers(s.merger.pending, s.cursor, rows[|rows| - 1], e);
      assert OutsideAll(s.config, s.chunks, e);
    }
  }

  lemma PendingOutsideKept(s: State, step: Step)
    requires PendingOutside(s) && MergerKnown(s) && Enabled(s, step)
    ensures PendingOutside(Apply(s, step))
  {
    match step
    case DoDeliver => PendingOutsideDeliver(s);
    case DoScanEnd(rows) => PendingOutsideScanEnd(s, rows);
    case _ =>
  }

  /** While snapshotting, everything sent on is covered by a scanned range and not below its xmin. */
  ghost predicate CoveredAbove(m: MergerState, e: CDCEvent) {
    var r := FindRange(m.scannedRanges, TableOf(e), e.pk);
    r.Some? && e.commitXID >= r.value.xmin
  }

  ghost predicate EmittedCovered(s: State) {
    s.merger.phase == Snapshotting ==> forall e <- s.emitted :: CoveredAbove(s.merger, e)
  }

  lemma EmittedAtEnd(s: State, rows: seq<PK>, e: CDCEvent)
    requires PendingOutside(s) && MergerKnown(s) && rows != [] && MayScanRead(s, rows)
    requires CoveredAbove(s.merger, e) || e in EndChunkEmits(s.merger, s.chunkID, rows[|rows| - 1], s.point.xmin)
    ensures CoveredAbove(ScanEnd(s, rows).merger, e)
  {
    var high, xmin := rows[|rows| - 1], s.point.xmin;
    FindRangeAppend(s.merger.scannedRanges, PKRange(s.config.table, s.cursor, high, xmin), TableOf(e), e.pk);
    if !CoveredAbove(s.merger, e) {
      XMinMembers(InChunk(s.merger.pending, s.cursor, high), xmin, e);
      ChunkMembers(s.merger.pending, s.cursor, high, e);
      forall r | r in s.merger.scannedRanges ensures !Covers(r, TableOf(e), e.pk) {
        var j :| 0 <= j < |s.merger.scannedRanges| && s.merger.scannedRanges[j] == r;
        assert r == RangeOf(s.config, s.chunks[j]);
      }
    }
  }

  lemma EmittedCoveredKept(s: State, step: Step)
    requires EmittedCovered(s) && PendingOutside(s) && MergerKnown(s) && Enabled(s, step)
    ensures EmittedCovered(Apply(s, step))
  {
    var s' := Apply(s, step);
    if s'.merger.phase == Snapshotting {
      forall e | e in s'.emitted ensures CoveredAbove(s'.merger, e) {
        match step
        case DoDeliver =>
          if e !in s.emitted {
            DecidedMembers(s.merger, EventsOf(s.db.log[s.delivered]), Emit, e);
          }
        case DoScanEnd(rows) =>
          EmittedAtEnd(s, rows, e);
        case _ =>
      }
    }
  }

  // ---- the fate of one change ----

  /** No chunk that covers the change's key has an xmin above its transaction. */
  ghost predicate AboveXMins(config: Config, chunks: seq<ChunkRecord>, e: CDCEvent) {
    TableOf(e) == config.table ==>
      forall j :: 0 <= j < |chunks| && Within(e.pk, chunks[j].low, chunks[j].high) ==> chunks[j].xmin <= e.commitXID
  }

  /** Whether the merger dropped the change on arrival as belonging to rows not yet scanned. */
  ghost predicate Skipped(s: State, t: nat, e: CDCEvent)
    requires s.from <= t && t - s.from < |s.arrivals|
  {
    Route(s.arrivals[t - s.from].merger, e) == Unscanned
  }

  ghost predicate FateOk(s: State, t: nat, e: CDCEvent)
    requires s.from <= t && t - s.from < |s.arrivals|
  {
    if Skipped(s, t, e) then Count(s.emitted, e) == 0 && Count(s.merger.pending, e) == 0
    else AboveXMins(s.config, s.chunks, e) ==> Count(s.discarded, e) == 0
  }

  ghost predicate Fated(s: State) {
    |s.arrivals| == s.delivered - s.from &&
    forall t: nat, e :: Delivered(s, t, e) ==> FateOk(s, t, e)
  }

  lemma CountsAtEnd(s: State, rows: seq<PK>, e: CDCEvent)
    requires MergerKnown(s) && rows != [] && MayScanRead(s, rows)
    ensures Count(s.merger.pending, e) == 0 ==>
              Count(ScanEnd(s, rows).emitted, e) == Count(s.emitted, e) &&
                Count(ScanEnd(s, rows).merger.pending, e) == 0
    ensures Count(ScanEnd(s, rows).discarded, e) > Count(s.discarded, e) ==>
              e in s.merger.pending && Within(e.pk, s.cursor, rows[|rows| - 1]) && e.commitXID < s.point.xmin
  {
    var high, xmin := rows[|rows| - 1], s.point.xmin;
    var inside := InChunk(s.merger.pending, s.cursor, high);
    CountConcat(s.emitted, NotBelow(inside, xmin), e);
    CountConcat(s.discarded, Below(inside, xmin), e);
    ChunkConserves(s.merger.pending, s.cursor, high, e);
    XMinConserves(inside, xmin, e);
    CountMembers(Below(inside, xmin), e);
    XMinMembers(inside, xmin, e);
    ChunkMembers(s.merger.pending, s.cursor, high, e);
  }

  lemma FateAtEnd(s: State, rows: seq<PK>, t: nat, e: CDCEvent)
    requires PendingOutside(s) && MergerKnown(s) && rows != [] && MayScanRead(s, rows)
    requires s.from <= t && t - s.from < |s.arrivals| && FateOk(s, t, e)
    ensures FateOk(ScanEnd(s, rows), t, e)
  {
    CountsAtEnd(s, rows, e);
    if !Skipped(s, t, e) && AboveXMins(s.config, ScanEnd(s, rows).chunks, e) {
      AboveXMinsOfMore(s.config, s.chunks, NewChunk(s, rows), e);
    }
  }

  lemma AboveXMinsOfMore(config: Config, chunks: seq<ChunkRecord>, c: ChunkRecord, e: CDCEvent)
    requires AboveXMins(config, chunks + [c], e)
    ensures AboveXMins(config, chunks, e)
    ensures TableOf(e) == config.table && Within(e.pk, c.low, c.high) ==> c.xmin <= e.commitXID
  {
    assert forall j :: 0 <= j < |chunks| ==> (chunks + [c])[j] == chunks[j];
    assert (chunks + [c])[|chunks|] == c;
  }

  /** Delivery leaves the fate of earlier changes alone. */
  lemma FateOfEarlier(s: State, t: nat, e: CDCEvent)
    requires ArrivedOk(s) && Accounted(s) && LogOk(s.db) && Timed(s) && s.delivered < |s.db.log|
    requires Delivered(s, t, e) && FateOk(s, t, e)
    ensures FateOk(Deliver(s), t, e)
  {
    assert e !in EventsOf(s.db.log[s.delivered]);
    OthersUncounted(s, e);
  }

  /** A delivery that does not bring the change leaves its counts alone. */
  lemma OthersUncounted(s: State, e: CDCEvent)
    requires s.delivered < |s.db.log| && e !in EventsOf(s.db.log[s.delivered])
    ensures Count(Deliver(s).emitted, e) == Count(s.emitted, e) &&
            Count(Deliver(s).discarded, e) == Count(s.discarded, e)
    ensures Count(Deliver(s).merger.pending, e) == Count(s.merger.pending, e)
  {
    var events := EventsOf(s.db.log[s.delivered]);
    var low, un := Decided(s.merger, events, BelowXMin), Decided(s.merger, events, Unscanned);
    NotDecided(s.merger, events, e);
    CountConcat(s.emitted, Decided(s.merger, events, Emit), e);
    CountConcat(s.merger.pending, Decided(s.merger, events, Buffer), e);
    CountConcat(s.discarded, low, e);
    CountConcat(s.discarded + low, un, e);
  }

  lemma NotDecided(m: MergerState, events: seq<CDCEvent>, e: CDCEvent)
    ensures forall d: Decision :: e !in events || Route(m, e) != d ==> Count(Decided(m, events, d), e) == 0
  {
    forall d: Decision ensures e !in events || Route(m, e) != d ==> Count(Decided(m, events, d), e) == 0 {
      DecidedMembers(m, events, d, e);
      CountMembers(Decided(m, events, d), e);
    }
  }

  lemma NewcomerCounted(s: State, e: CDCEvent)
    requires s.delivered < |s.db.log|
    requires Count(s.emitted, e) == 0 && Count(s.merger.pending, e) == 0 && Count(s.discarded, e) == 0
    ensures Count(Deliver(s).emitted, e) > 0 ==> Route(s.merger, e) == Emit
    ensures Count(Deliver(s).merger.pending, e) > 0 ==> Route(s.merger, e) == Buffer
    ensures Count(Deliver(s).discarded, e) > 0 ==> Route(s.merger, e) == BelowXMin || Route(s.merger, e) == Unscanned
  {
    var events := EventsOf(s.db.log[s.delivered]);
    var low, un := Decided(s.merger, events, BelowXMin), Decided(s.merger, events, Unscanned);
    NotDecided(s.merger, events, e);
    CountConcat(s.emitted, Decided(s.merger, events, Emit), e);
    CountConcat(s.merger.pending, Decided(s.merger, events, Buffer), e);
    CountConcat(s.discarded, low, e);
    CountConcat(s.discarded + low, un, e);
  }

  lemma FateOfNewcomer(s: State, e: CDCEvent)
    requires ArrivedOk(s) && Accounted(s) && LogOk(s.db) && Timed(s) && MergerKnown(s) && s.delivered < |s.db.log|
    requires e in EventsOf(s.db.log[s.delivered])
    ensures FateOk(Deliver(s), s.delivered, e)
  {
    NewcomersAreNew(s, e);
    NewcomerCounted(s, e);
    if Route(s.merger, e) == BelowXMin {
      BelowSomeXMin(s, e);
    }
  }

  lemma BelowSomeXMin(s: State, e: CDCEvent)
    requires MergerKnown(s) && Route(s.merger, e) == BelowXMin
    ensures !AboveXMins(s.config, s.chunks, e)
  {
    var r := FindRange(s.merger.scannedRanges, TableOf(e), e.pk).value;
    var j :| 0 <= j < |s.merger.scannedRanges| && s.merger.scannedRanges[j] == r;
    assert r == RangeOf(s.config, s.chunks[j]);
  }

  lemma FatedDeliver(s: State)
    requires ArrivedOk(s) && Accounted(s) && LogOk(s.db) && Timed(s) && MergerKnown(s) && Fated(s)
    requires s.delivered < |s.db.log|
    ensures Fated(Deliver(s))
  {
    var s' := Deliver(s);
    forall t: nat, e | Delivered(s', t, e) ensures FateOk(s', t, e) {
      if t < s.delivered {
        assert Delivered(s, t, e);
        FateOfEarlier(s, t, e);
      } else {
        FateOfNewcomer(s, e);
      }
    }
  }

  lemma FatedScanEnd(s: State, rows: seq<PK>)
    requires MergerKnown(s) && PendingOutside(s) && Fated(s) && rows != [] && MayScanRead(s, rows)
    ensures Fated(ScanEnd(s, rows))
  {
    var s' := ScanEnd(s, rows);
    forall t: nat, e | Delivered(s', t, e) ensures FateOk(s', t, e) {
      assert Delivered(s, t, e);
      FateAtEnd(s, rows, t, e);
    }
  }

  lemma FatedComplete(s: State)
    requires Fated(s)
    ensures Fated(Completed(s))
  {
    forall t: nat, e | Delivered(Completed(s), t, e) ensures FateOk(Completed(s), t, e) {
      assert Delivered(s, t, e);
      CountConcat(s.emitted, s.merger.pending, e);
    }
  }

  lemma FatedOtherwise(s: State, step: Step)
    requires Fated(s) && s.delivered <= |s.db.log| && Enabled(s, step)
    requires !step.DoDeliver? && !step.DoScanEnd? && !step.DoComplete?
    ensures Fated(Apply(s, step))
  {
    var s' := Apply(s, step);
    forall t: nat, e | Delivered(s', t, e) ensures FateOk(s', t, e) {
      assert Delivered(s, t, e);
    }
  }

  lemma FatedKept(s: State, step: Step)
    requires ArrivedOk(s) && Accounted(s) && LogOk(s.db) && Timed(s) && MergerKnown(s) && PendingOutside(s) && Fated(s)
    requires Enabled(s, step)
    ensures Fated(Apply(s, step))
  {
    match step
    case DoDeliver => FatedDeliver(s);
    case DoScanEnd(rows) => FatedScanEnd(s, rows);
    case DoComplete => FatedComplete(s);
    case _ => FatedOtherwise(s, step);
  }

  // ---- order within one key ----

  ghost predicate KeyInOrder(s: State, pk: PK) {
    OfKey(s.settled, s.config.table, pk) + OfKey(s.merger.pending, s.config.table, pk) ==
    OfKey(s.taken, s.config.table, pk)
  }

  ghost predicate Ordered(s: State) {
    forall pk :: KeyInOrder(s, pk)
  }

  lemma Interchange(settled: seq<CDCEvent>, pending: seq<CDCEvent>, now: seq<CDCEvent>, later: seq<CDCEvent>)
    requires now == [] || pending == []
    ensures (settled + now) + (pending + later) == (settled + pending) + (now + later)
  {
  }

  /** A batch settles a key's events only if none of that key is held back. */
  lemma BatchParts(s: State, events: seq<CDCEvent>, pk: PK)
    requires MergerKnown(s) && PendingOutside(s)
    ensures var table := s.config.table;
            && (OfKey(SettledNow(s.merger, events), table, pk) == [] || OfKey(s.merger.pending, table, pk) == [])
            && OfKey(SettledNow(s.merger, events), table, pk) + OfKey(Decided(s.merger, events, Buffer), table, pk) ==
               OfKey(Taken(s.merger, events), table, pk)
  {
    KeySettledWhole(s.merger, events, s.config.table, pk);
    KeyBufferedWhole(s.merger, events, s.config.table, pk);
    if !Undecided(s.merger, s.config.table, pk) {
      NothingPendingOnceDecided(s, pk);
    }
  }

  lemma OrderedDeliver(s: State, pk: PK)
    requires KeyInOrder(s, pk) && MergerKnown(s) && PendingOutside(s) && s.delivered < |s.db.log|
    ensures KeyInOrder(Deliver(s), pk)
  {
    var events, table := EventsOf(s.db.log[s.delivered]), s.config.table;
    var settled, pending := OfKey(s.settled, table, pk), OfKey(s.merger.pending, table, pk);
    var now, later := OfKey(SettledNow(s.merger, events), table, pk),
        OfKey(Decided(s.merger, events, Buffer), table, pk);
    BatchParts(s, events, pk);
    Interchange(settled, pending, now, later);
    DeliverSplits(s, pk);
  }

  lemma DeliverSplits(s: State, pk: PK)
    requires s.delivered < |s.db.log|
    ensures var events, table := EventsOf(s.db.log[s.delivered]), s.config.table;
            && OfKey(Deliver(s).settled, table, pk) == OfKey(s.settled, table, pk) +
               OfKey(SettledNow(s.merger, events), table, pk)
            && OfKey(Deliver(s).taken, table, pk) == OfKey(s.taken, table, pk) +
               OfKey(Taken(s.merger, events), table, pk)
            && OfKey(Deliver(s).merger.pending, table, pk) ==
               OfKey(s.merger.pending, table, pk) + OfKey(Decided(s.merger, events, Buffer), table, pk)
  {
    var events, table := EventsOf(s.db.log[s.delivered]), s.config.table;
    OfKeyConcat(s.settled, SettledNow(s.merger, events), table, pk);
    OfKeyConcat(s.merger.pending, Decided(s.merger, events, Buffer), table, pk);
    OfKeyConcat(s.taken, Taken(s.merger, events), table, pk);
  }

  lemma NothingPendingOnceDecided(s: State, pk: PK)
    requires MergerKnown(s) && PendingOutside(s) && !Undecided(s.merger, s.config.table, pk)
    ensures OfKey(s.merger.pending, s.config.table, pk) == []
  {
    if s.merger.phase == Snapshotting {
      var r := FindRange(s.merger.scannedRanges, s.config.table, pk).value;
      var j :| 0 <= j < |s.merger.scannedRanges| && s.merger.scannedRanges[j] == r;
      assert r == RangeOf(s.config, s.chunks[j]);
      OfKeyEmpty(s.merger.pending, s.config.table, pk);
    }
  }

  lemma OrderedScanEnd(s: State, rows: seq<PK>, pk: PK)
    requires KeyInOrder(s, pk) && MergerKnown(s) && rows != [] && MayScanRead(s, rows)
    ensures KeyInOrder(ScanEnd(s, rows), pk)
  {
    KeyMovesWhole(s.settled, s.merger.pending, s.cursor, rows[|rows| - 1], s.config.table, pk);
  }

  lemma KeyMovesWhole(settled: seq<CDCEvent>, pending: seq<CDCEvent>, low: PK, high: PK, table: string, pk: PK)
    ensures OfKey(settled + InChunk(pending, low, high), table, pk) + OfKey(Overflow(pending, low, high), table, pk) ==
            OfKey(settled, table, pk) + OfKey(pending, table, pk)
  {
    ChunkTakesWholeKey(pending, low, high, table, pk);
    OfKeyConcat(settled, InChunk(pending, low, high), table, pk);
  }

  lemma OrderedKept(s: State, step: Step)
    requires Ordered(s) && MergerKnown(s) && PendingOutside(s) && Enabled(s, step)
    ensures Ordered(Apply(s, step))
  {
    forall pk ensures KeyInOrder(Apply(s, step), pk) {
      assert KeyInOrder(s, pk);
      match step
      case DoDeliver => OrderedDeliver(s, pk);
      case DoScanEnd(rows) => OrderedScanEnd(s, rows, pk);
      case DoComplete => OfKeyConcat(s.settled, s.merger.pending, s.config.table, pk);
      case _ =>
    }
  }
}
