/** What the merger decides, as functions of its state (pg/merger.go). The methods of class
    Merger are proved equal to these, and the protocol of module Protocol runs on them. */
module MergerSpec {
  import opened Keys
  import opened Wrappers
  import opened Cdc

  datatype Chunk = Chunk(chunkID: int, table: string, pkLow: PK, pkHigh: PK)

  datatype MergerState = MergerState(
    phase: Phase, scannedRanges: seq<PKRange>, currentChunk: Option<Chunk>, pending: seq<CDCEvent>)

  /** What happens to one WAL event on arrival. */
  datatype Decision = Emit | Buffer | BelowXMin | Unscanned

  predicate Covers(r: PKRange, table: string, pk: PK) {
    r.table == table && Within(pk, r.low, r.high)
  }

  function FindRange(ranges: seq<PKRange>, table: string, pk: PK): (r: Option<PKRange>)
    ensures r.Some? ==> r.value in ranges && Covers(r.value, table, pk)
    ensures r.None? ==> forall x <- ranges :: !Covers(x, table, pk)
  {
    if ranges == [] then None
    else if Covers(ranges[0], table, pk) then Some(ranges[0])
    else
      assert ranges == [ranges[0]] + ranges[1..];
      FindRange(ranges[1..], table, pk)
  }

  predicate InWindow(chunk: Option<Chunk>, table: string, pk: PK) {
    chunk.Some? && chunk.value.table == table && Within(pk, chunk.value.pkLow, chunk.value.pkHigh)
  }

  function Route(s: MergerState, e: CDCEvent): Decision {
    if s.phase == Streaming then Emit
    else
      match FindRange(s.scannedRanges, TableOf(e), e.pk)
      case Some(r) => if e.commitXID >= r.xmin then Emit else BelowXMin
      case None => if InWindow(s.currentChunk, TableOf(e), e.pk) then Buffer else Unscanned
  }

  /** The events of a batch that meet one decision, in order. */
  function Decided(s: MergerState, events: seq<CDCEvent>, d: Decision): seq<CDCEvent> {
    if events == [] then []
    else
      var last := events[|events| - 1];
      var rest := Decided(s, events[..|events| - 1], d);
      if Route(s, last) == d then rest + [last] else rest
  }

  /** The events of a batch that are not dropped as "not yet scanned". */
  function Taken(s: MergerState, events: seq<CDCEvent>): seq<CDCEvent> {
    if events == [] then []
    else
      var last := events[|events| - 1];
      var rest := Taken(s, events[..|events| - 1]);
      if Route(s, last) != Unscanned then rest + [last] else rest
  }

  /** The events of a batch whose fate is known at once: sent on, or dropped as below a range's xmin. */
  function SettledNow(s: MergerState, events: seq<CDCEvent>): seq<CDCEvent> {
    if events == [] then []
    else
      var last := events[|events| - 1];
      var rest := SettledNow(s, events[..|events| - 1]);
      if Route(s, last) == Emit || Route(s, last) == BelowXMin then rest + [last] else rest
  }

  function BeginChunk(s: MergerState, chunk: Chunk): MergerState {
    s.(currentChunk := Some(chunk))
  }

  function InChunk(events: seq<CDCEvent>, low: PK, high: PK): seq<CDCEvent> {
    if events == [] then []
    else
      var last := events[|events| - 1];
      var rest := InChunk(events[..|events| - 1], low, high);
      if Within(last.pk, low, high) then rest + [last] else rest
  }

  function Overflow(events: seq<CDCEvent>, low: PK, high: PK): seq<CDCEvent> {
    if events == [] then []
    else
      var last := events[|events| - 1];
      var rest := Overflow(events[..|events| - 1], low, high);
      if Within(last.pk, low, high) then rest else rest + [last]
  }

  function NotBelow(events: seq<CDCEvent>, xmin: nat): seq<CDCEvent> {
    if events == [] then []
    else
      var last := events[|events| - 1];
      var rest := NotBelow(events[..|events| - 1], xmin);
      if last.commitXID >= xmin then rest + [last] else rest
  }

  function Below(events: seq<CDCEvent>, xmin: nat): seq<CDCEvent> {
    if events == [] then []
    else
      var last := events[|events| - 1];
      var rest := Below(events[..|events| - 1], xmin);
      if last.commitXID >= xmin then rest else rest + [last]
  }

  predicate Ends(s: MergerState, chunkID: int) {
    s.currentChunk.Some? && s.currentChunk.value.chunkID == chunkID
  }

  /** The state after a chunk's end: its range joins the scanned ones and the buffered events
      inside it are settled; a call for any other chunk changes nothing. */
  function EndChunk(s: MergerState, chunkID: int, table: string, high: PK, xmin: nat): MergerState {
    if !Ends(s, chunkID) then s
    else
      var low := s.currentChunk.value.pkLow;
      MergerState(s.phase, s.scannedRanges + [PKRange(table, low, high, xmin)], None,
                  Overflow(s.pending, low, high))
  }

  /** The buffered events a chunk's end sends on. */
  function EndChunkEmits(s: MergerState, chunkID: int, high: PK, xmin: nat): seq<CDCEvent> {
    if !Ends(s, chunkID) then []
    else NotBelow(InChunk(s.pending, s.currentChunk.value.pkLow, high), xmin)
  }

  function Complete(s: MergerState): MergerState {
    MergerState(Streaming, [], None, [])
  }

  function Receive(s: MergerState, stamped: seq<CDCEvent>): MergerState {
    s.(pending := s.pending + Decided(s, stamped, Buffer))
  }

  // ---- facts about the filters ----

  lemma {:induction false} DecidedMembers(s: MergerState, events: seq<CDCEvent>, d: Decision, e: CDCEvent)
    ensures e in Decided(s, events, d) <==> e in events && Route(s, e) == d
    decreases |events|
  {
    if events != [] {
      var n := |events| - 1;
      DecidedMembers(s, events[..n], d, e);
      assert events == events[..n] + [events[n]];
    }
  }

  /** The events of a transaction's batch that meet one decision: those of the batch, each with the commit position of
      the transaction and otherwise as it was, that are routed that way. */
  lemma StampedDecided(s: MergerState, events: seq<CDCEvent>, lsn: nat, d: Decision, e: CDCEvent)
    ensures e in Decided(s, Stamp(events, lsn), d) <==>
            Route(s, e) == d && exists i :: 0 <= i < |events| && e == events[i].(commitLSN := lsn)
  {
    var stamped := Stamp(events, lsn);
    DecidedMembers(s, stamped, d, e);
    if e in stamped {
      var i :| 0 <= i < |stamped| && stamped[i] == e;
      assert e == events[i].(commitLSN := lsn);
    }
    if i :| 0 <= i < |events| && e == events[i].(commitLSN := lsn) {
      assert stamped[i] == e;
    }
  }

  lemma {:induction false} DecidedCount(s: MergerState, events: seq<CDCEvent>, d: Decision, e: CDCEvent)
    ensures Count(Decided(s, events, d), e) == if Route(s, e) == d then Count(events, e) else 0
    decreases |events|
  {
    if events != [] {
      var n := |events| - 1;
      DecidedCount(s, events[..n], d, e);
      CountSnoc(Decided(s, events[..n], d), events[n], e);
    }
  }

  lemma DecidedConserves(s: MergerState, events: seq<CDCEvent>, e: CDCEvent)
    ensures Count(events, e) ==
            Count(Decided(s, events, Emit), e) + Count(Decided(s, events, Buffer), e) +
            Count(Decided(s, events, BelowXMin), e) + Count(Decided(s, events, Unscanned), e)
  {
    DecidedCount(s, events, Emit, e);
    DecidedCount(s, events, Buffer, e);
    DecidedCount(s, events, BelowXMin, e);
    DecidedCount(s, events, Unscanned, e);
  }

  lemma {:induction false} ChunkMembers(events: seq<CDCEvent>, low: PK, high: PK, e: CDCEvent)
    ensures e in InChunk(events, low, high) <==> e in events && Within(e.pk, low, high)
    ensures e in Overflow(events, low, high) <==> e in events && !Within(e.pk, low, high)
    decreases |events|
  {
    if events != [] {
      var n := |events| - 1;
      ChunkMembers(events[..n], low, high, e);
      assert events == events[..n] + [events[n]];
    }
  }

  lemma {:induction false} ChunkConserves(events: seq<CDCEvent>, low: PK, high: PK, e: CDCEvent)
    ensures Count(events, e) == Count(InChunk(events, low, high), e) + Count(Overflow(events, low, high), e)
    decreases |events|
  {
    if events != [] {
      var n := |events| - 1;
      ChunkConserves(events[..n], low, high, e);
      CountSnoc(InChunk(events[..n], low, high), events[n], e);
      CountSnoc(Overflow(events[..n], low, high), events[n], e);
    }
  }

  lemma {:induction false} XMinMembers(events: seq<CDCEvent>, xmin: nat, e: CDCEvent)
    ensures e in NotBelow(events, xmin) <==> e in events && e.commitXID >= xmin
    ensures e in Below(events, xmin) <==> e in events && e.commitXID < xmin
    decreases |events|
  {
    if events != [] {
      var n := |events| - 1;
      XMinMembers(events[..n], xmin, e);
      assert events == events[..n] + [events[n]];
    }
  }

  lemma {:induction false} XMinConserves(events: seq<CDCEvent>, xmin: nat, e: CDCEvent)
    ensures Count(events, e) == Count(NotBelow(events, xmin), e) + Count(Below(events, xmin), e)
    decreases |events|
  {
    if events != [] {
      var n := |events| - 1;
      XMinConserves(events[..n], xmin, e);
      CountSnoc(NotBelow(events[..n], xmin), events[n], e);
      CountSnoc(Below(events[..n], xmin), events[n], e);
    }
  }

  /** The buffered events of one key lie either all inside a chunk or all outside it. */
  lemma {:induction false} ChunkTakesWholeKey(events: seq<CDCEvent>, low: PK, high: PK, table: string, pk: PK)
    ensures OfKey(InChunk(events, low, high), table, pk) ==
            if Within(pk, low, high) then OfKey(events, table, pk) else []
    ensures OfKey(Overflow(events, low, high), table, pk) ==
            if Within(pk, low, high) then [] else OfKey(events, table, pk)
    decreases |events|
  {
    if events != [] {
      var n := |events| - 1;
      var last := events[n];
      ChunkTakesWholeKey(events[..n], low, high, table, pk);
      var i, o := InChunk(events[..n], low, high), Overflow(events[..n], low, high);
      OfKeySnoc(i, last, table, pk);
      OfKeySnoc(o, last, table, pk);
    }
  }

  /** Whether events of a key are undecided on arrival: no scanned range covers it yet. */
  predicate Undecided(s: MergerState, table: string, pk: PK) {
    s.phase == Snapshotting && FindRange(s.scannedRanges, table, pk).None?
  }

  /** In one state, the events of one key are either all buffered or all settled at once. */
  lemma {:induction false} KeySettledWhole(s: MergerState, events: seq<CDCEvent>, table: string, pk: PK)
    ensures OfKey(SettledNow(s, events), table, pk) ==
            if Undecided(s, table, pk) then [] else OfKey(Taken(s, events), table, pk)
    decreases |events|
  {
    if events != [] {
      var n := |events| - 1;
      KeySettledWhole(s, events[..n], table, pk);
      OfKeySnoc(SettledNow(s, events[..n]), events[n], table, pk);
      OfKeySnoc(Taken(s, events[..n]), events[n], table, pk);
    }
  }

  lemma {:induction false} KeyBufferedWhole(s: MergerState, events: seq<CDCEvent>, table: string, pk: PK)
    ensures OfKey(Decided(s, events, Buffer), table, pk) ==
            if Undecided(s, table, pk) then OfKey(Taken(s, events), table, pk) else []
    decreases |events|
  {
    if events != [] {
      var n := |events| - 1;
      KeyBufferedWhole(s, events[..n], table, pk);
      OfKeySnoc(Decided(s, events[..n], Buffer), events[n], table, pk);
      OfKeySnoc(Taken(s, events[..n]), events[n], table, pk);
    }
  }

  lemma {:induction false} FindRangeAppend(ranges: seq<PKRange>, r: PKRange, table: string, pk: PK)
    ensures FindRange(ranges + [r], table, pk) ==
            if FindRange(ranges, table, pk).Some? then FindRange(ranges, table, pk)
            else if Covers(r, table, pk) then Some(r) else None
    decreases |ranges|
  {
    if ranges == [] {
      assert ranges + [r] == [r];
      assert [r][1..] == [];
    } else {
      assert (ranges + [r])[1..] == ranges[1..] + [r];
      FindRangeAppend(ranges[1..], r, table, pk);
    }
  }
}
