/** The resume watermark. The engine's maps and its cursor are a function of two things only: how far
    the snapshot rows have been drained, and how many rows of each chunk have been acknowledged. */
module Watermark {
  import opened Keys
  import opened Wrappers
  import opened Cdc
  import opened EngineSpec

  /** Size and upper bound of a chunk. Chunk ids are 1, 2, ... in scan order. */
  datatype Extent = Extent(size: nat, high: PK)

  predicate Shaped(xs: seq<Extent>, seen: nat, acks: seq<nat>) {
    && |acks| == |xs| && seen <= |xs| < MAX_INT
    && (forall i :: 0 <= i < |xs| ==> acks[i] <= xs[i].size && xs[i].size > 0)
    && (forall i :: seen <= i < |xs| ==> acks[i] == 0)
  }

  /** Every row of the chunk has been acknowledged. */
  predicate Full(xs: seq<Extent>, acks: seq<nat>, id: int)
    requires |acks| == |xs|
  {
    1 <= id <= |xs| && acks[id - 1] >= xs[id - 1].size
  }

  /** The number of leading chunks that are full. */
  function Lead(xs: seq<Extent>, acks: seq<nat>, from: nat): (n: nat)
    requires |acks| == |xs| && from <= |xs|
    ensures from <= n <= |xs|
    ensures forall id :: from < id <= n ==> Full(xs, acks, id)
    ensures !Full(xs, acks, n + 1)
    decreases |xs| - from
  {
    if Full(xs, acks, from + 1) then Lead(xs, acks, from + 1) else from
  }

  lemma LeadIs(xs: seq<Extent>, acks: seq<nat>, n: nat)
    requires |acks| == |xs| && n <= |xs|
    requires forall id :: 1 <= id <= n ==> Full(xs, acks, id)
    requires !Full(xs, acks, n + 1)
    ensures Lead(xs, acks, 0) == n
  {
    var m := Lead(xs, acks, 0);
    assert m + 1 > n && n + 1 > m;
  }

  function Pending(xs: seq<Extent>, seen: nat, acks: seq<nat>): set<int>
    requires |acks| == |xs|
  {
    set id | 1 <= id <= seen && !Full(xs, acks, id)
  }

  /** The full chunks that wait for an earlier one. */
  function Waiting(xs: seq<Extent>, acks: seq<nat>, lead: nat): map<int, PK>
    requires |acks| == |xs|
  {
    map id | lead < id <= |xs| && Full(xs, acks, id) :: xs[id - 1].high
  }

  function CursorAt(start: PK, xs: seq<Extent>, lead: nat): PK
    requires lead <= |xs|
  {
    if lead == 0 then start else xs[lead - 1].high
  }

  /** The engine's state for given progress: nothing else can be in it. */
  ghost predicate Tracks(start: PK, table: string, xs: seq<Extent>, seen: nat, acks: seq<nat>, e: EngineState)
    requires |acks| == |xs|
  {
    var pending, lead := Pending(xs, seen, acks), Lead(xs, acks, 0);
    && e.pendingChunks == pending
    && e.completedChunks == Waiting(xs, acks, lead)
    && e.state.snapshotCursor == CursorAt(start, xs, lead)
    && TracksMaps(table, xs, pending, acks, e)
  }

  /** What the maps hold for a chunk in flight. */
  ghost predicate ChunkTracked(table: string, x: Extent, acks: nat, e: EngineState, id: int) {
    && id in e.chunkSizes && e.chunkSizes[id] == x.size
    && id in e.chunkHighPK && e.chunkHighPK[id] == x.high
    && id in e.chunkTable && e.chunkTable[id] == table
    && Get(e.chunkAcked, id, 0) == acks
    && (id in e.chunkAcked ==> acks > 0)
  }

  ghost predicate TracksMaps(table: string, xs: seq<Extent>, pending: set<int>, acks: seq<nat>, e: EngineState)
    requires |acks| == |xs|
  {
    && e.chunkSizes.Keys == pending && e.chunkHighPK.Keys == pending && e.chunkTable.Keys == pending
    && e.chunkAcked.Keys <= pending
    && (forall id <- pending :: 1 <= id <= |xs| && ChunkTracked(table, xs[id - 1], acks[id - 1], e, id))
  }

  lemma TracksAtStart(start: PK, table: string, e: EngineState)
    requires e.chunkSizes == map[] && e.chunkAcked == map[] && e.chunkHighPK == map[] && e.chunkTable == map[]
    requires e.pendingChunks == {} && e.completedChunks == map[] && e.state.snapshotCursor == start
    ensures Tracks(start, table, [], 0, [], e)
  {
  }

  // ---- draining a row ----

  /** The drained row's chunk, and a chunk other than it. */
  lemma RowTracked(table: string, x: Extent, acks: nat, e: EngineState, event: CDCEvent)
    requires event.operation == Read && TableOf(event) == table
    requires event.chunkSize == x.size && event.chunkHighPK == x.high
    requires Get(e.chunkAcked, event.chunkID, 0) == acks && (event.chunkID in e.chunkAcked ==> acks > 0)
    ensures ChunkTracked(table, x, acks, Track(e, event), event.chunkID)
  {
  }

  lemma OtherTracked(table: string, x: Extent, acks: nat, e: EngineState, event: CDCEvent, id: int)
    requires event.operation == Read && id != event.chunkID && ChunkTracked(table, x, acks, e, id)
    ensures ChunkTracked(table, x, acks, Track(e, event), id)
  {
  }

  lemma TrackedKeys(e: EngineState, event: CDCEvent, pending: set<int>)
    requires event.operation == Read
    requires e.chunkSizes.Keys == pending && e.chunkHighPK.Keys == pending && e.chunkTable.Keys == pending
    ensures var t, grown := Track(e, event), pending + {event.chunkID};
            t.chunkSizes.Keys == grown && t.chunkHighPK.Keys == grown && t.chunkTable.Keys == grown
  {
  }

  lemma TrackKeepsMaps(table: string, xs: seq<Extent>, pending: set<int>, acks: seq<nat>, e: EngineState,
                       event: CDCEvent)
    requires |acks| == |xs| && TracksMaps(table, xs, pending, acks, e)
    requires event.operation == Read && 1 <= event.chunkID <= |xs| && TableOf(event) == table
    requires event.chunkID in pending || acks[event.chunkID - 1] == 0
    requires event.chunkSize == xs[event.chunkID - 1].size && event.chunkHighPK == xs[event.chunkID - 1].high
    ensures TracksMaps(table, xs, pending + {event.chunkID}, acks, Track(e, event))
  {
    TrackedKeys(e, event, pending);
    forall id | id in pending + {event.chunkID}
      ensures 1 <= id <= |xs| && ChunkTracked(table, xs[id - 1], acks[id - 1], Track(e, event), id)
    {
      assert id in pending ==> ChunkTracked(table, xs[id - 1], acks[id - 1], e, id);
      if id == event.chunkID {
        RowTracked(table, xs[id - 1], acks[id - 1], e, event);
      } else {
        OtherTracked(table, xs[id - 1], acks[id - 1], e, event, id);
      }
    }
  }

  /** Draining a row of the newest chunk seen so far, or the first row of the next one. */
  lemma TrackKeeps(start: PK, table: string, xs: seq<Extent>, seen: nat, acks: seq<nat>, e: EngineState,
                   event: CDCEvent)
    requires Shaped(xs, seen, acks) && Tracks(start, table, xs, seen, acks, e)
    requires event.operation == Read && 1 <= event.chunkID <= |xs| && seen <= event.chunkID <= seen + 1
    requires !Full(xs, acks, event.chunkID) && TableOf(event) == table
    requires event.chunkSize == xs[event.chunkID - 1].size && event.chunkHighPK == xs[event.chunkID - 1].high
    ensures Tracks(start, table, xs, event.chunkID, acks, Track(e, event))
  {
    var pending := Pending(xs, seen, acks);
    assert Pending(xs, event.chunkID, acks) == pending + {event.chunkID};
    TrackKeepsMaps(table, xs, pending, acks, e, event);
  }

  // ---- a chunk is scanned ----

  lemma ExtendKeeps(start: PK, table: string, xs: seq<Extent>, seen: nat, acks: seq<nat>, e: EngineState, x: Extent)
    requires Shaped(xs, seen, acks) && Tracks(start, table, xs, seen, acks, e) && x.size > 0
    ensures Tracks(start, table, xs + [x], seen, acks + [0], e)
    ensures Lead(xs + [x], acks + [0], 0) == Lead(xs, acks, 0)
  {
    var lead := Lead(xs, acks, 0);
    assert forall id :: Full(xs + [x], acks + [0], id) <==> Full(xs, acks, id);
    LeadIs(xs + [x], acks + [0], lead);
    assert Pending(xs + [x], seen, acks + [0]) == Pending(xs, seen, acks);
    assert Waiting(xs + [x], acks + [0], lead) == Waiting(xs, acks, lead);
  }

  // ---- an acknowledgement ----

  /** Acknowledged rows per chunk after some more. */
  function AckMore(acks: seq<nat>, events: seq<CDCEvent>): (r: seq<nat>)
    ensures |r| == |acks|
    ensures forall i :: 0 <= i < |r| ==> r[i] == acks[i] + ReadCount(events, i + 1)
  {
    seq(|acks|, i requires 0 <= i < |acks| => acks[i] + ReadCount(events, i + 1))
  }

  /** The rows may be acknowledged now: drained, and no more of them than are outstanding. */
  ghost predicate MayAck(xs: seq<Extent>, seen: nat, acks: seq<nat>, events: seq<CDCEvent>)
    requires |acks| == |xs|
  {
    && Shaped(xs, seen, AckMore(acks, events))
    && (forall id <- ReadIds(events) :: 1 <= id <= seen)
  }

  lemma AckedWasPending(xs: seq<Extent>, seen: nat, acks: seq<nat>, events: seq<CDCEvent>, id: int)
    requires Shaped(xs, seen, acks) && MayAck(xs, seen, acks, events) && id in ReadIds(events)
    ensures id in Pending(xs, seen, acks)
  {
    ReadCountPositive(events, id);
    assert AckMore(acks, events)[id - 1] <= xs[id - 1].size;
  }

  /** An acknowledged chunk is finished by the count in the maps exactly if it is then full. */
  lemma FinishedIsFull(start: PK, table: string, xs: seq<Extent>, seen: nat, acks: seq<nat>, e: EngineState,
                       events: seq<CDCEvent>, id: int)
    requires Shaped(xs, seen, acks) && Tracks(start, table, xs, seen, acks, e) && MayAck(xs, seen, acks, events)
    requires id in ReadIds(events)
    ensures 1 <= id <= |xs| && id in Pending(xs, seen, acks) && !Full(xs, acks, id)
    ensures NewAcked(e, events, id) >= Get(e.chunkSizes, id, 0) <==> Full(xs, AckMore(acks, events), id)
  {
    AckedWasPending(xs, seen, acks, events, id);
    assert ChunkTracked(table, xs[id - 1], acks[id - 1], e, id);
  }

  /** A chunk that is not acknowledged is as full as before. */
  lemma OthersAsFull(xs: seq<Extent>, acks: seq<nat>, events: seq<CDCEvent>, id: int)
    requires |acks| == |xs| && id !in ReadIds(events)
    ensures Full(xs, AckMore(acks, events), id) <==> Full(xs, acks, id)
  {
    ReadCountPositive(events, id);
  }

  lemma FinishedAreFull(start: PK, table: string, xs: seq<Extent>, seen: nat, acks: seq<nat>, e: EngineState,
                        events: seq<CDCEvent>)
    requires Shaped(xs, seen, acks) && Tracks(start, table, xs, seen, acks, e) && MayAck(xs, seen, acks, events)
    ensures forall id :: Full(xs, AckMore(acks, events), id) <==>
                         Full(xs, acks, id) || id in Finished(e, events, ReadIds(events))
  {
    forall id ensures Full(xs, AckMore(acks, events), id) <==>
                      Full(xs, acks, id) || id in Finished(e, events, ReadIds(events))
    {
      if id in ReadIds(events) {
        FinishedIsFull(start, table, xs, seen, acks, e, events, id);
      } else {
        OthersAsFull(xs, acks, events, id);
      }
    }
  }

  /** After the counting part: the maps match the new counts, the cursor is still the old one. */
  lemma CountingKeeps(start: PK, table: string, xs: seq<Extent>, seen: nat, acks: seq<nat>, e: EngineState,
                      events: seq<CDCEvent>)
    requires Shaped(xs, seen, acks) && Tracks(start, table, xs, seen, acks, e) && MayAck(xs, seen, acks, events)
    ensures var c := CountAcks(e, events, ReadIds(events));
            var more := AckMore(acks, events);
            && c.pendingChunks == Pending(xs, seen, more)
            && TracksMaps(table, xs, Pending(xs, seen, more), more, c)
  {
    FinishedAreFull(start, table, xs, seen, acks, e, events);
    var more := AckMore(acks, events);
    var done := Finished(e, events, ReadIds(events));
    assert Pending(xs, seen, more) == Pending(xs, seen, acks) - done;
    CountedMaps(table, xs, seen, acks, e, events);
  }

  lemma ChunkCounted(table: string, xs: seq<Extent>, seen: nat, acks: seq<nat>, e: EngineState, events: seq<CDCEvent>,
                     id: int)
    requires Shaped(xs, seen, acks) && MayAck(xs, seen, acks, events)
    requires id in Pending(xs, seen, acks) && ChunkTracked(table, xs[id - 1], acks[id - 1], e, id)
    requires id !in Finished(e, events, ReadIds(events))
    ensures ChunkTracked(table, xs[id - 1], AckMore(acks, events)[id - 1], CountAcks(e, events, ReadIds(events)), id)
  {
    ReadCountPositive(events, id);
  }

  lemma CountedMaps(table: string, xs: seq<Extent>, seen: nat, acks: seq<nat>, e: EngineState, events: seq<CDCEvent>)
    requires Shaped(xs, seen, acks) && MayAck(xs, seen, acks, events)
    requires TracksMaps(table, xs, Pending(xs, seen, acks), acks, e)
    requires Pending(xs, seen, AckMore(acks, events)) == Pending(xs, seen, acks) - Finished(e, events, ReadIds(events))
    ensures TracksMaps(table, xs, Pending(xs, seen, AckMore(acks, events)), AckMore(acks, events),
                       CountAcks(e, events, ReadIds(events)))
  {
    var c := CountAcks(e, events, ReadIds(events));
    var pending := Pending(xs, seen, AckMore(acks, events));
    forall id | id in ReadIds(events) ensures id in Pending(xs, seen, acks) {
      AckedWasPending(xs, seen, acks, events, id);
    }
    assert c.chunkAcked.Keys <= pending;
    forall id | id in pending
      ensures 1 <= id <= |xs| && ChunkTracked(table, xs[id - 1], AckMore(acks, events)[id - 1], c, id)
    {
      ChunkCounted(table, xs, seen, acks, e, events, id);
    }
  }

  lemma CountingCompletes(start: PK, table: string, xs: seq<Extent>, seen: nat, acks: seq<nat>, e: EngineState,
                          events: seq<CDCEvent>)
    requires Shaped(xs, seen, acks) && Tracks(start, table, xs, seen, acks, e) && MayAck(xs, seen, acks, events)
    ensures CountAcks(e, events, ReadIds(events)).completedChunks ==
            Waiting(xs, AckMore(acks, events), Lead(xs, acks, 0))
  {
    var lead := Lead(xs, acks, 0);
    var done := Finished(e, events, ReadIds(events));
    assert forall id :: Full(xs, AckMore(acks, events), id) <==> Full(xs, acks, id) || id in done by {
      FinishedAreFull(start, table, xs, seen, acks, e, events);
    }
    forall id | id in done ensures lead < id <= |xs| && Get(e.chunkHighPK, id, Unset) == xs[id - 1].high {
      AckedWasPending(xs, seen, acks, events, id);
      assert ChunkTracked(table, xs[id - 1], acks[id - 1], e, id);
    }
    WaitingGrows(xs, acks, AckMore(acks, events), lead, done, Highs(e, done));
  }

  lemma WaitingGrows(xs: seq<Extent>, acks: seq<nat>, more: seq<nat>, lead: nat, done: set<int>, highs: map<int, PK>)
    requires |acks| == |more| == |xs|
    requires highs.Keys == done && forall id <- done :: lead < id <= |xs| && highs[id] == xs[id - 1].high
    requires forall id :: Full(xs, more, id) <==> Full(xs, acks, id) || id in done
    ensures Waiting(xs, acks, lead) + highs == Waiting(xs, more, lead)
  {
  }

  /** What advancing does: exactly the full chunks up to the new lead are committed. */
  lemma EligibleAreLeading(xs: seq<Extent>, seen: nat, more: seq<nat>, lead: nat)
    requires Shaped(xs, seen, more) && lead <= Lead(xs, more, 0)
    requires forall id :: Full(xs, more, id) ==> id <= seen
    ensures forall id :: id in Eligible(Pending(xs, seen, more), Waiting(xs, more, lead).Keys) <==>
                         lead < id <= Lead(xs, more, 0)
  {
    var top := Lead(xs, more, 0);
    forall id | lead < id <= |xs| && Full(xs, more, id)
      ensures (forall p <- Pending(xs, seen, more) :: id < p) <==> id <= top
    {
      if id > top {
        assert top + 1 in Pending(xs, seen, more);
      }
    }
  }

  lemma AdvanceKeeps(start: PK, table: string, xs: seq<Extent>, seen: nat, more: seq<nat>, lead: nat, c: EngineState)
    requires Shaped(xs, seen, more) && lead <= Lead(xs, more, 0)
    requires forall id :: Full(xs, more, id) ==> id <= seen
    requires c.pendingChunks == Pending(xs, seen, more) && TracksMaps(table, xs, c.pendingChunks, more, c)
    requires c.completedChunks == Waiting(xs, more, lead) && c.state.snapshotCursor == CursorAt(start, xs, lead)
    ensures Tracks(start, table, xs, seen, more, Advance(c))
  {
    var top := Lead(xs, more, 0);
    EligibleAreLeading(xs, seen, more, lead);
    var safe := Eligible(c.pendingChunks, c.completedChunks.Keys);
    if top == lead {
      assert safe == {};
    } else {
      assert top in safe;
      assert Greatest(safe) == top;
      assert (map id <- c.completedChunks | id > top :: c.completedChunks[id]) == Waiting(xs, more, top);
    }
  }

  lemma FullWasSeen(xs: seq<Extent>, seen: nat, acks: seq<nat>)
    requires Shaped(xs, seen, acks)
    ensures forall id :: Full(xs, acks, id) ==> id <= seen
  {
  }

  lemma LeadGrows(xs: seq<Extent>, acks: seq<nat>, more: seq<nat>)
    requires |acks| == |more| == |xs| && forall i :: 0 <= i < |xs| ==> acks[i] <= more[i]
    ensures Lead(xs, acks, 0) <= Lead(xs, more, 0)
  {
    forall id | 1 <= id <= Lead(xs, acks, 0) ensures Full(xs, more, id) {
      assert Full(xs, acks, id);
    }
  }

  lemma AdvancedTracks(start: PK, table: string, xs: seq<Extent>, seen: nat, acks: seq<nat>, e: EngineState,
                       events: seq<CDCEvent>)
    requires Shaped(xs, seen, acks) && Tracks(start, table, xs, seen, acks, e) && MayAck(xs, seen, acks, events)
    ensures Tracks(start, table, xs, seen, AckMore(acks, events), Advance(CountAcks(e, events, ReadIds(events))))
  {
    LeadGrows(xs, acks, AckMore(acks, events));
    CountingKeeps(start, table, xs, seen, acks, e, events);
    CountingCompletes(start, table, xs, seen, acks, e, events);
    FullWasSeen(xs, seen, AckMore(acks, events));
    AdvanceKeeps(start, table, xs, seen, AckMore(acks, events), Lead(xs, acks, 0),
                 CountAcks(e, events, ReadIds(events)));
  }

  lemma CountedTracks(start: PK, table: string, xs: seq<Extent>, seen: nat, acks: seq<nat>, e: EngineState,
                      events: seq<CDCEvent>)
    requires Shaped(xs, seen, acks) && Tracks(start, table, xs, seen, acks, e) && MayAck(xs, seen, acks, events)
    requires Finished(e, events, ReadIds(events)) == {}
    ensures Tracks(start, table, xs, seen, AckMore(acks, events), CountAcks(e, events, ReadIds(events)))
  {
    CountingKeeps(start, table, xs, seen, acks, e, events);
    CountingCompletes(start, table, xs, seen, acks, e, events);
    NothingFinished(start, table, xs, seen, acks, e, events);
  }

  lemma AfterConfirmKeeps(start: PK, table: string, xs: seq<Extent>, seen: nat, acks: seq<nat>, e: EngineState,
                          events: seq<CDCEvent>)
    requires Shaped(xs, seen, acks) && Tracks(start, table, xs, seen, acks, e) && MayAck(xs, seen, acks, events)
    ensures Tracks(start, table, xs, seen, AckMore(acks, events), AfterConfirm(e, events))
  {
    var c, more := CountAcks(e, events, ReadIds(events)), AckMore(acks, events);
    if Finished(e, events, ReadIds(events)) != {} {
      AdvancedTracks(start, table, xs, seen, acks, e, events);
      SwitchingKeeps(start, table, xs, seen, more, Advance(c));
    } else {
      CountedTracks(start, table, xs, seen, acks, e, events);
      SwitchingKeeps(start, table, xs, seen, more, c);
    }
  }

  lemma SwitchingKeeps(start: PK, table: string, xs: seq<Extent>, seen: nat, acks: seq<nat>, e: EngineState)
    requires |acks| == |xs| && Tracks(start, table, xs, seen, acks, e)
    ensures Tracks(start, table, xs, seen, acks, SwitchPhase(e))
  {
    StateFieldsDoNotMatter(start, table, xs, seen, acks, e, SwitchPhase(e));
  }

  /** Phase and confirmed position play no part in the watermark. */
  lemma StateFieldsDoNotMatter(start: PK, table: string, xs: seq<Extent>, seen: nat, acks: seq<nat>, a: EngineState,
                               b: EngineState)
    requires |acks| == |xs| && Tracks(start, table, xs, seen, acks, a)
    requires b == a.(state := b.state, snapshotScanDone := b.snapshotScanDone)
    requires b.state.snapshotCursor == a.state.snapshotCursor
    ensures Tracks(start, table, xs, seen, acks, b)
  {
    var pending := Pending(xs, seen, acks);
    forall id | id in pending ensures 1 <= id <= |xs| && ChunkTracked(table, xs[id - 1], acks[id - 1], b, id) {
      assert ChunkTracked(table, xs[id - 1], acks[id - 1], a, id);
    }
  }

  /** An acknowledgement takes the engine to the state its new counts call for. */
  lemma AcknowledgeKeeps(start: PK, table: string, xs: seq<Extent>, seen: nat, acks: seq<nat>, e: EngineState,
                         events: seq<CDCEvent>)
    requires Shaped(xs, seen, acks) && Tracks(start, table, xs, seen, acks, e) && MayAck(xs, seen, acks, events)
    ensures Tracks(start, table, xs, seen, AckMore(acks, events), Acknowledge(e, events))
    ensures Lead(xs, acks, 0) <= Lead(xs, AckMore(acks, events), 0)
  {
    LeadGrows(xs, acks, AckMore(acks, events));
    StateFieldsDoNotMatter(start, table, xs, seen, acks, e, Confirm(e, events));
    AfterConfirmKeeps(start, table, xs, seen, acks, Confirm(e, events), events);
  }

  lemma NothingFinished(start: PK, table: string, xs: seq<Extent>, seen: nat, acks: seq<nat>, e: EngineState,
                        events: seq<CDCEvent>)
    requires Shaped(xs, seen, acks) && Tracks(start, table, xs, seen, acks, e) && MayAck(xs, seen, acks, events)
    requires Finished(e, events, ReadIds(events)) == {}
    ensures Lead(xs, AckMore(acks, events), 0) == Lead(xs, acks, 0)
  {
    var more, lead := AckMore(acks, events), Lead(xs, acks, 0);
    FinishedAreFull(start, table, xs, seen, acks, e, events);
    forall id | 1 <= id <= |xs| ensures Full(xs, more, id) <==> Full(xs, acks, id) {
      if id in ReadIds(events) {
        AckedWasPending(xs, seen, acks, events, id);
        assert id !in Finished(e, events, ReadIds(events));
      }
    }
    LeadIs(xs, more, lead);
  }

  // ---- progress determines the engine ----

  /** The same chunks seen so far, and the same acknowledgements of them; what lies beyond may differ. */
  predicate SameSeen(seen: nat, xs: seq<Extent>, acks: seq<nat>, ys: seq<Extent>, bcks: seq<nat>) {
    && Shaped(xs, seen, acks) && Shaped(ys, seen, bcks)
    && forall i :: 0 <= i < seen ==> xs[i] == ys[i] && acks[i] == bcks[i]
  }

  lemma SameFull(seen: nat, xs: seq<Extent>, acks: seq<nat>, ys: seq<Extent>, bcks: seq<nat>)
    requires SameSeen(seen, xs, acks, ys, bcks)
    ensures forall id :: Full(xs, acks, id) <==> Full(ys, bcks, id)
  {
    FullWasSeen(xs, seen, acks);
    FullWasSeen(ys, seen, bcks);
  }

  lemma SameLead(seen: nat, xs: seq<Extent>, acks: seq<nat>, ys: seq<Extent>, bcks: seq<nat>)
    requires SameSeen(seen, xs, acks, ys, bcks)
    ensures Lead(xs, acks, 0) == Lead(ys, bcks, 0) <= seen
  {
    var lead := Lead(xs, acks, 0);
    SameFull(seen, xs, acks, ys, bcks);
    FullWasSeen(xs, seen, acks);
    assert lead > 0 ==> Full(xs, acks, lead);
    LeadIs(ys, bcks, lead);
  }

  lemma SameWaiting(seen: nat, xs: seq<Extent>, acks: seq<nat>, ys: seq<Extent>, bcks: seq<nat>, lead: nat)
    requires SameSeen(seen, xs, acks, ys, bcks)
    ensures Waiting(xs, acks, lead) == Waiting(ys, bcks, lead)
  {
    SameFull(seen, xs, acks, ys, bcks);
    FullWasSeen(xs, seen, acks);
    assert Waiting(xs, acks, lead).Keys == Waiting(ys, bcks, lead).Keys;
    SameMap(Waiting(xs, acks, lead), Waiting(ys, bcks, lead));
  }

  /** Two engines that have seen the same chunks of the same scan, and counted the same acknowledgements, agree on
      everything the watermark is made of, whatever chunks have been scanned beyond. */
  lemma ProgressDetermines(start: PK, table: string, seen: nat, xs: seq<Extent>, acks: seq<nat>, a: EngineState,
                           ys: seq<Extent>, bcks: seq<nat>, b: EngineState)
    requires SameSeen(seen, xs, acks, ys, bcks)
    requires Tracks(start, table, xs, seen, acks, a) && Tracks(start, table, ys, seen, bcks, b)
    ensures a == b.(state := a.state, snapshotScanDone := a.snapshotScanDone)
    ensures a.state.snapshotCursor == b.state.snapshotCursor
  {
    SameLead(seen, xs, acks, ys, bcks);
    SameWaiting(seen, xs, acks, ys, bcks, Lead(xs, acks, 0));
    assert Pending(xs, seen, acks) == Pending(ys, seen, bcks) by {
      SameFull(seen, xs, acks, ys, bcks);
    }
    SameMaps(table, seen, xs, acks, a, ys, bcks, b);
  }

  lemma SameMaps(table: string, seen: nat, xs: seq<Extent>, acks: seq<nat>, a: EngineState,
                 ys: seq<Extent>, bcks: seq<nat>, b: EngineState)
    requires SameSeen(seen, xs, acks, ys, bcks) && Pending(xs, seen, acks) == Pending(ys, seen, bcks)
    requires TracksMaps(table, xs, Pending(xs, seen, acks), acks, a)
    requires TracksMaps(table, ys, Pending(ys, seen, bcks), bcks, b)
    ensures a.chunkSizes == b.chunkSizes && a.chunkHighPK == b.chunkHighPK && a.chunkTable == b.chunkTable
    ensures a.chunkAcked == b.chunkAcked
  {
    var pending := Pending(xs, seen, acks);
    forall id | id in pending ensures SameChunk(a, b, id) {
      assert ChunkTracked(table, xs[id - 1], acks[id - 1], a, id) &&
             ChunkTracked(table, ys[id - 1], bcks[id - 1], b, id);
    }
    SameEverywhere(a, b, pending);
  }

  /** Two engines hold the same about a chunk. */
  predicate SameChunk(a: EngineState, b: EngineState, id: int) {
    && id in a.chunkSizes && id in b.chunkSizes && a.chunkSizes[id] == b.chunkSizes[id]
    && id in a.chunkHighPK && id in b.chunkHighPK && a.chunkHighPK[id] == b.chunkHighPK[id]
    && id in a.chunkTable && id in b.chunkTable && a.chunkTable[id] == b.chunkTable[id]
    && (id in a.chunkAcked <==> id in b.chunkAcked)
    && (id in a.chunkAcked ==> a.chunkAcked[id] == b.chunkAcked[id])
  }

  lemma SameEverywhere(a: EngineState, b: EngineState, pending: set<int>)
    requires a.chunkSizes.Keys == pending == b.chunkSizes.Keys && a.chunkHighPK.Keys == pending == b.chunkHighPK.Keys
    requires a.chunkTable.Keys == pending == b.chunkTable.Keys && a.chunkAcked.Keys <= pending &&
             b.chunkAcked.Keys <= pending
    requires forall id <- pending :: SameChunk(a, b, id)
    ensures a.chunkSizes == b.chunkSizes && a.chunkHighPK == b.chunkHighPK && a.chunkTable == b.chunkTable
    ensures a.chunkAcked == b.chunkAcked
  {
    forall id ensures id in a.chunkAcked <==> id in b.chunkAcked {
      assert id in pending ==> SameChunk(a, b, id);
    }
    forall id | id in pending
      ensures a.chunkSizes[id] == b.chunkSizes[id] && a.chunkHighPK[id] == b.chunkHighPK[id] &&
              a.chunkTable[id] == b.chunkTable[id]
      ensures id in a.chunkAcked ==> a.chunkAcked[id] == b.chunkAcked[id]
    {
      assert SameChunk(a, b, id);
    }
    SameMap(a.chunkSizes, b.chunkSizes);
    SameMap(a.chunkHighPK, b.chunkHighPK);
    SameMap(a.chunkTable, b.chunkTable);
    assert a.chunkAcked.Keys == b.chunkAcked.Keys;
    SameMap(a.chunkAcked, b.chunkAcked);
  }

  lemma SameMap<V>(m: map<int, V>, n: map<int, V>)
    requires m.Keys == n.Keys && forall id <- m :: m[id] == n[id]
    ensures m == n
  {
    forall id | id in m ensures m[id] == n[id] {
    }
    assert m.Keys == n.Keys;
    assert m == n;
  }

  /** A completed chunk still in the map has a pending predecessor. */
  lemma WaitingHasPendingPredecessor(start: PK, table: string, xs: seq<Extent>, seen: nat, acks: seq<nat>,
                                     e: EngineState)
    requires Shaped(xs, seen, acks) && Tracks(start, table, xs, seen, acks, e) && e.completedChunks != map[]
    ensures forall id <- e.completedChunks :: exists p <- e.pendingChunks :: p < id
    ensures e.pendingChunks != {}
  {
    var first := Lead(xs, acks, 0) + 1;
    forall id | id in e.completedChunks ensures first < id && first in e.pendingChunks {
      assert Full(xs, acks, id) && !Full(xs, acks, first);
    }
    assert e.completedChunks.Keys != {};
    HasElement(e.completedChunks.Keys);
    var id :| id in e.completedChunks;
  }
}
