/** The merger itself (pg/merger.go): an object whose methods update its fields under a lock and
    then send to the output channel. Each method's contract gives its whole new state as the
    functions of MergerSpec; the channel is the sequence of events sent and not yet drained. */
module MergerObject {
  import opened Keys
  import opened Wrappers
  import opened Cdc
  import opened MergerSpec

  datatype WalBatch = WalBatch(events: seq<CDCEvent>, commitLSN: nat)

  /** The key comparisons findScannedRange makes do not panic: every range it examines, up to
      and including the first match, has bounds of the key's kind. */
  predicate SearchComparable(ranges: seq<PKRange>, table: string, pk: PK) {
    ranges == [] ||
    ((ranges[0].table == table ==> Comparable(pk, ranges[0].low, ranges[0].high)) &&
     (!Covers(ranges[0], table, pk) ==> SearchComparable(ranges[1..], table, pk)))
  }

  /** The key comparisons routeEvent makes do not panic. */
  predicate RouteComparable(s: MergerState, e: CDCEvent) {
    s.phase == Snapshotting ==>
      && SearchComparable(s.scannedRanges, TableOf(e), e.pk)
      && (FindRange(s.scannedRanges, TableOf(e), e.pk).None? && s.currentChunk.Some? &&
          s.currentChunk.value.table == TableOf(e) ==>
            Comparable(e.pk, s.currentChunk.value.pkLow, s.currentChunk.value.pkHigh))
  }

  method FindScannedRange(ranges: seq<PKRange>, table: string, id: PK) returns (r: Option<PKRange>)
    requires SearchComparable(ranges, table, id)
    ensures r == FindRange(ranges, table, id)
  {
    for i := 0 to |ranges|
      invariant SearchComparable(ranges[i..], table, id)
      invariant FindRange(ranges, table, id) == FindRange(ranges[i..], table, id)
    {
      assert ranges[i..][0] == ranges[i] && ranges[i..][1..] == ranges[i + 1..];
      if ranges[i].table == table {
        var inside := InRange(id, ranges[i].low, ranges[i].high);
        if inside {
          return Some(ranges[i]);
        }
      }
    }
    return None;
  }

  class Merger {
    var phase: Phase
    var scannedRanges: seq<PKRange>
    var currentChunk: Option<Chunk>
    var pendingWALEvents: seq<CDCEvent>
    var output: seq<CDCEvent>

    function State(): MergerState
      reads this
    {
      MergerState(phase, scannedRanges, currentChunk, pendingWALEvents)
    }

    constructor (initialRanges: seq<PKRange>, phase: Phase)
      ensures State() == MergerState(phase, initialRanges, None, [])
      ensures output == []
    {
      this.phase := phase;
      scannedRanges := initialRanges;
      currentChunk := None;
      pendingWALEvents := [];
      output := [];
    }

    method OnBeginChunk(chunkID: int, table: string, pkLow: PK, pkHigh: PK)
      modifies this`currentChunk
      ensures State() == BeginChunk(old(State()), Chunk(chunkID, table, pkLow, pkHigh))
    {
      currentChunk := Some(Chunk(chunkID, table, pkLow, pkHigh));
    }

    method Send(events: seq<CDCEvent>)
      modifies this`output
      ensures output == old(output) + events
    {
      for i := 0 to |events|
        invariant output == old(output) + events[..i]
      {
        assert events[..i + 1] == events[..i] + [events[i]];
        output := output + [events[i]];
      }
      assert events[..|events|] == events;
    }

    method OnEndChunk(chunkID: int, table: string, actualIDHigh: PK, xmin: nat)
      requires Ends(State(), chunkID) ==>
                 forall e <- pendingWALEvents :: Comparable(e.pk, currentChunk.value.pkLow, actualIDHigh)
      modifies this
      ensures State() == EndChunk(old(State()), chunkID, table, actualIDHigh, xmin)
      ensures output == old(output) + EndChunkEmits(old(State()), chunkID, actualIDHigh, xmin)
    {
      if currentChunk.None? || currentChunk.value.chunkID != chunkID {
        return;
      }
      var pkLow := currentChunk.value.pkLow;
      currentChunk := None;
      scannedRanges := scannedRanges + [PKRange(table, pkLow, actualIDHigh, xmin)];
      var toEmit := SettlePending(pkLow, actualIDHigh, xmin);
      Send(toEmit);
    }

    /** The loop of onEndChunk: what lies in the range is sent on or dropped, the rest stays buffered. */
    method SettlePending(pkLow: PK, pkHigh: PK, xmin: nat) returns (toEmit: seq<CDCEvent>)
      requires forall e <- pendingWALEvents :: Comparable(e.pk, pkLow, pkHigh)
      modifies this`pendingWALEvents
      ensures pendingWALEvents == Overflow(old(pendingWALEvents), pkLow, pkHigh)
      ensures toEmit == NotBelow(InChunk(old(pendingWALEvents), pkLow, pkHigh), xmin)
    {
      var pending := pendingWALEvents;
      pendingWALEvents, toEmit := [], [];
      for i := 0 to |pending|
        invariant toEmit == NotBelow(InChunk(pending[..i], pkLow, pkHigh), xmin)
        invariant pendingWALEvents == Overflow(pending[..i], pkLow, pkHigh)
      {
        var event := pending[i];
        SettleOne(pending, i, pkLow, pkHigh, xmin);
        var inside := InRange(event.pk, pkLow, pkHigh);
        if inside {
          if event.commitXID >= xmin {
            toEmit := toEmit + [event];
          }
        } else {
          pendingWALEvents := pendingWALEvents + [event];
        }
      }
      assert pending[..|pending|] == pending;
    }

    method OnSnapshotComplete()
      modifies this
      ensures State() == Complete(old(State()))
      ensures output == old(output) + old(pendingWALEvents)
    {
      var overflow := pendingWALEvents;
      phase := Streaming;
      currentChunk := None;
      pendingWALEvents := [];
      scannedRanges := [];
      Send(overflow);
    }

    method OnSnapshotEvent(event: CDCEvent)
      modifies this`output
      ensures output == old(output) + [event]
    {
      output := output + [event];
    }

    method RouteEvent(event: CDCEvent) returns (ok: bool)
      requires RouteComparable(State(), event)
      modifies this`pendingWALEvents
      ensures ok <==> Route(old(State()), event) == Emit
      ensures pendingWALEvents ==
              old(pendingWALEvents) + (if Route(old(State()), event) == Buffer then [event] else [])
    {
      if phase == Streaming {
        return true;
      }
      var qualifiedTable := QualifyTable(event.schema, event.table);
      var r := FindScannedRange(scannedRanges, qualifiedTable, event.pk);
      if r.Some? {
        return event.commitXID >= r.value.xmin;
      }
      if currentChunk.Some? && currentChunk.value.table == qualifiedTable {
        var inside := InRange(event.pk, currentChunk.value.pkLow, currentChunk.value.pkHigh);
        if inside {
          pendingWALEvents := pendingWALEvents + [event];
          return false;
        }
      }
      return false;
    }

    method CollectWALBatch(batch: WalBatch) returns (toEmit: seq<CDCEvent>)
      requires forall e <- batch.events :: RouteComparable(State(), e)
      modifies this`pendingWALEvents
      ensures State() == Receive(old(State()), Stamp(batch.events, batch.commitLSN))
      ensures toEmit == Decided(old(State()), Stamp(batch.events, batch.commitLSN), Emit)
    {
      toEmit := [];
      ghost var before := State();
      ghost var stamped := Stamp(batch.events, batch.commitLSN);
      for i := 0 to |batch.events|
        invariant toEmit == Decided(before, stamped[..i], Emit)
        invariant pendingWALEvents == before.pending + Decided(before, stamped[..i], Buffer)
      {
        var event := batch.events[i].(commitLSN := batch.commitLSN);
        assert stamped[..i + 1][..i] == stamped[..i];
        assert RouteComparable(before, batch.events[i]);
        RouteIgnoresPending(before, State(), event);
        var ok := RouteEvent(event);
        if ok {
          toEmit := toEmit + [event];
        }
      }
      assert stamped[..|stamped|] == stamped;
    }

    method OnWALBatch(batch: WalBatch)
      requires forall e <- batch.events :: RouteComparable(State(), e)
      modifies this
      ensures State() == Receive(old(State()), Stamp(batch.events, batch.commitLSN))
      ensures output == old(output) + Decided(old(State()), Stamp(batch.events, batch.commitLSN), Emit)
    {
      var toEmit := CollectWALBatch(batch);
      Send(toEmit);
    }
  }

  lemma SettleOne(pending: seq<CDCEvent>, i: nat, low: PK, high: PK, xmin: nat)
    requires i < |pending|
    ensures var e, settled := pending[i], NotBelow(InChunk(pending[..i], low, high), xmin);
            && NotBelow(InChunk(pending[..i + 1], low, high), xmin) ==
               (if Within(e.pk, low, high) && e.commitXID >= xmin then settled + [e] else settled)
            && Overflow(pending[..i + 1], low, high) ==
               (if Within(e.pk, low, high) then Overflow(pending[..i], low, high)
                else Overflow(pending[..i], low, high) + [e])
  {
    assert pending[..i + 1][..i] == pending[..i];
    var inside := InChunk(pending[..i], low, high);
    assert (inside + [pending[i]])[..|inside|] == inside;
  }

  lemma RouteIgnoresPending(s: MergerState, t: MergerState, e: CDCEvent)
    requires t == s.(pending := t.pending)
    ensures Route(s, e) == Route(t, e)
  {
  }
}
