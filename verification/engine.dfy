/** The engine (pg/connector.go) and the streamer's confirmed-position hand-off (pg/wal.go). */
module EngineObject {
  import opened Keys
  import opened Wrappers
  import opened Cdc
  import opened EngineSpec
  import MergerObject

  class WalStreamer {
    var confirmedLSN: nat
    var confirmedLSNCh: seq<nat>

    constructor (startLSN: nat)
      ensures confirmedLSN == startLSN && confirmedLSNCh == []
    {
      confirmedLSN := startLSN;
      confirmedLSNCh := [];
    }

    function State(): StreamerState
      reads this
    {
      StreamerState(confirmedLSN, confirmedLSNCh)
    }

    method AdvanceConfirmedLSN(lsn: nat)
      modifies this`confirmedLSNCh
      ensures State() == Notify(old(State()), lsn)
    {
      if |confirmedLSNCh| < NOTIFICATIONS {
        confirmedLSNCh := confirmedLSNCh + [lsn];
      }
    }

    /** The non-blocking receive at the top of the streamer's loop. */
    method TakeConfirmedLSN()
      modifies this
      ensures State() == TakeNotification(old(State()))
    {
      if confirmedLSNCh != [] {
        var lsn := confirmedLSNCh[0];
        confirmedLSNCh := confirmedLSNCh[1..];
        if lsn > confirmedLSN {
          confirmedLSN := lsn;
        }
      }
    }
  }

  class CdcEngine {
    var merger: MergerObject.Merger
    var streamer: WalStreamer
    var saved: Option<CDCState>
    var state: CDCState

    var chunkSizes: map<int, nat>
    var chunkAcked: map<int, nat>
    var chunkHighPK: map<int, PK>
    var chunkTable: map<int, string>
    var pendingChunks: set<int>
    var completedChunks: map<int, PK>
    var snapshotScanDone: bool

    function State(): EngineState
      reads this
    {
      EngineState(chunkSizes, chunkAcked, chunkHighPK, chunkTable, pendingChunks, completedChunks,
                  snapshotScanDone, state)
    }

    constructor (merger: MergerObject.Merger, streamer: WalStreamer, loaded: CDCState)
      ensures this.merger == merger && this.streamer == streamer && saved == None
      ensures State() == EngineState(map[], map[], map[], map[], {}, map[], false, loaded)
    {
      this.merger := merger;
      this.streamer := streamer;
      saved := None;
      state := loaded;
      chunkSizes, chunkAcked, chunkHighPK, chunkTable := map[], map[], map[], map[];
      pendingChunks, completedChunks := {}, map[];
      snapshotScanDone := false;
    }

    /** Drains up to `demand` events from the channel, recording the chunk of each row. */
    method HandleDemand(demand: nat) returns (result: seq<CDCEvent>)
      modifies this, merger
      ensures merger == old(merger) && streamer == old(streamer) && saved == old(saved)
      ensures merger.State() == old(merger.State())
      ensures |result| == if demand < |old(merger.output)| then demand else |old(merger.output)|
      ensures old(merger.output) == result + merger.output
      ensures State() == TrackAll(old(State()), result)
      ensures Registered(old(State()), result, State())
    {
      result := [];
      for i := 0 to demand
        invariant merger == old(merger) && streamer == old(streamer) && saved == old(saved)
        invariant merger.State() == old(merger.State())
        invariant |result| == i
        invariant old(merger.output) == result + merger.output
        invariant State() == TrackAll(old(State()), result)
      {
        if merger.output == [] {
          AllRegistered(old(State()), result);
          return;
        }
        var event := merger.output[0];
        merger.output := merger.output[1..];
        TrackEvent(event);
        assert (result + [event])[..|result|] == result;
        result := result + [event];
      }
      AllRegistered(old(State()), result);
    }

    /** What HandleDemand records about an event it takes. */
    method TrackEvent(event: CDCEvent)
      modifies this`chunkSizes, this`chunkHighPK, this`chunkTable, this`pendingChunks
      ensures State() == Track(old(State()), event)
    {
      if event.operation == Read {
        var table := event.table;
        if event.schema != "" {
          table := event.schema + "." + event.table;
        }
        chunkSizes := chunkSizes[event.chunkID := event.chunkSize];
        chunkHighPK := chunkHighPK[event.chunkID := event.chunkHighPK];
        chunkTable := chunkTable[event.chunkID := table];
        pendingChunks := pendingChunks + {event.chunkID};
      }
    }

    /** The acknowledgement callback. `failed` is a non-nil error; `stored` says whether the
        write to the offset store succeeded, which the source does not look at. */
    method Acknowledger(messages: seq<CDCEvent>, failed: bool, stored: bool)
      modifies this, streamer
      ensures merger == old(merger) && streamer == old(streamer)
      ensures State() == if failed then old(State()) else Acknowledge(old(State()), messages)
      ensures saved == if !failed && stored then Some(state) else old(saved)
      ensures streamer.State() == if failed then old(streamer.State())
                                  else NotifyAcked(old(streamer.State()), old(state.confirmedLSN), MaxLSN(messages))
    {
      if failed {
        return;
      }
      var maxCommitLSN, chunkACKs := Tally(messages);
      if maxCommitLSN > state.confirmedLSN {
        state := state.(confirmedLSN := maxCommitLSN);
        streamer.AdvanceConfirmedLSN(maxCommitLSN);
      }
      AcknowledgeChunks(messages, chunkACKs);
      if stored {
        saved := Some(state);
      }
    }

    /** The chunk part of the callback: count, advance the cursor, switch the phase. */
    method AcknowledgeChunks(ghost messages: seq<CDCEvent>, chunkACKs: map<int, nat>)
      requires chunkACKs.Keys == ReadIds(messages)
      requires forall id <- chunkACKs :: chunkACKs[id] == ReadCount(messages, id)
      modifies this`chunkAcked, this`chunkSizes, this`chunkHighPK, this`chunkTable, this`pendingChunks,
               this`completedChunks, this`state
      ensures State() == AfterConfirm(old(State()), messages)
    {
      var advanced := ApplyAcks(messages, chunkACKs);
      if advanced {
        AdvanceSnapshotCursor();
      }
      if snapshotScanDone && state.phase == Snapshotting && pendingChunks == {} && completedChunks == map[] {
        state := state.(phase := Streaming);
      }
    }

    /** The first loop of the callback: highest commit position, and rows per chunk. */
    static method Tally(messages: seq<CDCEvent>) returns (maxCommitLSN: nat, chunkACKs: map<int, nat>)
      ensures maxCommitLSN == MaxLSN(messages)
      ensures chunkACKs.Keys == ReadIds(messages)
      ensures forall id <- chunkACKs :: chunkACKs[id] == ReadCount(messages, id)
    {
      maxCommitLSN, chunkACKs := 0, map[];
      for i := 0 to |messages|
        invariant maxCommitLSN == MaxLSN(messages[..i])
        invariant chunkACKs.Keys == ReadIds(messages[..i])
        invariant forall id <- chunkACKs :: chunkACKs[id] == ReadCount(messages[..i], id)
      {
        var event := messages[i];
        TallyMore(messages, i);
        if event.operation == Read {
          ReadCountPositive(messages[..i], event.chunkID);
          chunkACKs := chunkACKs[event.chunkID := Get(chunkACKs, event.chunkID, 0) + 1];
        } else if event.commitLSN > maxCommitLSN {
          maxCommitLSN := event.commitLSN;
        }
      }
      assert messages[..|messages|] == messages;
    }

    /** The second loop of the callback, over the chunks in whatever order the map gives them. */
    method ApplyAcks(ghost messages: seq<CDCEvent>, chunkACKs: map<int, nat>) returns (advanced: bool)
      requires chunkACKs.Keys == ReadIds(messages)
      requires forall id <- chunkACKs :: chunkACKs[id] == ReadCount(messages, id)
      modifies this`chunkAcked, this`chunkSizes, this`chunkHighPK, this`chunkTable, this`pendingChunks,
               this`completedChunks
      ensures State() == CountAcks(old(State()), messages, ReadIds(messages))
      ensures advanced <==> Finished(old(State()), messages, ReadIds(messages)) != {}
    {
      advanced := false;
      var left := chunkACKs.Keys;
      ghost var counted: set<int> := {};
      CountNothing(State(), messages);
      while left != {}
        invariant counted !! left && counted + left == ReadIds(messages)
        invariant State() == CountAcks(old(State()), messages, counted)
        invariant advanced <==> Finished(old(State()), messages, counted) != {}
        decreases left
      {
        HasElement(left);
        var chunkID: int :| chunkID in left;
        CountAcksStep(old(State()), messages, counted, chunkID);
        FinishedStep(old(State()), messages, counted, chunkID);
        left := left - {chunkID};
        counted := counted + {chunkID};
        var complete := CountChunk(chunkID, chunkACKs[chunkID]);
        advanced := advanced || complete;
      }
      assert counted == ReadIds(messages);
    }

    /** The body of that loop. */
    method CountChunk(chunkID: int, count: nat) returns (complete: bool)
      modifies this`chunkAcked, this`chunkSizes, this`chunkHighPK, this`chunkTable, this`pendingChunks,
               this`completedChunks
      ensures State() == CountOne(old(State()), chunkID, count)
      ensures complete <==> Get(old(chunkAcked), chunkID, 0) + count >= Get(old(chunkSizes), chunkID, 0)
    {
      complete := false;
      chunkAcked := chunkAcked[chunkID := Get(chunkAcked, chunkID, 0) + count];
      if chunkAcked[chunkID] >= Get(chunkSizes, chunkID, 0) {
        Complete(chunkID);
        assert chunkAcked == old(chunkAcked) - {chunkID};
        complete := true;
      }
    }

    method Complete(chunkID: int)
      modifies this`chunkAcked, this`chunkSizes, this`chunkHighPK, this`chunkTable, this`pendingChunks,
               this`completedChunks
      ensures chunkAcked == old(chunkAcked) - {chunkID} && chunkSizes == old(chunkSizes) - {chunkID}
      ensures chunkHighPK == old(chunkHighPK) - {chunkID} && chunkTable == old(chunkTable) - {chunkID}
      ensures pendingChunks == old(pendingChunks) - {chunkID}
      ensures completedChunks == old(completedChunks)[chunkID := Get(old(chunkHighPK), chunkID, Unset)]
    {
      completedChunks := completedChunks[chunkID := Get(chunkHighPK, chunkID, Unset)];
      pendingChunks := pendingChunks - {chunkID};
      chunkSizes := chunkSizes - {chunkID};
      chunkAcked := chunkAcked - {chunkID};
      chunkHighPK := chunkHighPK - {chunkID};
      chunkTable := chunkTable - {chunkID};
    }

    /** The chunk before which nothing is pending, MAX_INT if nothing is. */
    method MinPending() returns (minPending: int)
      ensures minPending <= MAX_INT && forall p <- pendingChunks :: minPending <= p
      ensures minPending == MAX_INT || minPending in pendingChunks
    {
      minPending := MAX_INT;
      var left := pendingChunks;
      while left != {}
        invariant left <= pendingChunks
        invariant minPending <= MAX_INT && (minPending == MAX_INT || minPending in pendingChunks)
        invariant forall p <- pendingChunks :: p in left || minPending <= p
        decreases left
      {
        HasElement(left);
        var id: int :| id in left;
        left := left - {id};
        if id < minPending {
          minPending := id;
        }
      }
    }

    /** Moves the cursor to the top of the highest completed chunk that no pending chunk precedes. */
    method AdvanceSnapshotCursor()
      modifies this`state, this`completedChunks
      ensures State() == Advance(old(State()))
    {
      var minPending := MinPending();
      ghost var safe := Eligible(pendingChunks, completedChunks.Keys);
      assert forall id <- completedChunks.Keys :: id in safe <==> 0 <= id < minPending;

      var watermarkID := -1;
      var left := completedChunks.Keys;
      while left != {}
        invariant left <= completedChunks.Keys
        invariant unchanged(this)
        invariant watermarkID == -1 || watermarkID in safe
        invariant forall id <- completedChunks.Keys :: id in left || (id in safe ==> id <= watermarkID)
        decreases left
      {
        HasElement(left);
        var id: int :| id in left;
        left := left - {id};
        if id < minPending && id > watermarkID {
          watermarkID := id;
        }
      }

      if watermarkID >= 0 {
        assert Greatest(safe) == watermarkID;
        state := state.(snapshotCursor := completedChunks[watermarkID]);
        DropThrough(watermarkID);
      } else {
        assert safe == {};
      }
    }

    /** Deletes the completed chunks up to the watermark. */
    method DropThrough(watermarkID: int)
      modifies this`completedChunks
      ensures completedChunks == map id <- old(completedChunks) | id > watermarkID :: old(completedChunks)[id]
    {
      var left := completedChunks.Keys;
      while left != {}
        invariant completedChunks ==
                  map id <- old(completedChunks) | id > watermarkID || id in left :: old(completedChunks)[id]
        decreases left
      {
        HasElement(left);
        var id: int :| id in left;
        left := left - {id};
        if id <= watermarkID {
          completedChunks := completedChunks - {id};
        }
      }
    }
  }

  lemma TallyMore(messages: seq<CDCEvent>, i: nat)
    requires i < |messages|
    ensures var event, before, now := messages[i], messages[..i], messages[..i + 1];
            if event.operation == Read
            then MaxLSN(now) == MaxLSN(before) && ReadIds(now) == ReadIds(before) + {event.chunkID} &&
                 ReadCount(now, event.chunkID) == ReadCount(before, event.chunkID) + 1 &&
                 forall id :: id != event.chunkID ==> ReadCount(now, id) == ReadCount(before, id)
            else MaxLSN(now) == Higher(event.commitLSN, MaxLSN(before)) && ReadIds(now) == ReadIds(before) &&
                 forall id :: ReadCount(now, id) == ReadCount(before, id)
  {
    assert messages[..i + 1][..i] == messages[..i];
    assert messages[..i + 1] == messages[..i] + [messages[i]];
    ReadIdsMore(messages[..i], messages[i]);
  }

  lemma CountNothing(e: EngineState, events: seq<CDCEvent>)
    ensures CountAcks(e, events, {}) == e && Finished(e, events, {}) == {}
  {
    assert AckCounts(e, events, {}, {}) == e.chunkAcked;
    assert Highs(e, {}) == map[];
  }
}
