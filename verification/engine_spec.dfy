/** The engine's bookkeeping of drained and acknowledged snapshot rows, as functions of its state
    (pg/connector.go). The methods of class CdcEngine are proved equal to these. */
module EngineSpec {
  import opened Keys
  import opened Wrappers
  import opened Cdc

  /** The greatest int of the source, used as "no chunk is pending". */
  const MAX_INT: int := 0x7fff_ffff_ffff_ffff

  /** The part of the persisted state that changes while the connector runs. */
  datatype CDCState = CDCState(phase: Phase, confirmedLSN: nat, currentSnapshotTable: string, snapshotCursor: PK)

  datatype EngineState = EngineState(
    chunkSizes: map<int, nat>, chunkAcked: map<int, nat>, chunkHighPK: map<int, PK>, chunkTable: map<int, string>,
    pendingChunks: set<int>, completedChunks: map<int, PK>, snapshotScanDone: bool, state: CDCState)

  /** A map read the way Go reads one: an absent key gives the zero value. */
  function Get<V>(m: map<int, V>, id: int, zero: V): V {
    if id in m then m[id] else zero
  }

  function Track(e: EngineState, event: CDCEvent): EngineState {
    if event.operation == Read then
      e.(chunkSizes := e.chunkSizes[event.chunkID := event.chunkSize],
         chunkHighPK := e.chunkHighPK[event.chunkID := event.chunkHighPK],
         chunkTable := e.chunkTable[event.chunkID := TableOf(event)],
         pendingChunks := e.pendingChunks + {event.chunkID})
    else e
  }

  function TrackAll(e: EngineState, events: seq<CDCEvent>): EngineState {
    if events == [] then e
    else Track(TrackAll(e, events[..|events| - 1]), events[|events| - 1])
  }

  /** How many rows of a chunk are among some events. */
  function ReadCount(events: seq<CDCEvent>, id: int): nat {
    if events == [] then 0
    else
      var last := events[|events| - 1];
      ReadCount(events[..|events| - 1], id) + (if last.operation == Read && last.chunkID == id then 1 else 0)
  }

  function ReadIds(events: seq<CDCEvent>): set<int> {
    set e <- events | e.operation == Read :: e.chunkID
  }

  /** No later event is a row of the same chunk. */
  predicate LastOfChunk(events: seq<CDCEvent>, i: nat)
    requires i < |events|
  {
    events[i].operation == Read &&
    forall j :: i < j < |events| && events[j].operation == Read ==> events[j].chunkID != events[i].chunkID
  }

  /** A map now has the given keys besides its old ones, and the old values elsewhere. */
  predicate Extends<V(==)>(m: map<int, V>, m': map<int, V>, ids: set<int>) {
    m'.Keys == m.Keys + ids && forall id <- m :: id !in ids ==> m'[id] == m[id]
  }

  /** What draining some events does to the state: every chunk with a row among them is pending, with the size, the
      upper bound and the table that the last of its rows gives; nothing else is different. */
  predicate Registered(e: EngineState, events: seq<CDCEvent>, now: EngineState) {
    OnlyRegistered(e, ReadIds(events), now) && LastRowsHold(events, now)
  }

  predicate OnlyRegistered(e: EngineState, ids: set<int>, now: EngineState) {
    && now.pendingChunks == e.pendingChunks + ids
    && Extends(e.chunkSizes, now.chunkSizes, ids) && Extends(e.chunkHighPK, now.chunkHighPK, ids)
    && Extends(e.chunkTable, now.chunkTable, ids)
    && now.chunkAcked == e.chunkAcked && now.completedChunks == e.completedChunks
    && now.snapshotScanDone == e.snapshotScanDone && now.state == e.state
  }

  predicate LastRowsHold(events: seq<CDCEvent>, now: EngineState) {
    forall i :: 0 <= i < |events| && LastOfChunk(events, i) ==> HasEntry(now, events[i])
  }

  predicate HasEntry(e: EngineState, row: CDCEvent) {
    var id := row.chunkID;
    && id in e.chunkSizes && e.chunkSizes[id] == row.chunkSize
    && id in e.chunkHighPK && e.chunkHighPK[id] == row.chunkHighPK
    && id in e.chunkTable && e.chunkTable[id] == QualifyTable(row.schema, row.table)
  }

  lemma ReadIdsMore(events: seq<CDCEvent>, event: CDCEvent)
    ensures ReadIds(events + [event]) == ReadIds(events) + (if event.operation == Read then {event.chunkID} else {})
  {
    assert event in [event];
    forall id ensures id in ReadIds(events + [event]) <==>
                      id in ReadIds(events) || (event.operation == Read && id == event.chunkID)
    {
      if id in ReadIds(events) {
        var e :| e in events && e.operation == Read && e.chunkID == id;
        assert e in events + [event];
      } else if event.operation == Read && id == event.chunkID {
        assert event in events + [event];
      }
    }
  }

  lemma ExtendsMore<V>(m: map<int, V>, m': map<int, V>, ids: set<int>, id: int, v: V)
    requires Extends(m, m', ids)
    ensures Extends(m, m'[id := v], ids + {id})
  {
  }

  lemma EntryKept(e: EngineState, event: CDCEvent, row: CDCEvent)
    requires HasEntry(e, row) && (event.operation == Read ==> event.chunkID != row.chunkID)
    ensures HasEntry(Track(e, event), row)
  {
  }

  lemma LastBefore(events: seq<CDCEvent>, event: CDCEvent, i: nat)
    requires i < |events| && LastOfChunk(events + [event], i)
    ensures LastOfChunk(events, i) && (event.operation == Read ==> event.chunkID != events[i].chunkID)
  {
    var more := events + [event];
    assert more[|events|] == event;
    assert forall j :: 0 <= j < |events| ==> more[j] == events[j];
  }

  lemma LastRowsMore(e: EngineState, events: seq<CDCEvent>, event: CDCEvent)
    requires LastRowsHold(events, e)
    ensures LastRowsHold(events + [event], Track(e, event))
  {
    var more := events + [event];
    forall i | 0 <= i < |more| && LastOfChunk(more, i) ensures HasEntry(Track(e, event), more[i]) {
      if i < |events| {
        LastBefore(events, event, i);
        EntryKept(e, event, events[i]);
      }
    }
  }

  lemma OnlyRegisteredMore(e: EngineState, ids: set<int>, before: EngineState, event: CDCEvent)
    requires OnlyRegistered(e, ids, before) && event.operation == Read
    ensures OnlyRegistered(e, ids + {event.chunkID}, Track(before, event))
  {
    ExtendsMore(e.chunkSizes, before.chunkSizes, ids, event.chunkID, event.chunkSize);
    ExtendsMore(e.chunkHighPK, before.chunkHighPK, ids, event.chunkID, event.chunkHighPK);
    ExtendsMore(e.chunkTable, before.chunkTable, ids, event.chunkID, TableOf(event));
  }

  lemma {:induction false} AllRowsHold(e: EngineState, events: seq<CDCEvent>)
    ensures LastRowsHold(events, TrackAll(e, events))
    decreases |events|
  {
    if events != [] {
      var n := |events| - 1;
      AllRowsHold(e, events[..n]);
      LastRowsMore(TrackAll(e, events[..n]), events[..n], events[n]);
      assert events[..n] + [events[n]] == events;
    }
  }

  lemma {:induction false} OnlyTheirChunks(e: EngineState, events: seq<CDCEvent>)
    ensures OnlyRegistered(e, ReadIds(events), TrackAll(e, events))
    decreases |events|
  {
    if events != [] {
      var n := |events| - 1;
      OnlyTheirChunks(e, events[..n]);
      assert ReadIds(events) == ReadIds(events[..n]) +
                                (if events[n].operation == Read then {events[n].chunkID} else {}) by {
        ReadIdsMore(events[..n], events[n]);
        assert events[..n] + [events[n]] == events;
      }
      if events[n].operation == Read {
        OnlyRegisteredMore(e, ReadIds(events[..n]), TrackAll(e, events[..n]), events[n]);
      }
    }
  }

  lemma AllRegistered(e: EngineState, events: seq<CDCEvent>)
    ensures Registered(e, events, TrackAll(e, events))
  {
    OnlyTheirChunks(e, events);
    AllRowsHold(e, events);
  }

  /** The chunk of a row has a last row. */
  lemma {:induction false} HasLastRow(events: seq<CDCEvent>, id: int) returns (i: nat)
    requires id in ReadIds(events)
    ensures i < |events| && LastOfChunk(events, i) && events[i].chunkID == id
    decreases |events|
  {
    i := |events| - 1;
    if events[i].operation != Read || events[i].chunkID != id {
      var before := events[..i];
      assert before + [events[i]] == events;
      ReadIdsMore(before, events[i]);
      var last := events[i];
      i := HasLastRow(before, id);
      assert events[i] == before[i] && events[|events| - 1] == last;
      forall j | i < j < |events| && events[j].operation == Read ensures events[j].chunkID != events[i].chunkID {
        if j < |before| {
          assert events[j] == before[j];
        }
      }
    }
  }

  lemma SameExtension<V>(m: map<int, V>, a: map<int, V>, b: map<int, V>, ids: set<int>)
    requires Extends(m, a, ids) && Extends(m, b, ids) && forall id <- ids :: a[id] == b[id]
    ensures a == b
  {
    forall id | id in a ensures a[id] == b[id] {
      assert id in ids || id in m;
    }
    assert a.Keys == b.Keys;
  }

  lemma SameEntry(events: seq<CDCEvent>, now: EngineState, other: EngineState, id: int)
    requires id in ReadIds(events) && LastRowsHold(events, now) && LastRowsHold(events, other)
    ensures id in now.chunkSizes && id in other.chunkSizes && now.chunkSizes[id] == other.chunkSizes[id]
    ensures id in now.chunkHighPK && id in other.chunkHighPK && now.chunkHighPK[id] == other.chunkHighPK[id]
    ensures id in now.chunkTable && id in other.chunkTable && now.chunkTable[id] == other.chunkTable[id]
  {
    var i := HasLastRow(events, id);
    assert HasEntry(now, events[i]) && HasEntry(other, events[i]);
  }

  /** That is enough to know the state. */
  lemma RegisteredDetermines(e: EngineState, events: seq<CDCEvent>, now: EngineState, other: EngineState)
    requires Registered(e, events, now) && Registered(e, events, other)
    ensures now == other
  {
    var ids := ReadIds(events);
    forall id | id in ids
      ensures now.chunkSizes[id] == other.chunkSizes[id] && now.chunkHighPK[id] == other.chunkHighPK[id]
      ensures now.chunkTable[id] == other.chunkTable[id]
    {
      SameEntry(events, now, other, id);
    }
    SameExtension(e.chunkSizes, now.chunkSizes, other.chunkSizes, ids);
    SameExtension(e.chunkHighPK, now.chunkHighPK, other.chunkHighPK, ids);
    SameExtension(e.chunkTable, now.chunkTable, other.chunkTable, ids);
  }

  /** The highest commit position among the WAL events, zero if there is none. */
  function MaxLSN(events: seq<CDCEvent>): nat {
    if events == [] then 0
    else
      var last, rest := events[|events| - 1], MaxLSN(events[..|events| - 1]);
      if last.operation != Read && last.commitLSN > rest then last.commitLSN else rest
  }

  lemma {:induction false} ReadCountPositive(events: seq<CDCEvent>, id: int)
    ensures id in ReadIds(events) <==> ReadCount(events, id) > 0
    decreases |events|
  {
    if events != [] {
      var n := |events| - 1;
      ReadCountPositive(events[..n], id);
      assert events == events[..n] + [events[n]];
      assert ReadIds(events) == ReadIds(events[..n]) + ReadIds([events[n]]);
      assert id in ReadIds([events[n]]) <==> events[n].operation == Read && events[n].chunkID == id by {
        assert events[n] in [events[n]];
      }
    }
  }

  /** The acknowledgement count of a chunk after some events. */
  function NewAcked(e: EngineState, events: seq<CDCEvent>, id: int): nat {
    Get(e.chunkAcked, id, 0) + ReadCount(events, id)
  }

  /** The chunks among some ids that an acknowledgement makes complete. */
  function Finished(e: EngineState, events: seq<CDCEvent>, ids: set<int>): set<int> {
    set id <- ids | NewAcked(e, events, id) >= Get(e.chunkSizes, id, 0)
  }

  function AckCounts(e: EngineState, events: seq<CDCEvent>, ids: set<int>, done: set<int>): map<int, nat> {
    map id <- e.chunkAcked.Keys + ids - done :: if id in ids then NewAcked(e, events, id) else e.chunkAcked[id]
  }

  function Highs(e: EngineState, done: set<int>): map<int, PK> {
    map id <- done :: Get(e.chunkHighPK, id, Unset)
  }

  /** The counting part of an acknowledgement, for some of its chunks. */
  function CountAcks(e: EngineState, events: seq<CDCEvent>, ids: set<int>): EngineState {
    Counted(e, events, ids, Finished(e, events, ids))
  }

  function Counted(e: EngineState, events: seq<CDCEvent>, ids: set<int>, done: set<int>): EngineState {
    e.(chunkAcked := AckCounts(e, events, ids, done),
       chunkSizes := e.chunkSizes - done,
       chunkHighPK := e.chunkHighPK - done,
       chunkTable := e.chunkTable - done,
       pendingChunks := e.pendingChunks - done,
       completedChunks := e.completedChunks + Highs(e, done))
  }

  /** The completed chunks that no pending chunk precedes. */
  function Eligible(pending: set<int>, completed: set<int>): set<int> {
    set id <- completed | 0 <= id < MAX_INT && forall p <- pending :: id < p
  }

  lemma HasElement(s: set<int>)
    ensures s == {} || exists x: int :: x in s
  {
    if forall x: int :: x !in s {
      assert s == {};
    }
  }

  ghost function Greatest(s: set<int>): (m: int)
    requires s != {}
    ensures m in s && forall x <- s :: x <= m
  {
    HasElement(s);
    var x: int :| x in s;
    if s == {x} then x
    else
      var rest := s - {x};
      assert s == rest + {x};
      var m := Greatest(rest);
      if m > x then m else x
  }

  ghost function Advance(e: EngineState): EngineState {
    var safe := Eligible(e.pendingChunks, e.completedChunks.Keys);
    if safe == {} then e
    else
      var top := Greatest(safe);
      e.(state := e.state.(snapshotCursor := e.completedChunks[top]),
         completedChunks := map id <- e.completedChunks | id > top :: e.completedChunks[id])
  }

  function Confirm(e: EngineState, events: seq<CDCEvent>): EngineState {
    if MaxLSN(events) > e.state.confirmedLSN
    then e.(state := e.state.(confirmedLSN := MaxLSN(events)))
    else e
  }

  function SwitchPhase(e: EngineState): EngineState {
    if e.snapshotScanDone && e.state.phase == Snapshotting && e.pendingChunks == {} && e.completedChunks == map[]
    then e.(state := e.state.(phase := Streaming))
    else e
  }

  /** A successful acknowledgement of some drained events. */
  ghost function Acknowledge(e: EngineState, events: seq<CDCEvent>): EngineState {
    AfterConfirm(Confirm(e, events), events)
  }

  ghost function AfterConfirm(e: EngineState, events: seq<CDCEvent>): EngineState {
    var counted := CountAcks(e, events, ReadIds(events));
    SwitchPhase(if Finished(e, events, ReadIds(events)) != {} then Advance(counted) else counted)
  }

  // ---- the hand-over of confirmed positions to the streamer ----

  /** Capacity of the channel that carries confirmed positions to the streamer. */
  const NOTIFICATIONS: nat := 64

  datatype StreamerState = StreamerState(confirmedLSN: nat, notifications: seq<nat>)

  /** A full channel drops the notification. */
  function Notify(s: StreamerState, lsn: nat): StreamerState {
    if |s.notifications| < NOTIFICATIONS then s.(notifications := s.notifications + [lsn]) else s
  }

  function TakeNotification(s: StreamerState): StreamerState {
    if s.notifications == [] then s
    else StreamerState(Higher(s.notifications[0], s.confirmedLSN), s.notifications[1..])
  }

  function Higher(a: nat, b: nat): nat {
    if a > b then a else b
  }

  /** What a successful acknowledgement with the given highest position tells the streamer. */
  function NotifyAcked(s: StreamerState, confirmed: nat, lsn: nat): StreamerState {
    if lsn > confirmed then Notify(s, lsn) else s
  }

  // ---- the parts of the state that are not the watermark ----

  /** Phase, table, confirmed position and the scanner's flag. */
  datatype Rest = Rest(phase: Phase, table: string, lsn: nat, scanDone: bool)

  function RestOf(e: EngineState): Rest {
    Rest(e.state.phase, e.state.currentSnapshotTable, e.state.confirmedLSN, e.snapshotScanDone)
  }

  predicate Idle(e: EngineState) {
    e.pendingChunks == {} && e.completedChunks == map[]
  }

  lemma AdvanceKeepsRest(e: EngineState)
    ensures RestOf(Advance(e)) == RestOf(e)
  {
  }

  lemma SwitchRest(e: EngineState)
    ensures RestOf(SwitchPhase(e)) ==
            RestOf(e).(phase := if e.snapshotScanDone && Idle(e) then Streaming else e.state.phase)
    ensures Idle(SwitchPhase(e)) == Idle(e)
  {
  }

  lemma AfterConfirmRest(e: EngineState, events: seq<CDCEvent>)
    ensures RestOf(AfterConfirm(e, events)) ==
            RestOf(e).(phase := if e.snapshotScanDone && Idle(AfterConfirm(e, events)) then Streaming
                                else e.state.phase)
  {
    var counted := CountAcks(e, events, ReadIds(events));
    assert RestOf(counted) == RestOf(e);
    AdvanceKeepsRest(counted);
    SwitchRest(counted);
    SwitchRest(Advance(counted));
  }

  /** What an acknowledgement does besides the watermark: the confirmed position becomes the maximum, and
      the phase turns to streaming exactly when the scan is done and no chunk is in flight. */
  lemma AcknowledgeRest(e: EngineState, events: seq<CDCEvent>)
    ensures RestOf(Acknowledge(e, events)) ==
            RestOf(e).(lsn := Higher(MaxLSN(events), e.state.confirmedLSN),
                       phase := if e.snapshotScanDone && Idle(Acknowledge(e, events)) then Streaming else e.state.phase)
  {
    AfterConfirmRest(Confirm(e, events), events);
  }

  /** Counting one chunk more than before. */
  lemma FinishedStep(e: EngineState, events: seq<CDCEvent>, ids: set<int>, id: int)
    requires id !in ids
    ensures CompletesChunk(CountAcks(e, events, ids), events, id) <==>
            NewAcked(e, events, id) >= Get(e.chunkSizes, id, 0)
    ensures NewAcked(CountAcks(e, events, ids), events, id) == NewAcked(e, events, id)
    ensures Finished(e, events, ids + {id}) ==
            if CompletesChunk(CountAcks(e, events, ids), events, id)
            then Finished(e, events, ids) + {id}
            else Finished(e, events, ids)
  {
    var c := CountAcks(e, events, ids);
    assert Get(c.chunkAcked, id, 0) == Get(e.chunkAcked, id, 0);
    assert Get(c.chunkSizes, id, 0) == Get(e.chunkSizes, id, 0);
  }

  lemma AckedStep(e: EngineState, events: seq<CDCEvent>, ids: set<int>, done: set<int>, id: int)
    requires id !in ids && done <= ids
    ensures AckCounts(e, events, ids + {id}, done + {id}) == AckCounts(e, events, ids, done) - {id}
    ensures AckCounts(e, events, ids + {id}, done) == AckCounts(e, events, ids, done)[id := NewAcked(e, events, id)]
  {
  }

  lemma CompletedStep(e: EngineState, done: set<int>, id: int)
    requires id !in done
    ensures e.completedChunks + Highs(e, done + {id}) ==
            (e.completedChunks + Highs(e, done))[id := Get(e.chunkHighPK - done, id, Unset)]
  {
    assert Highs(e, done + {id}) == Highs(e, done)[id := Get(e.chunkHighPK, id, Unset)];
  }

  lemma LessTwice<V>(m: map<int, V>, done: set<int>, id: int)
    ensures m - (done + {id}) == m - done - {id}
  {
  }

  /** Counting a chunk that becomes complete. */
  lemma CountedDone(e: EngineState, events: seq<CDCEvent>, ids: set<int>, done: set<int>, id: int)
    requires id !in ids && done <= ids
    ensures var c := Counted(e, events, ids, done);
            Counted(e, events, ids + {id}, done + {id}) ==
            c.(chunkAcked := c.chunkAcked - {id}, chunkSizes := c.chunkSizes - {id},
               chunkHighPK := c.chunkHighPK - {id}, chunkTable := c.chunkTable - {id},
               pendingChunks := c.pendingChunks - {id},
               completedChunks := c.completedChunks[id := Get(c.chunkHighPK, id, Unset)])
  {
    AckedStep(e, events, ids, done, id);
    CompletedStep(e, done, id);
    LessTwice(e.chunkSizes, done, id);
    LessTwice(e.chunkHighPK, done, id);
    LessTwice(e.chunkTable, done, id);
    assert e.pendingChunks - (done + {id}) == e.pendingChunks - done - {id};
  }

  /** Counting a chunk that stays incomplete. */
  lemma CountedOpen(e: EngineState, events: seq<CDCEvent>, ids: set<int>, done: set<int>, id: int)
    requires id !in ids && done <= ids
    ensures var c := Counted(e, events, ids, done);
            Counted(e, events, ids + {id}, done) == c.(chunkAcked := c.chunkAcked[id := NewAcked(e, events, id)])
  {
    AckedStep(e, events, ids, done, id);
  }

  lemma CountAcksStep(e: EngineState, events: seq<CDCEvent>, ids: set<int>, id: int)
    requires id !in ids
    ensures CountAcks(e, events, ids + {id}) == CountOne(CountAcks(e, events, ids), id, ReadCount(events, id))
  {
    if CompletesChunk(CountAcks(e, events, ids), events, id) {
      StepDone(e, events, ids, id);
    } else {
      StepOpen(e, events, ids, id);
    }
  }

  lemma StepDone(e: EngineState, events: seq<CDCEvent>, ids: set<int>, id: int)
    requires id !in ids && CompletesChunk(CountAcks(e, events, ids), events, id)
    ensures CountAcks(e, events, ids + {id}) == CountOne(CountAcks(e, events, ids), id, ReadCount(events, id))
  {
    var done := Finished(e, events, ids);
    assert Finished(e, events, ids + {id}) == done + {id} &&
           NewAcked(CountAcks(e, events, ids), events, id) == NewAcked(e, events, id) by {
      FinishedStep(e, events, ids, id);
    }
    CountedDone(e, events, ids, done, id);
  }

  lemma StepOpen(e: EngineState, events: seq<CDCEvent>, ids: set<int>, id: int)
    requires id !in ids && !CompletesChunk(CountAcks(e, events, ids), events, id)
    ensures CountAcks(e, events, ids + {id}) == CountOne(CountAcks(e, events, ids), id, ReadCount(events, id))
  {
    var done := Finished(e, events, ids);
    assert Finished(e, events, ids + {id}) == done &&
           NewAcked(CountAcks(e, events, ids), events, id) == NewAcked(e, events, id) by {
      FinishedStep(e, events, ids, id);
    }
    CountedOpen(e, events, ids, done, id);
  }

  predicate CompletesChunk(c: EngineState, events: seq<CDCEvent>, id: int) {
    NewAcked(c, events, id) >= Get(c.chunkSizes, id, 0)
  }

  /** One turn of the acknowledger's loop over chunks: `count` more rows of chunk `id`. */
  function CountOne(c: EngineState, id: int, count: nat): EngineState {
    var acked := Get(c.chunkAcked, id, 0) + count;
    if acked >= Get(c.chunkSizes, id, 0)
    then c.(chunkAcked := c.chunkAcked - {id}, chunkSizes := c.chunkSizes - {id},
            chunkHighPK := c.chunkHighPK - {id}, chunkTable := c.chunkTable - {id},
            pendingChunks := c.pendingChunks - {id},
            completedChunks := c.completedChunks[id := Get(c.chunkHighPK, id, Unset)])
    else c.(chunkAcked := c.chunkAcked[id := acked])
  }
}
