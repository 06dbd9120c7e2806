/** Acknowledgements: their order and grouping do not matter, and when they end the snapshot phase. */
module ProtocolAcks {
  import opened Keys
  import opened Wrappers
  import opened Cdc
  import opened EngineSpec
  import opened Watermark
  import opened Reads
  import opened Delivery
  import opened Protocol
  import opened ProtocolInvariant
  import opened ProtocolTheorems
  import opened ProtocolRuns
  import Capture
  import CaptureInvariant
  import CaptureTheorems

  // ---- any order and grouping ----

  function Flatten(groups: seq<seq<nat>>): seq<nat> {
    if groups == [] then [] else Flatten(groups[..|groups| - 1]) + groups[|groups| - 1]
  }

  /** The world after acknowledging some groups of drained messages, one call after the other. */
  ghost function AckAll(w: World, groups: seq<seq<nat>>): (r: Option<World>) {
    if groups == [] then Some(w)
    else
      var before, last := AckAll(w, groups[..|groups| - 1]), groups[|groups| - 1];
      if before.Some? && Pickable(before.value.drained, last) then Some(AfterSuccess(before.value, last)) else None
  }

  lemma PickablePrefix(d: seq<Message>, a: seq<nat>, b: seq<nat>)
    requires Pickable(d, a + b)
    ensures Pickable(d, a) && Pickable(Mark(d, a), b)
    ensures Mark(d, a + b) == Mark(Mark(d, a), b)
    ensures Picked(d, a + b) == Picked(d, a) + Picked(Mark(d, a), b)
  {
    forall i | 0 <= i < |a| ensures a[i] < |d| && !d[a[i]].acked && a[i] == (a + b)[i] {
      assert a[i] == (a + b)[i];
    }
    forall i, j | 0 <= i < j < |a| ensures a[i] != a[j] {
      assert a[i] == (a + b)[i] && a[j] == (a + b)[j];
    }
    forall i, j | 0 <= i < j < |b| ensures b[i] != b[j] {
      assert b[i] == (a + b)[|a| + i] && b[j] == (a + b)[|a| + j];
    }
    forall i | 0 <= i < |b| ensures b[i] < |d| && !d[b[i]].acked && b[i] !in a {
      assert b[i] == (a + b)[|a| + i];
      forall j | 0 <= j < |a| ensures a[j] != b[i] {
        assert a[j] == (a + b)[j];
      }
    }
  }

  lemma {:induction false} MaxLSNConcat(a: seq<CDCEvent>, b: seq<CDCEvent>)
    ensures MaxLSN(a + b) == Higher(MaxLSN(a), MaxLSN(b))
    decreases |b|
  {
    if b == [] {
      assert a + b == a;
    } else {
      assert (a + b)[..|a + b| - 1] == a + b[..|b| - 1];
      MaxLSNConcat(a, b[..|b| - 1]);
    }
  }

  /** The phase an acknowledgement leaves once no more rows of a settled engine can arrive. */
  function PhaseAfter(before: Phase, scanDone: bool, idle: bool): Phase {
    if scanDone && idle then Streaming else before
  }

  /** All that a sequence of acknowledgements leaves behind, but for the engine's maps and cursor. */
  ghost predicate AckedTo(w: World, picks: seq<nat>, w': World) {
    && Pickable(w.drained, picks)
    && w' == w.(drained := Mark(w.drained, picks), engine := w'.engine)
    && Running(w')
    && w'.engine.snapshotScanDone == w.engine.snapshotScanDone
    && w'.engine.state.currentSnapshotTable == w.engine.state.currentSnapshotTable
    && w'.engine.state.confirmedLSN == Higher(MaxLSN(Picked(w.drained, picks)), w.engine.state.confirmedLSN)
  }

  lemma AckedToStep(w: World, a: seq<nat>, mid: World, b: seq<nat>)
    requires AckedTo(w, a, mid) && Pickable(w.drained, a + b)
    ensures Pickable(mid.drained, b) && AckedTo(w, a + b, AfterSuccess(mid, b))
    ensures AfterSuccess(mid, b).engine.state.phase ==
            PhaseAfter(mid.engine.state.phase, w.engine.snapshotScanDone, Idle(AfterSuccess(mid, b).engine))
  {
    PickablePrefix(w.drained, a, b);
    MaxLSNConcat(Picked(w.drained, a), Picked(mid.drained, b));
    AcknowledgeRest(mid.engine, Picked(mid.drained, b));
    RunningSuccess(mid, b);
  }

  /** Once no chunk is in flight, acknowledgements alone keep it that way. */
  lemma IdleStays(w: World, picks: seq<nat>)
    requires Running(w) && Pickable(w.drained, picks) && Idle(w.engine)
    ensures Idle(AfterSuccess(w, picks).engine)
  {
    var w' := AfterSuccess(w, picks);
    RunningSuccess(w, picks);
    PendingShrinks(w, picks);
    WaitingWorld(w');
    assert forall id: int :: id !in w'.engine.completedChunks;
  }

  lemma PendingShrinks(w: World, picks: seq<nat>)
    requires Running(w) && Pickable(w.drained, picks) && Running(AfterSuccess(w, picks))
    ensures AfterSuccess(w, picks).engine.pendingChunks <= w.engine.pendingChunks
  {
    var w' := AfterSuccess(w, picks);
    assert Events(w'.drained) == Events(w.drained);
    forall id | id in w'.engine.pendingChunks ensures id in w.engine.pendingChunks {
      MarkCounts(w.drained, picks, id);
    }
  }

  ghost predicate PhaseIs(w: World, groups: seq<seq<nat>>, w': World) {
    w'.engine.state.phase == if groups == [] then w.engine.state.phase
                             else PhaseAfter(w.engine.state.phase, w.engine.snapshotScanDone, Idle(w'.engine))
  }

  lemma PhaseIsStep(w: World, groups: seq<seq<nat>>, mid: World, last: seq<nat>)
    requires AckedTo(w, Flatten(groups), mid) && PhaseIs(w, groups, mid) && Pickable(mid.drained, last)
    requires AfterSuccess(mid, last).engine.state.phase ==
             PhaseAfter(mid.engine.state.phase, w.engine.snapshotScanDone, Idle(AfterSuccess(mid, last).engine))
    ensures PhaseIs(w, groups + [last], AfterSuccess(mid, last))
  {
    if Idle(mid.engine) {
      IdleStays(mid, last);
    }
  }

  lemma NothingPicked(d: seq<Message>)
    ensures Pickable(d, []) && Mark(d, []) == d && Picked(d, []) == []
  {
  }

  lemma AckedToStart(w: World)
    requires Running(w)
    ensures AckedTo(w, [], w)
  {
    NothingPicked(w.drained);
    assert w.(drained := w.drained, engine := w.engine) == w;
  }

  lemma AckAllSnoc(w: World, rest: seq<seq<nat>>, mid: World, last: seq<nat>)
    requires AckAll(w, rest) == Some(mid) && Pickable(mid.drained, last)
    ensures AckAll(w, rest + [last]) == Some(AfterSuccess(mid, last))
    ensures Flatten(rest + [last]) == Flatten(rest) + last
  {
    assert (rest + [last])[..|rest|] == rest;
  }

  /** What acknowledging the groups leads to. */
  ghost predicate Leads(w: World, groups: seq<seq<nat>>, r: Option<World>) {
    r.Some? && AckedTo(w, Flatten(groups), r.value) && PhaseIs(w, groups, r.value)
  }

  lemma LeadsNowhere(w: World)
    requires Running(w)
    ensures Leads(w, [], AckAll(w, []))
  {
    AckedToStart(w);
  }

  lemma AckAllStep(w: World, rest: seq<seq<nat>>, last: seq<nat>)
    requires Leads(w, rest, AckAll(w, rest)) && Pickable(w.drained, Flatten(rest) + last)
    ensures Leads(w, rest + [last], AckAll(w, rest + [last]))
  {
    var mid := AckAll(w, rest).value;
    AckedToStep(w, Flatten(rest), mid, last);
    PhaseIsStep(w, rest, mid, last);
    AckAllSnoc(w, rest, mid, last);
  }

  lemma LastGroup(groups: seq<seq<nat>>)
    requires groups != []
    ensures groups == groups[..|groups| - 1] + [groups[|groups| - 1]]
  {
  }

  lemma {:induction false} AckAllLeads(w: World, groups: seq<seq<nat>>)
    requires Running(w) && Pickable(w.drained, Flatten(groups))
    ensures Leads(w, groups, AckAll(w, groups))
    decreases |groups|
  {
    if groups == [] {
      LeadsNowhere(w);
    } else {
      var rest, last := groups[..|groups| - 1], groups[|groups| - 1];
      LastGroup(groups);
      PickablePrefix(w.drained, Flatten(rest), last);
      AckAllLeads(w, rest);
      AckAllStep(w, rest, last);
    }
  }

  // ---- the result depends on the set of acknowledged messages only ----

  lemma {:induction false} MaxLSNBounds(events: seq<CDCEvent>)
    ensures forall e <- events :: e.operation != Read ==> e.commitLSN <= MaxLSN(events)
    ensures MaxLSN(events) == 0 || exists e <- events :: e.operation != Read && e.commitLSN == MaxLSN(events)
    decreases |events|
  {
    if events != [] {
      var n := |events| - 1;
      MaxLSNBounds(events[..n]);
      assert events == events[..n] + [events[n]];
    }
  }

  lemma MaxLSNOfSame(a: seq<CDCEvent>, b: seq<CDCEvent>)
    requires forall e :: e in a <==> e in b
    ensures MaxLSN(a) == MaxLSN(b)
  {
    MaxLSNBounds(a);
    MaxLSNBounds(b);
  }

  lemma SamePicksSameEvents(d: seq<Message>, a: seq<nat>, b: seq<nat>)
    requires Pickable(d, a) && Pickable(d, b) && forall p :: p in a <==> p in b
    ensures Mark(d, a) == Mark(d, b)
    ensures forall e :: e in Picked(d, a) <==> e in Picked(d, b)
  {
    PicksWithin(d, a, b);
    PicksWithin(d, b, a);
  }

  lemma PicksWithin(d: seq<Message>, a: seq<nat>, b: seq<nat>)
    requires Pickable(d, a) && Pickable(d, b) && forall p :: p in a ==> p in b
    ensures forall e :: e in Picked(d, a) ==> e in Picked(d, b)
  {
    forall e | e in Picked(d, a) ensures e in Picked(d, b) {
      var i :| 0 <= i < |a| && Picked(d, a)[i] == e;
      assert a[i] in b;
      var j :| 0 <= j < |b| && b[j] == a[i];
      assert Picked(d, b)[j] == e;
    }
  }

  lemma SameProgress(u: World, v: World)
    requires Running(u) && Running(v) && u.capture.config == v.capture.config && u.capture.start == v.capture.start
    requires u.drained == v.drained
    ensures u.engine == v.engine.(state := u.engine.state, snapshotScanDone := u.engine.snapshotScanDone)
    ensures u.engine.state.snapshotCursor == v.engine.state.snapshotCursor
  {
    var c, d, drained := u.capture, v.capture, u.drained;
    ChunksAreNotEmpty(c);
    ChunksAreNotEmpty(d);
    DrainedIsProgress(c.config, drained, c.chunks, UnderWay(u), d.chunks, UnderWay(v));
    ProgressDetermines(c.start, TableName(c.config), Seen(drained), Extents(c.chunks), AcksOf(drained, |c.chunks|),
                       u.engine,
                       Extents(d.chunks), AcksOf(drained, |d.chunks|), v.engine);
  }

  /** Acknowledgements are confluent: two ways of acknowledging the same drained messages, in any order and
      grouped into any calls, end in the same world, cursor, maps, confirmed position and phase included. */
  lemma AcksAreConfluent(w: World, gs: seq<seq<nat>>, hs: seq<seq<nat>>)
    requires Running(w) && Pickable(w.drained, Flatten(gs)) && Pickable(w.drained, Flatten(hs))
    requires forall p :: p in Flatten(gs) <==> p in Flatten(hs)
    requires gs != [] && hs != []
    ensures AckAll(w, gs).Some? && AckAll(w, gs) == AckAll(w, hs)
  {
    AckAllLeads(w, gs);
    AckAllLeads(w, hs);
    SamePicksSameEvents(w.drained, Flatten(gs), Flatten(hs));
    MaxLSNOfSame(Picked(w.drained, Flatten(gs)), Picked(w.drained, Flatten(hs)));
    SameProgress(AckAll(w, gs).value, AckAll(w, hs).value);
    SameRest(w, gs, AckAll(w, gs).value, hs, AckAll(w, hs).value);
  }

  lemma SameRest(w: World, gs: seq<seq<nat>>, u: World, hs: seq<seq<nat>>, v: World)
    requires AckedTo(w, Flatten(gs), u) && PhaseIs(w, gs, u) && AckedTo(w, Flatten(hs), v) && PhaseIs(w, hs, v)
    requires gs != [] && hs != [] && u.drained == v.drained
    requires MaxLSN(Picked(w.drained, Flatten(gs))) == MaxLSN(Picked(w.drained, Flatten(hs)))
    requires u.engine == v.engine.(state := u.engine.state, snapshotScanDone := u.engine.snapshotScanDone)
    requires u.engine.state.snapshotCursor == v.engine.state.snapshotCursor
    ensures u == v
  {
  }

  // ---- the end of the snapshot phase ----

  /** Every row drained so far is acknowledged, and no chunk is only partly drained. */
  ghost predicate Settled(w: World) {
    && (forall p :: 0 <= p < |w.drained| && w.drained[p].event.operation == Read ==> w.drained[p].acked)
    && (forall e <- UnderWay(w) :: e.chunkID != Seen(w.drained))
  }

  lemma {:induction false} AllAckedCounts(d: seq<Message>, id: int)
    requires forall p :: 0 <= p < |d| && d[p].event.operation == Read ==> d[p].acked
    ensures AckedCount(d, id) == ReadCount(Events(d), id)
    decreases |d|
  {
    if d != [] {
      var n := |d| - 1;
      AllAckedCounts(d[..n], id);
      assert Events(d)[..n] == Events(d[..n]);
    }
  }

  lemma SettledChunkIsFull(w: World, id: int)
    requires Running(w) && Settled(w) && 1 <= id <= Seen(w.drained)
    ensures Full(Extents(w.capture.chunks), AcksOf(w.drained, |w.capture.chunks|), id)
  {
    var config, chunks := w.capture.config, w.capture.chunks;
    ChunksAreNotEmpty(w.capture);
    SeenInRange(config, chunks, w.drained, UnderWay(w));
    ReadCountPositive(UnderWay(w), id);
    AllAckedCounts(w.drained, id);
    DrainedRowsPerChunk(config, chunks, w.drained, UnderWay(w), id);
  }

  lemma IdleMeansSettled(w: World)
    requires Running(w) && Idle(w.engine)
    ensures Settled(w)
  {
    var config, chunks, rows := w.capture.config, w.capture.chunks, Rows(Events(w.drained));
    var acks := AcksOf(w.drained, |chunks|);
    ChunksAreNotEmpty(w.capture);
    SeenInRange(config, chunks, w.drained, UnderWay(w));
    forall id | 1 <= id <= Seen(w.drained) ensures Full(Extents(chunks), acks, id) {
      assert id !in Pending(Extents(chunks), Seen(w.drained), acks);
    }
    forall p | 0 <= p < |w.drained| && w.drained[p].event.operation == Read ensures w.drained[p].acked {
      DrainedRowIsSeen(w, p);
      FullChunkIsAcked(config, chunks, w.drained, UnderWay(w), w.drained[p].event.chunkID);
    }
    UnderWayRowsOk(config, chunks, w.drained, UnderWay(w));
    if Seen(w.drained) >= 1 {
      FullChunkIsAcked(config, chunks, w.drained, UnderWay(w), Seen(w.drained));
    }
  }

  lemma DrainedRowIsSeen(w: World, p: nat)
    requires Running(w) && p < |w.drained| && w.drained[p].event.operation == Read
    ensures 1 <= w.drained[p].event.chunkID <= Seen(w.drained)
  {
    ChunksAreNotEmpty(w.capture);
    SeenInRange(w.capture.config, w.capture.chunks, w.drained, UnderWay(w));
    RowsMembers(Events(w.drained), w.drained[p].event);
    assert Events(w.drained)[p] == w.drained[p].event;
  }

  /** No chunk is in flight exactly when the drained rows are settled. */
  lemma IdleExactlyWhenSettled(w: World)
    requires Running(w)
    ensures Idle(w.engine) <==> Settled(w)
  {
    if Settled(w) {
      forall id | 1 <= id <= Seen(w.drained)
        ensures Full(Extents(w.capture.chunks), AcksOf(w.drained, |w.capture.chunks|), id)
      {
        SettledChunkIsFull(w, id);
      }
      assert w.engine.pendingChunks == {};
      WaitingWorld(w);
      assert forall id: int :: id !in w.engine.completedChunks;
    }
    if Idle(w.engine) {
      IdleMeansSettled(w);
    }
  }

  /** A successful acknowledgement ends the snapshot phase exactly when the scan is done and the drained rows
      are then settled. Rows still in the channel are not looked at. */
  lemma PhaseTurnsExactly(w: World, picks: seq<nat>)
    requires Running(w) && Pickable(w.drained, picks)
    ensures var w' := AfterSuccess(w, picks);
            w'.engine.state.phase == Streaming <==>
            w.engine.state.phase == Streaming || (w.engine.snapshotScanDone && Settled(w'))
  {
    AcknowledgeRest(w.engine, Picked(w.drained, picks));
    RunningSuccess(w, picks);
    IdleExactlyWhenSettled(AfterSuccess(w, picks));
  }

  lemma KeyOnce(d: seq<Message>, underWay: seq<CDCEvent>, e: CDCEvent)
    requires Rising(Rows(Events(d)) + underWay) && e in underWay
    ensures e.pk !in AckedKeys(d)
  {
    var rows, all := Rows(Events(d)), Rows(Events(d)) + underWay;
    var q :| 0 <= q < |underWay| && underWay[q] == e;
    forall m | m in d && m.event.operation == Read ensures m.event.pk != e.pk {
      var p :| 0 <= p < |d| && d[p] == m;
      assert Events(d)[p] == m.event;
      RowsMembers(Events(d), m.event);
      var i :| 0 <= i < |rows| && rows[i] == m.event;
      assert all[i] == m.event && all[|rows| + q] == e;
    }
  }

  /** So when the phase turns, all rows ever read are acknowledged if and only if none is still under way. */
  lemma NothingLeftBehindExactly(w: World)
    requires Running(w) && Settled(w)
    ensures (forall e <- AllReads(w.capture.config, w.capture.chunks) :: e.pk in AckedKeys(w.drained)) <==>
            UnderWay(w) == []
  {
    if UnderWay(w) == [] {
      forall e | e in AllReads(w.capture.config, w.capture.chunks) ensures e.pk in AckedKeys(w.drained) {
        RowsMembers(Events(w.drained), e);
        var p :| 0 <= p < |w.drained| && Events(w.drained)[p] == e;
        assert w.drained[p] in w.drained;
      }
    } else {
      var e := UnderWay(w)[0];
      assert e in AllReads(w.capture.config, w.capture.chunks);
      ReadsRise(w.capture.config, w.capture.start, w.capture.chunks);
      KeyOnce(w.drained, UnderWay(w), e);
    }
  }

  /** The scan is flagged as done only once it is. */
  ghost predicate DoneIsDone(w: World) {
    w.engine.snapshotScanDone ==> w.capture.point.Exhausted?
  }

  lemma DoneIsDoneKept(w: World, step: Step)
    requires DoneIsDone(w) && Enabled(w, step)
    ensures DoneIsDone(Apply(w, step))
  {
    match step
    case Ack(picks, failed, stored) => AcknowledgeRest(w.engine, Picked(w.drained, picks));
    case _ =>
  }

  lemma {:induction false} DoneIsDoneInEveryRun(config: Capture.Config, base: map<PK, Row>, ws: seq<World>,
                                                steps: seq<Step>, i: nat)
    requires IsRun(config, base, ws, steps) && i < |ws|
    ensures DoneIsDone(ws[i])
  {
    if i > 0 {
      DoneIsDoneInEveryRun(config, base, ws, steps, i - 1);
      DoneIsDoneKept(ws[i - 1], steps[i - 1]);
    }
  }

  /** If nothing is under way when the drained rows are settled and the scan is done, every stable row of the
      table has been acknowledged: then the streaming phase may be saved. */
  lemma TurningThePhaseIsSafe(config: Capture.Config, base: map<PK, Row>, ws: seq<World>, steps: seq<Step>, i: nat,
                              k: PK)
    requires IsRun(config, base, ws, steps) && i < |ws|
    requires ws[i].engine.snapshotScanDone && Settled(ws[i]) && UnderWay(ws[i]) == []
    requires Stable(ws[i].capture.config.table, ws[i].capture.db, k)
    ensures k in ws[i].earlier + AckedKeys(ws[i].drained)
  {
    EveryRunIsSafe(config, base, ws, steps, i);
    DoneIsDoneInEveryRun(config, base, ws, steps, i);
    AllStableRowsAcked(ws[i], k);
  }

  lemma AllStableRowsAcked(w: World, k: PK)
    requires Safe(w) && w.capture.point.Exhausted? && Settled(w) && UnderWay(w) == []
    requires Stable(w.capture.config.table, w.capture.db, k)
    ensures k in w.earlier + AckedKeys(w.drained)
  {
    if Rank(w.capture.start) < Rank(k) {
      StableRowIsRead(w.capture, k);
      NothingLeftBehindExactly(w);
    }
  }

  // ---- the same for every reachable state ----

  /** In every run: acknowledging the same drained messages in any two orders and groupings leads to the same world. */
  lemma AcksAreConfluentInEveryRun(config: Capture.Config, base: map<PK, Row>, ws: seq<World>, steps: seq<Step>, i: nat,
                                   gs: seq<seq<nat>>, hs: seq<seq<nat>>)
    requires IsRun(config, base, ws, steps) && i < |ws| && gs != [] && hs != []
    requires Pickable(ws[i].drained, Flatten(gs)) && Pickable(ws[i].drained, Flatten(hs))
    requires forall p :: p in Flatten(gs) <==> p in Flatten(hs)
    ensures AckAll(ws[i], gs).Some? && AckAll(ws[i], gs) == AckAll(ws[i], hs)
  {
    EveryRunIsSafe(config, base, ws, steps, i);
    AcksAreConfluent(ws[i], gs, hs);
  }

  lemma ConfigStays(w: World, step: Step)
    requires Enabled(w, step)
    ensures Apply(w, step).capture.config == w.capture.config
  {
  }

  lemma {:induction false} ConfigInEveryRun(config: Capture.Config, base: map<PK, Row>, ws: seq<World>,
                                            steps: seq<Step>,
                                            i: nat)
    requires IsRun(config, base, ws, steps) && i < |ws|
    ensures ws[i].capture.config == config
  {
    if i > 0 {
      ConfigInEveryRun(config, base, ws, steps, i - 1);
      ConfigStays(ws[i - 1], steps[i - 1]);
    }
  }

  /** Two runs over the same table, whatever its contents and their histories, whose processes resumed from the same
      cursor and have drained and acknowledged the same messages, have the same maps, pending and completed chunks
      and cursor. What either has read, delivered, sent or saved beyond that plays no part. */
  lemma ProgressDeterminesInEveryRun(config: Capture.Config, base: map<PK, Row>, us: seq<World>, uSteps: seq<Step>,
                                     i: nat,
                                     otherBase: map<PK, Row>, vs: seq<World>, vSteps: seq<Step>, j: nat)
    requires IsRun(config, base, us, uSteps) && i < |us| && IsRun(config, otherBase, vs, vSteps) && j < |vs|
    requires us[i].capture.start == vs[j].capture.start && us[i].drained == vs[j].drained
    ensures us[i].engine ==
            vs[j].engine.(state := us[i].engine.state, snapshotScanDone := us[i].engine.snapshotScanDone)
    ensures us[i].engine.state.snapshotCursor == vs[j].engine.state.snapshotCursor
  {
    assert Running(us[i]) by {
      EveryRunIsSafe(config, base, us, uSteps, i);
    }
    assert Running(vs[j]) by {
      EveryRunIsSafe(config, otherBase, vs, vSteps, j);
    }
    ConfigInEveryRun(config, base, us, uSteps, i);
    ConfigInEveryRun(config, otherBase, vs, vSteps, j);
    SameProgress(us[i], vs[j]);
  }

  /** In every run: the phase of a running process changes only in a successful acknowledgement, and such an
      acknowledgement leaves it streaming exactly if it was, or if the scan is done and every row drained is
      then acknowledged with no chunk half drained. */
  lemma PhaseTurnsExactlyInEveryRun(config: Capture.Config, base: map<PK, Row>, ws: seq<World>, steps: seq<Step>,
                                    i: nat)
    requires IsRun(config, base, ws, steps) && i < |steps| && !steps[i].Crash?
    ensures !(steps[i].Ack? && !steps[i].failed) ==> ws[i + 1].engine.state.phase == ws[i].engine.state.phase
    ensures steps[i].Ack? && !steps[i].failed ==>
              (ws[i + 1].engine.state.phase == Streaming <==>
               ws[i].engine.state.phase == Streaming || (ws[i].engine.snapshotScanDone && Settled(ws[i + 1])))
  {
    EveryRunIsSafe(config, base, ws, steps, i);
    PhaseStep(ws[i], steps[i]);
  }

  lemma PhaseStep(w: World, step: Step)
    requires Running(w) && Enabled(w, step) && !step.Crash?
    ensures var w' := Apply(w, step);
            if step.Ack? && !step.failed
            then w'.engine.state.phase == Streaming <==>
                 w.engine.state.phase == Streaming || (w.engine.snapshotScanDone && Settled(w'))
            else w'.engine.state.phase == w.engine.state.phase
  {
    match step
    case Ack(picks, failed, stored) =>
      if !failed {
        PhaseTurnsExactly(w, picks);
        SavingIsNoMatter(AfterSuccess(w, picks));
      }
    case _ => OnlyAcksTouchTheState(w, step);
  }

  lemma SavingIsNoMatter(w: World)
    ensures Settled(AfterSave(w)) == Settled(w) && AfterSave(w).engine == w.engine
  {
  }

  /** In every run: once the drained rows are settled, all rows ever read are acknowledged if and only if none is under
      way. */
  lemma NothingLeftBehindInEveryRun(config: Capture.Config, base: map<PK, Row>, ws: seq<World>, steps: seq<Step>,
                                    i: nat)
    requires IsRun(config, base, ws, steps) && i < |ws| && Settled(ws[i])
    ensures (forall e <- AllReads(ws[i].capture.config, ws[i].capture.chunks) :: e.pk in AckedKeys(ws[i].drained)) <==>
            UnderWay(ws[i]) == []
  {
    EveryRunIsSafe(config, base, ws, steps, i);
    NothingLeftBehindExactly(ws[i]);
  }
}
