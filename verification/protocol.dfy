/** The whole connector for one table: the capture protocol, the two goroutines that send what it
    decided, the output channel, draining, acknowledgements in any order and grouping, the saved
    state, and crashes followed by a restart from it. */
module Protocol {
  import opened Keys
  import opened Wrappers
  import opened Cdc
  import opened MergerSpec
  import opened EngineSpec
  import opened Watermark
  import opened Reads
  import opened Delivery
  import Capture
  import CaptureInvariant
  import CaptureTheorems

  /** scanOut and walOut hold what the scanner and the streamer have decided to send and not yet sent:
      the merger's lock is released before the sends. waitEnded says that the scanner has seen no chunk in
      flight and released the engine's lock, but may not have completed the merger yet. slot is the position that
      the database keeps for the replication slot. `earlier` and `earlierChanges` are the history of rows
      and changes acknowledged by processes that have crashed. */
  datatype World = World(
    capture: Capture.State, scanOut: seq<CDCEvent>, walOut: seq<CDCEvent>, output: seq<CDCEvent>,
    drained: seq<Message>, engine: EngineState, waitEnded: bool, saved: CDCState, slot: nat,
    earlier: set<PK>, earlierChanges: set<CDCEvent>)

  // ---- starting and restarting ----

  /** The engine's state takes on the table to scan, and forgets a cursor saved for another one. */
  function FreshEngine(table: string, saved: CDCState): EngineState {
    var state := if saved.phase == Snapshotting && saved.currentSnapshotTable != table
                 then saved.(currentSnapshotTable := table, snapshotCursor := Unset)
                 else saved;
    EngineState(map[], map[], map[], map[], {}, map[], false, state)
  }

  /** A cursor is only ever saved for the table that is scanned. */
  predicate Resumable(table: string, saved: CDCState) {
    saved.currentSnapshotTable == table || (saved.phase == Snapshotting && saved.snapshotCursor == Unset)
  }

  /** The scanner resumes from the saved cursor, the streamer at some transaction. */
  function Started(config: Capture.Config, db: Capture.Db, saved: CDCState, from: nat, slot: nat,
                   earlier: set<PK>, earlierChanges: set<CDCEvent>): World {
    World(Capture.Starting(config, db, saved.phase, saved.snapshotCursor, from), [], [], [], [],
          FreshEngine(config.table, saved), false, saved, slot, earlier, earlierChanges)
  }

  /** No state has been saved, no transaction has run since the slot was created. */
  function Initial(config: Capture.Config, base: map<PK, Row>): World {
    Started(config, Capture.Db(base, 0, {}, []), CDCState(Snapshotting, 0, "", Unset), 0, 0, {}, {})
  }

  /** Where replication starts again: the saved position is asked for, or none if nothing is confirmed yet, and the
      database starts no earlier than the slot. */
  function ResumePosition(w: World): nat {
    Higher(w.saved.confirmedLSN, w.slot)
  }

  /** From which transaction on: the first that is not below the position. */
  predicate ResumesAt(log: seq<Capture.Txn>, position: nat, from: nat) {
    && from <= |log|
    && (forall t :: 0 <= t < from ==> log[t].lsn < position)
    && (forall t :: from <= t < |log| ==> position <= log[t].lsn)
  }

  /** The keys of the rows acknowledged by the running process. */
  function AckedKeys(d: seq<Message>): set<PK> {
    set m <- d | m.acked && m.event.operation == Read :: m.event.pk
  }

  /** The changes it has had acknowledged. */
  function AckedChanges(d: seq<Message>): set<CDCEvent> {
    set m <- d | m.acked && m.event.operation != Read :: m.event
  }

  // ---- steps ----

  datatype Step =
    | Captures(step: Capture.Step)
    | MarkScanDone
    | WaitEnds
    | ScannerSends
    | StreamerSends
    | Drain
    | Ack(picks: seq<nat>, failed: bool, stored: bool)
    | Report(position: nat)
    | Crash(from: nat)

  ghost predicate Enabled(w: World, step: Step) {
    match step
    case Captures(s) =>
      && Capture.Enabled(w.capture, s)
      && (s.DoScanBegin? ==> w.scanOut == [])
      && (s.DoDeliver? ==> w.walOut == [])
      && (s.DoComplete? ==> w.waitEnded && w.scanOut == [])
    case MarkScanDone => w.capture.point.Exhausted? && w.scanOut == []
    case WaitEnds => w.engine.snapshotScanDone && w.engine.pendingChunks == {} && w.engine.completedChunks == map[]
    case ScannerSends => w.scanOut != []
    case StreamerSends => w.walOut != []
    case Drain => w.output != []
    case Ack(picks, failed, stored) => Pickable(w.drained, picks)
    case Report(position) => w.slot <= position <= w.engine.state.confirmedLSN
    case Crash(from) => ResumesAt(w.capture.db.log, ResumePosition(w), from)
  }

  ghost function AfterCapture(w: World, s: Capture.Step): World
    requires Capture.Enabled(w.capture, s)
  {
    var w' := w.(capture := Capture.Apply(w.capture, s));
    match s
    case DoScanEnd(rows) =>
      var c := w.capture;
      w'.(scanOut := w.scanOut + EndChunkEmits(c.merger, c.chunkID, rows[|rows| - 1], c.point.xmin) +
                     ReadEvents(c.config, Capture.NewChunk(c, rows), c.chunkID))
    case DoDeliver =>
      w'.(walOut := w.walOut +
            Decided(w.capture.merger, Capture.EventsOf(w.capture.db.log[w.capture.delivered]), Emit))
    case DoComplete => w'.(scanOut := w.scanOut + w.capture.merger.pending)
    case _ => w'
  }

  ghost function AfterAck(w: World, picks: seq<nat>, failed: bool, stored: bool): World
    requires Pickable(w.drained, picks)
  {
    if failed then w
    else if stored then AfterSave(AfterSuccess(w, picks))
    else AfterSuccess(w, picks)
  }

  ghost function AfterSuccess(w: World, picks: seq<nat>): World
    requires Pickable(w.drained, picks)
  {
    w.(drained := Mark(w.drained, picks), engine := Acknowledge(w.engine, Picked(w.drained, picks)))
  }

  function AfterSave(w: World): World {
    w.(saved := w.engine.state)
  }

  function AfterMark(w: World): World {
    w.(engine := w.engine.(snapshotScanDone := true))
  }

  function AfterWait(w: World): World {
    w.(waitEnded := true)
  }

  function AfterScannerSends(w: World): World
    requires w.scanOut != []
  {
    w.(scanOut := w.scanOut[1..], output := w.output + [w.scanOut[0]])
  }

  function AfterStreamerSends(w: World): World
    requires w.walOut != []
  {
    w.(walOut := w.walOut[1..], output := w.output + [w.walOut[0]])
  }

  /** HandleDemand takes one event from the channel. */
  function AfterDrain(w: World): World
    requires w.output != []
  {
    w.(output := w.output[1..], drained := w.drained + [Message(w.output[0], false)],
       engine := Track(w.engine, w.output[0]))
  }

  /** The streamer reports a position, which the slot then keeps. */
  function AfterReport(w: World, position: nat): World {
    w.(slot := position)
  }

  /** The process dies and starts again from what was saved; only the database survives with it. */
  function AfterCrash(w: World, from: nat): World {
    Started(w.capture.config, w.capture.db, w.saved, from, w.slot,
            w.earlier + AckedKeys(w.drained), w.earlierChanges + AckedChanges(w.drained))
  }

  ghost function Apply(w: World, step: Step): World
    requires Enabled(w, step)
  {
    match step
    case Captures(s) => AfterCapture(w, s)
    case MarkScanDone => AfterMark(w)
    case WaitEnds => AfterWait(w)
    case ScannerSends => AfterScannerSends(w)
    case StreamerSends => AfterStreamerSends(w)
    case Drain => AfterDrain(w)
    case Ack(picks, failed, stored) => AfterAck(w, picks, failed, stored)
    case Report(position) => AfterReport(w, position)
    case Crash(from) => AfterCrash(w, from)
  }

  /** A run: any sequence of enabled steps from the initial state. */
  ghost predicate IsRun(config: Capture.Config, base: map<PK, Row>, ws: seq<World>, steps: seq<Step>) {
    && |ws| == |steps| + 1
    && ws[0] == Initial(config, base)
    && forall i :: 0 <= i < |steps| ==> Enabled(ws[i], steps[i]) && ws[i + 1] == Apply(ws[i], steps[i])
  }

  // ---- what every step keeps: the flow of rows ----

  function TableName(c: Capture.Config): string {
    QualifyTable(c.schema, c.tableName)
  }

  function UnderWay(w: World): seq<CDCEvent> {
    Rows(w.output) + Rows(w.scanOut)
  }

  /** Drained rows and rows under way are the rows read; the streamer and the merger hold no rows. */
  ghost predicate FlowingOf(c: Capture.State, d: seq<Message>, underWay: seq<CDCEvent>, walOut: seq<CDCEvent>) {
    && FlowOk(c.config, c.chunks, d, underWay)
    && (forall e <- walOut :: e.operation != Read)
    && (forall e <- c.merger.pending :: e.operation != Read)
  }

  ghost predicate Flowing(w: World) {
    FlowingOf(w.capture, w.drained, UnderWay(w), w.walOut)
  }

  lemma RowsOfHead(events: seq<CDCEvent>)
    requires events != []
    ensures Rows(events) == Rows([events[0]]) + Rows(events[1..])
  {
    assert events == [events[0]] + events[1..];
    RowsConcat([events[0]], events[1..]);
  }

  lemma RowsOfOne(e: CDCEvent)
    ensures Rows([e]) == if e.operation == Read then [e] else []
  {
    assert [e][..0] == [];
  }

  lemma FlowingScannerSends(w: World)
    requires Flowing(w) && w.scanOut != []
    ensures Flowing(AfterScannerSends(w))
  {
    assert UnderWay(AfterScannerSends(w)) == UnderWay(w) by {
      RowsOfHead(w.scanOut);
      RowsConcat(w.output, [w.scanOut[0]]);
    }
  }

  lemma FlowingStreamerSends(w: World)
    requires Flowing(w) && w.walOut != []
    ensures Flowing(AfterStreamerSends(w))
  {
    RowsConcat(w.output, [w.walOut[0]]);
    RowsOfOne(w.walOut[0]);
    assert UnderWay(AfterStreamerSends(w)) == UnderWay(w);
  }

  lemma Regroup(a: seq<CDCEvent>, head: seq<CDCEvent>, tail: seq<CDCEvent>, out: seq<CDCEvent>)
    ensures (a + head) + (tail + out) == a + ((head + tail) + out)
  {
  }

  lemma RowsOfDrained(d: seq<Message>, e: CDCEvent)
    ensures Rows(Events(d + [Message(e, false)])) == Rows(Events(d)) + Rows([e])
  {
    EventsSnoc(d, Message(e, false));
    RowsConcat(Events(d), [e]);
  }

  lemma FlowMoves(config: Capture.Config, chunks: seq<Capture.ChunkRecord>, d: seq<Message>, output: seq<CDCEvent>,
                  out: seq<CDCEvent>)
    requires output != [] && FlowOk(config, chunks, d, Rows(output) + out)
    ensures FlowOk(config, chunks, d + [Message(output[0], false)], Rows(output[1..]) + out)
  {
    RowsOfHead(output);
    RowsOfDrained(d, output[0]);
    Regroup(Rows(Events(d)), Rows([output[0]]), Rows(output[1..]), out);
  }

  lemma FlowingDrain(w: World)
    requires Flowing(w) && w.output != []
    ensures Flowing(AfterDrain(w))
  {
    FlowMoves(w.capture.config, w.capture.chunks, w.drained, w.output, Rows(w.scanOut));
  }

  lemma FlowingSuccess(w: World, picks: seq<nat>)
    requires Flowing(w) && Pickable(w.drained, picks)
    ensures Flowing(AfterSuccess(w, picks))
  {
    assert Events(Mark(w.drained, picks)) == Events(w.drained);
  }

  /** Events the merger passes on are WAL events. */
  lemma PassedOnAreChanges(w: World, e: CDCEvent)
    requires Flowing(w) && CaptureInvariant.LogOk(w.capture.db) && w.capture.delivered < |w.capture.db.log|
    ensures var m, events := w.capture.merger, Capture.EventsOf(w.capture.db.log[w.capture.delivered]);
            e in Decided(m, events, Emit) || e in Receive(m, events).pending ==> e.operation != Read
  {
    var events := Capture.EventsOf(w.capture.db.log[w.capture.delivered]);
    DecidedMembers(w.capture.merger, events, Emit, e);
    DecidedMembers(w.capture.merger, events, Buffer, e);
  }

  lemma FlowingDeliver(w: World)
    requires Flowing(w) && CaptureInvariant.LogOk(w.capture.db) && Enabled(w, Captures(Capture.DoDeliver))
    ensures Flowing(AfterCapture(w, Capture.DoDeliver))
  {
    var w' := AfterCapture(w, Capture.DoDeliver);
    forall e ensures e in w'.walOut || e in w'.capture.merger.pending ==> e.operation != Read {
      PassedOnAreChanges(w, e);
    }
  }

  lemma EndEmitsChanges(pending: seq<CDCEvent>, low: PK, high: PK, xmin: nat)
    requires forall e <- pending :: e.operation != Read
    ensures forall e <- NotBelow(InChunk(pending, low, high), xmin) :: e.operation != Read
    ensures forall e <- Overflow(pending, low, high) :: e.operation != Read
  {
    forall e
      ensures e in NotBelow(InChunk(pending, low, high), xmin) || e in Overflow(pending, low, high) ==>
                e.operation != Read
    {
      ChunkMembers(pending, low, high, e);
      XMinMembers(InChunk(pending, low, high), xmin, e);
    }
  }

  lemma RowsAppended(out: seq<CDCEvent>, emits: seq<CDCEvent>, news: seq<CDCEvent>)
    requires (forall e <- emits :: e.operation != Read) && forall e <- news :: e.operation == Read
    ensures Rows(out + emits + news) == Rows(out) + news
  {
    RowsOfOthers(emits);
    RowsOfRows(news);
    RowsConcat(out, emits);
    RowsConcat(out + emits, news);
  }

  lemma FlowExtended(config: Capture.Config, chunks: seq<Capture.ChunkRecord>, c: Capture.ChunkRecord, d: seq<Message>,
                     underWay: seq<CDCEvent>)
    requires FlowOk(config, chunks, d, underWay)
    ensures FlowOk(config, chunks + [c], d, underWay + ReadEvents(config, c, |chunks| + 1))
  {
    assert (chunks + [c])[..|chunks|] == chunks;
    var news := ReadEvents(config, c, |chunks| + 1);
    assert Rows(Events(d)) + (underWay + news) == (Rows(Events(d)) + underWay) + news;
  }

  lemma EndUnderWay(output: seq<CDCEvent>, out: seq<CDCEvent>, pending: seq<CDCEvent>, low: PK, high: PK, xmin: nat,
                    news: seq<CDCEvent>)
    requires (forall e <- pending :: e.operation != Read) && forall e <- news :: e.operation == Read
    ensures Rows(output) + Rows(out + NotBelow(InChunk(pending, low, high), xmin) + news) == Rows(output) + Rows(out) +
            news
  {
    EndEmitsChanges(pending, low, high, xmin);
    RowsAppended(out, NotBelow(InChunk(pending, low, high), xmin), news);
  }

  lemma ScanEndUnderWay(w: World, rows: seq<PK>)
    requires Flowing(w) && CaptureInvariant.MergerKnown(w.capture) && Enabled(w, Captures(Capture.DoScanEnd(rows)))
    ensures UnderWay(AfterCapture(w, Capture.DoScanEnd(rows))) ==
            UnderWay(w) + ReadEvents(w.capture.config, Capture.NewChunk(w.capture, rows), w.capture.chunkID)
  {
    var c := w.capture;
    EndUnderWay(w.output, w.scanOut, c.merger.pending, c.cursor, rows[|rows| - 1], c.point.xmin,
                ReadEvents(c.config, Capture.NewChunk(c, rows), c.chunkID));
  }

  lemma FlowingScanEnd(w: World, rows: seq<PK>)
    requires Flowing(w) && CaptureInvariant.MergerKnown(w.capture) && w.capture.chunkID == |w.capture.chunks| + 1
    requires Enabled(w, Captures(Capture.DoScanEnd(rows)))
    ensures Flowing(AfterCapture(w, Capture.DoScanEnd(rows)))
  {
    var c := w.capture;
    ScanEndUnderWay(w, rows);
    FlowExtended(c.config, c.chunks, Capture.NewChunk(c, rows), w.drained, UnderWay(w));
    EndEmitsChanges(c.merger.pending, c.cursor, rows[|rows| - 1], c.point.xmin);
  }

  lemma FlowingComplete(w: World)
    requires Flowing(w) && Enabled(w, Captures(Capture.DoComplete))
    ensures Flowing(AfterCapture(w, Capture.DoComplete))
  {
    RowsConcat(w.scanOut, w.capture.merger.pending);
    RowsOfOthers(w.capture.merger.pending);
  }

  lemma FlowingOtherwise(w: World, s: Capture.Step)
    requires Flowing(w) && Enabled(w, Captures(s)) && !s.DoDeliver? && !s.DoScanEnd? && !s.DoComplete?
    ensures Flowing(AfterCapture(w, s))
  {
    var w' := AfterCapture(w, s);
    assert w'.capture.chunks == w.capture.chunks && w'.capture.config == w.capture.config;
    assert w'.capture.merger.pending == w.capture.merger.pending;
  }

  lemma FlowingCapture(w: World, s: Capture.Step)
    requires Flowing(w) && Enabled(w, Captures(s))
    requires CaptureInvariant.LogOk(w.capture.db) && CaptureInvariant.MergerKnown(w.capture)
    requires w.capture.chunkID == |w.capture.chunks| + 1
    ensures Flowing(AfterCapture(w, s))
  {
    match s
    case DoDeliver => FlowingDeliver(w);
    case DoScanEnd(rows) => FlowingScanEnd(w, rows);
    case DoComplete => FlowingComplete(w);
    case _ => FlowingOtherwise(w, s);
  }

  // ---- runs, step by step ----

  /** Where some steps lead, if each is enabled in its turn. */
  ghost function After(w: World, steps: seq<Step>): Option<World> {
    if steps == [] then Some(w)
    else
      var before, last := After(w, steps[..|steps| - 1]), steps[|steps| - 1];
      if before.Some? && Enabled(before.value, last) then Some(Apply(before.value, last)) else None
  }

  lemma OneMore(w: World, steps: seq<Step>, now: World, step: Step)
    requires After(w, steps) == Some(now) && Enabled(now, step)
    ensures After(w, steps + [step]) == Some(Apply(now, step))
  {
    assert (steps + [step])[..|steps|] == steps;
  }

  lemma {:induction false} TakenIsRun(config: Capture.Config, base: map<PK, Row>, steps: seq<Step>)
    returns (ws: seq<World>)
    requires After(Initial(config, base), steps).Some?
    ensures IsRun(config, base, ws, steps) && After(Initial(config, base), steps) == Some(ws[|steps|])
    decreases |steps|
  {
    if steps == [] {
      ws := [Initial(config, base)];
    } else {
      var n := |steps| - 1;
      var before := TakenIsRun(config, base, steps[..n]);
      ws := before + [Apply(before[n], steps[n])];
      Extended(config, base, before, steps, ws);
    }
  }

  lemma Extended(config: Capture.Config, base: map<PK, Row>, before: seq<World>, steps: seq<Step>, ws: seq<World>)
    requires steps != [] && IsRun(config, base, before, steps[..|steps| - 1])
    requires Enabled(before[|steps| - 1], steps[|steps| - 1])
    requires ws == before + [Apply(before[|steps| - 1], steps[|steps| - 1])]
    ensures IsRun(config, base, ws, steps)
  {
    var n := |steps| - 1;
    forall i | 0 <= i < |steps| ensures Enabled(ws[i], steps[i]) && ws[i + 1] == Apply(ws[i], steps[i]) {
      if i < n {
        assert steps[..n][i] == steps[i];
      }
    }
  }

  /** The states of a run are where its steps lead. */
  lemma {:induction false} RunIsTaken(config: Capture.Config, base: map<PK, Row>, ws: seq<World>, steps: seq<Step>,
                                      i: nat)
    requires IsRun(config, base, ws, steps) && i < |ws|
    ensures After(Initial(config, base), steps[..i]) == Some(ws[i])
    decreases i
  {
    if i > 0 {
      RunIsTaken(config, base, ws, steps, i - 1);
      assert steps[..i] == steps[..i - 1] + [steps[i - 1]];
      OneMore(Initial(config, base), steps[..i - 1], ws[i - 1], steps[i - 1]);
    }
  }

  // ---- draining several events ----

  function Drains(n: nat): (steps: seq<Step>)
    ensures |steps| == n && forall i :: 0 <= i < n ==> steps[i] == Drain
  {
    if n == 0 then [] else Drains(n - 1) + [Drain]
  }

  function Unacknowledged(events: seq<CDCEvent>): (d: seq<Message>)
    ensures |d| == |events| && forall i :: 0 <= i < |d| ==> d[i] == Message(events[i], false)
  {
    seq(|events|, i requires 0 <= i < |events| => Message(events[i], false))
  }

  /** The state once some events have been handed out. */
  function HandedOut(w: World, result: seq<CDCEvent>, engine: EngineState): World
    requires |result| <= |w.output|
  {
    w.(output := w.output[|result|..], drained := w.drained + Unacknowledged(result), engine := engine)
  }

  lemma DrainHandsOut(w: World, before: seq<CDCEvent>, last: CDCEvent, engine: EngineState)
    requires before + [last] <= w.output
    ensures HandedOut(w, before, engine).output != []
    ensures AfterDrain(HandedOut(w, before, engine)) == HandedOut(w, before + [last], Track(engine, last))
  {
    var result := before + [last];
    assert w.output[|before|] == result[|before|];
    assert w.drained + Unacknowledged(before) + [Message(last, false)] == w.drained + Unacknowledged(result);
  }

  lemma OneDrainMore(w: World, n: nat, now: World)
    requires After(w, Drains(n)) == Some(now) && now.output != []
    ensures After(w, Drains(n + 1)) == Some(AfterDrain(now))
  {
    OneMore(w, Drains(n), now, Drain);
  }

  lemma {:induction false} TrackedStepByStep(w: World, result: seq<CDCEvent>)
    requires result <= w.output
    ensures After(w, Drains(|result|)) == Some(HandedOut(w, result, TrackAll(w.engine, result)))
    decreases |result|
  {
    if result == [] {
      assert w.drained + Unacknowledged(result) == w.drained;
    } else {
      var n := |result| - 1;
      var before, engine := result[..n], TrackAll(w.engine, result[..n]);
      TrackedStepByStep(w, before);
      assert before + [result[n]] == result;
      DrainHandsOut(w, before, result[n], engine);
      OneDrainMore(w, n, HandedOut(w, before, engine));
    }
  }

  /** What HandleDemand leaves behind after handing out some events is what as many single steps of draining reach. */
  lemma HandingOutIsDraining(w: World, result: seq<CDCEvent>, now: EngineState)
    requires result <= w.output && Registered(w.engine, result, now)
    ensures After(w, Drains(|result|)) == Some(HandedOut(w, result, now))
  {
    assert TrackAll(w.engine, result) == now by {
      AllRegistered(w.engine, result);
      RegisteredDetermines(w.engine, result, TrackAll(w.engine, result), now);
    }
    TrackedStepByStep(w, result);
  }
}
