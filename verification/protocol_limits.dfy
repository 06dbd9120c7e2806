/** Where the connector falls short, in three runs: the streaming phase is saved while a snapshot row still waits in
    the channel, so that a crash loses the row (pg/connector.go, the phase switch in Acknowledger); a row inserted
    above the scan before the snapshot is complete is lost; and so is a change of a row scanned before a restart
    (pg/merger.go, the last case of routeEvent). */
module ProtocolLimits {
  import opened Keys
  import opened Wrappers
  import opened Cdc
  import opened MergerSpec
  import opened EngineSpec
  import opened Reads
  import opened Delivery
  import opened Protocol
  import opened ProtocolInvariant
  import opened ProtocolTheorems
  import opened ProtocolAcks
  import opened ProtocolChanges
  import Capture
  import CaptureFate
  import Limits
  import CaptureInvariant

  // ---- the run ----

  const CONFIG: Capture.Config := Capture.Config("t", "", "t", 1)

  function Base(): map<PK, Row> {
    map[IntKey(1) := 10, IntKey(2) := 20]
  }

  /** Between two chunks of the scan, nothing drained, no transaction ever run. */
  ghost predicate Scanning(w: World, cursor: PK, id: int, sent: seq<CDCEvent>) {
    && w.capture.config == CONFIG && w.capture.db == Capture.Db(Base(), 0, {}, [])
    && w.capture.point == Capture.Ready && w.capture.cursor == cursor && w.capture.chunkID == id
    && w.capture.merger.pending == [] && w.capture.merger.phase == Snapshotting
    && w.capture.from == 0 && w.capture.delivered == 0 && w.capture.completed.None?
    && w.scanOut == [] && w.walOut == [] && w.output == sent && w.drained == []
    && w.saved == CDCState(Snapshotting, 0, "", Unset) && w.slot == 0 && w.earlier == {} && w.earlierChanges == {}
    && w.engine == FreshEngine("t", CDCState(Snapshotting, 0, "", Unset))
  }

  /** A snapshot taken with nothing running. */
  lemma ChunkBegins(w: World, cursor: PK, id: int, sent: seq<CDCEvent>)
    requires Scanning(w, cursor, id, sent) && 0 < id < 10
    ensures Enabled(w, Captures(Capture.DoScanBegin))
    ensures var w1 := Apply(w, Captures(Capture.DoScanBegin));
            && Enabled(w1, Captures(Capture.DoScanSnapshot(0)))
            && var w2 := Apply(w1, Captures(Capture.DoScanSnapshot(0)));
               && w2.capture.point == Capture.Snapped(0, 0)
               && Scanning(w2.(capture := w2.capture.(point := Capture.Ready)), cursor, id, sent)
  {
  }

  lemma FirstKey()
    ensures Capture.IsChunkRead([IntKey(1)], Base(), Unset, 1)
  {
  }

  lemma SecondKey()
    ensures Capture.IsChunkRead([IntKey(2)], Base(), IntKey(1), 1)
  {
  }

  lemma NoKeyLeft()
    ensures Capture.IsChunkRead([], Base(), IntKey(2), 1)
  {
  }

  /** The row of key k as the first or second chunk sends it. */
  function RowOf(k: PK, id: int): CDCEvent {
    CDCEvent("", "t", Read, k, None, if k in Base() then Some(Base()[k]) else None, 0, 0, id, 1, k)
  }

  /** A chunk of one row, ended and sent. */
  lemma ChunkEnds(w: World, cursor: PK, id: int, sent: seq<CDCEvent>, k: PK)
    requires w.capture.point == Capture.Snapped(0, 0) && 0 < id < 10
    requires Scanning(w.(capture := w.capture.(point := Capture.Ready)), cursor, id, sent)
    requires Capture.IsChunkRead([k], Base(), cursor, 1)
    ensures Enabled(w, Captures(Capture.DoScanEnd([k])))
    ensures var w1 := Apply(w, Captures(Capture.DoScanEnd([k])));
            w1.scanOut == [RowOf(k, id)] && Scanning(w1.(scanOut := []), k, id + 1, sent)
  {
    var c := w.capture;
    assert ReadEvents(c.config, Capture.NewChunk(c, [k]), id) == [RowOf(k, id)];
  }

  lemma RowIsSent(w: World, cursor: PK, id: int, sent: seq<CDCEvent>, row: CDCEvent)
    requires w.scanOut == [row] && Scanning(w.(scanOut := []), cursor, id, sent)
    ensures Scanning(Apply(w, ScannerSends), cursor, id, sent + [row])
  {
  }

  /** From the start, the steps so far lead here. */
  ghost predicate Reached(steps: seq<Step>, now: World) {
    After(Initial(CONFIG, Base()), steps) == Some(now)
  }

  lemma ReachMore(steps: seq<Step>, now: World, step: Step)
    requires Reached(steps, now) && Enabled(now, step)
    ensures Reached(steps + [step], Apply(now, step))
  {
    OneMore(Initial(CONFIG, Base()), steps, now, step);
  }

  lemma ScanRow(steps: seq<Step>, w: World, cursor: PK, id: int, sent: seq<CDCEvent>, k: PK)
    returns (steps': seq<Step>, w': World)
    requires Reached(steps, w) && Scanning(w, cursor, id, sent) && 0 < id < 10
    requires Capture.IsChunkRead([k], Base(), cursor, 1)
    ensures Reached(steps', w') && Scanning(w', k, id + 1, sent + [RowOf(k, id)])
  {
    var taken: seq<Step>;
    taken, w' := BeginChunk(steps, w, cursor, id, sent);
    ChunkEnds(w', cursor, id, sent, k);
    ReachMore(taken, w', Captures(Capture.DoScanEnd([k])));
    var ended := Apply(w', Captures(Capture.DoScanEnd([k])));
    RowIsSent(ended, k, id + 1, sent, RowOf(k, id));
    ReachMore(taken + [Captures(Capture.DoScanEnd([k]))], ended, ScannerSends);
    steps', w' := taken + [Captures(Capture.DoScanEnd([k]))] + [ScannerSends], Apply(ended, ScannerSends);
  }

  lemma BeginChunk(steps: seq<Step>, w: World, cursor: PK, id: int, sent: seq<CDCEvent>)
    returns (steps': seq<Step>, w': World)
    requires Reached(steps, w) && Scanning(w, cursor, id, sent) && 0 < id < 10
    ensures Reached(steps', w') && w'.capture.point == Capture.Snapped(0, 0)
    ensures Scanning(w'.(capture := w'.capture.(point := Capture.Ready)), cursor, id, sent)
  {
    ChunkBegins(w, cursor, id, sent);
    ReachMore(steps, w, Captures(Capture.DoScanBegin));
    var begun := Apply(w, Captures(Capture.DoScanBegin));
    ReachMore(steps + [Captures(Capture.DoScanBegin)], begun, Captures(Capture.DoScanSnapshot(0)));
    steps' := steps + [Captures(Capture.DoScanBegin)] + [Captures(Capture.DoScanSnapshot(0))];
    w' := Apply(begun, Captures(Capture.DoScanSnapshot(0)));
  }

  /** The scan is over and both rows wait in the channel. */
  ghost predicate Waiting(w: World) {
    && w.capture.config == CONFIG && w.capture.db == Capture.Db(Base(), 0, {}, [])
    && w.capture.point == Capture.Exhausted(0) && w.capture.cursor == IntKey(2)
    && w.capture.from == 0 && w.capture.delivered == 0 && w.capture.completed.None?
    && w.engine.snapshotScanDone && w.scanOut == [] && w.walOut == [] && w.drained == []
    && w.output == [RowOf(IntKey(1), 1), RowOf(IntKey(2), 2)]
    && w.capture.merger.pending == [] && w.engine.state.confirmedLSN == 0
    && w.slot == 0 && w.earlier == {} && w.earlierChanges == {}
  }

  lemma ScanEnds(steps: seq<Step>, w: World) returns (steps': seq<Step>, w': World)
    requires Reached(steps, w) && Scanning(w, IntKey(2), 3, [RowOf(IntKey(1), 1), RowOf(IntKey(2), 2)])
    ensures Reached(steps', w') && Waiting(w')
  {
    var taken: seq<Step>;
    taken, w' := BeginChunk(steps, w, IntKey(2), 3, [RowOf(IntKey(1), 1), RowOf(IntKey(2), 2)]);
    NoKeyLeft();
    assert Capture.TableAt("t", w'.capture.db, 0) == Base();
    ReachMore(taken, w', Captures(Capture.DoScanExhaust));
    var exhausted := Apply(w', Captures(Capture.DoScanExhaust));
    ReachMore(taken + [Captures(Capture.DoScanExhaust)], exhausted, MarkScanDone);
    steps', w' := taken + [Captures(Capture.DoScanExhaust)] + [MarkScanDone], Apply(exhausted, MarkScanDone);
  }

  const FIRST: Message := Message(RowOf(IntKey(1), 1), false)

  lemma FirstIsPickable()
    ensures Pickable([FIRST], [0]) && Mark([FIRST], [0]) == [FIRST.(acked := true)]
  {
  }

  lemma SeenOfOne(e: CDCEvent)
    requires e.operation == Read
    ensures Seen([Message(e, true)]) == e.chunkID
  {
    assert Events([Message(e, true)]) == [e];
    RowsOfOne(e);
  }

  lemma OneRowUnderWay(e: CDCEvent)
    requires e.operation == Read
    ensures Rows([e]) + Rows([]) == [e]
  {
    RowsOfOne(e);
  }

  lemma FirstAckedIsSettled(w: World)
    requires w.drained == [FIRST.(acked := true)] && w.output == [RowOf(IntKey(2), 2)] && w.scanOut == []
    ensures Settled(w)
  {
    SeenOfOne(RowOf(IntKey(1), 1));
    OneRowUnderWay(RowOf(IntKey(2), 2));
  }

  /** One row is drained and acknowledged while the other still waits: the streaming phase is saved. */
  lemma OneRowIsAcked(w: World)
    requires w.drained == [FIRST] && w.output == [RowOf(IntKey(2), 2)] && w.scanOut == []
    requires Running(w) && w.engine.snapshotScanDone
    ensures Pickable(w.drained, [0])
    ensures AfterSuccess(w, [0]).drained == [FIRST.(acked := true)]
    ensures AfterSuccess(w, [0]).engine.state.phase == Streaming
  {
    FirstIsPickable();
    PhaseTurnsExactly(w, [0]);
    FirstAckedIsSettled(AfterSuccess(w, [0]));
  }

  lemma FirstIsDrained(steps: seq<Step>, w: World) returns (steps': seq<Step>, w': World)
    requires Reached(steps, w) && Waiting(w)
    ensures Reached(steps', w') && w'.saved.phase == Streaming
    ensures w'.capture.config == CONFIG && w'.capture.db == w.capture.db && w'.earlier == {}
    ensures w'.drained == [FIRST.(acked := true)]
  {
    ReachMore(steps, w, Drain);
    var taken, drained := steps + [Drain], Apply(w, Drain);
    ReachedIsSafe(taken, drained);
    OneRowIsAcked(drained);
    ReachMore(taken, drained, Ack([0], false, true));
    steps', w' := taken + [Ack([0], false, true)], Apply(drained, Ack([0], false, true));
  }

  /** A process that thinks the snapshot is over and has read nothing itself. */
  ghost predicate Abandoned(w: World) {
    && w.capture.point == Capture.Off && w.capture.chunks == []
    && w.saved.phase == Streaming && w.engine.state.phase == Streaming
  }

  lemma AbandonedStays(w: World, step: Step)
    requires Abandoned(w) && Enabled(w, step)
    ensures Abandoned(Apply(w, step))
  {
    match step
    case Captures(s) =>
    case Ack(picks, failed, stored) => AcknowledgeRest(w.engine, Picked(w.drained, picks));
    case _ =>
  }

  lemma AbandonedInRun(config: Capture.Config, base: map<PK, Row>, ws: seq<World>, steps: seq<Step>, i: nat)
    requires IsRun(config, base, ws, steps) && i < |steps| && Abandoned(ws[i])
    ensures Abandoned(ws[i + 1])
  {
    AbandonedStays(ws[i], steps[i]);
  }

  /** It never scans again in the rest of the run, crashes included. */
  lemma AbandonedForever(config: Capture.Config, base: map<PK, Row>, ws: seq<World>, steps: seq<Step>, i: nat, j: nat)
    requires IsRun(config, base, ws, steps) && i <= j < |ws| && Abandoned(ws[i])
    ensures Abandoned(ws[j])
  {
    var abandoned := seq(|ws|, k requires 0 <= k < |ws| => Abandoned(ws[k]));
    forall k | i <= k < j && abandoned[k] ensures abandoned[k + 1] {
      AbandonedInRun(config, base, ws, steps, k);
    }
    Persists(abandoned, i, j);
  }

  /** A run after which a row that was in the table all along has been neither acknowledged nor will it ever be read. */
  ghost predicate LosesARow(ws: seq<World>, steps: seq<Step>) {
    && IsRun(CONFIG, Base(), ws, steps)
    && Abandoned(ws[|steps|]) && Stable("t", ws[|steps|].capture.db, IntKey(2))
    && IntKey(2) !in ws[|steps|].earlier + AckedKeys(ws[|steps|].drained)
  }

  /** The phase switch can lose rows. */
  lemma EarlySwitchLosesARow()
    ensures exists ws, steps :: LosesARow(ws, steps)
  {
    var ws, steps := LosingRun();
    assert LosesARow(ws, steps);
  }

  lemma FirstChunk() returns (steps: seq<Step>, w: World)
    ensures Reached(steps, w) && Scanning(w, IntKey(1), 2, [RowOf(IntKey(1), 1)])
  {
    FirstKey();
    steps, w := ScanRow([], Initial(CONFIG, Base()), Unset, 1, [], IntKey(1));
  }

  lemma WholeScan() returns (steps: seq<Step>, w: World)
    ensures Reached(steps, w) && Waiting(w)
  {
    steps, w := FirstChunk();
    SecondKey();
    steps, w := ScanRow(steps, w, IntKey(1), 2, [RowOf(IntKey(1), 1)], IntKey(2));
    assert [RowOf(IntKey(1), 1)] + [RowOf(IntKey(2), 2)] == [RowOf(IntKey(1), 1), RowOf(IntKey(2), 2)];
    steps, w := ScanEnds(steps, w);
  }

  lemma LosingRun() returns (ws: seq<World>, steps: seq<Step>)
    ensures LosesARow(ws, steps)
  {
    var w;
    steps, w := WholeScan();
    steps, w := FirstIsDrained(steps, w);
    ReachMore(steps, w, Crash(0));
    CrashForgets(w);
    steps, w := steps + [Crash(0)], Apply(w, Crash(0));
    ws := TakenIsRun(CONFIG, Base(), steps);
  }

  lemma ReachedIsSafe(steps: seq<Step>, w: World)
    requires Reached(steps, w)
    ensures Running(w)
  {
    var ws := TakenIsRun(CONFIG, Base(), steps);
    EveryRunIsSafe(CONFIG, Base(), ws, steps, |steps|);
  }

  lemma CrashForgets(w: World)
    requires w.saved.phase == Streaming && w.capture.db == Capture.Db(Base(), 0, {}, []) && w.capture.config == CONFIG
    requires w.earlier == {} && w.drained == [FIRST.(acked := true)]
    ensures Enabled(w, Crash(0)) && Abandoned(AfterCrash(w, 0))
    ensures Stable("t", AfterCrash(w, 0).capture.db, IntKey(2))
    ensures IntKey(2) !in AfterCrash(w, 0).earlier + AckedKeys(AfterCrash(w, 0).drained)
  {
  }

  // ---- transactions, one after the other ----

  /** The n-th transaction, of one change. */
  function Nth(n: nat, operation: Operation, k: PK): Capture.Txn {
    Capture.Txn(n, n + 1, [CDCEvent("", "t", operation, k, None, Some(30), n, 0, 0, 0, Unset)])
  }

  /** Its change, as delivered. */
  function NthChange(n: nat, operation: Operation, k: PK): CDCEvent {
    CDCEvent("", "t", operation, k, None, Some(30), n, n + 1, 0, 0, Unset)
  }

  lemma NthEvents(n: nat, operation: Operation, k: PK)
    ensures Capture.EventsOf(Nth(n, operation, k)) == [NthChange(n, operation, k)]
  {
  }

  /** All transactions so far have committed and been delivered. */
  ghost predicate UpToDate(c: Capture.State, log: seq<Capture.Txn>) {
    && c.config == CONFIG && c.from == 0 && c.delivered == |log| && c.db == Capture.Db(Base(), |log|, {}, log)
    && (log != [] ==> log[|log| - 1].lsn <= |log|)
  }

  /** One more begins, commits and is delivered. */
  function WithOneMore(c: Capture.State, log: seq<Capture.Txn>, txn: Capture.Txn): Capture.State {
    c.(db := Capture.Db(Base(), |log| + 1, {}, log + [txn]))
  }

  lemma TxnCommits(c: Capture.State, log: seq<Capture.Txn>, operation: Operation, k: PK)
    requires UpToDate(c, log) && operation != Read
    ensures var commit, begun := Capture.DoCommitTxn(Nth(|log|, operation, k)), Capture.BeginTxn(c);
            Capture.Enabled(begun, commit) &&
            Capture.Apply(begun, commit) == WithOneMore(c, log, Nth(|log|, operation, k))
  {
    assert {} + {|log|} - {|log|} == {};
  }

  lemma TxnArrives(steps: seq<Step>, w: World, log: seq<Capture.Txn>, operation: Operation, k: PK)
    returns (steps': seq<Step>, w': World)
    requires Reached(steps, w) && UpToDate(w.capture, log) && w.walOut == [] && operation != Read
    ensures Reached(steps', w')
    ensures w'.capture == Capture.Deliver(WithOneMore(w.capture, log, Nth(|log|, operation, k)))
    ensures w' == w.(capture := w'.capture,
                     walOut := Decided(w.capture.merger, [NthChange(|log|, operation, k)], Emit))
    ensures UpToDate(w'.capture, log + [Nth(|log|, operation, k)])
  {
    var txn := Nth(|log|, operation, k);
    var begin, commit := Captures(Capture.DoBeginTxn), Captures(Capture.DoCommitTxn(txn));
    ReachMore(steps, w, begin);
    TxnCommits(w.capture, log, operation, k);
    ReachMore(steps + [begin], w.(capture := Capture.BeginTxn(w.capture)), commit);
    steps', w' := TxnDelivered(steps + [begin] + [commit], w.(capture := WithOneMore(w.capture, log, txn)), log,
                               operation, k);
  }

  lemma TxnDelivered(steps: seq<Step>, w: World, log: seq<Capture.Txn>, operation: Operation, k: PK)
    returns (steps': seq<Step>, w': World)
    requires Reached(steps, w) && w.walOut == [] && w.capture.delivered == |log|
    requires w.capture.db.log == log + [Nth(|log|, operation, k)]
    ensures Reached(steps', w') && w'.capture == Capture.Deliver(w.capture)
    ensures w' == w.(capture := w'.capture,
                     walOut := Decided(w.capture.merger, [NthChange(|log|, operation, k)], Emit))
  {
    var deliver := Captures(Capture.DoDeliver);
    ReachMore(steps, w, deliver);
    NthEvents(|log|, operation, k);
    steps', w' := steps + [deliver], Apply(w, deliver);
    assert [] + w'.walOut == w'.walOut;
  }

  // ---- changes that are lost ----

  const SECOND: Message := Message(RowOf(IntKey(2), 2), false)

  lemma BothDrained(steps: seq<Step>, w: World) returns (steps': seq<Step>, w': World)
    requires Reached(steps, w) && w.output == [RowOf(IntKey(1), 1), RowOf(IntKey(2), 2)] && w.drained == []
    ensures Reached(steps', w') && w'.drained == [FIRST, SECOND] && w'.output == []
    ensures w' == w.(output := [], drained := [FIRST, SECOND], engine := w'.engine)
    ensures w'.engine.snapshotScanDone == w.engine.snapshotScanDone && w'.engine.state == w.engine.state
  {
    ReachMore(steps, w, Drain);
    var once := Apply(w, Drain);
    ReachMore(steps + [Drain], once, Drain);
    steps', w' := steps + [Drain] + [Drain], Apply(once, Drain);
  }

  lemma BothArePickable()
    ensures Pickable([FIRST, SECOND], [0, 1])
    ensures Mark([FIRST, SECOND], [0, 1]) == [FIRST.(acked := true), SECOND.(acked := true)]
  {
  }

  lemma AllAckedIsSettled(w: World)
    requires w.output == [] && w.scanOut == [] && w.drained == [FIRST.(acked := true), SECOND.(acked := true)]
    ensures Settled(w)
  {
    assert UnderWay(w) == [];
  }

  const BOTH_ACKED: seq<Message> := [FIRST.(acked := true), SECOND.(acked := true)]

  /** Acknowledging rows confirms no position. */
  lemma BothConfirmNothing(w: World)
    requires w.drained == [FIRST, SECOND]
    ensures Pickable(w.drained, [0, 1]) && Mark(w.drained, [0, 1]) == BOTH_ACKED
    ensures var e := Acknowledge(w.engine, Picked(w.drained, [0, 1]));
            e.snapshotScanDone == w.engine.snapshotScanDone && e.state.confirmedLSN == w.engine.state.confirmedLSN
  {
    BothArePickable();
    AcknowledgeRest(w.engine, Picked(w.drained, [0, 1]));
    MaxLSNBounds(Picked(w.drained, [0, 1]));
  }

  lemma BothAcked(steps: seq<Step>, w: World) returns (steps': seq<Step>, w': World)
    requires Reached(steps, w) && w.drained == [FIRST, SECOND] && w.output == [] && w.scanOut == []
    ensures Reached(steps', w')
    ensures w' == w.(drained := BOTH_ACKED, engine := w'.engine, saved := w'.engine.state)
    ensures w'.engine.snapshotScanDone == w.engine.snapshotScanDone && Idle(w'.engine)
    ensures w'.engine.state.confirmedLSN == w.engine.state.confirmedLSN
  {
    BothConfirmNothing(w);
    var ack := Ack([0, 1], false, true);
    ReachMore(steps, w, ack);
    steps', w' := steps + [ack], Apply(w, ack);
    assert Idle(w'.engine) by {
      ReachedIsIdle(steps', w');
    }
  }

  lemma ReachedIsIdle(steps: seq<Step>, w: World)
    requires Reached(steps, w) && w.output == [] && w.scanOut == []
    requires w.drained == [FIRST.(acked := true), SECOND.(acked := true)]
    ensures Idle(w.engine)
  {
    ReachedIsSafe(steps, w);
    AllAckedIsSettled(w);
    IdleExactlyWhenSettled(w);
  }

  /** Both rows are acknowledged, the wait ends and the snapshot is complete. */
  lemma Completes(steps: seq<Step>, w: World) returns (steps': seq<Step>, w': World)
    requires Reached(steps, w) && w.drained == [FIRST, SECOND] && w.output == [] && w.scanOut == []
    requires w.engine.snapshotScanDone && w.capture.point.Exhausted? && w.capture.completed.None?
    ensures Reached(steps', w') && w'.capture == Capture.Completed(w.capture)
    ensures w' == w.(capture := w'.capture, drained := BOTH_ACKED, engine := w'.engine, saved := w'.saved,
                     waitEnded := true, scanOut := w.capture.merger.pending)
    ensures w'.engine.state.confirmedLSN == w.engine.state.confirmedLSN
  {
    var taken, acked := BothAcked(steps, w);
    ReachMore(taken, acked, WaitEnds);
    var waited := Apply(acked, WaitEnds);
    var complete := Captures(Capture.DoComplete);
    ReachMore(taken + [WaitEnds], waited, complete);
    steps', w' := taken + [WaitEnds] + [complete], Apply(waited, complete);
  }

  /** A run after which a delivered change has no copy and is lost for good. */
  ghost predicate LosesAChange(ws: seq<World>, steps: seq<Step>, e: CDCEvent) {
    && IsRun(CONFIG, Base(), ws, steps)
    && Lost(ws[|steps|].capture, 0, e)
    && Copies(ws[|steps|].drained, ws[|steps|].output, ws[|steps|].walOut, ws[|steps|].scanOut, e) == 0
  }

  lemma LosesIt(steps: seq<Step>, w: World, e: CDCEvent) returns (ws: seq<World>)
    requires Reached(steps, w) && Lost(w.capture, 0, e)
    ensures LosesAChange(ws, steps, e) && ws[|steps|] == w
  {
    ws := TakenIsRun(CONFIG, Base(), steps);
    LostForGood(CONFIG, Base(), ws, steps, |steps|, |steps|, 0, e);
  }

  const INSERTED: CDCEvent := NthChange(0, Insert, IntKey(100))

  /** The scan has seen keys 1 and 2 and found nothing more; then key 100 is inserted, and delivered before the rows
      are acknowledged and the snapshot is complete. No snapshot shows it and nothing of it is ever sent. */
  lemma InsertAboveTheScanIsLost()
    ensures exists ws: seq<World>, steps: seq<Step> ::
              LosesAChange(ws, steps, INSERTED) && ws[|steps|].capture.completed.Some?
  {
    var steps, w := WholeScan();
    steps, w := TxnArrives(steps, w, [], Insert, IntKey(100));
    steps, w := BothDrained(steps, w);
    steps, w := Completes(steps, w);
    NthEvents(0, Insert, IntKey(100));
    WindowExtent(IntKey(2), 1, IntKey(100));
    assert LostAbove(w.capture, 0, INSERTED);
    var ws := LosesIt(steps, w, INSERTED);
  }

  const UPDATED: CDCEvent := NthChange(0, Update, IntKey(1))

  /** Row 1 is read, acknowledged and saved as scanned; the process starts again, resuming above it; then row 1 is
      updated, and delivered before the snapshot is complete. */
  lemma ChangeBelowTheResumedCursorIsLost()
    ensures exists ws: seq<World>, steps: seq<Step> ::
              LosesAChange(ws, steps, UPDATED) && ws[|steps|].capture.start == IntKey(1)
  {
    var steps, w := FirstIsScanned();
    steps, w := TxnArrives(steps, w, [], Update, IntKey(1));
    UpdateIsOutside(w.capture);
    var ws := LosesIt(steps, w, UPDATED);
  }

  /** The process has started again above row 1. */
  lemma FirstIsScanned() returns (steps: seq<Step>, w: World)
    ensures Reached(steps, w) && UpToDate(w.capture, []) && w.walOut == []
    ensures w.capture.start == IntKey(1) && w.capture.point == Capture.Ready && w.capture.completed.None?
  {
    steps, w := FirstChunk();
    steps, w := FirstIsSaved(steps, w);
    ReachMore(steps, w, Crash(0));
    steps, w := steps + [Crash(0)], AfterCrash(w, 0);
  }

  lemma UpdateIsOutside(c: Capture.State)
    requires UpToDate(c, [] + [Nth(0, Update, IntKey(1))])
    requires c.start == IntKey(1) && c.point == Capture.Ready && c.completed.None?
    ensures Lost(c, 0, UPDATED)
  {
    NthEvents(0, Update, IntKey(1));
    assert LostOutside(c, 0, UPDATED);
  }

  lemma FirstIsSaved(steps: seq<Step>, w: World) returns (steps': seq<Step>, w': World)
    requires Reached(steps, w) && Scanning(w, IntKey(1), 2, [RowOf(IntKey(1), 1)])
    ensures Reached(steps', w') && w'.saved.phase == Snapshotting && w'.saved.snapshotCursor == IntKey(1)
    ensures w'.capture == w.capture
  {
    ReachMore(steps, w, Drain);
    var drained := Apply(w, Drain);
    FirstIsPickable();
    var ack := Ack([0], false, true);
    ReachMore(steps + [Drain], drained, ack);
    steps', w' := steps + [Drain] + [ack], Apply(drained, ack);
    CursorAfterFirst(drained);
  }

  lemma CursorAfterFirst(w: World)
    requires w.drained == [FIRST] && w.engine ==
             Track(FreshEngine("t", CDCState(Snapshotting, 0, "", Unset)), FIRST.event)
    ensures Pickable(w.drained, [0])
    ensures var state := Acknowledge(w.engine, Picked(w.drained, [0])).state;
            state.phase == Snapshotting && state.snapshotCursor == IntKey(1)
  {
    assert Picked(w.drained, [0]) == [FIRST.event];
    AcknowledgeRest(w.engine, [FIRST.event]);
    Limits.OneChunkAcked(w.engine, FIRST.event);
  }
}
