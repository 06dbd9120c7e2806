/** Two more runs on which the connector falls short: a change that has been drained and not acknowledged is skipped by
    the next process, because a later one was acknowledged (pg/connector.go, the confirmed position and where Start
    resumes); and a change is overtaken by a later one of its key (pg/merger.go, the sends after the lock). */
module ProtocolStreaming {
  import opened Keys
  import opened Wrappers
  import opened Cdc
  import opened MergerSpec
  import opened EngineSpec
  import opened Delivery
  import opened Protocol
  import opened ProtocolInvariant
  import opened ProtocolTheorems
  import opened ProtocolChanges
  import opened ProtocolRestarts
  import opened ProtocolOrder
  import opened ProtocolLimits
  import Capture
  import CaptureFate
  import CaptureInvariant
  import CaptureTheorems

  // ---- transactions that are sent on ----

  lemma OneDecided(m: MergerState, e: CDCEvent, d: Decision)
    ensures Decided(m, [e], d) == if Route(m, e) == d then [e] else []
  {
    assert [e][..0] == [];
  }

  lemma PassesOn(m: MergerState, e: CDCEvent)
    requires m == MergerState(Streaming, [], None, [])
    ensures Decided(m, [e], Emit) == [e] && Receive(m, [e]) == m
  {
    OneDecided(m, e, Emit);
    OneDecided(m, e, Buffer);
  }

  lemma StreamingDelivers(c: Capture.State, log: seq<Capture.Txn>, txn: Capture.Txn, e: CDCEvent)
    requires UpToDate(c, log) && c.merger == MergerState(Streaming, [], None, []) && Capture.EventsOf(txn) == [e]
    ensures Decided(c.merger, [e], Emit) == [e]
    ensures var c' := Capture.Deliver(WithOneMore(c, log, txn));
            c'.merger == c.merger && c'.completed == c.completed
  {
    PassesOn(c.merger, e);
    assert (log + [txn])[|log|] == txn;
  }

  lemma HeadIsSent(steps: seq<Step>, w: World, e: CDCEvent)
    requires Reached(steps, w) && w.walOut == [e]
    ensures Reached(steps + [StreamerSends], w.(walOut := [], output := w.output + [e]))
  {
    ReachMore(steps, w, StreamerSends);
    assert [e][1..] == [];
  }

  /** While streaming it is sent on at once. */
  lemma TxnIsSent(steps: seq<Step>, w: World, log: seq<Capture.Txn>, operation: Operation, k: PK)
    returns (steps': seq<Step>, w': World)
    requires Reached(steps, w) && UpToDate(w.capture, log) && w.walOut == [] && operation != Read
    requires w.capture.merger == MergerState(Streaming, [], None, [])
    ensures Reached(steps', w') && w'.capture.merger == w.capture.merger
    ensures UpToDate(w'.capture, log + [Nth(|log|, operation, k)]) && w'.capture.completed == w.capture.completed
    ensures w' == w.(capture := w'.capture, output := w.output + [NthChange(|log|, operation, k)])
  {
    var e := NthChange(|log|, operation, k);
    var taken, arrived := TxnArrives(steps, w, log, operation, k);
    NthEvents(|log|, operation, k);
    StreamingDelivers(w.capture, log, Nth(|log|, operation, k), e);
    HeadIsSent(taken, arrived, e);
    steps', w' := taken + [StreamerSends], arrived.(walOut := [], output := w.output + [e]);
  }

  // ---- skipped ----

  const OLDER: CDCEvent := NthChange(0, Update, IntKey(1))
  const NEWER: CDCEvent := NthChange(1, Update, IntKey(2))

  /** The snapshot is complete and acknowledged; then two changes have been drained. */
  ghost predicate TwoDrained(w: World) {
    && UpToDate(w.capture, [Nth(0, Update, IntKey(1)), Nth(1, Update, IntKey(2))])
    && w.capture.completed == Some(0)
    && w.drained == BOTH_ACKED + [Message(OLDER, false), Message(NEWER, false)]
    && w.engine.state.confirmedLSN == 0 && w.slot == 0 && w.earlierChanges == {}
  }

  lemma TwoAreDrained() returns (steps: seq<Step>, w: World)
    ensures Reached(steps, w) && TwoDrained(w)
  {
    steps, w := WholeScan();
    steps, w := BothDrained(steps, w);
    steps, w := Completes(steps, w);
    steps, w := TxnIsSent(steps, w, [], Update, IntKey(1));
    steps, w := TxnIsSent(steps, w, [Nth(0, Update, IntKey(1))], Update, IntKey(2));
    assert [Nth(0, Update, IntKey(1))] + [Nth(1, Update, IntKey(2))] ==
           [Nth(0, Update, IntKey(1)), Nth(1, Update, IntKey(2))];
    ReachMore(steps, w, Drain);
    var once := AfterDrain(w);
    ReachMore(steps + [Drain], once, Drain);
    steps, w := steps + [Drain] + [Drain], AfterDrain(once);
  }

  lemma OnlyTheNewer(d: seq<Message>)
    requires d == BOTH_ACKED + [Message(OLDER, false), Message(NEWER, false)]
    ensures Pickable(d, [3]) && Picked(d, [3]) == [NEWER] && MaxLSN([NEWER]) == 2
    ensures Mark(d, [3])[2] == Message(OLDER, false)
    ensures OLDER !in AckedChanges(Mark(d, [3]))
  {
    assert [NEWER][..0] == [];
    forall m | m in Mark(d, [3]) && m.acked && m.event.operation != Read ensures m.event == NEWER {
      var p :| 0 <= p < 4 && Mark(d, [3])[p] == m;
    }
  }

  /** The newer of the two is acknowledged and saved; the older is not. */
  lemma NewerIsAcked(steps: seq<Step>, w: World) returns (steps': seq<Step>, w': World)
    requires Reached(steps, w) && TwoDrained(w)
    ensures Reached(steps', w') && w'.capture == w.capture && w'.slot == 0 && w'.earlierChanges == {}
    ensures w'.saved.confirmedLSN == 2 && Message(OLDER, false) in w'.drained && OLDER !in AckedChanges(w'.drained)
  {
    OnlyTheNewer(w.drained);
    var ack := Ack([3], false, true);
    ReachMore(steps, w, ack);
    steps', w' := steps + [ack], Apply(w, ack);
    AckState(w, [3], false, true);
    AcknowledgeRest(w.engine, [NEWER]);
    assert w'.drained[2] == Message(OLDER, false);
  }

  /** A run whose last step is a crash, after which a change that had been drained and not acknowledged is never
      delivered again. It is none of the changes that the merger loses. */
  ghost predicate SkipsAChange(ws: seq<World>, steps: seq<Step>, t: nat, e: CDCEvent) {
    && IsRun(CONFIG, Base(), ws, steps) && steps != [] && steps[|steps| - 1].Crash?
    && IsOf(ws[|steps|].capture, t, e) && Message(e, false) in ws[|steps| - 1].drained
    && !Lost(ws[|steps| - 1].capture, t, e) && e !in AckedEver(ws[|steps|])
    && ProtocolRestarts.Skipped(ws[|steps|], t)
  }

  /** The two changes commit one after the other, are delivered and drained; the newer is acknowledged, which saves its
      position; the process starts again behind the older. */
  lemma UnacknowledgedChangeIsSkipped()
    ensures exists ws: seq<World>, steps: seq<Step> :: SkipsAChange(ws, steps, 0, OLDER)
  {
    var before, w := TwoAreDrained();
    before, w := NewerIsAcked(before, w);
    assert !Lost(w.capture, 0, OLDER) by {
      ChunksEndedBefore(before, w);
    }
    ReachMore(before, w, Crash(1));
    var ws := TakenIsRun(CONFIG, Base(), before + [Crash(1)]);
    RunIsTaken(CONFIG, Base(), ws, before + [Crash(1)], |before|);
    assert (before + [Crash(1)])[..|before|] == before;
    StartsBehind(w);
    assert SkipsAChange(ws, before + [Crash(1)], 0, OLDER);
  }

  lemma StartsBehind(w: World)
    requires UpToDate(w.capture, [Nth(0, Update, IntKey(1)), Nth(1, Update, IntKey(2))])
    requires w.slot == 0 && w.earlierChanges == {} && w.saved.confirmedLSN == 2 && OLDER !in AckedChanges(w.drained)
    ensures Enabled(w, Crash(1))
    ensures var w' := AfterCrash(w, 1);
            IsOf(w'.capture, 0, OLDER) && OLDER !in AckedEver(w') && ProtocolRestarts.Skipped(w', 0)
  {
    NthEvents(0, Update, IntKey(1));
  }

  lemma ChunksEndedBefore(steps: seq<Step>, w: World)
    requires Reached(steps, w) && w.capture.completed == Some(0) && w.capture.config == CONFIG
    ensures !Lost(w.capture, 0, OLDER)
  {
    assert CaptureInvariant.Timed(w.capture) by {
      ReachedIsSafe(steps, w);
    }
    NotLostAfterwards(w.capture);
  }

  lemma NotLostAfterwards(c: Capture.State)
    requires CaptureInvariant.Timed(c) && c.completed == Some(0)
    ensures !Lost(c, 0, OLDER)
  {
    forall j ensures !LostIn(c, j, 0, OLDER) {
    }
    assert CaptureInvariant.PassedOn(c, 0);
  }

  // ---- overtaken ----

  const FIRST_INSERT: CDCEvent := NthChange(0, Insert, IntKey(3))
  const THEN_UPDATE: CDCEvent := NthChange(1, Update, IntKey(3))

  lemma NoRangeAbove(c: Capture.State)
    requires CaptureInvariant.Tiled(c) && CaptureInvariant.MergerKnown(c) && c.merger.phase == Snapshotting
    requires c.config == CONFIG && c.cursor == IntKey(2)
    ensures FindRange(c.merger.scannedRanges, "t", IntKey(3)).None?
  {
    assert c.chunks[..|c.chunks|] == c.chunks;
    CaptureTheorems.NoRangeOutside(c, |c.chunks|, FIRST_INSERT);
  }

  /** A change just above the finished scan is held back. */
  lemma HeldAbove(c: Capture.State)
    requires CaptureInvariant.Tiled(c) && CaptureInvariant.MergerKnown(c) && c.config == CONFIG
    requires c.point.Exhausted? && c.completed.None? && c.cursor == IntKey(2)
    ensures Route(c.merger, FIRST_INSERT) == Buffer
  {
    NoRangeAbove(c);
    assert InWindow(c.merger.currentChunk, "t", IntKey(3)) by {
      WindowExtent(IntKey(2), 1, IntKey(3));
    }
  }

  lemma InsertIsBuffered(c: Capture.State)
    requires UpToDate(c, []) && c.merger.pending == [] && Route(c.merger, FIRST_INSERT) == Buffer
    ensures Decided(c.merger, [FIRST_INSERT], Emit) == []
    ensures Capture.Deliver(WithOneMore(c, [], Nth(0, Insert, IntKey(3)))).merger.pending == [FIRST_INSERT]
  {
    OneDecided(c.merger, FIRST_INSERT, Emit);
    OneDecided(c.merger, FIRST_INSERT, Buffer);
    NthEvents(0, Insert, IntKey(3));
  }

  /** The scan is over and the insert is held back. */
  lemma InsertIsHeld() returns (steps: seq<Step>, w: World)
    ensures Reached(steps, w) && UpToDate(w.capture, [] + [Nth(0, Insert, IntKey(3))])
    ensures w.scanOut == [] && w.walOut == [] && w.output == [RowOf(IntKey(1), 1), RowOf(IntKey(2), 2)]
    ensures w.drained == [] && w.capture.merger.pending == [FIRST_INSERT]
    ensures w.engine.snapshotScanDone && w.capture.point.Exhausted? && w.capture.completed.None?
  {
    steps, w := WholeScan();
    assert Route(w.capture.merger, FIRST_INSERT) == Buffer by {
      ReachedIsSafe(steps, w);
      HeldAbove(w.capture);
    }
    InsertIsBuffered(w.capture);
    steps, w := TxnArrives(steps, w, [], Insert, IntKey(3));
  }

  /** When the snapshot is complete the scanner is about to send it. */
  lemma InsertWaits() returns (steps: seq<Step>, w: World)
    ensures Reached(steps, w) && UpToDate(w.capture, [] + [Nth(0, Insert, IntKey(3))])
    ensures w.scanOut == [FIRST_INSERT] && w.walOut == [] && w.output == []
    ensures w.capture.merger == MergerState(Streaming, [], None, [])
  {
    steps, w := InsertIsHeld();
    steps, w := BothDrained(steps, w);
    steps, w := Completes(steps, w);
  }

  /** A run after which two changes of a key stand in the channel the wrong way round. */
  ghost predicate TurnsRound(ws: seq<World>, steps: seq<Step>, older: CDCEvent, newer: CDCEvent) {
    && IsRun(CONFIG, Base(), ws, steps)
    && ws[|steps|].output == [newer, older] && ws[|steps|].scanOut == [] && ws[|steps|].walOut == []
    && SameKey(older, newer) && older.commitLSN < newer.commitLSN
    && !InLine(ws[|steps|], TableOf(older), older.pk)
  }

  /** The merger is told that the snapshot is complete and releases its lock, so that the insert is still to be sent; an
      update of the row commits, is delivered and sent; then the insert is sent. */
  lemma LaterChangeOvertakes()
    ensures exists ws: seq<World>, steps: seq<Step> :: TurnsRound(ws, steps, FIRST_INSERT, THEN_UPDATE)
  {
    var steps, w := InsertWaits();
    steps, w := TxnIsSent(steps, w, [] + [Nth(0, Insert, IntKey(3))], Update, IntKey(3));
    ReachMore(steps, w, ScannerSends);
    steps, w := steps + [ScannerSends], AfterScannerSends(w);
    var ws := TakenIsRun(CONFIG, Base(), steps);
    WrongWayRound(ws, steps);
    assert TurnsRound(ws, steps, FIRST_INSERT, THEN_UPDATE);
  }

  lemma NotAscending(a: seq<CDCEvent>, x: CDCEvent, y: CDCEvent, b: seq<CDCEvent>, c: seq<CDCEvent>)
    requires y.commitLSN < x.commitLSN
    ensures !Ascending(a + [x, y] + b + c)
  {
    var all := a + [x, y] + b + c;
    assert all[|a|] == x && all[|a| + 1] == y;
  }

  lemma WrongWayRound(ws: seq<World>, steps: seq<Step>)
    requires IsRun(CONFIG, Base(), ws, steps) && ws[|steps|].output == [THEN_UPDATE, FIRST_INSERT]
    ensures !InLine(ws[|steps|], "t", IntKey(3))
  {
    var w := ws[|steps|];
    ChangesOfMoved([THEN_UPDATE], FIRST_INSERT, "t", IntKey(3));
    ChangesOfOne(THEN_UPDATE, "t", IntKey(3));
    assert [THEN_UPDATE] + [FIRST_INSERT] == [THEN_UPDATE, FIRST_INSERT];
    NotAscending(ChangesOf(Events(w.drained), "t", IntKey(3)), THEN_UPDATE, FIRST_INSERT,
                 ChangesOf(w.scanOut, "t", IntKey(3)), ChangesOf(w.walOut, "t", IntKey(3)));
    DecidedInCommitOrder(CONFIG, Base(), ws, steps, |steps|, "t", IntKey(3));
  }
}
