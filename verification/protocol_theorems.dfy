/** What the connector promises in every run: no row at or below a saved cursor is ever lost to a crash,
    none is read twice because of one, and the cursor never moves back. */
module ProtocolTheorems {
  import opened Keys
  import opened Wrappers
  import opened Cdc
  import opened EngineSpec
  import opened Watermark
  import opened Reads
  import opened Delivery
  import opened Protocol
  import opened ProtocolInvariant
  import Capture
  import CaptureInvariant
  import CaptureFate
  import CaptureTheorems

  // ---- rows that stay in the table ----

  /** The row is there from the beginning and no committed transaction deletes it. */
  ghost predicate Stable(table: string, db: Capture.Db, k: PK) {
    k in db.base && k != Unset &&
    forall t, e :: 0 <= t < |db.log| && e in Capture.EventsOf(db.log[t]) ==>
      !(TableOf(e) == table && e.pk == k && e.operation == Delete)
  }

  lemma {:induction false} ChangesKeep(table: string, rows: map<PK, Row>, events: seq<CDCEvent>, k: PK)
    requires k in rows && forall e <- events :: !(TableOf(e) == table && e.pk == k && e.operation == Delete)
    ensures k in Capture.ChangeAll(table, rows, events)
    decreases |events|
  {
    if events != [] {
      ChangesKeep(table, rows, events[..|events| - 1], k);
    }
  }

  lemma {:induction false} StableIsPresent(table: string, db: Capture.Db, n: nat, k: PK)
    requires Stable(table, db, k) && n <= |db.log|
    ensures k in Capture.TableAt(table, db, n)
  {
    if n > 0 {
      StableIsPresent(table, db, n - 1, k);
      ChangesKeep(table, Capture.TableAt(table, db, n - 1), Capture.EventsOf(db.log[n - 1]), k);
    }
  }

  /** A finished scan has passed every stable row. */
  ghost predicate ScanComplete(c: Capture.State) {
    c.point.Exhausted? ==> forall k :: Stable(c.config.table, c.db, k) ==> Rank(k) <= Rank(c.cursor)
  }

  lemma StableBefore(c: Capture.State, s: Capture.Step, k: PK)
    requires Capture.Enabled(c, s) && Stable(c.config.table, Capture.Apply(c, s).db, k)
    ensures Stable(c.config.table, c.db, k)
  {
    var db, db' := c.db, Capture.Apply(c, s).db;
    forall t, e | 0 <= t < |db.log| && e in Capture.EventsOf(db.log[t])
      ensures !(TableOf(e) == c.config.table && e.pk == k && e.operation == Delete)
    {
      assert db'.log[t] == db.log[t];
    }
  }

  lemma ScanCompleteKept(c: Capture.State, s: Capture.Step)
    requires ScanComplete(c) && Capture.Enabled(c, s)
    ensures ScanComplete(Capture.Apply(c, s))
  {
    var c' := Capture.Apply(c, s);
    if c'.point.Exhausted? {
      forall k | Stable(c.config.table, c'.db, k) ensures Rank(k) <= Rank(c'.cursor) {
        StableBefore(c, s, k);
        if s.DoScanExhaust? {
          StableIsPresent(c.config.table, c.db, c.point.visible, k);
        }
      }
    }
  }

  // ---- coverage ----

  /** Every stable row up to the cursor has been acknowledged, by this process or an earlier one. */
  ghost predicate Covered(w: World, cursor: PK) {
    forall k :: Stable(w.capture.config.table, w.capture.db, k) && Rank(k) <= Rank(cursor) ==>
      k in w.earlier + AckedKeys(w.drained)
  }

  ghost predicate Safe(w: World) {
    Running(w) && ScanComplete(w.capture) && SavedOk(w)
  }

  /** What is saved is behind the engine and covers. */
  ghost predicate SavedOk(w: World) {
    && w.engine.state.currentSnapshotTable == w.capture.config.table
    && Resumable(w.capture.config.table, w.saved)
    && Rank(w.saved.snapshotCursor) <= Rank(w.engine.state.snapshotCursor)
    && (forall k :: Stable(w.capture.config.table, w.capture.db, k) && Rank(k) <= Rank(w.capture.start) ==>
          k in w.earlier)
    && Covered(w, w.saved.snapshotCursor)
  }

  lemma {:induction false} RowIsRead(config: Capture.Config, chunks: seq<Capture.ChunkRecord>, j: nat, k: PK)
    requires j < |chunks| && k in chunks[j].rows
    ensures ReadEvent(config, chunks[j], j + 1, k) in AllReads(config, chunks)
    decreases |chunks|
  {
    var n := |chunks| - 1;
    if j < n {
      RowIsRead(config, chunks[..n], j, k);
    } else {
      var i :| 0 <= i < |chunks[j].rows| && chunks[j].rows[i] == k;
      assert ReadEvents(config, chunks[n], n + 1)[i] == ReadEvent(config, chunks[j], j + 1, k);
    }
  }

  lemma ShownInChunk(c: Capture.State, j: nat, k: PK)
    requires CaptureTheorems.Inv(c) && CaptureTheorems.HoldsKey(c.chunks, j, k) && Stable(c.config.table, c.db, k)
    ensures k in c.chunks[j].rows
  {
    CaptureTheorems.ChunkShowsItsSnapshot(c, j, k);
    StableIsPresent(c.config.table, c.db, c.chunks[j].visible, k);
  }

  /** A stable row above the first cursor and up to the scanner's has been read by this process. */
  lemma StableRowIsRead(c: Capture.State, k: PK)
    requires CaptureTheorems.Inv(c) && Stable(c.config.table, c.db, k)
    requires Rank(c.start) < Rank(k) <= Rank(c.cursor)
    ensures exists e :: e in AllReads(c.config, c.chunks) && e.pk == k
  {
    var j := CaptureTheorems.ChunkOfKey(c.config, c.start, c.chunks, |c.chunks|, k);
    assert k in c.chunks[j].rows by {
      ShownInChunk(c, j, k);
    }
    RowIsRead(c.config, c.chunks, j, k);
  }

  lemma CursorAscends(c: Capture.State, lead: nat, top: nat)
    requires CaptureInvariant.Tiled(c) && lead <= top <= |c.chunks|
    ensures Rank(CursorAt(c.start, Extents(c.chunks), lead)) <= Rank(CursorAt(c.start, Extents(c.chunks), top))
  {
    if lead < top {
      LowsAscend(c, lead, top - 1);
      assert CaptureInvariant.ChunkOk(c.config, c.chunks[top - 1]);
    }
  }

  lemma LeadWithinScan(c: Capture.State, lead: nat)
    requires CaptureInvariant.Tiled(c) && lead <= |c.chunks|
    ensures Rank(c.start) <= Rank(CursorAt(c.start, Extents(c.chunks), lead)) <= Rank(c.cursor)
  {
    CursorAscends(c, 0, lead);
    CursorAscends(c, lead, |c.chunks|);
  }

  lemma CursorWithinScan(w: World)
    requires Running(w)
    ensures Rank(w.capture.start) <= Rank(w.engine.state.snapshotCursor) <= Rank(w.capture.cursor)
  {
    LeadWithinScan(w.capture, Lead(Extents(w.capture.chunks), AcksOf(w.drained, |w.capture.chunks|), 0));
  }

  /** The engine's own cursor covers: a crash right after saving it loses nothing below it. */
  lemma EngineCursorCovers(w: World)
    requires Safe(w)
    ensures Covered(w, w.engine.state.snapshotCursor)
  {
    var c, cursor := w.capture, w.engine.state.snapshotCursor;
    forall k | Stable(c.config.table, c.db, k) && Rank(k) <= Rank(cursor)
      ensures k in w.earlier + AckedKeys(w.drained)
    {
      if Rank(c.start) < Rank(k) {
        CursorWithinScan(w);
        StableRowIsRead(c, k);
        var e :| e in AllReads(c.config, c.chunks) && e.pk == k;
        ReadRowIsAcked(w, e);
      }
    }
  }

  lemma RowUpToCursor(w: World, e: CDCEvent, cursor: PK)
    requires AckedUpTo(w, cursor) && Rank(e.pk) <= Rank(cursor)
    requires e in Rows(Events(w.drained)) + UnderWay(w)
    ensures e.pk in AckedKeys(w.drained)
  {
    RowsMembers(Events(w.drained), e);
    var p :| 0 <= p < |w.drained| && Events(w.drained)[p] == e;
    assert w.drained[p] in w.drained;
  }

  lemma ReadRowIsAcked(w: World, e: CDCEvent)
    requires Running(w) && e in AllReads(w.capture.config, w.capture.chunks)
    requires Rank(e.pk) <= Rank(w.engine.state.snapshotCursor)
    ensures e.pk in AckedKeys(w.drained)
  {
    assert AckedUpTo(w, w.engine.state.snapshotCursor) by {
      WatermarkSafety(w);
    }
    RowUpToCursor(w, e, w.engine.state.snapshotCursor);
  }

  lemma OnlyAcksTouchTheState(w: World, step: Step)
    requires Enabled(w, step) && !step.Ack? && !step.Crash?
    ensures Apply(w, step).engine.state == w.engine.state && Apply(w, step).saved == w.saved
  {
  }

  lemma AckState(w: World, picks: seq<nat>, failed: bool, stored: bool)
    requires Enabled(w, Ack(picks, failed, stored))
    ensures var w' := Apply(w, Ack(picks, failed, stored));
            && w'.engine == (if failed then w.engine else Acknowledge(w.engine, Picked(w.drained, picks)))
            && w'.saved == (if !failed && stored then w'.engine.state else w.saved)
  {
  }

  /** The engine's cursor never moves back while the process runs. */
  lemma CursorNeverMovesBack(w: World, step: Step)
    requires Running(w) && Enabled(w, step) && !step.Crash?
    ensures Rank(w.engine.state.snapshotCursor) <= Rank(Apply(w, step).engine.state.snapshotCursor)
  {
    match step
    case Ack(picks, failed, stored) =>
      AckState(w, picks, failed, stored);
      AckMovesCursorForward(w, picks);
    case _ => OnlyAcksTouchTheState(w, step);
  }

  lemma AckMovesCursorForward(w: World, picks: seq<nat>)
    requires Running(w) && Pickable(w.drained, picks)
    ensures Rank(w.engine.state.snapshotCursor) <=
            Rank(Acknowledge(w.engine, Picked(w.drained, picks)).state.snapshotCursor)
  {
    var c := w.capture;
    ChunksAreNotEmpty(c);
    EngineTracksAck(c.config, c.start, c.chunks, w.drained, UnderWay(w), w.engine, picks);
    CursorAscends(c, Lead(Extents(c.chunks), AcksOf(w.drained, |c.chunks|), 0),
                  Lead(Extents(c.chunks), AcksOf(Mark(w.drained, picks), |c.chunks|), 0));
  }

  // ---- the invariant over whole runs ----

  lemma SafeAtStart(config: Capture.Config, base: map<PK, Row>)
    ensures Safe(Initial(config, base))
  {
    RunningAtStart(config, Capture.Db(base, 0, {}, []), CDCState(Snapshotting, 0, "", Unset), 0, 0, {}, {});
    NothingSavedYet(config, base);
  }

  lemma NothingSavedYet(config: Capture.Config, base: map<PK, Row>)
    ensures SavedOk(Initial(config, base)) && ScanComplete(Initial(config, base).capture)
  {
  }

  lemma SavedOkCapture(w: World, s: Capture.Step)
    requires SavedOk(w) && Enabled(w, Captures(s))
    ensures SavedOk(AfterCapture(w, s))
  {
    var w' := AfterCapture(w, s);
    CaptureKeepsTheRest(w, s);
    forall k | Stable(w'.capture.config.table, w'.capture.db, k)
      ensures Stable(w.capture.config.table, w.capture.db, k)
    {
      StableBefore(w.capture, s, k);
    }
  }

  lemma CaptureKeepsTheRest(w: World, s: Capture.Step)
    requires Enabled(w, Captures(s))
    ensures var w' := AfterCapture(w, s);
            && w'.capture == Capture.Apply(w.capture, s)
            && w'.capture.config == w.capture.config && w'.capture.start == w.capture.start
            && w'.engine == w.engine && w'.saved == w.saved && w'.earlier == w.earlier && w'.drained == w.drained
  {
  }

  lemma SafeCapture(w: World, s: Capture.Step)
    requires Safe(w) && Enabled(w, Captures(s))
    ensures Safe(AfterCapture(w, s))
  {
    RunningCapture(w, s);
    ScanCompleteKept(w.capture, s);
    CaptureSteps(w, s);
    SavedOkCapture(w, s);
  }

  lemma AckedKeysGrow(d: seq<Message>, d': seq<Message>)
    requires |d| <= |d'|
    requires forall p :: 0 <= p < |d| ==> d'[p].event == d[p].event && (d[p].acked ==> d'[p].acked)
    ensures AckedKeys(d) <= AckedKeys(d')
  {
    forall k | k in AckedKeys(d) ensures k in AckedKeys(d') {
      var m :| m in d && m.acked && m.event.operation == Read && m.event.pk == k;
      var p :| 0 <= p < |d| && d[p] == m;
      assert d'[p] in d';
    }
  }

  /** More acknowledged rows and a cursor that has not moved back leave what is saved good. */
  lemma SavedOkUnsaved(w: World, d: seq<Message>, e: EngineState)
    requires SavedOk(w) && AckedKeys(w.drained) <= AckedKeys(d)
    requires e.state.currentSnapshotTable == w.engine.state.currentSnapshotTable
    requires Rank(w.engine.state.snapshotCursor) <= Rank(e.state.snapshotCursor)
    ensures SavedOk(w.(drained := d, engine := e))
  {
  }

  lemma SavedOkSuccess(w: World, picks: seq<nat>)
    requires SavedOk(w) && Pickable(w.drained, picks)
    requires Rank(w.engine.state.snapshotCursor) <=
             Rank(Acknowledge(w.engine, Picked(w.drained, picks)).state.snapshotCursor)
    ensures SavedOk(AfterSuccess(w, picks))
  {
    var events := Picked(w.drained, picks);
    AcknowledgeRest(w.engine, events);
    AckedKeysGrow(w.drained, Mark(w.drained, picks));
    SavedOkUnsaved(w, Mark(w.drained, picks), Acknowledge(w.engine, events));
  }

  lemma SafeSuccess(w: World, picks: seq<nat>)
    requires Safe(w) && Pickable(w.drained, picks)
    ensures Safe(AfterSuccess(w, picks))
  {
    RunningSuccess(w, picks);
    AckMovesCursorForward(w, picks);
    SavedOkSuccess(w, picks);
  }

  lemma SafeSave(w: World)
    requires Safe(w)
    ensures Safe(AfterSave(w))
  {
    EngineCursorCovers(w);
  }

  lemma SafeAck(w: World, picks: seq<nat>, failed: bool, stored: bool)
    requires Safe(w) && Pickable(w.drained, picks)
    ensures Safe(AfterAck(w, picks, failed, stored))
  {
    SafeSuccess(w, picks);
    SafeSave(AfterSuccess(w, picks));
  }

  lemma SavedOkDrain(w: World)
    requires SavedOk(w) && w.output != []
    ensures SavedOk(AfterDrain(w))
  {
    AckedKeysGrow(w.drained, w.drained + [Message(w.output[0], false)]);
  }

  lemma SafeDrain(w: World)
    requires Safe(w) && w.output != []
    ensures Safe(AfterDrain(w))
  {
    RunningDrain(w);
    SavedOkDrain(w);
  }

  lemma SafeCrash(w: World, from: nat)
    requires Safe(w) && from <= |w.capture.db.log|
    ensures Safe(AfterCrash(w, from))
  {
    RunningAtStart(w.capture.config, w.capture.db, w.saved, from, w.slot,
                   w.earlier + AckedKeys(w.drained), w.earlierChanges + AckedChanges(w.drained));
  }

  lemma SafeKept(w: World, step: Step)
    requires Safe(w) && Enabled(w, step)
    ensures Safe(Apply(w, step))
  {
    match step
    case Captures(s) => SafeCapture(w, s);
    case MarkScanDone => RunningMarked(w);
    case WaitEnds =>
    case ScannerSends => RunningScannerSends(w);
    case StreamerSends => RunningStreamerSends(w);
    case Drain => SafeDrain(w);
    case Ack(picks, failed, stored) => SafeAck(w, picks, failed, stored);
    case Report(position) =>
    case Crash(from) => SafeCrash(w, from);
  }

  lemma RunStepIsSafe(config: Capture.Config, base: map<PK, Row>, ws: seq<World>, steps: seq<Step>, i: nat)
    requires IsRun(config, base, ws, steps) && i < |steps| && Safe(ws[i])
    ensures Safe(ws[i + 1])
  {
    assert Enabled(ws[i], steps[i]) && ws[i + 1] == Apply(ws[i], steps[i]);
    SafeKept(ws[i], steps[i]);
  }

  lemma RunStartsSafe(config: Capture.Config, base: map<PK, Row>, ws: seq<World>, steps: seq<Step>)
    requires IsRun(config, base, ws, steps)
    ensures Safe(ws[0])
  {
    SafeAtStart(config, base);
  }

  lemma EveryRunIsSafe(config: Capture.Config, base: map<PK, Row>, ws: seq<World>, steps: seq<Step>, i: nat)
    requires IsRun(config, base, ws, steps) && i < |ws|
    ensures Safe(ws[i])
  {
    var safe := seq(|ws|, k requires 0 <= k < |ws| => Safe(ws[k]));
    assert safe[0] by {
      RunStartsSafe(config, base, ws, steps);
    }
    forall k | 0 <= k < i && safe[k] ensures safe[k + 1] {
      RunStepIsSafe(config, base, ws, steps, k);
    }
    Persists(safe, 0, i);
  }
}
