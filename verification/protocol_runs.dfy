/** The connector's guarantees, stated about every state of every run: any interleaving of transactions,
    scanning, delivery, sends, draining, acknowledgements in any order and grouping, and crashes. */
module ProtocolRuns {
  import opened Keys
  import opened Wrappers
  import opened Cdc
  import opened MergerSpec
  import opened EngineSpec
  import opened Watermark
  import opened Reads
  import opened Delivery
  import opened Protocol
  import opened ProtocolInvariant
  import opened ProtocolTheorems
  import Capture
  import CaptureInvariant
  import CaptureFate
  import CaptureTheorems

  // ---- the watermark ----

  /** No row at or below the engine's cursor is unacknowledged; a completed chunk that still waits has a
      pending predecessor. */
  lemma WatermarkSafetyInEveryRun(config: Capture.Config, base: map<PK, Row>, ws: seq<World>, steps: seq<Step>, i: nat)
    requires IsRun(config, base, ws, steps) && i < |ws|
    ensures AckedUpTo(ws[i], ws[i].engine.state.snapshotCursor)
    ensures forall id <- ws[i].engine.completedChunks :: exists p <- ws[i].engine.pendingChunks :: p < id
  {
    EveryRunIsSafe(config, base, ws, steps, i);
    WatermarkSafety(ws[i]);
    WaitingWorld(ws[i]);
  }

  /** The saved cursor never moves back. */
  lemma SavedCursorStep(w: World, step: Step)
    requires Safe(w) && Enabled(w, step)
    ensures Rank(w.saved.snapshotCursor) <= Rank(Apply(w, step).saved.snapshotCursor)
  {
    match step
    case Ack(picks, failed, stored) =>
      AckState(w, picks, failed, stored);
      AckMovesCursorForward(w, picks);
    case Crash(from) =>
    case _ => OnlyAcksTouchTheState(w, step);
  }

  lemma SavedCursorInRun(config: Capture.Config, base: map<PK, Row>, ws: seq<World>, steps: seq<Step>, i: nat)
    requires IsRun(config, base, ws, steps) && i < |steps|
    ensures Rank(ws[i].saved.snapshotCursor) <= Rank(ws[i + 1].saved.snapshotCursor)
  {
    EveryRunIsSafe(config, base, ws, steps, i);
    SavedCursorStep(ws[i], steps[i]);
  }

  /** A restart resumes from the saved cursor. */
  lemma CrashResumes(w: World, step: Step)
    requires SavedOk(w) && Enabled(w, step) && step.Crash?
    ensures Apply(w, step).capture.start == w.saved.snapshotCursor
  {
    SavedTableKnown(w, step.from);
  }

  lemma SavedTableKnown(w: World, from: nat)
    requires SavedOk(w)
    ensures AfterCrash(w, from).capture.start == w.saved.snapshotCursor
  {
  }

  lemma CrashInRun(config: Capture.Config, base: map<PK, Row>, ws: seq<World>, steps: seq<Step>, i: nat)
    requires IsRun(config, base, ws, steps) && i < |steps| && steps[i].Crash?
    ensures ws[i + 1].capture.start == ws[i].saved.snapshotCursor
  {
    EveryRunIsSafe(config, base, ws, steps, i);
    CrashResumes(ws[i], steps[i]);
  }

  lemma {:induction false} StepwiseIsMonotone(values: seq<int>, i: nat, j: nat)
    requires i <= j < |values| && forall k :: 0 <= k < |values| - 1 ==> values[k] <= values[k + 1]
    ensures values[i] <= values[j]
    decreases j
  {
    if i < j {
      StepwiseIsMonotone(values, i, j - 1);
      assert values[j - 1] <= values[j - 1 + 1];
    }
  }

  function SavedCursors(ws: seq<World>): (r: seq<int>)
    ensures |r| == |ws| && forall i :: 0 <= i < |r| ==> r[i] == Rank(ws[i].saved.snapshotCursor)
  {
    seq(|ws|, i requires 0 <= i < |ws| => Rank(ws[i].saved.snapshotCursor))
  }

  lemma SavedCursorNeverMovesBack(config: Capture.Config, base: map<PK, Row>, ws: seq<World>, steps: seq<Step>, i: nat,
                                  j: nat)
    requires IsRun(config, base, ws, steps) && i <= j < |ws|
    ensures Rank(ws[i].saved.snapshotCursor) <= Rank(ws[j].saved.snapshotCursor)
  {
    var cursors := SavedCursors(ws);
    forall k | 0 <= k < |cursors| - 1 ensures cursors[k] <= cursors[k + 1] {
      SavedCursorInRun(config, base, ws, steps, k);
    }
    StepwiseIsMonotone(cursors, i, j);
  }

  // ---- rows in order, once each ----

  ghost predicate Rising(rows: seq<CDCEvent>) {
    forall p, q :: 0 <= p < q < |rows| ==> Rank(rows[p].pk) < Rank(rows[q].pk)
  }

  lemma RisingExtended(config: Capture.Config, chunks: seq<Capture.ChunkRecord>, c: Capture.ChunkRecord,
                       rows: seq<CDCEvent>)
    requires Rising(rows) && forall e <- rows :: Rank(e.pk) <= Rank(c.low)
    requires Capture.IsChunkRead(c.rows, c.image, c.low, config.chunkSize)
    ensures Rising(rows + ReadEvents(config, c, |chunks| + 1))
  {
  }

  lemma {:induction false} ReadsRise(config: Capture.Config, start: PK, chunks: seq<Capture.ChunkRecord>)
    requires CaptureInvariant.Tiling(config, start, chunks)
    requires forall j :: 0 <= j < |chunks| ==>
               Capture.IsChunkRead(chunks[j].rows, chunks[j].image, chunks[j].low, config.chunkSize)
    ensures Rising(AllReads(config, chunks))
    ensures forall e <- AllReads(config, chunks) :: Rank(start) < Rank(e.pk) <= Rank(Capture.LastHigh(start, chunks))
    decreases |chunks|
  {
    if chunks != [] {
      var n := |chunks| - 1;
      TilingShortened(config, start, chunks);
      ReadsRise(config, start, chunks[..n]);
      RisingExtended(config, chunks[..n], chunks[n], AllReads(config, chunks[..n]));
      forall e | e in ReadEvents(config, chunks[n], n + 1) ensures Rank(start) < Rank(e.pk) <= Rank(chunks[n].high) {
        CaptureTheorems.RowsAreTheRange(config, chunks[n], e.pk);
        CaptureTheorems.ChunkIsScanned(config, start, chunks, n);
      }
    }
  }

  lemma TilingShortened(config: Capture.Config, start: PK, chunks: seq<Capture.ChunkRecord>)
    requires CaptureInvariant.Tiling(config, start, chunks) && chunks != []
    ensures CaptureInvariant.Tiling(config, start, chunks[..|chunks| - 1])
    ensures chunks[|chunks| - 1].low == Capture.LastHigh(start, chunks[..|chunks| - 1])
    ensures Rank(chunks[|chunks| - 1].low) < Rank(chunks[|chunks| - 1].high)
  {
    var n := |chunks| - 1;
    assert CaptureInvariant.ChunkOk(config, chunks[n]) && CaptureInvariant.Linked(start, chunks, n);
    forall j | 0 <= j < n ensures CaptureInvariant.Linked(start, chunks[..n], j) {
      assert CaptureInvariant.Linked(start, chunks, j);
    }
  }

  /** The rows a process delivers come out once each, in ascending key order, above the cursor it resumed
      from; and no other rows come out of it. */
  lemma RowsComeOutInOrder(config: Capture.Config, base: map<PK, Row>, ws: seq<World>, steps: seq<Step>, i: nat)
    requires IsRun(config, base, ws, steps) && i < |ws|
    ensures Rising(Rows(Events(ws[i].drained)) + UnderWay(ws[i]))
    ensures forall e <- Rows(Events(ws[i].drained)) + UnderWay(ws[i]) :: Rank(ws[i].capture.start) < Rank(e.pk)
  {
    EveryRunIsSafe(config, base, ws, steps, i);
    ReadsRise(ws[i].capture.config, ws[i].capture.start, ws[i].capture.chunks);
  }

  // ---- crash and resume ----

  /** Crash-resume coverage. In every state, however many crashes came before: every stable row at or below
      the saved cursor has been acknowledged, now or in an earlier process; a process that has finished its
      scan has read every stable row that lies above the cursor it resumed from; so all stable rows are
      accounted for. */
  lemma CrashResumeCoverage(config: Capture.Config, base: map<PK, Row>, ws: seq<World>, steps: seq<Step>, i: nat, k: PK)
    requires IsRun(config, base, ws, steps) && i < |ws|
    requires Stable(ws[i].capture.config.table, ws[i].capture.db, k)
    ensures Rank(k) <= Rank(ws[i].saved.snapshotCursor) ==> k in ws[i].earlier + AckedKeys(ws[i].drained)
    ensures ws[i].capture.point.Exhausted? ==>
              k in ws[i].earlier || exists e :: e in AllReads(ws[i].capture.config, ws[i].capture.chunks) && e.pk == k
  {
    EveryRunIsSafe(config, base, ws, steps, i);
    var c := ws[i].capture;
    if c.point.Exhausted? && Rank(c.start) < Rank(k) {
      StableRowIsRead(c, k);
    }
  }

  /** A restart reads nothing at or below the saved cursor again. */
  lemma NothingIsReadTwice(config: Capture.Config, base: map<PK, Row>, ws: seq<World>, steps: seq<Step>, i: nat,
                           j: nat, e: CDCEvent)
    requires IsRun(config, base, ws, steps) && i < j < |ws|
    requires steps[i].Crash? && forall t :: i < t < j ==> !steps[t].Crash?
    requires e in Rows(Events(ws[j].drained)) + UnderWay(ws[j])
    ensures Rank(ws[i].saved.snapshotCursor) < Rank(e.pk)
  {
    RowsComeOutInOrder(config, base, ws, steps, j);
    StartIsTheSavedCursor(config, base, ws, steps, i, j);
  }

  lemma {:induction false} StartIsTheSavedCursor(config: Capture.Config, base: map<PK, Row>, ws: seq<World>,
                                                 steps: seq<Step>,
                                                 i: nat, j: nat)
    requires IsRun(config, base, ws, steps) && i < j < |ws|
    requires steps[i].Crash? && forall t :: i < t < j ==> !steps[t].Crash?
    ensures ws[j].capture.start == ws[i].saved.snapshotCursor
    decreases j
  {
    if i < j - 1 {
      StartIsTheSavedCursor(config, base, ws, steps, i, j - 1);
      StartStays(ws[j - 1], steps[j - 1]);
    } else {
      CrashInRun(config, base, ws, steps, i);
    }
  }

  lemma StartStays(w: World, step: Step)
    requires Enabled(w, step) && !step.Crash?
    ensures Apply(w, step).capture.start == w.capture.start
  {
  }

  // ---- the engine's own cursor ----

  /** No step of a running process moves the engine's cursor back, and every row that stays in the table and lies
      at or below it is acknowledged, now or by an earlier process: saving it loses nothing. */
  lemma CursorIsSafeToSave(config: Capture.Config, base: map<PK, Row>, ws: seq<World>, steps: seq<Step>, i: nat, k: PK)
    requires IsRun(config, base, ws, steps) && i < |steps|
    ensures !steps[i].Crash? ==> Rank(ws[i].engine.state.snapshotCursor) <= Rank(ws[i + 1].engine.state.snapshotCursor)
    ensures Stable(ws[i].capture.config.table, ws[i].capture.db, k) &&
            Rank(k) <= Rank(ws[i].engine.state.snapshotCursor) ==>
              k in ws[i].earlier + AckedKeys(ws[i].drained)
  {
    EveryRunIsSafe(config, base, ws, steps, i);
    if !steps[i].Crash? {
      CursorStepInRun(config, base, ws, steps, i);
    }
    EngineCursorCovers(ws[i]);
  }

  lemma CursorStepInRun(config: Capture.Config, base: map<PK, Row>, ws: seq<World>, steps: seq<Step>, i: nat)
    requires IsRun(config, base, ws, steps) && i < |steps| && !steps[i].Crash?
    ensures Rank(ws[i].engine.state.snapshotCursor) <= Rank(ws[i + 1].engine.state.snapshotCursor)
  {
    EveryRunIsSafe(config, base, ws, steps, i);
    CursorNeverMovesBack(ws[i], steps[i]);
  }

  /** The ranges scanned by a process tile what lies between the cursor it started from and the scanner's. */
  lemma RangesTileInEveryRun(config: Capture.Config, base: map<PK, Row>, ws: seq<World>, steps: seq<Step>, i: nat,
                             k: PK)
    requires IsRun(config, base, ws, steps) && i < |ws|
    ensures var c := ws[i].capture;
            && (Rank(c.start) < Rank(k) <= Rank(c.cursor) <==> exists j :: CaptureTheorems.HoldsKey(c.chunks, j, k))
            && (forall j, j' ::
                  CaptureTheorems.HoldsKey(c.chunks, j, k) && CaptureTheorems.HoldsKey(c.chunks, j', k) ==> j == j')
  {
    EveryRunIsSafe(config, base, ws, steps, i);
    CaptureTheorems.RangesTile(ws[i].capture, k);
  }
}
