/** Changes on their way from the merger to the pipeline: none is lost or doubled between the two. */
module ProtocolChanges {
  import opened Keys
  import opened Wrappers
  import opened Cdc
  import opened MergerSpec
  import opened Reads
  import opened Delivery
  import opened Protocol
  import opened ProtocolInvariant
  import opened ProtocolTheorems
  import Capture
  import CaptureFate
  import CaptureInvariant
  import CaptureTheorems

  /** Where the copies of a change sent on by the merger are. */
  function Copies(drained: seq<Message>, output: seq<CDCEvent>, walOut: seq<CDCEvent>, scanOut: seq<CDCEvent>,
                  e: CDCEvent): nat {
    Count(Events(drained), e) + Count(output, e) + Count(walOut, e) + Count(scanOut, e)
  }

  ghost predicate Conserved(w: World) {
    forall e: CDCEvent :: e.operation != Read ==>
      Count(w.capture.emitted, e) == Copies(w.drained, w.output, w.walOut, w.scanOut, e)
  }

  lemma CountHead(events: seq<CDCEvent>, e: CDCEvent)
    requires events != []
    ensures Count(events, e) == Count([events[0]], e) + Count(events[1..], e)
  {
    assert events == [events[0]] + events[1..];
    CountConcat([events[0]], events[1..], e);
  }

  lemma ScannerSendsConserve(w: World)
    requires Conserved(w) && w.scanOut != []
    ensures Conserved(AfterScannerSends(w))
  {
    forall e: CDCEvent | e.operation != Read
      ensures Count(w.capture.emitted, e) == Copies(w.drained, w.output + [w.scanOut[0]], w.walOut, w.scanOut[1..], e)
    {
      CountHead(w.scanOut, e);
      CountConcat(w.output, [w.scanOut[0]], e);
    }
  }

  lemma StreamerSendsConserve(w: World)
    requires Conserved(w) && w.walOut != []
    ensures Conserved(AfterStreamerSends(w))
  {
    forall e: CDCEvent | e.operation != Read
      ensures Count(w.capture.emitted, e) == Copies(w.drained, w.output + [w.walOut[0]], w.walOut[1..], w.scanOut, e)
    {
      CountHead(w.walOut, e);
      CountConcat(w.output, [w.walOut[0]], e);
    }
  }

  lemma DrainConserves(w: World)
    requires Conserved(w) && w.output != []
    ensures Conserved(AfterDrain(w))
  {
    var m := Message(w.output[0], false);
    forall e: CDCEvent | e.operation != Read
      ensures Count(w.capture.emitted, e) == Copies(w.drained + [m], w.output[1..], w.walOut, w.scanOut, e)
    {
      CountHead(w.output, e);
      EventsSnoc(w.drained, m);
      CountConcat(Events(w.drained), [w.output[0]], e);
    }
  }

  lemma SuccessConserves(w: World, picks: seq<nat>)
    requires Conserved(w) && Pickable(w.drained, picks)
    ensures Conserved(AfterSuccess(w, picks))
  {
    assert Events(Mark(w.drained, picks)) == Events(w.drained);
  }

  /** The scanner has sent on some changes, and rows after them. */
  lemma ScannerConserves(w: World, w': World, emits: seq<CDCEvent>, news: seq<CDCEvent>)
    requires Conserved(w) && w'.capture.emitted == w.capture.emitted + emits && w'.scanOut == w.scanOut + emits + news
    requires w'.drained == w.drained && w'.output == w.output && w'.walOut == w.walOut
    requires forall e <- news :: e.operation == Read
    ensures Conserved(w')
  {
    forall e: CDCEvent | e.operation != Read
      ensures Count(w'.capture.emitted, e) == Copies(w'.drained, w'.output, w'.walOut, w'.scanOut, e)
    {
      CountConcat(w.capture.emitted, emits, e);
      CountConcat(w.scanOut, emits, e);
      CountConcat(w.scanOut + emits, news, e);
      CountMembers(news, e);
    }
  }

  lemma ScanEndConserves(w: World, rows: seq<PK>)
    requires Conserved(w) && Enabled(w, Captures(Capture.DoScanEnd(rows)))
    ensures Conserved(AfterCapture(w, Capture.DoScanEnd(rows)))
  {
    var c := w.capture;
    ScannerConserves(w, AfterCapture(w, Capture.DoScanEnd(rows)),
                     EndChunkEmits(c.merger, c.chunkID, rows[|rows| - 1], c.point.xmin),
                     ReadEvents(c.config, Capture.NewChunk(c, rows), c.chunkID));
  }

  lemma DeliverConserves(w: World)
    requires Conserved(w) && Enabled(w, Captures(Capture.DoDeliver))
    ensures Conserved(AfterCapture(w, Capture.DoDeliver))
  {
    var c := w.capture;
    var emits := Decided(c.merger, Capture.EventsOf(c.db.log[c.delivered]), Emit);
    forall e: CDCEvent | e.operation != Read
      ensures Count(c.emitted + emits, e) == Copies(w.drained, w.output, w.walOut + emits, w.scanOut, e)
    {
      CountConcat(c.emitted, emits, e);
      CountConcat(w.walOut, emits, e);
    }
  }

  lemma CompleteConserves(w: World)
    requires Conserved(w) && Enabled(w, Captures(Capture.DoComplete))
    ensures Conserved(AfterCapture(w, Capture.DoComplete))
  {
    var emits := w.capture.merger.pending;
    forall e: CDCEvent | e.operation != Read
      ensures Count(w.capture.emitted + emits, e) == Copies(w.drained, w.output, w.walOut, w.scanOut + emits, e)
    {
      CountConcat(w.capture.emitted, emits, e);
      CountConcat(w.scanOut, emits, e);
    }
  }

  lemma CaptureConserves(w: World, s: Capture.Step)
    requires Conserved(w) && Enabled(w, Captures(s))
    ensures Conserved(AfterCapture(w, s))
  {
    match s
    case DoScanEnd(rows) => ScanEndConserves(w, rows);
    case DoDeliver => DeliverConserves(w);
    case DoComplete => CompleteConserves(w);
    case _ =>
      var w' := AfterCapture(w, s);
      assert w'.capture.emitted == w.capture.emitted;
  }

  lemma ConservedKept(w: World, step: Step)
    requires Conserved(w) && Enabled(w, step)
    ensures Conserved(Apply(w, step))
  {
    match step
    case Captures(s) => CaptureConserves(w, s);
    case MarkScanDone =>
    case WaitEnds =>
    case ScannerSends => ScannerSendsConserve(w);
    case StreamerSends => StreamerSendsConserve(w);
    case Drain => DrainConserves(w);
    case Ack(picks, failed, stored) => SuccessConserves(w, picks);
    case Report(position) =>
    case Crash(from) =>
      assert Events([]) == [];
  }

  lemma {:induction false} EveryRunConserves(config: Capture.Config, base: map<PK, Row>, ws: seq<World>,
                                             steps: seq<Step>, i: nat)
    requires IsRun(config, base, ws, steps) && i < |ws|
    ensures Conserved(ws[i])
  {
    if i == 0 {
      assert Events([]) == [];
    } else {
      EveryRunConserves(config, base, ws, steps, i - 1);
      ConservedKept(ws[i - 1], steps[i - 1]);
    }
  }

  /** No lost change, from the log to the pipeline, in every run. Take a finished chunk and a change of a key in
      its range that its snapshot does not show and that the streamer has delivered. The copies of it
      drained, in the channel or about to be sent are exactly those delivered, unless the change
      came between the chunk's begin and end with a key beyond the window; then there is none. */
  lemma NoLostChangeInEveryRun(config: Capture.Config, base: map<PK, Row>, ws: seq<World>, steps: seq<Step>, i: nat,
                               j: nat, t: nat, e: CDCEvent)
    requires IsRun(config, base, ws, steps) && i < |ws|
    requires j < |ws[i].capture.chunks| && CaptureFate.Delivered(ws[i].capture, t, e)
    requires TableOf(e) == ws[i].capture.config.table
    requires Within(e.pk, ws[i].capture.chunks[j].low, ws[i].capture.chunks[j].high)
    requires ws[i].capture.chunks[j].visible <= t
    ensures Count(ws[i].capture.arrived, e) > 0
    ensures var w, c := ws[i], ws[i].capture.chunks[j];
            var lost := t < c.ended && !Within(e.pk, c.low, c.window);
            Copies(w.drained, w.output, w.walOut, w.scanOut, e) == if lost then 0 else Count(w.capture.arrived, e)
  {
    EveryRunIsSafe(config, base, ws, steps, i);
    EveryRunConserves(config, base, ws, steps, i);
    DeliveredIsAChange(ws[i].capture, t, e);
    CaptureTheorems.NoLostChange(ws[i].capture, j, t, e);
  }

  lemma DeliveredIsAChange(c: Capture.State, t: nat, e: CDCEvent)
    requires CaptureTheorems.Inv(c) && CaptureFate.Delivered(c, t, e)
    ensures e.operation != Read
  {
  }

  /** The merger's books, in every run: each change delivered has been sent on, is held back, or was dropped, and
      was so as often as it was delivered; what is held back lies outside every scanned range; and while
      snapshotting nothing below the xmin of the chunk that covers its key has been sent on. */
  lemma MergerAccountingInEveryRun(config: Capture.Config, base: map<PK, Row>, ws: seq<World>, steps: seq<Step>,
                                   i: nat, e: CDCEvent)
    requires IsRun(config, base, ws, steps) && i < |ws|
    ensures var c := ws[i].capture;
            && Count(c.arrived, e) == Count(c.emitted, e) + Count(c.merger.pending, e) + Count(c.discarded, e)
            && (e in c.merger.pending ==>
                  forall j :: 0 <= j < |c.chunks| ==> !Within(e.pk, c.chunks[j].low, c.chunks[j].high))
            && (c.merger.phase == Snapshotting ==>
                  forall j :: 0 <= j < |c.chunks| && TableOf(e) == c.config.table &&
                              Within(e.pk, c.chunks[j].low, c.chunks[j].high) && e.commitXID < c.chunks[j].xmin ==>
                    Count(c.emitted, e) == 0)
  {
    EveryRunIsSafe(config, base, ws, steps, i);
    Books(ws[i].capture, e);
  }

  lemma Books(c: Capture.State, e: CDCEvent)
    requires CaptureTheorems.Inv(c)
    ensures Count(c.arrived, e) == Count(c.emitted, e) + Count(c.merger.pending, e) + Count(c.discarded, e)
    ensures e in c.merger.pending ==> forall j :: 0 <= j < |c.chunks| ==>
              !Within(e.pk, c.chunks[j].low, c.chunks[j].high)
    ensures c.merger.phase == Snapshotting ==>
              forall j :: 0 <= j < |c.chunks| && TableOf(e) == c.config.table &&
                          Within(e.pk, c.chunks[j].low, c.chunks[j].high) && e.commitXID < c.chunks[j].xmin ==>
                Count(c.emitted, e) == 0
  {
    assert CaptureFate.Balanced(c, e);
    if c.merger.phase == Snapshotting {
      forall j | 0 <= j < |c.chunks| && TableOf(e) == c.config.table &&
                 Within(e.pk, c.chunks[j].low, c.chunks[j].high) && e.commitXID < c.chunks[j].xmin
        ensures Count(c.emitted, e) == 0
      {
        CaptureTheorems.NothingBelowXMinIsEmitted(c, j, e);
      }
    }
  }

  /** While a process is snapshotting, a change of a finished chunk's key is decided against that chunk's xmin and no
      other, and dropped otherwise. */
  lemma DecidedByItsChunkInEveryRun(config: Capture.Config, base: map<PK, Row>, ws: seq<World>, steps: seq<Step>,
                                    i: nat,
                                    j: nat, t: nat, e: CDCEvent)
    requires IsRun(config, base, ws, steps) && i < |ws| && ws[i].capture.merger.phase == Snapshotting
    requires j < |ws[i].capture.chunks| && CaptureFate.Delivered(ws[i].capture, t, e)
    requires TableOf(e) == ws[i].capture.config.table
    requires Within(e.pk, ws[i].capture.chunks[j].low, ws[i].capture.chunks[j].high)
    ensures t - ws[i].capture.from < |ws[i].capture.arrivals|
    ensures var c := ws[i].capture;
            && Count(c.emitted, e) ==
               (if !CaptureFate.Skipped(c, t, e) && c.chunks[j].xmin <= e.commitXID then Count(c.arrived, e) else 0)
            && Count(c.emitted, e) + Count(c.discarded, e) == Count(c.arrived, e)
  {
    EveryRunIsSafe(config, base, ws, steps, i);
    CaptureTheorems.DecidedByItsChunk(ws[i].capture, j, t, e);
  }

  /** The whole fate, in every run, of a change above the last scanned key. Take a process whose last read came back
      empty, and a delivered change of a key above its cursor that this read does not show. Once the snapshot is
      complete, its copies on the way to the pipeline are exactly those delivered, unless it arrived before the
      completion with a key outside (cursor, cursor.Next(chunkSize)]; then there is none. Until the
      completion there is none, and the merger holds back those that will be sent. */
  lemma ChangeAboveTheScanInEveryRun(config: Capture.Config, base: map<PK, Row>, ws: seq<World>, steps: seq<Step>,
                                     i: nat,
                                     t: nat, e: CDCEvent)
    requires IsRun(config, base, ws, steps) && i < |ws|
    requires ws[i].capture.point.Exhausted? && CaptureFate.Delivered(ws[i].capture, t, e)
    requires TableOf(e) == ws[i].capture.config.table && Rank(ws[i].capture.cursor) < Rank(e.pk)
    requires ws[i].capture.point.visible <= t
    ensures var w, c := ws[i], ws[i].capture;
            var early := c.completed.None? || t < c.completed.value;
            var lost := early && !Within(e.pk, c.cursor, Next(c.cursor, c.config.chunkSize));
            && Count(c.arrived, e) > 0
            && Copies(w.drained, w.output, w.walOut, w.scanOut, e) ==
               (if lost || c.completed.None? then 0 else Count(c.arrived, e))
            && Count(c.merger.pending, e) == (if lost || c.completed.Some? then 0 else Count(c.arrived, e))
  {
    EveryRunIsSafe(config, base, ws, steps, i);
    EveryRunConserves(config, base, ws, steps, i);
    DeliveredIsAChange(ws[i].capture, t, e);
    CaptureTheorems.ChangeAboveTheScan(ws[i].capture, t, e);
  }

  /** The whole fate, in every run, of a change of a key at or below the cursor the process resumed from, or of another
      table: its copies are exactly those delivered if the process does not scan or its snapshot was complete
      when the change arrived; otherwise there is none. */
  lemma ChangeOutsideTheScanInEveryRun(config: Capture.Config, base: map<PK, Row>, ws: seq<World>, steps: seq<Step>,
                                       i: nat,
                                       t: nat, e: CDCEvent)
    requires IsRun(config, base, ws, steps) && i < |ws| && CaptureFate.Delivered(ws[i].capture, t, e)
    requires ws[i].capture.point == Capture.Off || TableOf(e) != ws[i].capture.config.table ||
             Rank(e.pk) <= Rank(ws[i].capture.start)
    ensures var w, c := ws[i], ws[i].capture;
            var passedOn := c.point == Capture.Off || (c.completed.Some? && c.completed.value <= t);
            && Count(c.arrived, e) > 0 && Count(c.merger.pending, e) == 0
            && Copies(w.drained, w.output, w.walOut, w.scanOut, e) == if passedOn then Count(c.arrived, e) else 0
  {
    EveryRunIsSafe(config, base, ws, steps, i);
    EveryRunConserves(config, base, ws, steps, i);
    DeliveredIsAChange(ws[i].capture, t, e);
    CaptureTheorems.ChangeOutsideTheScan(ws[i].capture, t, e);
  }

  /** Changes of one key are settled in the order they arrived, whatever chunks begin and end in between. */
  lemma SameKeyInOrderInEveryRun(config: Capture.Config, base: map<PK, Row>, ws: seq<World>, steps: seq<Step>, i: nat,
                                 pk: PK)
    requires IsRun(config, base, ws, steps) && i < |ws|
    ensures var c := ws[i].capture;
            OfKey(c.settled, c.config.table, pk) + OfKey(c.merger.pending, c.config.table, pk) ==
              OfKey(c.taken, c.config.table, pk)
  {
    EveryRunIsSafe(config, base, ws, steps, i);
    InOrder(ws[i].capture, pk);
  }

  lemma InOrder(c: Capture.State, pk: PK)
    requires CaptureTheorems.Inv(c)
    ensures CaptureFate.KeyInOrder(c, pk)
  {
  }

  // ---- lost for good ----

  /** The three ways a process loses a delivered change: during a chunk that covers its key, from beyond the window;
      above the scan, likewise, before the snapshot is complete; and, before that, outside the scan. */
  ghost predicate LostInChunk(c: Capture.State, t: nat, e: CDCEvent) {
    exists j :: LostIn(c, j, t, e)
  }

  ghost predicate LostIn(c: Capture.State, j: int, t: nat, e: CDCEvent) {
    && 0 <= j < |c.chunks| && TableOf(e) == c.config.table
    && Within(e.pk, c.chunks[j].low, c.chunks[j].high) && !Within(e.pk, c.chunks[j].low, c.chunks[j].window)
    && c.chunks[j].visible <= t < c.chunks[j].ended
  }

  ghost predicate LostAbove(c: Capture.State, t: nat, e: CDCEvent) {
    && c.point.Exhausted? && c.point.visible <= t && !CaptureInvariant.PassedOn(c, t)
    && TableOf(e) == c.config.table && Rank(c.cursor) < Rank(e.pk)
    && !Within(e.pk, c.cursor, Next(c.cursor, c.config.chunkSize))
  }

  ghost predicate LostOutside(c: Capture.State, t: nat, e: CDCEvent) {
    !CaptureInvariant.PassedOn(c, t) && (TableOf(e) != c.config.table || Rank(e.pk) <= Rank(c.start))
  }

  ghost predicate Lost(c: Capture.State, t: nat, e: CDCEvent) {
    CaptureFate.Delivered(c, t, e) && (LostInChunk(c, t, e) || LostAbove(c, t, e) || LostOutside(c, t, e))
  }

  lemma LostHasNoCopies(w: World, t: nat, e: CDCEvent)
    requires CaptureTheorems.Inv(w.capture) && Conserved(w) && Lost(w.capture, t, e)
    ensures Copies(w.drained, w.output, w.walOut, w.scanOut, e) == 0
  {
    var c := w.capture;
    DeliveredIsAChange(c, t, e);
    if LostInChunk(c, t, e) {
      var j :| LostIn(c, j, t, e);
      CaptureTheorems.NoLostChange(c, j, t, e);
    } else if LostAbove(c, t, e) {
      CaptureTheorems.ChangeAboveTheScan(c, t, e);
    } else {
      CaptureTheorems.ChangeOutsideTheScan(c, t, e);
    }
  }

  lemma LostInStays(c: Capture.State, s: Capture.Step, j: int, t: nat, e: CDCEvent)
    requires LostIn(c, j, t, e) && Capture.Enabled(c, s)
    ensures LostIn(Capture.Apply(c, s), j, t, e)
  {
  }

  lemma LostStays(c: Capture.State, s: Capture.Step, t: nat, e: CDCEvent)
    requires Lost(c, t, e) && Capture.Enabled(c, s)
    ensures Lost(Capture.Apply(c, s), t, e)
  {
    assert CaptureFate.Delivered(Capture.Apply(c, s), t, e);
    if LostInChunk(c, t, e) {
      var j :| LostIn(c, j, t, e);
      LostInStays(c, s, j, t, e);
    }
  }

  lemma LostStep(w: World, step: Step, t: nat, e: CDCEvent)
    requires Enabled(w, step) && !step.Crash? && Lost(w.capture, t, e)
    ensures Lost(Apply(w, step).capture, t, e)
  {
    match step
    case Captures(s) => LostStays(w.capture, s, t, e);
    case _ =>
  }

  lemma LostInRun(config: Capture.Config, base: map<PK, Row>, ws: seq<World>, steps: seq<Step>, i: nat, t: nat,
                  e: CDCEvent)
    requires IsRun(config, base, ws, steps) && i < |steps| && !steps[i].Crash? && Lost(ws[i].capture, t, e)
    ensures Lost(ws[i + 1].capture, t, e)
  {
    LostStep(ws[i], steps[i], t, e);
  }

  lemma LostUntil(config: Capture.Config, base: map<PK, Row>, ws: seq<World>, steps: seq<Step>, i: nat, j: nat,
                  t: nat, e: CDCEvent)
    requires IsRun(config, base, ws, steps) && i <= j < |ws| && Lost(ws[i].capture, t, e)
    requires forall k :: i <= k < j ==> !steps[k].Crash?
    ensures Lost(ws[j].capture, t, e)
  {
    var lost := seq(|ws|, k requires 0 <= k < |ws| => Lost(ws[k].capture, t, e));
    forall k | i <= k < j && lost[k] ensures lost[k + 1] {
      LostInRun(config, base, ws, steps, k, t, e);
    }
    Persists(lost, i, j);
  }

  /** A change that meets one of the three conditions is never sent by its process, however long that runs. */
  lemma LostForGood(config: Capture.Config, base: map<PK, Row>, ws: seq<World>, steps: seq<Step>, i: nat, j: nat,
                    t: nat, e: CDCEvent)
    requires IsRun(config, base, ws, steps) && i <= j < |ws| && Lost(ws[i].capture, t, e)
    requires forall k :: i <= k < j ==> !steps[k].Crash?
    ensures Copies(ws[j].drained, ws[j].output, ws[j].walOut, ws[j].scanOut, e) == 0
  {
    LostUntil(config, base, ws, steps, i, j, t, e);
    EveryRunIsSafe(config, base, ws, steps, j);
    EveryRunConserves(config, base, ws, steps, j);
    LostHasNoCopies(ws[j], t, e);
  }
}
