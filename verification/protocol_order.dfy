/** The order in which changes of one key leave the process. The merger decides them in order, but releases its lock
    before it sends, and scanner and streamer send on their own (pg/merger.go, the sends of onEndChunk, onWALBatch
    and onSnapshotComplete). */
module ProtocolOrder {
  import opened Keys
  import opened Wrappers
  import opened Cdc
  import opened MergerSpec
  import opened Reads
  import opened Delivery
  import opened Protocol
  import opened ProtocolInvariant
  import opened ProtocolTheorems
  import opened ProtocolChanges
  import Capture
  import CaptureFate
  import CaptureInvariant
  import CaptureTheorems

  // ---- the changes of one key ----

  predicate OfThis(e: CDCEvent, table: string, pk: PK) {
    e.operation != Read && TableOf(e) == table && e.pk == pk
  }

  function ChangesOf(events: seq<CDCEvent>, table: string, pk: PK): seq<CDCEvent> {
    if events == [] then []
    else
      var last, rest := events[|events| - 1], ChangesOf(events[..|events| - 1], table, pk);
      if OfThis(last, table, pk) then rest + [last] else rest
  }

  lemma {:induction false} ChangesConcat(a: seq<CDCEvent>, b: seq<CDCEvent>, table: string, pk: PK)
    ensures ChangesOf(a + b, table, pk) == ChangesOf(a, table, pk) + ChangesOf(b, table, pk)
    decreases |b|
  {
    if b == [] {
      assert a + b == a;
    } else {
      var n := |b| - 1;
      assert (a + b)[..|a + b| - 1] == a + b[..n];
      ChangesConcat(a, b[..n], table, pk);
    }
  }

  lemma {:induction false} ChangesMembers(events: seq<CDCEvent>, table: string, pk: PK, e: CDCEvent)
    ensures e in ChangesOf(events, table, pk) <==> e in events && OfThis(e, table, pk)
    decreases |events|
  {
    if events != [] {
      var n := |events| - 1;
      ChangesMembers(events[..n], table, pk, e);
      assert events == events[..n] + [events[n]];
    }
  }

  lemma NoChanges(events: seq<CDCEvent>, table: string, pk: PK)
    requires forall e <- events :: !OfThis(e, table, pk)
    ensures ChangesOf(events, table, pk) == []
  {
    var changes := ChangesOf(events, table, pk);
    if changes != [] {
      ChangesMembers(events, table, pk, changes[0]);
    }
  }

  lemma ChangesOfOne(e: CDCEvent, table: string, pk: PK)
    ensures ChangesOf([e], table, pk) == if OfThis(e, table, pk) then [e] else []
  {
    assert [e][..0] == [];
  }

  lemma ChangesOfHead(events: seq<CDCEvent>, table: string, pk: PK)
    requires events != []
    ensures ChangesOf(events, table, pk) ==
            (if OfThis(events[0], table, pk) then [events[0]] else []) + ChangesOf(events[1..], table, pk)
  {
    assert events == [events[0]] + events[1..];
    ChangesConcat([events[0]], events[1..], table, pk);
    ChangesOfOne(events[0], table, pk);
  }

  lemma ChangesOfMoved(to: seq<CDCEvent>, e: CDCEvent, table: string, pk: PK)
    ensures ChangesOf(to + [e], table, pk) == ChangesOf(to, table, pk) + (if OfThis(e, table, pk) then [e] else [])
  {
    ChangesConcat(to, [e], table, pk);
    ChangesOfOne(e, table, pk);
  }

  // ---- where they are ----

  /** Drained, or in the channel. */
  function Out(w: World, table: string, pk: PK): seq<CDCEvent> {
    ChangesOf(Events(w.drained), table, pk) + ChangesOf(w.output, table, pk)
  }

  /** Drained, in the channel, then what the scanner and last what the streamer has still to send: in the order in
      which the merger decided to send them on. */
  ghost predicate InLine(w: World, table: string, pk: PK) {
    Out(w, table, pk) + ChangesOf(w.scanOut, table, pk) + ChangesOf(w.walOut, table, pk) ==
    ChangesOf(w.capture.emitted, table, pk)
  }

  /** The streamer sends a change of the key while the scanner has one still to send. */
  ghost predicate Overtakes(w: World, step: Step, table: string, pk: PK) {
    && step.StreamerSends? && w.walOut != [] && OfThis(w.walOut[0], table, pk)
    && ChangesOf(w.scanOut, table, pk) != []
  }

  // ---- what every step keeps ----

  /** What the streamer has still to send was decided last. */
  ghost predicate StreamerIsLast(w: World, table: string, pk: PK) {
    exists before :: ChangesOf(w.capture.emitted, table, pk) == before + ChangesOf(w.walOut, table, pk)
  }

  predicate SameKey(a: CDCEvent, b: CDCEvent) {
    TableOf(a) == TableOf(b) && a.pk == b.pk
  }

  /** Of a key that both have to send, the streamer has the later changes. */
  ghost predicate StreamerIsNewer(w: World) {
    forall x, y :: x in w.scanOut && y in w.walOut && x.operation != Read && SameKey(x, y) ==>
      x.commitLSN < y.commitLSN
  }

  /** What the order needs to know of the merger and its history. */
  ghost predicate Orderly(c: Capture.State) {
    && CaptureInvariant.MergerKnown(c) && CaptureFate.EmittedCovered(c) && CaptureFate.PendingOutside(c)
    && CaptureFate.Accounted(c) && CaptureFate.ArrivedOk(c) && CaptureInvariant.LogOk(c.db)
  }

  /** Nothing is held back of a key of which something has been sent on. */
  lemma SentKeysDoNotWait(c: Capture.State, x: CDCEvent, y: CDCEvent)
    requires CaptureFate.EmittedCovered(c) && CaptureFate.PendingOutside(c) && CaptureInvariant.MergerKnown(c)
    requires c.merger.phase == Snapshotting && x in c.merger.pending && y in c.emitted
    ensures !SameKey(x, y)
  {
    assert CaptureFate.CoveredAbove(c.merger, y) && CaptureFate.OutsideAll(c.config, c.chunks, x);
    var r := FindRange(c.merger.scannedRanges, TableOf(y), y.pk).value;
    var j :| 0 <= j < |c.merger.scannedRanges| && c.merger.scannedRanges[j] == r;
    assert r == Capture.RangeOf(c.config, c.chunks[j]);
  }

  lemma WaitingIsEmitted(w: World, e: CDCEvent)
    requires Conserved(w) && e.operation != Read && (e in w.walOut || e in w.scanOut)
    ensures e in w.capture.emitted
  {
    CountMembers(w.walOut, e);
    CountMembers(w.scanOut, e);
    CountMembers(w.capture.emitted, e);
  }

  lemma EmittedHasArrived(c: Capture.State, e: CDCEvent)
    requires CaptureFate.Accounted(c) && e in c.emitted
    ensures e in c.arrived
  {
    assert CaptureFate.Balanced(c, e);
    CountMembers(c.emitted, e);
    CountMembers(c.arrived, e);
  }

  /** What the end of a chunk sends on was held back until then. */
  lemma EndEmitsHeld(m: MergerState, chunkID: int, high: PK, xmin: nat)
    ensures forall e <- EndChunkEmits(m, chunkID, high, xmin) :: e in m.pending
  {
    forall e | e in EndChunkEmits(m, chunkID, high, xmin) ensures e in m.pending {
      var low := m.currentChunk.value.pkLow;
      XMinMembers(InChunk(m.pending, low, high), xmin, e);
      ChunkMembers(m.pending, low, high, e);
    }
  }

  /** Of each key, either the scanner adds nothing or the streamer has nothing. */
  lemma NotBoth(w: World, emits: seq<CDCEvent>, table: string, pk: PK)
    requires Orderly(w.capture) && Conserved(w) && w.capture.merger.phase == Snapshotting
    requires forall e <- emits :: e in w.capture.merger.pending
    ensures ChangesOf(emits, table, pk) == [] || ChangesOf(w.walOut, table, pk) == []
  {
    var a, b := ChangesOf(emits, table, pk), ChangesOf(w.walOut, table, pk);
    if a != [] && b != [] {
      ChangesMembers(emits, table, pk, a[0]);
      ChangesMembers(w.walOut, table, pk, b[0]);
      WaitingIsEmitted(w, b[0]);
      SentKeysDoNotWait(w.capture, a[0], b[0]);
    }
  }

  // ---- one step ----

  /** All that a step has to do with one key. */
  ghost predicate Moves(w: World, step: Step, w': World, table: string, pk: PK) {
    && (StreamerIsLast(w, table, pk) ==> StreamerIsLast(w', table, pk))
    && (StreamerIsLast(w, table, pk) ==>
          (InLine(w', table, pk) <==> InLine(w, table, pk) && !Overtakes(w, step, table, pk)))
  }

  lemma Cancel(a: seq<CDCEvent>, b: seq<CDCEvent>, tail: seq<CDCEvent>)
    ensures a + tail == b + tail <==> a == b
  {
    if a + tail == b + tail {
      assert |a| == |b|;
      assert a == (a + tail)[..|a|] && b == (b + tail)[..|b|];
    }
  }

  /** The scanner is given changes to send, and rows. */
  lemma ScannerIsGiven(w: World, step: Step, w': World, emits: seq<CDCEvent>, news: seq<CDCEvent>, table: string,
                       pk: PK)
    requires w'.capture.emitted == w.capture.emitted + emits && w'.scanOut == w.scanOut + emits + news
    requires w'.drained == w.drained && w'.output == w.output && w'.walOut == w.walOut && !step.StreamerSends?
    requires forall e <- news :: e.operation == Read
    requires ChangesOf(emits, table, pk) == [] || ChangesOf(w.walOut, table, pk) == []
    ensures Moves(w, step, w', table, pk)
  {
    ChangesConcat(w.capture.emitted, emits, table, pk);
    ChangesConcat(w.scanOut, emits, table, pk);
    ChangesConcat(w.scanOut + emits, news, table, pk);
    NoChanges(news, table, pk);
    var s, wal, emitted := ChangesOf(w.scanOut, table, pk), ChangesOf(w.walOut, table, pk),
        ChangesOf(w.capture.emitted, table, pk);
    var more := ChangesOf(emits, table, pk);
    assert ChangesOf(w'.scanOut, table, pk) == s + more;
    if more == [] {
      assert s + more == s && emitted + more == emitted;
    } else {
      assert Out(w, table, pk) + (s + more) + wal == (Out(w, table, pk) + s + wal) + more;
      Cancel(Out(w, table, pk) + s + wal, emitted, more);
      assert ChangesOf(w'.capture.emitted, table, pk) == (emitted + more) + wal;
    }
  }

  /** The streamer, with nothing left to send, is given changes. */
  lemma StreamerIsGiven(w: World, step: Step, w': World, emits: seq<CDCEvent>, table: string, pk: PK)
    requires w'.capture.emitted == w.capture.emitted + emits && w.walOut == [] && w'.walOut == emits
    requires w'.drained == w.drained && w'.output == w.output && w'.scanOut == w.scanOut && !step.StreamerSends?
    ensures Moves(w, step, w', table, pk)
  {
    ChangesConcat(w.capture.emitted, emits, table, pk);
    var a, emitted, more := Out(w, table, pk) + ChangesOf(w.scanOut, table, pk),
        ChangesOf(w.capture.emitted, table, pk),
                            ChangesOf(emits, table, pk);
    assert a + ChangesOf(w.walOut, table, pk) == a;
    Cancel(a, emitted, more);
  }

  /** The head of the scanner's line goes to the end of the channel. */
  lemma ScannerSendsInLine(w: World, table: string, pk: PK)
    requires w.scanOut != []
    ensures Moves(w, ScannerSends, AfterScannerSends(w), table, pk)
  {
    ChangesOfHead(w.scanOut, table, pk);
    ChangesOfMoved(w.output, w.scanOut[0], table, pk);
    var head := if OfThis(w.scanOut[0], table, pk) then [w.scanOut[0]] else [];
    Shifted(ChangesOf(Events(w.drained), table, pk), ChangesOf(w.output, table, pk), head,
            ChangesOf(w.scanOut[1..], table, pk));
  }

  lemma Shifted(a: seq<CDCEvent>, b: seq<CDCEvent>, head: seq<CDCEvent>, tail: seq<CDCEvent>)
    ensures a + (b + head) + tail == a + b + (head + tail)
  {
  }

  lemma DrainInLine(w: World, table: string, pk: PK)
    requires w.output != []
    ensures Moves(w, Drain, AfterDrain(w), table, pk)
  {
    EventsSnoc(w.drained, Message(w.output[0], false));
    ChangesOfHead(w.output, table, pk);
    ChangesOfMoved(Events(w.drained), w.output[0], table, pk);
    var head := if OfThis(w.output[0], table, pk) then [w.output[0]] else [];
    Regrouped(ChangesOf(Events(w.drained), table, pk), head, ChangesOf(w.output[1..], table, pk));
    assert Out(AfterDrain(w), table, pk) == Out(w, table, pk);
  }

  lemma Regrouped(a: seq<CDCEvent>, b: seq<CDCEvent>, c: seq<CDCEvent>)
    ensures (a + b) + c == a + (b + c)
  {
  }

  lemma OtherKeySent(w: World, table: string, pk: PK)
    requires w.walOut != [] && !OfThis(w.walOut[0], table, pk)
    ensures Moves(w, StreamerSends, AfterStreamerSends(w), table, pk)
  {
    ChangesOfHead(w.walOut, table, pk);
    ChangesOfMoved(w.output, w.walOut[0], table, pk);
    assert ChangesOf(w.walOut, table, pk) == ChangesOf(w.walOut[1..], table, pk);
    assert Out(AfterStreamerSends(w), table, pk) == Out(w, table, pk);
  }

  lemma ScannerHasNoneOf(w: World, table: string, pk: PK)
    requires w.walOut != [] && OfThis(w.walOut[0], table, pk) && StreamerIsNewer(w)
    ensures w.walOut[0] !in ChangesOf(w.scanOut, table, pk)
  {
    ChangesMembers(w.scanOut, table, pk, w.walOut[0]);
  }

  lemma ThisKeySent(w: World, table: string, pk: PK)
    requires w.walOut != [] && OfThis(w.walOut[0], table, pk)
    ensures ChangesOf(w.walOut, table, pk) == [w.walOut[0]] + ChangesOf(w.walOut[1..], table, pk)
    ensures Out(AfterStreamerSends(w), table, pk) == Out(w, table, pk) + [w.walOut[0]]
  {
    ChangesOfHead(w.walOut, table, pk);
    ChangesOfMoved(w.output, w.walOut[0], table, pk);
    Regrouped(ChangesOf(Events(w.drained), table, pk), ChangesOf(w.output, table, pk), [w.walOut[0]]);
  }

  /** The head of the streamer's line goes to the end of the channel, past what the scanner has still to send. */
  lemma StreamerSendsInLine(w: World, table: string, pk: PK)
    requires w.walOut != [] && StreamerIsNewer(w)
    ensures Moves(w, StreamerSends, AfterStreamerSends(w), table, pk)
  {
    if OfThis(w.walOut[0], table, pk) {
      ScannerHasNoneOf(w, table, pk);
      ThisKeySent(w, table, pk);
      HeadMoves(w, Out(w, table, pk), ChangesOf(w.scanOut, table, pk), w.walOut[0], ChangesOf(w.walOut[1..], table, pk),
                table, pk);
    } else {
      OtherKeySent(w, table, pk);
    }
  }

  lemma LastDiffers(a: seq<CDCEvent>, head: CDCEvent, s: seq<CDCEvent>, b: seq<CDCEvent>)
    requires s != [] && head !in s
    ensures a + [head] + s != b + [head]
  {
    var x, y := a + [head] + s, b + [head];
    assert x[|x| - 1] == s[|s| - 1] && y[|y| - 1] == head && s[|s| - 1] in s;
  }

  lemma HeadMoves(w: World, out: seq<CDCEvent>, s: seq<CDCEvent>, head: CDCEvent, tail: seq<CDCEvent>, table: string,
                  pk: PK)
    requires head !in s && ChangesOf(w.walOut, table, pk) == [head] + tail
    ensures var emitted := ChangesOf(w.capture.emitted, table, pk);
            && (StreamerIsLast(w, table, pk) ==> exists before :: emitted == before + tail)
            && (StreamerIsLast(w, table, pk) ==>
                  (out + [head] + s + tail == emitted <==> out + s + ([head] + tail) == emitted && s == []))
  {
    if StreamerIsLast(w, table, pk) {
      var before :| ChangesOf(w.capture.emitted, table, pk) == before + ChangesOf(w.walOut, table, pk);
      Regrouped(before, [head], tail);
      if s == [] {
        assert out + [head] + s == out + [head] && out + s == out;
        Regrouped(out, [head], tail);
      } else {
        Cancel(out + [head] + s, before + [head], tail);
        LastDiffers(out, head, s, before);
      }
    }
  }

  lemma NothingMoves(w: World, step: Step, w': World, table: string, pk: PK)
    requires w'.capture.emitted == w.capture.emitted && Events(w'.drained) == Events(w.drained)
    requires w'.output == w.output && w'.walOut == w.walOut && w'.scanOut == w.scanOut && !step.StreamerSends?
    ensures Moves(w, step, w', table, pk)
  {
  }

  lemma SnapshottingUntilComplete(c: Capture.State, s: Capture.Step)
    requires CaptureInvariant.MergerKnown(c) && Capture.Enabled(c, s) && (s.DoScanEnd? || s.DoComplete?)
    ensures c.merger.phase == Snapshotting
  {
  }

  lemma ScanEndMoves(w: World, rows: seq<PK>, table: string, pk: PK)
    requires Orderly(w.capture) && Conserved(w) && Enabled(w, Captures(Capture.DoScanEnd(rows)))
    ensures var step := Captures(Capture.DoScanEnd(rows)); Moves(w, step, Apply(w, step), table, pk)
  {
    var c, step := w.capture, Captures(Capture.DoScanEnd(rows));
    var emits := EndChunkEmits(c.merger, c.chunkID, rows[|rows| - 1], c.point.xmin);
    EndEmitsHeld(c.merger, c.chunkID, rows[|rows| - 1], c.point.xmin);
    SnapshottingUntilComplete(c, step.step);
    NotBoth(w, emits, table, pk);
    ScannerIsGiven(w, step, Apply(w, step), emits, ReadEvents(c.config, Capture.NewChunk(c, rows), c.chunkID), table,
                   pk);
  }

  lemma CompleteMoves(w: World, table: string, pk: PK)
    requires Orderly(w.capture) && Conserved(w) && Enabled(w, Captures(Capture.DoComplete))
    ensures Moves(w, Captures(Capture.DoComplete), Apply(w, Captures(Capture.DoComplete)), table, pk)
  {
    var step := Captures(Capture.DoComplete);
    SnapshottingUntilComplete(w.capture, step.step);
    NotBoth(w, w.capture.merger.pending, table, pk);
    assert Apply(w, step).scanOut == w.scanOut + w.capture.merger.pending + [];
    ScannerIsGiven(w, step, Apply(w, step), w.capture.merger.pending, [], table, pk);
  }

  lemma CaptureMoves(w: World, s: Capture.Step, table: string, pk: PK)
    requires Orderly(w.capture) && Conserved(w) && Enabled(w, Captures(s))
    ensures Moves(w, Captures(s), Apply(w, Captures(s)), table, pk)
  {
    match s
    case DoScanEnd(rows) => ScanEndMoves(w, rows, table, pk);
    case DoComplete => CompleteMoves(w, table, pk);
    case DoDeliver =>
      StreamerIsGiven(w, Captures(s), Apply(w, Captures(s)),
                      Decided(w.capture.merger, Capture.EventsOf(w.capture.db.log[w.capture.delivered]), Emit), table,
                        pk);
    case _ => NothingMoves(w, Captures(s), Apply(w, Captures(s)), table, pk);
  }

  lemma StepMoves(w: World, step: Step, table: string, pk: PK)
    requires Orderly(w.capture) && Conserved(w) && StreamerIsNewer(w) && Enabled(w, step) && !step.Crash?
    ensures Moves(w, step, Apply(w, step), table, pk)
  {
    if step.Captures? {
      CaptureMoves(w, step.step, table, pk);
    } else if step.ScannerSends? {
      ScannerSendsInLine(w, table, pk);
    } else if step.StreamerSends? {
      StreamerSendsInLine(w, table, pk);
    } else if step.Drain? {
      DrainInLine(w, table, pk);
    } else {
      SameEvents(w, step);
      NothingMoves(w, step, Apply(w, step), table, pk);
    }
  }

  lemma SameEvents(w: World, step: Step)
    requires Enabled(w, step) && (step.Ack? || step.MarkScanDone? || step.WaitEnds? || step.Report?)
    ensures Events(Apply(w, step).drained) == Events(w.drained)
  {
    if step.Ack? {
      assert Events(Mark(w.drained, step.picks)) == Events(w.drained);
    }
  }

  // ---- the streamer has the later changes ----

  lemma NewerDelivered(w: World, x: CDCEvent, y: CDCEvent)
    requires Orderly(w.capture) && Conserved(w) && w.capture.delivered < |w.capture.db.log|
    requires x in w.scanOut && x.operation != Read
    requires y in Decided(w.capture.merger, Capture.EventsOf(w.capture.db.log[w.capture.delivered]), Emit)
    ensures x.commitLSN < y.commitLSN
  {
    var c := w.capture;
    WaitingIsEmitted(w, x);
    EmittedHasArrived(c, x);
    DecidedMembers(c.merger, Capture.EventsOf(c.db.log[c.delivered]), Emit, y);
    assert CaptureFate.ArrivedOk(c) && CaptureInvariant.LogOk(c.db);
  }

  lemma NewerAfterDeliver(w: World)
    requires Orderly(w.capture) && Conserved(w) && Enabled(w, Captures(Capture.DoDeliver))
    ensures StreamerIsNewer(AfterCapture(w, Capture.DoDeliver))
  {
    var w' := AfterCapture(w, Capture.DoDeliver);
    forall x, y | x in w'.scanOut && y in w'.walOut && x.operation != Read && SameKey(x, y)
      ensures x.commitLSN < y.commitLSN
    {
      NewerDelivered(w, x, y);
    }
  }

  lemma NewerAfterMore(w: World, w': World, emits: seq<CDCEvent>, news: seq<CDCEvent>)
    requires Orderly(w.capture) && Conserved(w) && w.capture.merger.phase == Snapshotting
    requires StreamerIsNewer(w) && w'.walOut == w.walOut && w'.scanOut == w.scanOut + emits + news
    requires (forall e <- emits :: e in w.capture.merger.pending) && forall e <- news :: e.operation == Read
    requires forall e <- w.walOut :: e.operation != Read
    ensures StreamerIsNewer(w')
  {
    forall x, y | x in w'.scanOut && y in w'.walOut && x.operation != Read && SameKey(x, y)
      ensures x.commitLSN < y.commitLSN
    {
      if x in emits {
        WaitingIsEmitted(w, y);
        SentKeysDoNotWait(w.capture, x, y);
      }
    }
  }

  lemma NewerAfterScanEnd(w: World, rows: seq<PK>)
    requires Orderly(w.capture) && Conserved(w) && Flowing(w) && StreamerIsNewer(w)
    requires Enabled(w, Captures(Capture.DoScanEnd(rows)))
    ensures StreamerIsNewer(AfterCapture(w, Capture.DoScanEnd(rows)))
  {
    var c := w.capture;
    var emits := EndChunkEmits(c.merger, c.chunkID, rows[|rows| - 1], c.point.xmin);
    EndEmitsHeld(c.merger, c.chunkID, rows[|rows| - 1], c.point.xmin);
    SnapshottingUntilComplete(c, Capture.DoScanEnd(rows));
    NewerAfterMore(w, AfterCapture(w, Capture.DoScanEnd(rows)), emits,
                   ReadEvents(c.config, Capture.NewChunk(c, rows), c.chunkID));
  }

  lemma NewerAfterComplete(w: World)
    requires Orderly(w.capture) && Conserved(w) && Flowing(w) && StreamerIsNewer(w)
    requires Enabled(w, Captures(Capture.DoComplete))
    ensures StreamerIsNewer(AfterCapture(w, Capture.DoComplete))
  {
    SnapshottingUntilComplete(w.capture, Capture.DoComplete);
    assert AfterCapture(w, Capture.DoComplete).scanOut == w.scanOut + w.capture.merger.pending + [];
    NewerAfterMore(w, AfterCapture(w, Capture.DoComplete), w.capture.merger.pending, []);
  }

  lemma NewerKeptByCapture(w: World, s: Capture.Step)
    requires Orderly(w.capture) && Conserved(w) && Flowing(w) && StreamerIsNewer(w)
    requires Enabled(w, Captures(s))
    ensures StreamerIsNewer(AfterCapture(w, s))
  {
    match s
    case DoScanEnd(rows) => NewerAfterScanEnd(w, rows);
    case DoComplete => NewerAfterComplete(w);
    case DoDeliver => NewerAfterDeliver(w);
    case _ =>
  }

  lemma NewerKept(w: World, step: Step)
    requires Orderly(w.capture) && Conserved(w) && Flowing(w) && StreamerIsNewer(w) && Enabled(w, step)
    ensures StreamerIsNewer(Apply(w, step))
  {
    match step
    case Captures(s) => NewerKeptByCapture(w, s);
    case _ =>
  }

  // ---- over whole runs ----

  lemma OrderlyInEveryRun(config: Capture.Config, base: map<PK, Row>, ws: seq<World>, steps: seq<Step>, i: nat)
    requires IsRun(config, base, ws, steps) && i < |ws|
    ensures Orderly(ws[i].capture) && Conserved(ws[i]) && Flowing(ws[i])
  {
    assert Orderly(ws[i].capture) && Flowing(ws[i]) by {
      EveryRunIsSafe(config, base, ws, steps, i);
    }
    EveryRunConserves(config, base, ws, steps, i);
  }

  lemma NewerInRun(config: Capture.Config, base: map<PK, Row>, ws: seq<World>, steps: seq<Step>, i: nat)
    requires IsRun(config, base, ws, steps) && i < |steps| && StreamerIsNewer(ws[i])
    ensures StreamerIsNewer(ws[i + 1])
  {
    OrderlyInEveryRun(config, base, ws, steps, i);
    NewerKept(ws[i], steps[i]);
  }

  lemma NewerInEveryRun(config: Capture.Config, base: map<PK, Row>, ws: seq<World>, steps: seq<Step>, i: nat)
    requires IsRun(config, base, ws, steps) && i < |ws|
    ensures StreamerIsNewer(ws[i])
  {
    var newer := seq(|ws|, k requires 0 <= k < |ws| => StreamerIsNewer(ws[k]));
    forall k | 0 <= k < i && newer[k] ensures newer[k + 1] {
      NewerInRun(config, base, ws, steps, k);
    }
    Persists(newer, 0, i);
  }

  /** State s is the first of a process: nothing has been decided or sent yet. */
  lemma FreshProcess(config: Capture.Config, base: map<PK, Row>, ws: seq<World>, steps: seq<Step>, s: nat,
                     table: string, pk: PK)
    requires IsRun(config, base, ws, steps) && s < |ws| && (s > 0 ==> steps[s - 1].Crash?)
    ensures InLine(ws[s], table, pk) && StreamerIsLast(ws[s], table, pk)
  {
    if s > 0 {
      NothingSentYet(ws[s - 1], steps[s - 1]);
    }
    var w := ws[s];
    assert Events(w.drained) == [];
    assert ChangesOf(w.capture.emitted, table, pk) == [] + ChangesOf(w.walOut, table, pk);
  }

  lemma NothingSentYet(w: World, step: Step)
    requires Enabled(w, step) && step.Crash?
    ensures var w' := Apply(w, step);
            w'.drained == [] && w'.output == [] && w'.scanOut == [] && w'.walOut == [] && w'.capture.emitted == []
  {
  }

  /** What holds until it is broken, and never again. */
  lemma {:induction false} HoldsUntilBroken(holds: seq<bool>, breaks: seq<bool>, s: nat, i: nat)
    requires s <= i < |holds| && |breaks| == |holds| && holds[s]
    requires forall k :: s <= k < i ==> (holds[k + 1] <==> holds[k] && !breaks[k])
    ensures holds[i] <==> forall k :: s <= k < i ==> !breaks[k]
    decreases i
  {
    if s < i {
      HoldsUntilBroken(holds, breaks, s, i - 1);
      assert holds[i - 1 + 1] <==> holds[i - 1] && !breaks[i - 1];
    }
  }

  lemma StreamerStaysLast(config: Capture.Config, base: map<PK, Row>, ws: seq<World>, steps: seq<Step>, s: nat, i: nat,
                          table: string, pk: PK)
    requires IsRun(config, base, ws, steps) && s <= i < |ws| && (s > 0 ==> steps[s - 1].Crash?)
    requires forall j :: s <= j < i ==> !steps[j].Crash?
    ensures StreamerIsLast(ws[i], table, pk)
  {
    var last := seq(|ws|, k requires 0 <= k < |ws| => StreamerIsLast(ws[k], table, pk));
    assert last[s] by {
      FreshProcess(config, base, ws, steps, s, table, pk);
    }
    forall k | s <= k < i && last[k] ensures last[k + 1] {
      InLineStep(config, base, ws, steps, k, table, pk);
    }
    Persists(last, s, i);
  }

  /** The order of one key's changes, exactly, in every run. From the start s of a process on: what it has drained,
      followed by what is in the channel and what scanner and streamer have still to send, are the key's changes
      in the order they were decided, if and only if the streamer has never sent one of them while the scanner
      had one still to send. The scanner never overtakes the streamer. */
  lemma InLineExactly(config: Capture.Config, base: map<PK, Row>, ws: seq<World>, steps: seq<Step>, s: nat, i: nat,
                      table: string, pk: PK)
    requires IsRun(config, base, ws, steps) && s <= i < |ws| && (s > 0 ==> steps[s - 1].Crash?)
    requires forall j :: s <= j < i ==> !steps[j].Crash?
    ensures InLine(ws[i], table, pk) <==> forall j :: s <= j < i ==> !Overtakes(ws[j], steps[j], table, pk)
  {
    var holds := seq(|ws|, k requires 0 <= k < |ws| => InLine(ws[k], table, pk));
    var breaks := seq(|ws|, k requires 0 <= k < |ws| => k < |steps| && Overtakes(ws[k], steps[k], table, pk));
    assert holds[s] by {
      FreshProcess(config, base, ws, steps, s, table, pk);
    }
    forall k | s <= k < i ensures holds[k + 1] <==> holds[k] && !breaks[k] {
      StreamerStaysLast(config, base, ws, steps, s, k, table, pk);
      InLineStep(config, base, ws, steps, k, table, pk);
    }
    HoldsUntilBroken(holds, breaks, s, i);
    assert forall j :: s <= j < i ==> (breaks[j] <==> Overtakes(ws[j], steps[j], table, pk));
  }

  lemma InLineStep(config: Capture.Config, base: map<PK, Row>, ws: seq<World>, steps: seq<Step>, i: nat,
                   table: string, pk: PK)
    requires IsRun(config, base, ws, steps) && i < |steps| && !steps[i].Crash? && StreamerIsLast(ws[i], table, pk)
    ensures StreamerIsLast(ws[i + 1], table, pk)
    ensures InLine(ws[i + 1], table, pk) <==> InLine(ws[i], table, pk) && !Overtakes(ws[i], steps[i], table, pk)
  {
    assert Moves(ws[i], steps[i], ws[i + 1], table, pk) by {
      MovesInRun(config, base, ws, steps, i, table, pk);
    }
  }

  lemma MovesInRun(config: Capture.Config, base: map<PK, Row>, ws: seq<World>, steps: seq<Step>, i: nat,
                   table: string, pk: PK)
    requires IsRun(config, base, ws, steps) && i < |steps| && !steps[i].Crash?
    ensures Moves(ws[i], steps[i], ws[i + 1], table, pk)
  {
    OrderlyInEveryRun(config, base, ws, steps, i);
    NewerInEveryRun(config, base, ws, steps, i);
    StepMoves(ws[i], steps[i], table, pk);
  }

  // ---- decided in commit order ----

  ghost predicate Ascending(events: seq<CDCEvent>) {
    forall i, j :: 0 <= i < j < |events| ==> events[i].commitLSN <= events[j].commitLSN
  }

  /** The changes of the key sent on, and those held back, are each in commit order. */
  ghost predicate KeyAscends(c: Capture.State, table: string, pk: PK) {
    Ascending(ChangesOf(c.emitted, table, pk)) && Ascending(ChangesOf(c.merger.pending, table, pk))
  }

  lemma AscendingJoined(a: seq<CDCEvent>, b: seq<CDCEvent>, lsn: nat)
    requires Ascending(a) && (forall e <- a :: e.commitLSN <= lsn) && forall e <- b :: e.commitLSN == lsn
    ensures Ascending(a + b)
  {
  }

  lemma {:induction false} NotBelowAscends(events: seq<CDCEvent>, xmin: nat)
    requires Ascending(events)
    ensures Ascending(NotBelow(events, xmin))
    decreases |events|
  {
    if events != [] {
      var n := |events| - 1;
      NotBelowAscends(events[..n], xmin);
      forall e | e in NotBelow(events[..n], xmin) ensures e.commitLSN <= events[n].commitLSN {
        XMinMembers(events[..n], xmin, e);
      }
    }
  }

  lemma {:induction false} ChangesNotBelow(events: seq<CDCEvent>, xmin: nat, table: string, pk: PK)
    ensures ChangesOf(NotBelow(events, xmin), table, pk) == NotBelow(ChangesOf(events, table, pk), xmin)
    decreases |events|
  {
    if events != [] {
      var n := |events| - 1;
      ChangesNotBelow(events[..n], xmin, table, pk);
      ChangesOfMoved(NotBelow(events[..n], xmin), events[n], table, pk);
      var rest := ChangesOf(events[..n], table, pk);
      assert (rest + [events[n]])[..|rest|] == rest;
    }
  }

  lemma {:induction false} ChangesInside(events: seq<CDCEvent>, low: PK, high: PK, table: string, pk: PK)
    ensures ChangesOf(InChunk(events, low, high), table, pk) ==
            if Within(pk, low, high) then ChangesOf(events, table, pk) else []
    decreases |events|
  {
    if events != [] {
      var n := |events| - 1;
      ChangesInside(events[..n], low, high, table, pk);
      ChangesOfMoved(InChunk(events[..n], low, high), events[n], table, pk);
    }
  }

  lemma {:induction false} ChangesOutside(events: seq<CDCEvent>, low: PK, high: PK, table: string, pk: PK)
    ensures ChangesOf(Overflow(events, low, high), table, pk) ==
            if Within(pk, low, high) then [] else ChangesOf(events, table, pk)
    decreases |events|
  {
    if events != [] {
      var n := |events| - 1;
      ChangesOutside(events[..n], low, high, table, pk);
      ChangesOfMoved(Overflow(events[..n], low, high), events[n], table, pk);
    }
  }

  lemma ChangesInChunk(events: seq<CDCEvent>, low: PK, high: PK, table: string, pk: PK)
    ensures ChangesOf(InChunk(events, low, high), table, pk) ==
            if Within(pk, low, high) then ChangesOf(events, table, pk) else []
    ensures ChangesOf(Overflow(events, low, high), table, pk) ==
            if Within(pk, low, high) then [] else ChangesOf(events, table, pk)
  {
    ChangesInside(events, low, high, table, pk);
    ChangesOutside(events, low, high, table, pk);
  }

  lemma PendingHasArrived(c: Capture.State, e: CDCEvent)
    requires CaptureFate.Accounted(c) && e in c.merger.pending
    ensures e in c.arrived
  {
    assert CaptureFate.Balanced(c, e);
    CountMembers(c.merger.pending, e);
    CountMembers(c.arrived, e);
  }

  /** What a transaction adds to some events that arrived before it keeps them in commit order. */
  lemma DeliveredAscends(c: Capture.State, before: seq<CDCEvent>, d: Decision, table: string, pk: PK)
    requires CaptureFate.ArrivedOk(c) && CaptureInvariant.LogOk(c.db) && c.delivered < |c.db.log|
    requires Ascending(ChangesOf(before, table, pk)) && forall e <- before :: e in c.arrived
    ensures Ascending(ChangesOf(before + Decided(c.merger, Capture.EventsOf(c.db.log[c.delivered]), d), table, pk))
  {
    var txn := c.db.log[c.delivered];
    var more := Decided(c.merger, Capture.EventsOf(txn), d);
    ChangesConcat(before, more, table, pk);
    forall e | e in ChangesOf(before, table, pk) ensures e.commitLSN <= txn.lsn {
      ChangesMembers(before, table, pk, e);
    }
    forall e | e in ChangesOf(more, table, pk) ensures e.commitLSN == txn.lsn {
      ChangesMembers(more, table, pk, e);
      DecidedMembers(c.merger, Capture.EventsOf(txn), d, e);
    }
    AscendingJoined(ChangesOf(before, table, pk), ChangesOf(more, table, pk), txn.lsn);
  }

  lemma KeyAscendsDeliver(c: Capture.State, table: string, pk: PK)
    requires Orderly(c) && KeyAscends(c, table, pk) && c.delivered < |c.db.log|
    ensures KeyAscends(Capture.Deliver(c), table, pk)
  {
    forall e | e in c.emitted ensures e in c.arrived {
      EmittedHasArrived(c, e);
    }
    forall e | e in c.merger.pending ensures e in c.arrived {
      PendingHasArrived(c, e);
    }
    DeliveredAscends(c, c.emitted, Emit, table, pk);
    DeliveredAscends(c, c.merger.pending, Buffer, table, pk);
  }

  /** While snapshotting a key is never both sent on and held back. */
  lemma SentOrHeld(c: Capture.State, table: string, pk: PK)
    requires Orderly(c) && c.merger.phase == Snapshotting
    ensures ChangesOf(c.emitted, table, pk) == [] || ChangesOf(c.merger.pending, table, pk) == []
  {
    var a, b := ChangesOf(c.merger.pending, table, pk), ChangesOf(c.emitted, table, pk);
    if a != [] && b != [] {
      ChangesMembers(c.merger.pending, table, pk, a[0]);
      ChangesMembers(c.emitted, table, pk, b[0]);
      SentKeysDoNotWait(c, a[0], b[0]);
    }
  }

  lemma KeyAscendsAtEnd(emitted: seq<CDCEvent>, pending: seq<CDCEvent>, low: PK, high: PK, xmin: nat, table: string,
                        pk: PK)
    requires ChangesOf(emitted, table, pk) == [] || ChangesOf(pending, table, pk) == []
    requires Ascending(ChangesOf(emitted, table, pk)) && Ascending(ChangesOf(pending, table, pk))
    ensures Ascending(ChangesOf(emitted + NotBelow(InChunk(pending, low, high), xmin), table, pk))
    ensures Ascending(ChangesOf(Overflow(pending, low, high), table, pk))
  {
    var more := NotBelow(InChunk(pending, low, high), xmin);
    ChangesInChunk(pending, low, high, table, pk);
    ChangesNotBelow(InChunk(pending, low, high), xmin, table, pk);
    NotBelowAscends(ChangesOf(InChunk(pending, low, high), table, pk), xmin);
    ChangesConcat(emitted, more, table, pk);
    if ChangesOf(emitted, table, pk) == [] {
      assert ChangesOf(emitted + more, table, pk) == ChangesOf(more, table, pk);
    } else {
      assert ChangesOf(emitted + more, table, pk) == ChangesOf(emitted, table, pk);
    }
  }

  lemma KeyAscendsScanEnd(c: Capture.State, rows: seq<PK>, table: string, pk: PK)
    requires Orderly(c) && KeyAscends(c, table, pk) && Capture.Enabled(c, Capture.DoScanEnd(rows))
    ensures KeyAscends(Capture.ScanEnd(c, rows), table, pk)
  {
    SnapshottingUntilComplete(c, Capture.DoScanEnd(rows));
    SentOrHeld(c, table, pk);
    KeyAscendsAtEnd(c.emitted, c.merger.pending, c.cursor, rows[|rows| - 1], c.point.xmin, table, pk);
  }

  lemma KeyAscendsComplete(c: Capture.State, table: string, pk: PK)
    requires Orderly(c) && KeyAscends(c, table, pk) && Capture.Enabled(c, Capture.DoComplete)
    ensures KeyAscends(Capture.Completed(c), table, pk)
  {
    SnapshottingUntilComplete(c, Capture.DoComplete);
    SentOrHeld(c, table, pk);
    ChangesConcat(c.emitted, c.merger.pending, table, pk);
    var a, b := ChangesOf(c.emitted, table, pk), ChangesOf(c.merger.pending, table, pk);
    assert a + b == if a == [] then b else a;
  }

  lemma KeyAscendsKept(c: Capture.State, s: Capture.Step, table: string, pk: PK)
    requires Orderly(c) && KeyAscends(c, table, pk) && Capture.Enabled(c, s)
    ensures KeyAscends(Capture.Apply(c, s), table, pk)
  {
    match s
    case DoDeliver => KeyAscendsDeliver(c, table, pk);
    case DoScanEnd(rows) => KeyAscendsScanEnd(c, rows, table, pk);
    case DoComplete => KeyAscendsComplete(c, table, pk);
    case _ =>
  }

  lemma KeyAscendsStep(w: World, step: Step, table: string, pk: PK)
    requires Orderly(w.capture) && KeyAscends(w.capture, table, pk) && Enabled(w, step)
    ensures KeyAscends(Apply(w, step).capture, table, pk)
  {
    match step
    case Captures(s) =>
      CaptureSteps(w, s);
      KeyAscendsKept(w.capture, s, table, pk);
    case _ =>
  }

  lemma KeyAscendsInRun(config: Capture.Config, base: map<PK, Row>, ws: seq<World>, steps: seq<Step>, i: nat,
                        table: string, pk: PK)
    requires IsRun(config, base, ws, steps) && i < |steps| && KeyAscends(ws[i].capture, table, pk)
    ensures KeyAscends(ws[i + 1].capture, table, pk)
  {
    OrderlyInEveryRun(config, base, ws, steps, i);
    KeyAscendsStep(ws[i], steps[i], table, pk);
  }

  /** In every run the merger decides the changes of one key in commit order. */
  lemma DecidedInCommitOrder(config: Capture.Config, base: map<PK, Row>, ws: seq<World>, steps: seq<Step>, i: nat,
                             table: string, pk: PK)
    requires IsRun(config, base, ws, steps) && i < |ws|
    ensures Ascending(ChangesOf(ws[i].capture.emitted, table, pk))
  {
    var ascends := seq(|ws|, k requires 0 <= k < |ws| => KeyAscends(ws[k].capture, table, pk));
    forall k | 0 <= k < i && ascends[k] ensures ascends[k + 1] {
      KeyAscendsInRun(config, base, ws, steps, k, table, pk);
    }
    Persists(ascends, 0, i);
  }

  /** So a process whose streamer never overtakes gives the pipeline each key's changes in commit order. */
  lemma DrainedInCommitOrder(config: Capture.Config, base: map<PK, Row>, ws: seq<World>, steps: seq<Step>, s: nat,
                             i: nat, table: string, pk: PK)
    requires IsRun(config, base, ws, steps) && s <= i < |ws| && (s > 0 ==> steps[s - 1].Crash?)
    requires forall j :: s <= j < i ==> !steps[j].Crash? && !Overtakes(ws[j], steps[j], table, pk)
    ensures Ascending(ChangesOf(Events(ws[i].drained), table, pk))
  {
    InLineExactly(config, base, ws, steps, s, i, table, pk);
    DecidedInCommitOrder(config, base, ws, steps, i, table, pk);
    var drained := ChangesOf(Events(ws[i].drained), table, pk);
    assert drained == ChangesOf(ws[i].capture.emitted, table, pk)[..|drained|];
  }
}
