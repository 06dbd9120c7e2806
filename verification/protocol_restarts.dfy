/** At-least-once delivery across restarts: which changes a restarted process is sent again, and which never
    (pg/connector.go, the position that Start resumes from; pg/wal.go). */
module ProtocolRestarts {
  import opened Keys
  import opened Wrappers
  import opened Cdc
  import opened MergerSpec
  import opened EngineSpec
  import opened Reads
  import opened Delivery
  import opened Protocol
  import opened ProtocolInvariant
  import opened ProtocolTheorems
  import opened ProtocolRuns
  import opened ProtocolAcks
  import opened ProtocolChanges
  import Capture
  import CaptureFate
  import CaptureInvariant
  import CaptureTheorems

  // ---- the position to resume from ----

  function LastLSN(log: seq<Capture.Txn>): nat {
    if log == [] then 0 else log[|log| - 1].lsn
  }

  /** The saved position is behind the engine's, and no position is beyond the log. */
  ghost predicate Placed(w: World) {
    && w.saved.confirmedLSN <= w.engine.state.confirmedLSN <= LastLSN(w.capture.db.log)
    && w.slot <= LastLSN(w.capture.db.log)
  }

  lemma ArrivedIsInLog(c: Capture.State, e: CDCEvent)
    requires CaptureInvariant.LogOk(c.db) && CaptureFate.ArrivedOk(c) && e in c.arrived
    ensures e.commitLSN <= LastLSN(c.db.log)
  {
  }

  /** A change that has been drained, or waits to be sent, has arrived. */
  lemma CopyHasArrived(w: World, e: CDCEvent)
    requires CaptureFate.Accounted(w.capture) && Conserved(w) && e.operation != Read
    requires Copies(w.drained, w.output, w.walOut, w.scanOut, e) > 0
    ensures e in w.capture.arrived
  {
    assert CaptureFate.Balanced(w.capture, e);
    CountMembers(w.capture.arrived, e);
  }

  lemma DrainedHasArrived(w: World, p: nat)
    requires CaptureFate.Accounted(w.capture) && Conserved(w)
    requires p < |w.drained| && w.drained[p].event.operation != Read
    ensures w.drained[p].event in w.capture.arrived
  {
    assert Events(w.drained)[p] == w.drained[p].event;
    CountMembers(Events(w.drained), w.drained[p].event);
    CopyHasArrived(w, w.drained[p].event);
  }

  lemma AckedPositionIsInLog(w: World, picks: seq<nat>)
    requires CaptureFate.Accounted(w.capture) && CaptureFate.ArrivedOk(w.capture) &&
             CaptureInvariant.LogOk(w.capture.db)
    requires Conserved(w) && Pickable(w.drained, picks)
    ensures MaxLSN(Picked(w.drained, picks)) <= LastLSN(w.capture.db.log)
  {
    var events := Picked(w.drained, picks);
    MaxLSNBounds(events);
    if MaxLSN(events) > 0 {
      var e :| e in events && e.operation != Read && e.commitLSN == MaxLSN(events);
      var i :| 0 <= i < |events| && events[i] == e;
      DrainedHasArrived(w, picks[i]);
      ArrivedIsInLog(w.capture, e);
    }
  }

  lemma LogGrows(w: World, step: Step)
    requires Enabled(w, step)
    ensures w.capture.db.log <= Apply(w, step).capture.db.log
  {
  }

  lemma LastGrows(c: Capture.State, s: Capture.Step)
    requires CaptureInvariant.LogOk(c.db) && Capture.Enabled(c, s)
    ensures LastLSN(c.db.log) <= LastLSN(Capture.Apply(c, s).db.log)
  {
  }

  lemma PlacedKept(w: World, step: Step)
    requires CaptureFate.Accounted(w.capture) && CaptureFate.ArrivedOk(w.capture) &&
             CaptureInvariant.LogOk(w.capture.db)
    requires Placed(w) && Conserved(w) && Enabled(w, step)
    ensures Placed(Apply(w, step))
  {
    match step
    case Captures(s) =>
      CaptureSteps(w, s);
      LastGrows(w.capture, s);
    case Ack(picks, failed, stored) =>
      AcknowledgeRest(w.engine, Picked(w.drained, picks));
      AckedPositionIsInLog(w, picks);
    case _ =>
  }

  lemma PlacedInRun(config: Capture.Config, base: map<PK, Row>, ws: seq<World>, steps: seq<Step>, i: nat)
    requires IsRun(config, base, ws, steps) && i < |steps| && Placed(ws[i])
    ensures Placed(ws[i + 1])
  {
    var c := ws[i].capture;
    assert CaptureFate.Accounted(c) && CaptureFate.ArrivedOk(c) && CaptureInvariant.LogOk(c.db) by {
      EveryRunIsSafe(config, base, ws, steps, i);
    }
    EveryRunConserves(config, base, ws, steps, i);
    PlacedKept(ws[i], steps[i]);
  }

  lemma PlacedInEveryRun(config: Capture.Config, base: map<PK, Row>, ws: seq<World>, steps: seq<Step>, i: nat)
    requires IsRun(config, base, ws, steps) && i < |ws|
    ensures Placed(ws[i])
  {
    var placed := seq(|ws|, k requires 0 <= k < |ws| => Placed(ws[k]));
    forall k | 0 <= k < i && placed[k] ensures placed[k + 1] {
      PlacedInRun(config, base, ws, steps, k);
    }
    Persists(placed, 0, i);
  }

  /** The position never moves back, and a transaction that commits later is never below it. */
  lemma PositionStep(w: World, step: Step)
    requires Placed(w) && Enabled(w, step)
    ensures ResumePosition(w) <= ResumePosition(Apply(w, step))
  {
    match step
    case Ack(picks, failed, stored) => AcknowledgeRest(w.engine, Picked(w.drained, picks));
    case _ =>
  }

  function Positions(ws: seq<World>): (r: seq<int>)
    ensures |r| == |ws| && forall i :: 0 <= i < |r| ==> r[i] == ResumePosition(ws[i])
  {
    seq(|ws|, i requires 0 <= i < |ws| => ResumePosition(ws[i]))
  }

  lemma PositionInRun(config: Capture.Config, base: map<PK, Row>, ws: seq<World>, steps: seq<Step>, i: nat)
    requires IsRun(config, base, ws, steps) && i < |steps|
    ensures ResumePosition(ws[i]) <= ResumePosition(ws[i + 1])
  {
    PlacedInEveryRun(config, base, ws, steps, i);
    PositionStep(ws[i], steps[i]);
  }

  /** In every run: the position to resume from never moves back, across crashes too, and is never beyond the log, so
      that no transaction yet to commit is below it. */
  lemma PositionNeverMovesBack(config: Capture.Config, base: map<PK, Row>, ws: seq<World>, steps: seq<Step>, i: nat,
                               j: nat)
    requires IsRun(config, base, ws, steps) && i <= j < |ws|
    ensures ResumePosition(ws[i]) <= ResumePosition(ws[j]) <= LastLSN(ws[j].capture.db.log)
  {
    var positions := Positions(ws);
    forall k | 0 <= k < |positions| - 1 ensures positions[k] <= positions[k + 1] {
      PositionInRun(config, base, ws, steps, k);
    }
    StepwiseIsMonotone(positions, i, j);
    PlacedInEveryRun(config, base, ws, steps, j);
  }

  /** As long as no save fails it is the saved position: what is reported to the database is no further. */
  lemma {:induction false} PositionIsTheSavedOne(config: Capture.Config, base: map<PK, Row>, ws: seq<World>,
                                                 steps: seq<Step>, i: nat)
    requires IsRun(config, base, ws, steps) && i < |ws|
    requires forall k :: 0 <= k < i && steps[k].Ack? && !steps[k].failed ==> steps[k].stored
    ensures ws[i].slot <= ws[i].saved.confirmedLSN == ws[i].engine.state.confirmedLSN
    ensures ResumePosition(ws[i]) == ws[i].saved.confirmedLSN
    decreases i
  {
    if i > 0 {
      PositionIsTheSavedOne(config, base, ws, steps, i - 1);
      SavedInStep(ws[i - 1], steps[i - 1]);
    }
  }

  lemma SavedInStep(w: World, step: Step)
    requires w.slot <= w.saved.confirmedLSN == w.engine.state.confirmedLSN && Enabled(w, step)
    requires step.Ack? && !step.failed ==> step.stored
    ensures var w' := Apply(w, step); w'.slot <= w'.saved.confirmedLSN == w'.engine.state.confirmedLSN
  {
    match step
    case Ack(picks, failed, stored) => AcknowledgeRest(w.engine, Picked(w.drained, picks));
    case _ =>
  }

  // ---- what a process is never sent ----

  /** What has arrived came from the transaction the process started at, or a later one. */
  ghost predicate ArrivedFrom(c: Capture.State) {
    forall e <- c.arrived :: c.from < |c.db.log| && c.db.log[c.from].lsn <= e.commitLSN
  }

  lemma ArrivedFromDeliver(c: Capture.State)
    requires ArrivedFrom(c) && CaptureInvariant.LogOk(c.db) && c.from <= c.delivered < |c.db.log|
    ensures ArrivedFrom(Capture.Deliver(c))
  {
    forall e | e in Capture.Deliver(c).arrived ensures c.db.log[c.from].lsn <= e.commitLSN {
      if e !in c.arrived {
        assert e in Capture.EventsOf(c.db.log[c.delivered]);
      }
    }
  }

  lemma ArrivedFromKept(c: Capture.State, s: Capture.Step)
    requires ArrivedFrom(c) && CaptureInvariant.LogOk(c.db) && c.from <= c.delivered && Capture.Enabled(c, s)
    ensures ArrivedFrom(Capture.Apply(c, s))
  {
    if s.DoDeliver? {
      ArrivedFromDeliver(c);
    } else {
      var c' := Capture.Apply(c, s);
      assert c'.arrived == c.arrived && c'.from == c.from && c.db.log <= c'.db.log;
    }
  }

  lemma ArrivedFromStep(w: World, step: Step)
    requires ArrivedFrom(w.capture) && CaptureInvariant.LogOk(w.capture.db) && w.capture.from <= w.capture.delivered
    requires Enabled(w, step)
    ensures ArrivedFrom(Apply(w, step).capture)
  {
    match step
    case Captures(s) =>
      CaptureSteps(w, s);
      ArrivedFromKept(w.capture, s);
    case _ =>
  }

  lemma ArrivedFromInRun(config: Capture.Config, base: map<PK, Row>, ws: seq<World>, steps: seq<Step>, i: nat)
    requires IsRun(config, base, ws, steps) && i < |steps| && ArrivedFrom(ws[i].capture)
    ensures ArrivedFrom(ws[i + 1].capture)
  {
    var c := ws[i].capture;
    assert CaptureInvariant.LogOk(c.db) && c.from <= c.delivered by {
      EveryRunIsSafe(config, base, ws, steps, i);
    }
    ArrivedFromStep(ws[i], steps[i]);
  }

  lemma ArrivedFromInEveryRun(config: Capture.Config, base: map<PK, Row>, ws: seq<World>, steps: seq<Step>, i: nat)
    requires IsRun(config, base, ws, steps) && i < |ws|
    ensures ArrivedFrom(ws[i].capture)
  {
    var known := seq(|ws|, k requires 0 <= k < |ws| => ArrivedFrom(ws[k].capture));
    forall k | 0 <= k < i && known[k] ensures known[k + 1] {
      ArrivedFromInRun(config, base, ws, steps, k);
    }
    Persists(known, 0, i);
  }

  /** The change belongs to transaction t of the log. */
  ghost predicate IsOf(c: Capture.State, t: nat, e: CDCEvent) {
    t < |c.db.log| && e in Capture.EventsOf(c.db.log[t])
  }

  lemma NeverArrived(c: Capture.State, t: nat, e: CDCEvent)
    requires ArrivedFrom(c) && CaptureInvariant.LogOk(c.db) && t < c.from && IsOf(c, t, e)
    ensures e !in c.arrived
  {
  }

  lemma NoCopyWithoutArrival(w: World, e: CDCEvent)
    requires CaptureFate.Accounted(w.capture) && Conserved(w) && e.operation != Read && e !in w.capture.arrived
    ensures Copies(w.drained, w.output, w.walOut, w.scanOut, e) == 0 && Count(w.capture.merger.pending, e) == 0
    ensures e !in AckedChanges(w.drained)
  {
    assert CaptureFate.Balanced(w.capture, e);
    CountMembers(w.capture.arrived, e);
    forall m | m in w.drained && m.event.operation != Read ensures m.event != e {
      var p :| 0 <= p < |w.drained| && w.drained[p] == m;
      DrainedHasArrived(w, p);
    }
  }

  /** In every run: of a transaction before the one it started at, a process has no copy of any change, drained, on
      the way or held back. */
  lemma NothingBeforeTheStart(config: Capture.Config, base: map<PK, Row>, ws: seq<World>, steps: seq<Step>, i: nat,
                              t: nat, e: CDCEvent)
    requires IsRun(config, base, ws, steps) && i < |ws| && t < ws[i].capture.from && IsOf(ws[i].capture, t, e)
    ensures var w := ws[i];
            && e !in w.capture.arrived && e !in AckedChanges(w.drained) && Count(w.capture.merger.pending, e) == 0
            && Copies(w.drained, w.output, w.walOut, w.scanOut, e) == 0
  {
    assert CaptureInvariant.LogOk(ws[i].capture.db) && CaptureFate.Accounted(ws[i].capture) by {
      EveryRunIsSafe(config, base, ws, steps, i);
    }
    EveryRunConserves(config, base, ws, steps, i);
    ArrivedFromInEveryRun(config, base, ws, steps, i);
    NeverArrived(ws[i].capture, t, e);
    NoCopyWithoutArrival(ws[i], e);
  }

  // ---- what is skipped is skipped for good ----

  /** A restart passes over exactly the transactions below the position. */
  lemma RestartSkipsExactly(config: Capture.Config, base: map<PK, Row>, ws: seq<World>, steps: seq<Step>, i: nat,
                            t: nat)
    requires IsRun(config, base, ws, steps) && i < |steps| && steps[i].Crash? && t < |ws[i].capture.db.log|
    ensures t < ws[i + 1].capture.from <==> ws[i].capture.db.log[t].lsn < ResumePosition(ws[i])
  {
    assert Enabled(ws[i], steps[i]) && ws[i + 1] == Apply(ws[i], steps[i]);
    CrashStarts(ws[i], steps[i]);
  }

  lemma CrashStarts(w: World, step: Step)
    requires Enabled(w, step) && step.Crash?
    ensures Apply(w, step).capture.from == step.from && ResumesAt(w.capture.db.log, ResumePosition(w), step.from)
  {
  }

  /** The transaction is below the position, and the running process started after it. */
  ghost predicate Skipped(w: World, t: nat) {
    && t < |w.capture.db.log| && w.capture.db.log[t].lsn < ResumePosition(w)
    && t < w.capture.from
  }

  lemma FromStays(w: World, step: Step)
    requires Enabled(w, step) && !step.Crash?
    ensures Apply(w, step).capture.from == w.capture.from
  {
  }

  lemma SkippedStays(w: World, step: Step, t: nat)
    requires Placed(w) && Skipped(w, t) && Enabled(w, step)
    ensures Skipped(Apply(w, step), t)
  {
    PositionStep(w, step);
    LogGrows(w, step);
    if step.Crash? {
      CrashStarts(w, step);
    } else {
      FromStays(w, step);
    }
  }

  lemma SkippedInRun(config: Capture.Config, base: map<PK, Row>, ws: seq<World>, steps: seq<Step>, i: nat, t: nat)
    requires IsRun(config, base, ws, steps) && i < |steps| && Skipped(ws[i], t)
    ensures Skipped(ws[i + 1], t)
  {
    PlacedInEveryRun(config, base, ws, steps, i);
    SkippedStays(ws[i], steps[i], t);
  }

  lemma SkippedThroughout(config: Capture.Config, base: map<PK, Row>, ws: seq<World>, steps: seq<Step>, i: nat,
                          j: nat, t: nat)
    requires IsRun(config, base, ws, steps) && i <= j < |ws| && Skipped(ws[i], t)
    ensures Skipped(ws[j], t)
  {
    var skipped := seq(|ws|, k requires 0 <= k < |ws| => Skipped(ws[k], t));
    forall k | i <= k < j && skipped[k] ensures skipped[k + 1] {
      SkippedInRun(config, base, ws, steps, k, t);
    }
    Persists(skipped, i, j);
  }

  /** The changes ever acknowledged, by this process or an earlier one. */
  function AckedEver(w: World): set<CDCEvent> {
    w.earlierChanges + AckedChanges(w.drained)
  }

  lemma LogUpTo(config: Capture.Config, base: map<PK, Row>, ws: seq<World>, steps: seq<Step>, i: nat, j: nat, t: nat)
    requires IsRun(config, base, ws, steps) && i <= j < |ws| && t < |ws[i].capture.db.log|
    ensures t < |ws[j].capture.db.log| && ws[j].capture.db.log[t] == ws[i].capture.db.log[t]
  {
    var txn := ws[i].capture.db.log[t];
    var same := seq(|ws|, k requires 0 <= k < |ws| => t < |ws[k].capture.db.log| && ws[k].capture.db.log[t] == txn);
    forall k | i <= k < j && same[k] ensures same[k + 1] {
      LogGrows(ws[k], steps[k]);
    }
    Persists(same, i, j);
  }

  lemma EarlierChangesStep(w: World, step: Step, e: CDCEvent)
    requires Enabled(w, step) && e !in AckedEver(w)
    ensures e !in Apply(w, step).earlierChanges
  {
  }

  lemma UnackedInRun(config: Capture.Config, base: map<PK, Row>, ws: seq<World>, steps: seq<Step>, i: nat, t: nat,
                     e: CDCEvent)
    requires IsRun(config, base, ws, steps) && i < |steps| && Skipped(ws[i + 1], t) && IsOf(ws[i + 1].capture, t, e)
    requires e !in AckedEver(ws[i])
    ensures e !in AckedEver(ws[i + 1])
  {
    EarlierChangesStep(ws[i], steps[i], e);
    NothingBeforeTheStart(config, base, ws, steps, i + 1, t, e);
  }

  /** In every run: once a restart has passed over a transaction no process has a copy of any of its changes again, and
      what was not acknowledged then never will be, however often the process restarts. */
  lemma SkippedForGood(config: Capture.Config, base: map<PK, Row>, ws: seq<World>, steps: seq<Step>, i: nat, j: nat,
                       t: nat, e: CDCEvent)
    requires IsRun(config, base, ws, steps) && i < j < |ws| && steps[i].Crash? && IsOf(ws[i].capture, t, e)
    requires ws[i].capture.db.log[t].lsn < ResumePosition(ws[i])
    ensures t < ws[j].capture.from
    ensures Copies(ws[j].drained, ws[j].output, ws[j].walOut, ws[j].scanOut, e) == 0
    ensures e in AckedEver(ws[j]) <==> e in AckedEver(ws[i])
  {
    assert Skipped(ws[i + 1], t) by {
      RestartSkipsExactly(config, base, ws, steps, i, t);
      LogGrows(ws[i], steps[i]);
      PositionInRun(config, base, ws, steps, i);
    }
    SkippedThroughout(config, base, ws, steps, i + 1, j, t);
    LogUpTo(config, base, ws, steps, i, j, t);
    NothingBeforeTheStart(config, base, ws, steps, j, t, e);
    if e in AckedEver(ws[i]) {
      AckedForGood(config, base, ws, steps, i, j, e);
    } else {
      UnackedForGood(config, base, ws, steps, i, j, t, e);
    }
  }

  lemma UnackedForGood(config: Capture.Config, base: map<PK, Row>, ws: seq<World>, steps: seq<Step>, i: nat, j: nat,
                       t: nat, e: CDCEvent)
    requires IsRun(config, base, ws, steps) && i < j < |ws| && IsOf(ws[i].capture, t, e) && Skipped(ws[i + 1], t)
    requires e !in AckedEver(ws[i])
    ensures e !in AckedEver(ws[j])
  {
    var unacked := seq(|ws|, k requires 0 <= k < |ws| => e !in AckedEver(ws[k]));
    forall k | i <= k < j && unacked[k] ensures unacked[k + 1] {
      SkippedThroughout(config, base, ws, steps, i + 1, k + 1, t);
      LogUpTo(config, base, ws, steps, i, k + 1, t);
      UnackedInRun(config, base, ws, steps, k, t, e);
    }
    Persists(unacked, i, j);
  }

  lemma AckedChangesGrow(d: seq<Message>, d': seq<Message>)
    requires |d| <= |d'|
    requires forall p :: 0 <= p < |d| ==> d'[p].event == d[p].event && (d[p].acked ==> d'[p].acked)
    ensures AckedChanges(d) <= AckedChanges(d')
  {
    forall e | e in AckedChanges(d) ensures e in AckedChanges(d') {
      var m :| m in d && m.acked && m.event.operation != Read && m.event == e;
      var p :| 0 <= p < |d| && d[p] == m;
      assert d'[p] in d';
    }
  }

  lemma AckedEverStep(w: World, step: Step)
    requires Enabled(w, step)
    ensures AckedEver(w) <= AckedEver(Apply(w, step))
  {
    match step
    case Drain => AckedChangesGrow(w.drained, Apply(w, step).drained);
    case Ack(picks, failed, stored) => AckedChangesGrow(w.drained, Apply(w, step).drained);
    case _ =>
  }

  lemma AckedForGood(config: Capture.Config, base: map<PK, Row>, ws: seq<World>, steps: seq<Step>, i: nat, j: nat,
                     e: CDCEvent)
    requires IsRun(config, base, ws, steps) && i <= j < |ws| && e in AckedEver(ws[i])
    ensures e in AckedEver(ws[j])
  {
    var acked := seq(|ws|, k requires 0 <= k < |ws| => e in AckedEver(ws[k]));
    forall k | i <= k < j && acked[k] ensures acked[k + 1] {
      AckedEverStep(ws[k], steps[k]);
    }
    Persists(acked, i, j);
  }

  // ---- and what is not skipped can still come ----

  /** A run that is in the given state, crashes there and ends with the transaction delivered by a later process. */
  ghost predicate ComesAgain(config: Capture.Config, base: map<PK, Row>, us: seq<World>, uSteps: seq<Step>, i: nat,
                             w: World, t: nat) {
    && IsRun(config, base, us, uSteps) && i < |uSteps| && us[i] == w && uSteps[i].Crash?
    && us[|uSteps|].capture.from <= t < us[|uSteps|].capture.delivered
  }

  lemma SkippedDoesNotCome(config: Capture.Config, base: map<PK, Row>, us: seq<World>, uSteps: seq<Step>, i: nat,
                           w: World, t: nat)
    requires ComesAgain(config, base, us, uSteps, i, w, t) && t < |w.capture.db.log|
    ensures ResumePosition(w) <= w.capture.db.log[t].lsn
  {
    if w.capture.db.log[t].lsn < ResumePosition(w) {
      RestartSkipsExactly(config, base, us, uSteps, i, t);
      LogGrows(us[i], uSteps[i]);
      PositionInRun(config, base, us, uSteps, i);
      SkippedThroughout(config, base, us, uSteps, i + 1, |uSteps|, t);
    }
  }

  lemma {:induction false} ResumePoint(log: seq<Capture.Txn>, position: nat) returns (from: nat)
    requires forall i, j :: 0 <= i < j < |log| ==> log[i].lsn < log[j].lsn
    ensures ResumesAt(log, position, from)
    decreases |log|
  {
    if log == [] || log[|log| - 1].lsn < position {
      from := |log|;
    } else {
      var n := |log| - 1;
      from := ResumePoint(log[..n], position);
      assert forall t :: from <= t < n ==> log[t] == log[..n][t];
    }
  }

  /** From any state the streamer can go on until it has delivered the transaction. */
  lemma {:induction false} CanDeliver(first: World, steps: seq<Step>, w: World, t: nat)
    returns (steps': seq<Step>, w': World)
    requires After(first, steps) == Some(w) && t < |w.capture.db.log|
    ensures After(first, steps') == Some(w') && steps <= steps'
    ensures w'.capture.from == w.capture.from && t < w'.capture.delivered
    decreases if t < w.capture.delivered then 0 else t + 1 - w.capture.delivered, |w.walOut|
  {
    if t < w.capture.delivered {
      steps', w' := steps, w;
    } else if w.walOut != [] {
      OneMore(first, steps, w, StreamerSends);
      steps', w' := CanDeliver(first, steps + [StreamerSends], AfterStreamerSends(w), t);
    } else {
      var deliver := Captures(Capture.DoDeliver);
      OneMore(first, steps, w, deliver);
      steps', w' := CanDeliver(first, steps + [deliver], Apply(w, deliver), t);
    }
  }

  lemma CrashThenDeliver(config: Capture.Config, base: map<PK, Row>, steps: seq<Step>, w: World, from: nat, t: nat)
    returns (us: seq<World>, uSteps: seq<Step>)
    requires After(Initial(config, base), steps) == Some(w) && Enabled(w, Crash(from))
    requires from <= t < |w.capture.db.log|
    ensures ComesAgain(config, base, us, uSteps, |steps|, w, t)
  {
    var first := Initial(config, base);
    OneMore(first, steps, w, Crash(from));
    var w';
    uSteps, w' := CanDeliver(first, steps + [Crash(from)], Apply(w, Crash(from)), t);
    us := TakenIsRun(config, base, uSteps);
    assert uSteps[..|steps|] == steps && uSteps[|steps|] == Crash(from);
    RunIsTaken(config, base, us, uSteps, |steps|);
  }

  /** The exact condition, for every state of every run and every committed transaction: if the process crashes here,
      the transaction can still come again, in some continuation, if and only if it is not below the position to
      resume from. Whether its changes have been acknowledged plays no part. */
  lemma ComesAgainExactly(config: Capture.Config, base: map<PK, Row>, ws: seq<World>, steps: seq<Step>, i: nat, t: nat)
    requires IsRun(config, base, ws, steps) && i < |ws| && t < |ws[i].capture.db.log|
    ensures (exists us: seq<World>, uSteps: seq<Step>, k: nat :: ComesAgain(config, base, us, uSteps, k, ws[i], t)) <==>
            ResumePosition(ws[i]) <= ws[i].capture.db.log[t].lsn
  {
    forall us: seq<World>, uSteps: seq<Step>, k: nat | ComesAgain(config, base, us, uSteps, k, ws[i], t)
      ensures ResumePosition(ws[i]) <= ws[i].capture.db.log[t].lsn
    {
      SkippedDoesNotCome(config, base, us, uSteps, k, ws[i], t);
    }
    if ResumePosition(ws[i]) <= ws[i].capture.db.log[t].lsn {
      assert CaptureInvariant.LogOk(ws[i].capture.db) by {
        EveryRunIsSafe(config, base, ws, steps, i);
      }
      var from := ResumePoint(ws[i].capture.db.log, ResumePosition(ws[i]));
      RunIsTaken(config, base, ws, steps, i);
      var us, uSteps := CrashThenDeliver(config, base, steps[..i], ws[i], from, t);
      assert ComesAgain(config, base, us, uSteps, i, ws[i], t);
    }
  }

  // ---- whether a rescan makes up for it ----

  /** The row of a key as read, or not read, is the one the table held after n transactions. */
  ghost predicate ShownAsOf(c: Capture.State, n: nat, k: PK) {
    && n <= |c.db.log|
    && ((exists r :: r in AllReads(c.config, c.chunks) && r.pk == k) <==> k in Capture.TableAt(c.config.table, c.db, n))
    && forall r <- AllReads(c.config, c.chunks) :: r.pk == k && k in Capture.TableAt(c.config.table, c.db, n) ==>
         r.after == Some(Capture.TableAt(c.config.table, c.db, n)[k])
  }

  lemma {:induction false} ReadIsOfItsChunk(config: Capture.Config, chunks: seq<Capture.ChunkRecord>, r: CDCEvent)
    returns (j: nat)
    requires r in AllReads(config, chunks)
    ensures j < |chunks| && r.pk in chunks[j].rows && r == ReadEvent(config, chunks[j], j + 1, r.pk)
    decreases |chunks|
  {
    var n := |chunks| - 1;
    if r in AllReads(config, chunks[..n]) {
      j := ReadIsOfItsChunk(config, chunks[..n], r);
    } else {
      j := n;
      var i :| 0 <= i < |chunks[n].rows| && ReadEvents(config, chunks[n], n + 1)[i] == r;
    }
  }

  /** A key that a chunk covers is read as of that chunk's snapshot. */
  lemma CoveredIsShown(c: Capture.State, j: nat, k: PK)
    requires CaptureTheorems.Inv(c) && CaptureTheorems.HoldsKey(c.chunks, j, k)
    ensures ShownAsOf(c, c.chunks[j].visible, k)
  {
    CaptureTheorems.ChunkShowsItsSnapshot(c, j, k);
    if k in c.chunks[j].rows {
      RowIsRead(c.config, c.chunks, j, k);
    }
    forall r | r in AllReads(c.config, c.chunks) && r.pk == k
      ensures k in c.chunks[j].rows && r.after == Some(c.chunks[j].image[k])
      ensures c.chunks[j].image == Capture.TableAt(c.config.table, c.db, c.chunks[j].visible)
    {
      ReadIsAsShown(c, j, r);
    }
  }

  lemma ReadIsAsShown(c: Capture.State, j: nat, r: CDCEvent)
    requires CaptureTheorems.Inv(c) && r in AllReads(c.config, c.chunks)
    requires CaptureTheorems.HoldsKey(c.chunks, j, r.pk)
    ensures r.pk in c.chunks[j].rows && r.pk in c.chunks[j].image && r.after == Some(c.chunks[j].image[r.pk])
    ensures c.chunks[j].image == Capture.TableAt(c.config.table, c.db, c.chunks[j].visible)
  {
    var i := ReadIsOfItsChunk(c.config, c.chunks, r);
    CaptureTheorems.ChunkShowsItsSnapshot(c, i, r.pk);
    CaptureTheorems.RangesTile(c, r.pk);
    assert CaptureTheorems.HoldsKey(c.chunks, i, r.pk);
    assert CaptureTheorems.ImagesOk(c);
  }

  lemma ReadsAreWithinTheScan(c: Capture.State, r: CDCEvent)
    requires CaptureTheorems.Inv(c) && r in AllReads(c.config, c.chunks)
    ensures c.point != Capture.Off && Rank(c.start) < Rank(r.pk) <= Rank(c.cursor)
  {
    var j := ReadIsOfItsChunk(c.config, c.chunks, r);
    CaptureTheorems.ChunkShowsItsSnapshot(c, j, r.pk);
    CaptureTheorems.RangesTile(c, r.pk);
    assert CaptureTheorems.HoldsKey(c.chunks, j, r.pk);
  }

  /** In every run: a process that has finished a scan has read every key above the cursor it resumed from as it was
      after all the transactions that the restart passed over, and no other key. So of what was passed over, a
      rescan shows the outcome for those keys, deletions as absence, and nothing for the others. */
  lemma RescanShowsWhatWasSkipped(config: Capture.Config, base: map<PK, Row>, ws: seq<World>, steps: seq<Step>, i: nat,
                                  t: nat, k: PK)
    requires IsRun(config, base, ws, steps) && i < |ws| && t < ws[i].capture.from && k != Unset
    ensures var c := ws[i].capture;
            && (c.point.Exhausted? && Rank(c.start) < Rank(k) ==> exists n :: t < n && ShownAsOf(c, n, k))
            && (c.point == Capture.Off || Rank(k) <= Rank(c.start) ==>
                  forall r <- AllReads(c.config, c.chunks) :: r.pk != k)
  {
    assert CaptureTheorems.Inv(ws[i].capture) by {
      EveryRunIsSafe(config, base, ws, steps, i);
    }
    var c := ws[i].capture;
    forall r | r in AllReads(c.config, c.chunks) ensures c.point != Capture.Off && Rank(c.start) < Rank(r.pk) {
      ReadsAreWithinTheScan(c, r);
    }
    if c.point.Exhausted? && Rank(c.start) < Rank(k) {
      var n := ScanShows(c, t, k);
    }
  }

  /** A key above a finished scan is not read, and the last read showed it missing. */
  lemma AboveIsShown(c: Capture.State, k: PK)
    requires CaptureTheorems.Inv(c) && c.point.Exhausted? && Rank(c.cursor) < Rank(k)
    ensures ShownAsOf(c, c.point.visible, k)
  {
    forall r | r in AllReads(c.config, c.chunks) ensures r.pk != k {
      ReadsAreWithinTheScan(c, r);
    }
  }

  lemma ScanShows(c: Capture.State, t: nat, k: PK) returns (n: nat)
    requires CaptureTheorems.Inv(c) && c.point.Exhausted? && t < c.from && Rank(c.start) < Rank(k)
    ensures t < n && ShownAsOf(c, n, k)
  {
    if Rank(k) <= Rank(c.cursor) {
      var j := CoveringChunk(c, k);
      CoveredIsShown(c, j, k);
      n := c.chunks[j].visible;
    } else {
      AboveIsShown(c, k);
      n := c.point.visible;
    }
  }

  lemma CoveringChunk(c: Capture.State, k: PK) returns (j: nat)
    requires CaptureTheorems.Inv(c) && Rank(c.start) < Rank(k) <= Rank(c.cursor)
    ensures CaptureTheorems.HoldsKey(c.chunks, j, k)
  {
    CaptureTheorems.RangesTile(c, k);
    var i :| CaptureTheorems.HoldsKey(c.chunks, i, k);
    j := i;
  }

  // ---- nothing else is lost ----

  /** What becomes of a change in a process that has completed its snapshot or never had one to take. */
  ghost predicate AccountedFor(w: World, t: nat, e: CDCEvent) {
    || t < w.capture.from
    || Lost(w.capture, t, e)
    || Copies(w.drained, w.output, w.walOut, w.scanOut, e) == Count(w.capture.arrived, e) > 0
    || exists n: nat :: t < n && ShownAsOf(w.capture, n, e.pk)
  }

  /** These are all the ways: of a process that has completed its snapshot or never had one to take, every change of a
      delivered or skipped transaction was passed over at the restart, was lost in one of the three ways of the merger,
      is on its way to the pipeline as often as delivered, or is shown by a snapshot taken after it. */
  lemma EveryChangeIsAccountedFor(config: Capture.Config, base: map<PK, Row>, ws: seq<World>, steps: seq<Step>, i: nat,
                                  t: nat, e: CDCEvent)
    requires IsRun(config, base, ws, steps) && i < |ws| && IsOf(ws[i].capture, t, e) && t < ws[i].capture.delivered
    requires ws[i].capture.point == Capture.Off || ws[i].capture.completed.Some?
    ensures AccountedFor(ws[i], t, e)
  {
    var c := ws[i].capture;
    if c.from <= t {
      assert CaptureInvariant.Timed(c) by {
        EveryRunIsSafe(config, base, ws, steps, i);
      }
      if c.point == Capture.Off || TableOf(e) != c.config.table || Rank(e.pk) <= Rank(c.start) {
        ChangeOutsideTheScanInEveryRun(config, base, ws, steps, i, t, e);
      } else if Rank(e.pk) <= Rank(c.cursor) {
        WithinTheScan(config, base, ws, steps, i, t, e);
      } else {
        AboveTheScan(config, base, ws, steps, i, t, e);
      }
    }
  }

  lemma WithinTheScan(config: Capture.Config, base: map<PK, Row>, ws: seq<World>, steps: seq<Step>, i: nat, t: nat,
                      e: CDCEvent)
    requires IsRun(config, base, ws, steps) && i < |ws| && CaptureFate.Delivered(ws[i].capture, t, e)
    requires TableOf(e) == ws[i].capture.config.table
    requires Rank(ws[i].capture.start) < Rank(e.pk) <= Rank(ws[i].capture.cursor)
    ensures AccountedFor(ws[i], t, e)
  {
    var c := ws[i].capture;
    assert CaptureTheorems.Inv(c) by {
      EveryRunIsSafe(config, base, ws, steps, i);
    }
    var j := CoveringChunk(c, e.pk);
    if c.chunks[j].visible <= t {
      NoLostChangeInEveryRun(config, base, ws, steps, i, j, t, e);
      assert t < c.chunks[j].ended && !Within(e.pk, c.chunks[j].low, c.chunks[j].window) ==> LostIn(c, j, t, e);
    } else {
      CoveredIsShown(c, j, e.pk);
    }
  }

  lemma AboveTheScan(config: Capture.Config, base: map<PK, Row>, ws: seq<World>, steps: seq<Step>, i: nat, t: nat,
                     e: CDCEvent)
    requires IsRun(config, base, ws, steps) && i < |ws| && CaptureFate.Delivered(ws[i].capture, t, e)
    requires ws[i].capture.point.Exhausted? && ws[i].capture.completed.Some?
    requires TableOf(e) == ws[i].capture.config.table && Rank(ws[i].capture.cursor) < Rank(e.pk)
    ensures AccountedFor(ws[i], t, e)
  {
    var c := ws[i].capture;
    if c.point.visible <= t {
      ChangeAboveTheScanInEveryRun(config, base, ws, steps, i, t, e);
    } else {
      assert CaptureTheorems.Inv(c) by {
        EveryRunIsSafe(config, base, ws, steps, i);
      }
      AboveIsShown(c, e.pk);
    }
  }
}
