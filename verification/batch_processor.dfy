/** A batch processor (broadway/batch_processor.go): the mutex that a sender takes and the worker releases, the
    unbuffered channel between them, the paused and terminated flags, a panicking handler, and any
    number of senders, pausers and terminators, interleaved step by step. */
module BatchProcessorSpec {
  import opened Wrappers

  type Batch = int

  /** How the handling of a batch ends: the handler returns messages, with or without an error, or it panics. */
  datatype Outcome = Returned(processed: Batch, failed: bool) | Panicked

  /** The batch that was handed over, and how the acknowledger was called: with the messages and the error that the
      handler returned, or with the batch itself and the panic as the error. */
  datatype Acked = Acked(batch: Batch, outcome: Outcome)

  /** Who holds the mutex: a sender before and after it has looked at the flags, the worker on behalf of the sender
      whose batch it received, or a caller of terminate before and after it has swapped the flag. */
  datatype Holder = Free | Checking(batch: Batch) | Sending(batch: Batch) | Working | Terminating | Closing

  /** Where the worker is: in the handler, after its return, and along the path of a panic: recovered with the lock
      still held, about to acknowledge the failure, about to call terminate, inside it, gone. */
  datatype Worker =
    | Waiting
    | Handling(batch: Batch)
    | Done
    | Recovered(batch: Batch)
    | Failing(batch: Batch)
    | Dying
    | InTerminate
    | Ended

  /** offered, refused, accepted and acks are the history; misused would be set by a send on the closed channel,
      resumed by a resume after the handler has panicked. */
  datatype State = State(
    holder: Holder, worker: Worker, paused: bool, terminated: bool, closed: bool,
    offered: seq<Batch>, refused: seq<Batch>, accepted: seq<Batch>, acks: seq<Acked>,
    misused: bool, closedAtWork: bool, resumed: bool)

  const START: State := State(Free, Waiting, false, false, false, [], [], [], [], false, false, false)

  datatype Step =
    | TryLock(batch: Batch)
    | Check
    | HandOver
    | Return(processed: Batch, failed: bool)
    | Unlock
    | Panic
    | UnlockAfterPanic
    | AckFailure
    | LockToTerminate
    | WorkerLocksToTerminate
    | Swap
    | Close
    | EndOfRange
    | Pause
    | Resume

  predicate Enabled(s: State, step: Step) {
    match step
    case TryLock(batch) => s.holder.Free?
    case Check => s.holder.Checking?
    case HandOver => s.holder.Sending? && (s.closed || s.worker.Waiting?)
    case Return(processed, failed) => s.worker.Handling?
    case Unlock => s.worker.Done?
    case Panic => s.worker.Handling?
    case UnlockAfterPanic => s.worker.Recovered?
    case AckFailure => s.worker.Failing?
    case LockToTerminate => s.holder.Free?
    case WorkerLocksToTerminate => s.holder.Free? && s.worker.Dying?
    case Swap => s.holder.Terminating?
    case Close => s.holder.Closing?
    case EndOfRange => s.worker.Waiting? && s.closed
    case Pause => true
    case Resume => true
  }

  predicate AtWork(w: Worker) {
    w.Handling? || w.Done? || w.Recovered?
  }

  predicate HasPanicked(w: Worker) {
    w.Recovered? || w.Failing? || w.Dying? || w.InTerminate?
  }

  /** Leaving terminate: the worker that called it is gone afterwards. */
  function LeaveTerminate(s: State): State {
    s.(holder := Free, worker := if s.worker.InTerminate? then Ended else s.worker)
  }

  function Apply(s: State, step: Step): State
    requires Enabled(s, step)
  {
    match step
    case TryLock(batch) => s.(holder := Checking(batch), offered := s.offered + [batch])
    case Check =>
      if s.terminated || s.paused
      then s.(holder := Free, refused := s.refused + [s.holder.batch])
      else s.(holder := Sending(s.holder.batch))
    case HandOver =>
      if s.closed then s.(misused := true)
      else s.(holder := Working, worker := Handling(s.holder.batch), accepted := s.accepted + [s.holder.batch])
    case Return(processed, failed) =>
      s.(worker := Done, acks := s.acks + [Acked(s.worker.batch, Returned(processed, failed))])
    case Unlock => s.(worker := Waiting, holder := Free)
    case Panic => s.(worker := Recovered(s.worker.batch), paused := true)
    case UnlockAfterPanic => s.(worker := Failing(s.worker.batch), holder := Free)
    case AckFailure => s.(worker := Dying, acks := s.acks + [Acked(s.worker.batch, Panicked)])
    case LockToTerminate => s.(holder := Terminating)
    case WorkerLocksToTerminate => s.(holder := Terminating, worker := InTerminate)
    case Swap =>
      if s.terminated then LeaveTerminate(s) else s.(terminated := true, holder := Closing)
    case Close => LeaveTerminate(s.(closed := true, closedAtWork := s.closedAtWork || AtWork(s.worker)))
    case EndOfRange => s.(worker := Ended)
    case Pause => s.(paused := true)
    case Resume => s.(paused := false, resumed := s.resumed || HasPanicked(s.worker))
  }

  ghost predicate IsRun(states: seq<State>, steps: seq<Step>) {
    && |states| == |steps| + 1 && states[0] == START
    && forall i :: 0 <= i < |steps| ==> Enabled(states[i], steps[i]) && states[i + 1] == Apply(states[i], steps[i])
  }

  // ---- what every step keeps ----

  function InHand(w: Worker): seq<Batch> {
    if w.Handling? || w.Recovered? || w.Failing? then [w.batch] else []
  }

  function Batches(acks: seq<Acked>): (r: seq<Batch>)
    ensures |r| == |acks| && forall i :: 0 <= i < |r| ==> r[i] == acks[i].batch
  {
    seq(|acks|, i requires 0 <= i < |acks| => acks[i].batch)
  }

  function InSend(h: Holder): nat {
    if h.Checking? || h.Sending? then 1 else 0
  }

  /** The lock discipline: a sender past its check holds the lock of a processor that is not terminated; the worker
      has the lock exactly while it is at work. */
  predicate Locked(s: State) {
    && (s.holder.Working? <==> AtWork(s.worker))
    && (s.holder.Sending? ==> !s.terminated)
    && (s.closed ==> s.terminated && !s.holder.Closing?)
    && (s.terminated && !s.closed ==> s.holder.Closing?)
    && (s.holder.Closing? ==> s.terminated)
    && (s.worker.InTerminate? ==> s.holder.Terminating? || s.holder.Closing?)
    && (HasPanicked(s.worker) && !s.resumed ==> s.paused && !s.holder.Sending?)
  }

  /** Nothing is sent on the closed channel, it is not closed while a batch is in the handler, and the batches
      acknowledged, followed by the one in hand, are those accepted, once each and in order. */
  predicate Safe(s: State) {
    !s.misused && !s.closedAtWork && InOrder(s) && Counted(s)
  }

  predicate InOrder(s: State) {
    Batches(s.acks) + InHand(s.worker) == s.accepted
  }

  predicate Counted(s: State) {
    |s.offered| == |s.refused| + |s.accepted| + InSend(s.holder)
  }

  /** How a handling ends in a step, if one does: whatever the acknowledger is told. */
  function Ending(s: State, step: Step): seq<Acked> {
    if !s.worker.Handling? then []
    else
      match step
      case Return(processed, failed) => [Acked(s.worker.batch, Returned(processed, failed))]
      case Panic => [Acked(s.worker.batch, Panicked)]
      case _ => []
  }

  /** How the handlings of a run have ended so far, in order. */
  function Endings(states: seq<State>, steps: seq<Step>, i: nat): seq<Acked>
    requires i <= |steps| <= |states|
  {
    if i == 0 then [] else Endings(states, steps, i - 1) + Ending(states[i - 1], steps[i - 1])
  }

  /** The panic that is still to be acknowledged. */
  function Untold(w: Worker): seq<Acked> {
    if w.Recovered? || w.Failing? then [Acked(w.batch, Panicked)] else []
  }

  lemma ToldMore(s: State, step: Step, ended: seq<Acked>)
    requires Enabled(s, step) && s.acks + Untold(s.worker) == ended
    ensures Apply(s, step).acks + Untold(Apply(s, step).worker) == ended + Ending(s, step)
  {
    var now := Apply(s, step);
    if step.Return? || step.Panic? {
      assert now.acks + Untold(now.worker) == s.acks + Ending(s, step);
    } else if step.AckFailure? {
      assert now.acks == s.acks + Untold(s.worker);
    } else {
      assert now.acks == s.acks && Untold(now.worker) == Untold(s.worker);
    }
  }

  /** Every acknowledgement tells how its batch's handling ended: in every run, those made, followed by the panic still
      to be told, are the endings in their order. */
  lemma {:induction false} AcksTellTheEndings(states: seq<State>, steps: seq<Step>, i: nat)
    requires IsRun(states, steps) && i < |states|
    ensures states[i].acks + Untold(states[i].worker) == Endings(states, steps, i)
  {
    if i > 0 {
      AcksTellTheEndings(states, steps, i - 1);
      ToldMore(states[i - 1], steps[i - 1], Endings(states, steps, i - 1));
    }
  }

  lemma LockedKept(s: State, step: Step)
    requires Locked(s) && Enabled(s, step)
    ensures Locked(Apply(s, step))
  {
  }

  lemma InOrderKept(s: State, step: Step)
    requires InOrder(s) && Enabled(s, step)
    ensures !Apply(s, step).misused ==> InOrder(Apply(s, step))
  {
  }

  lemma CountedKept(s: State, step: Step)
    requires Locked(s) && Counted(s) && Enabled(s, step)
    ensures Counted(Apply(s, step))
  {
  }

  lemma SafeKept(s: State, step: Step)
    requires Locked(s) && Safe(s) && Enabled(s, step)
    ensures Safe(Apply(s, step))
  {
    InOrderKept(s, step);
    CountedKept(s, step);
  }

  /** In every interleaving: at most one batch is in the processor and it is under the lock; no send on the
      closed channel; no close while a batch is being handled; each accepted batch is acknowledged at
      most once, in the order accepted, and exactly once when the worker holds none; and each acknowledgement
      tells how the handling of its batch ended. */
  lemma {:induction false} HandOffIsSafe(states: seq<State>, steps: seq<Step>, i: nat)
    requires IsRun(states, steps) && i < |states|
    ensures Locked(states[i]) && Safe(states[i])
    ensures InHand(states[i].worker) == [] ==> Batches(states[i].acks) == states[i].accepted
    ensures states[i].acks + Untold(states[i].worker) == Endings(states, steps, i)
  {
    AcksTellTheEndings(states, steps, i);
    if i > 0 {
      HandOffIsSafe(states, steps, i - 1);
      LockedKept(states[i - 1], steps[i - 1]);
      SafeKept(states[i - 1], steps[i - 1]);
    }
  }

  // ---- what is accepted after a terminate or a pause ----

  lemma TerminatedInRun(states: seq<State>, steps: seq<Step>, k: nat)
    requires IsRun(states, steps) && k < |steps| && states[k].terminated
    ensures states[k + 1].terminated && states[k + 1].accepted == states[k].accepted
  {
    assert Locked(states[k]) by {
      HandOffIsSafe(states, steps, k);
    }
    TerminatedNow(states[k], steps[k]);
  }

  lemma TerminatedNow(s: State, step: Step)
    requires s.terminated && Locked(s) && Enabled(s, step)
    ensures Apply(s, step).terminated && Apply(s, step).accepted == s.accepted
  {
    assert !s.holder.Sending?;
  }

  /** Once a call of terminate has swapped the flag, no batch is accepted in the rest of the run. */
  lemma TerminatedAcceptsNothing(states: seq<State>, steps: seq<Step>, i: nat, j: nat)
    requires IsRun(states, steps) && i < j < |states| && steps[i].Swap?
    ensures states[j].terminated && states[j].accepted == states[i].accepted
  {
    var stays := seq(|states|, k requires 0 <= k < |states| =>
                       states[k].terminated && states[k].accepted == states[i].accepted);
    forall k | i + 1 <= k < j && stays[k] ensures stays[k + 1] {
      TerminatedInRun(states, steps, k);
    }
    Persists(stays, i + 1, j);
  }

  /** The batch of a sender that has found the processor neither paused nor terminated. */
  function BeingSent(h: Holder): seq<Batch> {
    if h.Sending? then [h.batch] else []
  }

  lemma PausedInRun(states: seq<State>, steps: seq<Step>, k: nat)
    requires IsRun(states, steps) && k < |steps| && !steps[k].Resume? && states[k].paused
    ensures states[k + 1].paused
    ensures states[k + 1].accepted + BeingSent(states[k + 1].holder) ==
            states[k].accepted + BeingSent(states[k].holder)
  {
    assert Locked(states[k]) by {
      HandOffIsSafe(states, steps, k);
    }
    assert !states[k + 1].misused by {
      HandOffIsSafe(states, steps, k + 1);
    }
    PausedNow(states[k], steps[k]);
  }

  lemma PausedNow(s: State, step: Step)
    requires s.paused && Enabled(s, step) && !step.Resume? && Locked(s) && !Apply(s, step).misused
    ensures var now := Apply(s, step);
            now.paused && now.accepted + BeingSent(now.holder) == s.accepted + BeingSent(s.holder)
  {
  }

  /** A paused processor accepts at most the batch of a sender that had looked at the flags before, until it is
      resumed. */
  lemma PausedAcceptsAtMostOne(states: seq<State>, steps: seq<Step>, i: nat, j: nat)
    requires IsRun(states, steps) && i < j < |states| && (steps[i].Pause? || steps[i].Panic?)
    requires forall k :: i < k < j ==> !steps[k].Resume?
    ensures states[j].accepted + BeingSent(states[j].holder) == states[i].accepted + BeingSent(states[i].holder)
  {
    var all := states[i].accepted + BeingSent(states[i].holder);
    var stays := seq(|states|, k requires 0 <= k < |states| =>
                       states[k].paused && states[k].accepted + BeingSent(states[k].holder) == all);
    forall k | i + 1 <= k < j && stays[k] ensures stays[k + 1] {
      PausedInRun(states, steps, k);
    }
    Persists(stays, i + 1, j);
  }

  // ---- when a sender is stranded ----

  /** A sender that has passed its check waits for a worker that will never receive again. */
  predicate Stranded(s: State) {
    s.holder.Sending? && (s.worker.Failing? || s.worker.Dying?)
  }

  lemma StrandedStays(s: State, step: Step)
    requires Locked(s) && Stranded(s) && Enabled(s, step)
    ensures Stranded(Apply(s, step)) && Apply(s, step).holder == s.holder && Apply(s, step).accepted == s.accepted
  {
  }

  lemma StrandedInRun(states: seq<State>, steps: seq<Step>, i: nat)
    requires IsRun(states, steps) && i < |steps| && Stranded(states[i])
    ensures Stranded(states[i + 1]) && states[i + 1].holder == states[i].holder
    ensures states[i + 1].accepted == states[i].accepted
  {
    assert Locked(states[i]) by {
      HandOffIsSafe(states, steps, i);
    }
    StrandedStays(states[i], steps[i]);
  }

  /** Nothing frees it in the rest of the run, as the worker needs the lock that the sender holds; and no batch is
      accepted any more. */
  lemma StrandedForever(states: seq<State>, steps: seq<Step>, i: nat, j: nat)
    requires IsRun(states, steps) && i <= j < |states| && Stranded(states[i])
    ensures Stranded(states[j]) && states[j].holder == states[i].holder && states[j].accepted == states[i].accepted
  {
    var stays := seq(|states|, k requires 0 <= k < |states| => Stranded(states[k]) &&
                                   states[k].holder == states[i].holder && states[k].accepted == states[i].accepted);
    forall k | i <= k < j && stays[k] ensures stays[k + 1] {
      StrandedInRun(states, steps, k);
    }
    Persists(stays, i, j);
  }

  /** The moment it happens, exactly: a sender looks at the flags while the worker is on its way out, and finds the
      processor neither paused nor terminated. */
  lemma StrandedExactly(states: seq<State>, steps: seq<Step>, i: nat)
    requires IsRun(states, steps) && i < |steps| && !Stranded(states[i])
    ensures Stranded(states[i + 1]) <==>
            steps[i].Check? && (states[i].worker.Failing? || states[i].worker.Dying?) &&
            !states[i].paused && !states[i].terminated
  {
    HandOffIsSafe(states, steps, i);
    StrandedNow(states[i], steps[i]);
  }

  lemma StrandedNow(s: State, step: Step)
    requires Locked(s) && Enabled(s, step) && !Stranded(s)
    ensures Stranded(Apply(s, step)) <==>
            step.Check? && (s.worker.Failing? || s.worker.Dying?) && !s.paused && !s.terminated
  {
  }

  /** That happens only if somebody resumed the processor after its handler had panicked. */
  lemma StrandedOnlyByResume(states: seq<State>, steps: seq<Step>, i: nat)
    requires IsRun(states, steps) && i < |states| && Stranded(states[i])
    ensures states[i].resumed
  {
    HandOffIsSafe(states, steps, i);
  }

  /** And it does happen then. */
  lemma ResumeCanStrandASender(first: Batch, second: Batch)
    ensures exists states, steps :: IsRun(states, steps) && Stranded(states[|states| - 1])
  {
    var steps := [TryLock(first), Check, HandOver, Panic, UnlockAfterPanic, Resume, TryLock(second), Check];
    var s0 := START;
    var s1 := Apply(s0, steps[0]);
    var s2 := Apply(s1, steps[1]);
    var s3 := Apply(s2, steps[2]);
    var s4 := Apply(s3, steps[3]);
    var s5 := Apply(s4, steps[4]);
    var s6 := Apply(s5, steps[5]);
    var s7 := Apply(s6, steps[6]);
    var s8 := Apply(s7, steps[7]);
    var states := [s0, s1, s2, s3, s4, s5, s6, s7, s8];
    assert IsRun(states, steps) && Stranded(states[8]);
  }
}
