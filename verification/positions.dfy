/** The reported position: how acknowledgements, the bounded channel and the streamer's loop together move it
    (pg/connector.go, pg/wal.go). */
module Positions {
  import opened EngineSpec

  /** One process: the position it loaded, the one the streamer started from, the engine's confirmed position,
      the streamer, the highest positions of the successful acknowledgements so far, and how many
      notifications were dropped. */
  datatype Process = Process(loaded: nat, start: nat, confirmed: nat, streamer: StreamerState, acked: seq<nat>,
                             dropped: nat)

  datatype Step = Acked(lsn: nat) | Taken

  function Apply(p: Process, step: Step): Process {
    match step
    case Acked(lsn) =>
      p.(confirmed := Higher(lsn, p.confirmed), streamer := NotifyAcked(p.streamer, p.confirmed, lsn),
         acked := p.acked + [lsn],
         dropped := p.dropped + (if lsn > p.confirmed && |p.streamer.notifications| >= NOTIFICATIONS then 1 else 0))
    case Taken => p.(streamer := TakeNotification(p.streamer))
  }

  function Run(p: Process, steps: seq<Step>): Process {
    if steps == [] then p else Apply(Run(p, steps[..|steps| - 1]), steps[|steps| - 1])
  }

  /** The streamer starts from the loaded position, or from the slot's if none was ever confirmed. */
  function Started(loaded: nat, slot: nat): Process {
    var start := if loaded == 0 then slot else loaded;
    Process(loaded, start, loaded, StreamerState(start, []), [], 0)
  }

  function Highest(first: nat, lsns: seq<nat>): nat {
    if lsns == [] then first else Higher(lsns[|lsns| - 1], Highest(first, lsns[..|lsns| - 1]))
  }

  /** The channel holds strictly increasing positions, above `low` and not above `high`. */
  predicate Queued(lsns: seq<nat>, low: nat, high: nat) {
    && |lsns| <= NOTIFICATIONS
    && (forall i, j :: 0 <= i < j < |lsns| ==> lsns[i] < lsns[j])
    && (forall i :: 0 <= i < |lsns| ==> low < lsns[i] <= high)
  }

  lemma QueuedAppend(lsns: seq<nat>, low: nat, high: nat, lsn: nat)
    requires Queued(lsns, low, high) && low <= high < lsn && |lsns| < NOTIFICATIONS
    ensures Queued(lsns + [lsn], low, lsn)
  {
  }

  /** Where the streamer gets to once it has taken everything in the channel. */
  function Reached(s: StreamerState): nat {
    if s.notifications == [] then s.confirmedLSN
    else Higher(s.notifications[|s.notifications| - 1], s.confirmedLSN)
  }

  predicate Bounded(p: Process) {
    && p.loaded <= p.confirmed == Highest(p.loaded, p.acked)
    && Queued(p.streamer.notifications, p.loaded, p.confirmed)
    && p.start <= p.streamer.confirmedLSN <= Higher(p.start, p.confirmed)
    && (p.dropped == 0 ==> Reached(p.streamer) == Higher(p.start, p.confirmed))
  }

  lemma TakenKeeps(p: Process)
    requires Bounded(p)
    ensures Bounded(Apply(p, Taken)) && p.streamer.confirmedLSN <= Apply(p, Taken).streamer.confirmedLSN
  {
  }

  lemma AckedKeeps(p: Process, lsn: nat)
    requires Bounded(p)
    ensures Bounded(Apply(p, Acked(lsn))) && Apply(p, Acked(lsn)).streamer.confirmedLSN == p.streamer.confirmedLSN
  {
    assert (p.acked + [lsn])[..|p.acked|] == p.acked;
    if lsn > p.confirmed && |p.streamer.notifications| < NOTIFICATIONS {
      QueuedAppend(p.streamer.notifications, p.loaded, p.confirmed, lsn);
    }
  }

  lemma BoundedKept(p: Process, step: Step)
    requires Bounded(p)
    ensures Bounded(Apply(p, step))
    ensures p.streamer.confirmedLSN <= Apply(p, step).streamer.confirmedLSN
    ensures Apply(p, step).start == p.start && Apply(p, step).loaded == p.loaded
  {
    match step
    case Acked(lsn) => AckedKeeps(p, lsn);
    case Taken => TakenKeeps(p);
  }

  /** In every run: the confirmed position is the maximum of the loaded one and all acknowledged commit
      positions; the channel holds strictly increasing positions, none above it; the streamer never
      goes back and never beyond the maximum of its start and the confirmed position; and if no
      notification was dropped, taking what is in the channel brings it exactly there. */
  lemma {:induction false} ReportedPositionIsBounded(loaded: nat, slot: nat, steps: seq<Step>)
    ensures var p := Run(Started(loaded, slot), steps);
            && Bounded(p) && p.loaded == loaded && p.start == (if loaded == 0 then slot else loaded)
            && (steps != [] ==>
                  Run(Started(loaded, slot), steps[..|steps| - 1]).streamer.confirmedLSN <= p.streamer.confirmedLSN)
  {
    if steps != [] {
      ReportedPositionIsBounded(loaded, slot, steps[..|steps| - 1]);
      BoundedKept(Run(Started(loaded, slot), steps[..|steps| - 1]), steps[|steps| - 1]);
    }
  }
}
