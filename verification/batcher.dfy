/** The batcher (broadway/batcher.go): messages are received into one queue per batch key while batches are taken
    from those queues, offered to a processor and, if refused, put back at the front. */
module BatcherSpec {
  import opened Wrappers

  datatype Msg = Msg(id: int, batchKey: string)

  /** `final` marks a batch taken by the flush. */
  datatype Batch = Batch(key: string, messages: seq<Msg>, final: bool)

  /** received and accepted are the history; `hand` is the batch taken and not yet accepted or put back. */
  datatype State = State(
    batchSize: nat, queues: map<string, seq<Msg>>, hand: Option<Batch>,
    receiving: bool, processing: bool, flushing: bool, finished: bool,
    received: seq<Msg>, accepted: seq<Batch>)

  function Queue(queues: map<string, seq<Msg>>, key: string): seq<Msg> {
    if key in queues then queues[key] else []
  }

  /** The messages of one batch key, in order. */
  function OfKey(messages: seq<Msg>, key: string): seq<Msg> {
    if messages == [] then []
    else
      var last, rest := messages[|messages| - 1], OfKey(messages[..|messages| - 1], key);
      if last.batchKey == key then rest + [last] else rest
  }

  /** The messages of one key in the accepted batches, in order. */
  function AcceptedOf(accepted: seq<Batch>, key: string): seq<Msg> {
    if accepted == [] then []
    else
      var last, rest := accepted[|accepted| - 1], AcceptedOf(accepted[..|accepted| - 1], key);
      if last.key == key then rest + last.messages else rest
  }

  function HandOf(hand: Option<Batch>, key: string): seq<Msg> {
    if hand.Some? && hand.value.key == key then hand.value.messages else []
  }

  function Started(batchSize: nat): State {
    State(batchSize, map[], None, true, true, false, false, [], [])
  }

  // ---- steps ----

  /** Receive: one turn of the receiving loop. Take: dequeue(BatchSize), on a tick or because the queue is long
      enough. Accept, Refuse: what the processor answered. Close: the receiver's channel is closed and drained.
      Stop: the processing loop sees the flag. Flush starts when both have ended; FlushTake is
      dequeueAll, FlushDrop deletes an empty queue, Finish returns once no queue is left. */
  datatype Step =
    | Receive(message: Msg)
    | Take(key: string)
    | Accept
    | Refuse
    | Close
    | Stop
    | Flush
    | FlushTake(key: string)
    | FlushDrop(key: string)
    | Finish

  predicate Enabled(s: State, step: Step) {
    match step
    case Receive(message) => s.receiving
    case Take(key) => s.processing && s.hand.None? && Queue(s.queues, key) != []
    case Accept => s.hand.Some?
    case Refuse => s.hand.Some?
    case Close => s.receiving
    case Stop => s.processing && s.hand.None?
    case Flush => !s.receiving && !s.processing && !s.flushing
    case FlushTake(key) => s.flushing && !s.finished && s.hand.None? && Queue(s.queues, key) != []
    case FlushDrop(key) => s.flushing && !s.finished && s.hand.None? && key in s.queues && s.queues[key] == []
    case Finish => s.flushing && s.hand.None? && s.queues == map[]
  }

  function Size(s: State, key: string): nat {
    if s.batchSize < |Queue(s.queues, key)| then s.batchSize else |Queue(s.queues, key)|
  }

  function Taken(s: State, key: string, n: nat): State
    requires n <= |Queue(s.queues, key)|
  {
    s.(queues := s.queues[key := Queue(s.queues, key)[n..]],
       hand := Some(Batch(key, Queue(s.queues, key)[..n], s.flushing)))
  }

  /** In the flush an accepted key's queue is deleted. */
  function Accepted(s: State): State
    requires s.hand.Some?
  {
    s.(accepted := s.accepted + [s.hand.value], hand := None,
       queues := if s.flushing then s.queues - {s.hand.value.key} else s.queues)
  }

  function PutBack(s: State): State
    requires s.hand.Some?
  {
    var b := s.hand.value;
    s.(queues := s.queues[b.key := b.messages + Queue(s.queues, b.key)], hand := None)
  }

  function Received(s: State, m: Msg): State {
    s.(queues := s.queues[m.batchKey := Queue(s.queues, m.batchKey) + [m]], received := s.received + [m])
  }

  function Apply(s: State, step: Step): State
    requires Enabled(s, step)
  {
    match step
    case Receive(message) => Received(s, message)
    case Take(key) => Taken(s, key, Size(s, key))
    case Accept => Accepted(s)
    case Refuse => PutBack(s)
    case Close => s.(receiving := false)
    case Stop => s.(processing := false)
    case Flush => s.(flushing := true)
    case FlushTake(key) => Taken(s, key, |Queue(s.queues, key)|)
    case FlushDrop(key) => s.(queues := s.queues - {key})
    case Finish => s.(finished := true)
  }

  ghost predicate IsRun(batchSize: nat, states: seq<State>, steps: seq<Step>) {
    && |states| == |steps| + 1 && states[0] == Started(batchSize)
    && forall i :: 0 <= i < |steps| ==> Enabled(states[i], steps[i]) && states[i + 1] == Apply(states[i], steps[i])
  }

  // ---- the invariant ----

  /** Accepted batches, the batch in hand and the queue, in this order, are what was received. */
  predicate KeyInOrder(s: State, key: string) {
    AcceptedOf(s.accepted, key) + HandOf(s.hand, key) + Queue(s.queues, key) == OfKey(s.received, key)
  }

  ghost predicate InOrder(s: State) {
    forall key :: KeyInOrder(s, key)
  }

  /** A batch is never empty, and no larger than the batch size unless the flush took it. */
  predicate BatchOk(batchSize: nat, b: Batch) {
    b.messages != [] && (!b.final ==> |b.messages| <= batchSize)
  }

  predicate Staged(s: State) {
    && s.batchSize > 0
    && (s.flushing ==> !s.receiving && !s.processing)
    && (s.finished ==> s.flushing && s.hand.None? && s.queues == map[])
    && (s.flushing && s.hand.Some? ==> Queue(s.queues, s.hand.value.key) == [])
    && (s.hand.Some? ==> BatchOk(s.batchSize, s.hand.value))
    && (!s.processing && !s.flushing ==> s.hand.None?)
    && (forall i :: 0 <= i < |s.accepted| ==> BatchOk(s.batchSize, s.accepted[i]))
  }

  lemma StagedKept(s: State, step: Step)
    requires Staged(s) && Enabled(s, step)
    ensures Staged(Apply(s, step))
  {
  }

  lemma ReceivedKeeps(s: State, m: Msg, key: string)
    requires KeyInOrder(s, key)
    ensures KeyInOrder(Received(s, m), key)
  {
    assert (s.received + [m])[..|s.received|] == s.received;
  }

  lemma TakenKeeps(s: State, key: string, n: nat, k: string)
    requires KeyInOrder(s, k) && s.hand.None? && n <= |Queue(s.queues, key)|
    ensures KeyInOrder(Taken(s, key, n), k)
  {
    if k == key {
      Split(AcceptedOf(s.accepted, k), Queue(s.queues, k), n);
    }
  }

  lemma Split(a: seq<Msg>, q: seq<Msg>, n: nat)
    requires n <= |q|
    ensures a + q[..n] + q[n..] == a + [] + q
  {
  }

  lemma Regroup(a: seq<Msg>, b: seq<Msg>, c: seq<Msg>)
    ensures a + b + c == a + (b + c)
  {
  }

  lemma AcceptedKeeps(s: State, k: string)
    requires KeyInOrder(s, k) && s.hand.Some? && Staged(s)
    ensures KeyInOrder(Accepted(s), k)
  {
    assert (s.accepted + [s.hand.value])[..|s.accepted|] == s.accepted;
  }

  lemma PutBackKeeps(s: State, k: string)
    requires KeyInOrder(s, k) && s.hand.Some?
    ensures KeyInOrder(PutBack(s), k)
  {
    Regroup(AcceptedOf(s.accepted, k), HandOf(s.hand, k), Queue(s.queues, k));
  }

  lemma InOrderKept(s: State, step: Step)
    requires InOrder(s) && Staged(s) && Enabled(s, step)
    ensures InOrder(Apply(s, step))
  {
    forall k ensures KeyInOrder(Apply(s, step), k) {
      assert KeyInOrder(s, k);
      match step
      case Receive(message) => ReceivedKeeps(s, message, k);
      case Take(key) => TakenKeeps(s, key, Size(s, key), k);
      case FlushTake(key) => TakenKeeps(s, key, |Queue(s.queues, key)|, k);
      case Accept => AcceptedKeeps(s, k);
      case Refuse => PutBackKeeps(s, k);
      case _ =>
    }
  }

  /** Per-key order, in every run: whatever is received while batches are taken, offered and put back, the
      accepted batches of a key followed by the batch in hand and the queue are the messages received
      with that key, in their order; batches hold 1 to BatchSize messages until the flush. */
  lemma {:induction false} KeysStayInOrder(batchSize: nat, states: seq<State>, steps: seq<Step>, i: nat)
    requires batchSize > 0 && IsRun(batchSize, states, steps) && i < |states|
    ensures Staged(states[i]) && InOrder(states[i])
  {
    if i > 0 {
      KeysStayInOrder(batchSize, states, steps, i - 1);
      StagedKept(states[i - 1], steps[i - 1]);
      InOrderKept(states[i - 1], steps[i - 1]);
    }
  }

  /** When the flush returns, every message received has been accepted, each key's in order. */
  lemma FlushDeliversAll(batchSize: nat, states: seq<State>, steps: seq<Step>, i: nat, key: string)
    requires batchSize > 0 && IsRun(batchSize, states, steps) && i < |states| && states[i].finished
    ensures AcceptedOf(states[i].accepted, key) == OfKey(states[i].received, key)
  {
    KeysStayInOrder(batchSize, states, steps, i);
    assert KeyInOrder(states[i], key);
  }
}
