/** The message processor (broadway/message_processor.go): handling a group of messages one by one, acknowledging or
    forwarding each, and what happens to them when the handler panics. */
module MessageProcessorObject {
  import opened Wrappers

  const DEFAULT_BATCHER: string := "default"
  const DEFAULT_BATCH_KEY: string := "default"
  const MAX_ATTEMPTS: nat := 10

  function SendError(batcher: string): string {
    "failed to send messages to batcher " + batcher + " after 10 attempts"
  }

  /** What the user's handler does with one message: it may set batcher and batch key, and returns the message
      or nil with or without an error; or it panics. */
  datatype Handling = Returns(batcher: string, batchKey: string, err: Option<string>) | Panics

  /** A message with its acknowledger set. `acks` counts how often the acknowledger was called with it, `accepted` how
      often a batcher took it. */
  class Message {
    var batcher: string
    var batchKey: string
    const partitionKey: string
    var acked: bool
    var error: Option<string>
    ghost var acks: nat
    ghost var accepted: nat

    constructor (partitionKey: string)
      ensures this.partitionKey == partitionKey && batcher == "" && batchKey == "" && Untouched()
    {
      this.partitionKey := partitionKey;
      batcher, batchKey, acked, error := "", "", false, None;
      acks, accepted := 0, 0;
    }

    ghost predicate Untouched()
      reads this
    {
      !acked && error.None? && acks == 0 && accepted == 0
    }

    /** Exactly one outcome: acknowledged once, or taken by a batcher once. */
    ghost predicate OneFate()
      reads this
    {
      acks + accepted == 1
    }
  }

  function All(messages: seq<Message>): set<Message> {
    set m <- messages
  }

  ghost predicate Distinct(messages: seq<Message>) {
    forall i, j :: 0 <= i < j < |messages| ==> messages[i] != messages[j]
  }

  function BatcherName(h: Handling): string
    requires h.Returns?
  {
    if h.batcher == "" then DEFAULT_BATCHER else h.batcher
  }

  function BatchKeyOf(h: Handling, partitionKey: string): string
    requires h.Returns?
  {
    var key := if h.batchKey == "" then DEFAULT_BATCH_KEY else h.batchKey;
    if partitionKey != "" && key == DEFAULT_BATCH_KEY then partitionKey else key
  }

  /** A message is settled by the handler's loop if nothing batches it or it failed. */
  predicate SettledByHandler(hasBatchers: bool, h: Handling) {
    h.Returns? && (!hasBatchers || h.err.Some?)
  }

  /** A message as the handler's loop leaves it. */
  ghost predicate Handled(m: Message, h: Handling, hasBatchers: bool)
    requires h.Returns?
    reads m
  {
    && m.batcher == BatcherName(h) && m.batchKey == BatchKeyOf(h, m.partitionKey)
    && m.accepted == 0
    && (if SettledByHandler(hasBatchers, h) then m.acks == 1 && m.acked && m.error == h.err
        else m.acks == 0 && !m.acked && m.error.None?)
  }

  class MessageProcessor {
    const batchers: set<string>
    const minDemand: nat
    const maxDemand: nat
    var queue: seq<Message>

    constructor (batchers: set<string>, minDemand: nat, maxDemand: nat)
      ensures this.batchers == batchers && this.minDemand == minDemand && this.maxDemand == maxDemand && queue == []
    {
      this.batchers, this.minDemand, this.maxDemand := batchers, minDemand, maxDemand;
      queue := [];
    }

    /** The body of process' map for one message. */
    method HandleOne(m: Message, h: Handling)
      requires h.Returns? && m.Untouched()
      modifies m
      ensures Handled(m, h, batchers != {})
      ensures m.batcher == if h.batcher == "" then "default" else h.batcher
      ensures h.batchKey != "" && h.batchKey != "default" ==> m.batchKey == h.batchKey
      ensures h.batchKey == "" || h.batchKey == "default" ==>
                m.batchKey == if m.partitionKey == "" then "default" else m.partitionKey
    {
      m.batcher, m.batchKey := h.batcher, h.batchKey;
      if m.batcher == "" {
        m.batcher := DEFAULT_BATCHER;
      }
      if m.batchKey == "" {
        m.batchKey := DEFAULT_BATCH_KEY;
      }
      if m.partitionKey != "" && m.batchKey == DEFAULT_BATCH_KEY {
        m.batchKey := m.partitionKey;
      }
      if batchers == {} || h.err.Some? {
        m.acks := m.acks + 1;
        m.acked := true;
        m.error := h.err;
      }
    }

    /** The map of process. A panic leaves it at once, with the messages before it handled and the others untouched. */
    method HandleAll(messages: seq<Message>, handler: seq<Handling>) returns (panicked: bool, done: nat)
      requires |handler| == |messages| && Distinct(messages) && forall m <- messages :: m.Untouched()
      modifies All(messages)
      ensures done <= |messages|
      ensures panicked <==> exists i :: 0 <= i < |handler| && handler[i].Panics?
      ensures panicked ==> done < |messages| && handler[done].Panics?
      ensures !panicked ==> done == |messages|
      ensures forall i :: 0 <= i < done ==> handler[i].Returns? && Handled(messages[i], handler[i], batchers != {})
      ensures forall i :: done <= i < |messages| ==> messages[i].Untouched()
    {
      done := 0;
      while done < |messages|
        invariant 0 <= done <= |messages|
        invariant forall i :: 0 <= i < done ==> handler[i].Returns? && Handled(messages[i], handler[i], batchers != {})
        invariant forall i :: done <= i < |messages| ==> messages[i].Untouched()
      {
        if handler[done].Panics? {
          return true, done;
        }
        assert messages[done] in messages;
        HandleOne(messages[done], handler[done]);
        done := done + 1;
      }
      panicked := false;
    }

    /** The retry loop for one batcher; it refuses the first `refusals` attempts. */
    method TrySend(refusals: nat) returns (ok: bool)
      ensures ok <==> refusals <= MAX_ATTEMPTS
    {
      var attempts := 0;
      while true
        invariant attempts <= refusals && attempts <= MAX_ATTEMPTS + 1
        decreases MAX_ATTEMPTS + 1 - attempts
      {
        if attempts > MAX_ATTEMPTS {
          return false;
        }
        if attempts >= refusals {
          return true;
        }
        attempts := attempts + 1;
      }
    }

    /** The outcome of one batcher's group: taken whole, or failed whole after the last attempt. */
    method SettleGroup(messages: seq<Message>, name: string, ok: bool)
      requires Distinct(messages) && forall m <- messages :: m.batcher == name ==> m.Untouched()
      modifies All(messages)
      ensures forall m <- messages :: m.batcher == old(m.batcher) && m.batchKey == old(m.batchKey)
      ensures forall m <- messages :: m.batcher == name ==> Settled(m, ok)
      ensures forall m <- messages :: m.batcher != name ==>
                Same(m, old(m.acked), old(m.error), old(m.acks), old(m.accepted))
    {
      for i := 0 to |messages|
        invariant forall m <- messages :: m.batcher == old(m.batcher) && m.batchKey == old(m.batchKey)
        invariant forall j :: 0 <= j < i && messages[j].batcher == name ==> Settled(messages[j], ok)
        invariant forall j :: i <= j < |messages| && messages[j].batcher == name ==> messages[j].Untouched()
        invariant forall m <- messages :: m.batcher != name ==>
                    Same(m, old(m.acked), old(m.error), old(m.acks), old(m.accepted))
      {
        if messages[i].batcher == name {
          if ok {
            messages[i].accepted := messages[i].accepted + 1;
          } else {
            messages[i].acks := messages[i].acks + 1;
            messages[i].acked := true;
            messages[i].error := Some(SendError(name));
          }
        }
      }
    }

    /** sendToBatcher: one group per batcher name, in any order; a name that is not configured is passed over. */
    method SendToBatchers(messages: seq<Message>, refusals: map<string, nat>)
      requires Distinct(messages) && forall m <- messages :: m.Untouched()
      modifies All(messages)
      ensures forall m <- messages :: m.batcher == old(m.batcher) && m.batchKey == old(m.batchKey)
      ensures forall m <- messages ::
                if m.batcher in batchers then Settled(m, Get(refusals, m.batcher) <= MAX_ATTEMPTS) else m.Untouched()
    {
      var left := set m <- messages :: m.batcher;
      while left != {}
        invariant forall m <- messages :: m.batcher == old(m.batcher) && m.batchKey == old(m.batchKey)
        invariant forall m <- messages :: m.batcher !in left ==>
                    if m.batcher in batchers then Settled(m, Get(refusals, m.batcher) <= MAX_ATTEMPTS)
                    else m.Untouched()
        invariant forall m <- messages :: m.batcher in left ==> m.Untouched()
        decreases left
      {
        HasName(left);
        var name: string :| name in left;
        left := left - {name};
        if name in batchers {
          var ok := TrySend(Get(refusals, name));
          SettleGroup(messages, name, ok);
        }
      }
    }

    /** lo.Filter on the error field. */
    method WithoutError(messages: seq<Message>) returns (rest: seq<Message>)
      requires Distinct(messages)
      ensures Distinct(rest) && forall m <- rest :: m in messages && m.error.None?
      ensures forall m <- messages :: m.error.None? ==> m in rest
    {
      rest := [];
      for i := 0 to |messages|
        invariant Distinct(rest) && forall m <- rest :: m in messages[..i] && m.error.None?
        invariant forall m <- messages[..i] :: m.error.None? ==> m in rest
      {
        assert messages[..i + 1] == messages[..i] + [messages[i]];
        assert messages[i] !in messages[..i];
        if messages[i].error.None? {
          rest := rest + [messages[i]];
        }
      }
      assert messages[..|messages|] == messages;
    }

    /** process: what becomes of each message when the handler does not panic. */
    method Process(messages: seq<Message>, handler: seq<Handling>, refusals: map<string, nat>)
      returns (panicked: bool, done: nat)
      requires |handler| == |messages| && Distinct(messages) && forall m <- messages :: m.Untouched()
      modifies All(messages)
      ensures panicked <==> exists i :: 0 <= i < |handler| && handler[i].Panics?
      ensures !panicked ==> forall i :: 0 <= i < |messages| ==>
                handler[i].Returns? && Outcome(messages[i], handler[i], batchers, refusals)
      ensures panicked ==> done < |messages| && handler[done].Panics?
      ensures panicked ==> forall i :: 0 <= i < done ==>
                handler[i].Returns? && Handled(messages[i], handler[i], batchers != {})
      ensures panicked ==> forall i :: done <= i < |messages| ==> messages[i].Untouched()
    {
      panicked, done := HandleAll(messages, handler);
      if !panicked && batchers != {} {
        var rest := WithoutError(messages);
        assert forall i :: 0 <= i < |messages| ==> messages[i] in messages;
        assert All(rest) <= All(messages);
        SendToBatchers(rest, refusals);
      }
    }

    /** lo.Filter on the acked flag, in the recovery. */
    method Unacked(messages: seq<Message>) returns (rest: seq<Message>)
      requires Distinct(messages)
      ensures Distinct(rest) && forall m <- rest :: m in messages && !m.acked
      ensures forall m <- messages :: !m.acked ==> m in rest
    {
      rest := [];
      for i := 0 to |messages|
        invariant Distinct(rest) && forall m <- rest :: m in messages[..i] && !m.acked
        invariant forall m <- messages[..i] :: !m.acked ==> m in rest
      {
        assert messages[..i + 1] == messages[..i] + [messages[i]];
        assert messages[i] !in messages[..i];
        if !messages[i].acked {
          rest := rest + [messages[i]];
        }
      }
      assert messages[..|messages|] == messages;
    }

    /** flushAndFailAll: one failing acknowledgement for everything in the queue. */
    method FlushAndFailAll()
      requires Distinct(queue)
      modifies All(queue)
      ensures forall m <- queue :: m.acks == old(m.acks) + 1 && m.accepted == old(m.accepted)
    {
      for i := 0 to |queue|
        invariant forall j :: 0 <= j < i ==> queue[j].acks == old(queue[j].acks) + 1
        invariant forall j :: i <= j < |queue| ==> queue[j].acks == old(queue[j].acks)
        invariant forall m <- queue :: m.accepted == old(m.accepted)
      {
        queue[i].acks := queue[i].acks + 1;
      }
    }

    /** One turn of run's loop on a queue of waiting messages, with the recovery if the handler panics. Without a
        panic each message taken has its outcome and the others still wait. With one, at whatever
        message it comes, every message of the queue is acknowledged exactly once. */
    method Turn(handler: seq<Handling>, refusals: map<string, nat>) returns (panicked: bool)
      requires minDemand <= maxDemand && |handler| == Size(|queue|, maxDemand - minDemand)
      requires Distinct(queue) && forall m <- queue :: m.Untouched()
      modifies this, All(queue)
      ensures panicked <==> exists i :: 0 <= i < |handler| && handler[i].Panics?
      ensures !panicked ==> queue == old(queue)[|handler|..] && forall m <- queue :: m.Untouched()
      ensures !panicked ==> forall i :: 0 <= i < |handler| ==>
                handler[i].Returns? && Outcome(old(queue)[i], handler[i], batchers, refusals)
      ensures panicked ==> forall m <- old(queue) :: m.acks == 1 && m.accepted == 0
    {
      ghost var all := queue;
      var messages := queue[..|handler|];
      queue := queue[|handler|..];
      assert all == messages + queue;
      assert forall m <- messages :: m in all && m !in queue;
      if messages == [] {
        return false;
      }
      var done;
      panicked, done := Process(messages, handler, refusals);
      if panicked {
        Recover(messages, all, done);
      }
    }

    method Recover(messages: seq<Message>, ghost all: seq<Message>, ghost done: nat)
      requires Distinct(all) && all == messages + queue && done <= |messages|
      requires forall i :: 0 <= i < done ==> WaitsOrAcked(messages[i])
      requires forall i :: done <= i < |all| ==> all[i].Untouched()
      modifies this`queue, All(all)
      ensures forall m <- all :: m.acks == 1 && m.accepted == 0
    {
      assert forall i :: 0 <= i < |messages| ==> messages[i] == all[i];
      assert forall i :: 0 <= i < |queue| ==> queue[i] == all[|messages| + i];
      assert forall m <- all :: WaitsOrAcked(m);
      Requeue(messages, all);
      FlushAndFailAll();
    }

    /** What the recovery puts back in front of the queue. */
    method Requeue(messages: seq<Message>, ghost all: seq<Message>)
      requires Distinct(all) && all == messages + queue && forall m <- queue :: !m.acked
      modifies this`queue
      ensures Distinct(queue) && forall m <- queue :: m in all && !m.acked
      ensures forall m <- all :: !m.acked ==> m in queue
    {
      assert forall i :: 0 <= i < |messages| ==> messages[i] == all[i];
      assert forall i :: 0 <= i < |queue| ==> queue[i] == all[|messages| + i];
      assert forall m <- messages :: m !in queue;
      var unacked := Unacked(messages);
      DistinctJoined(unacked, queue);
      queue := unacked + queue;
    }
  }

  lemma DistinctJoined(a: seq<Message>, b: seq<Message>)
    requires Distinct(a) && Distinct(b) && forall m <- a :: m !in b
    ensures Distinct(a + b)
  {
    forall i, j | 0 <= i < j < |a + b| ensures (a + b)[i] != (a + b)[j] {
      if i < |a| <= j {
        assert a[i] in a && b[j - |a|] in b;
      }
    }
  }

  function Size(waiting: nat, limit: nat): nat {
    if waiting < limit then waiting else limit
  }

  ghost predicate WaitsOrAcked(m: Message)
    reads m
  {
    m.accepted == 0 && m.acks == (if m.acked then 1 else 0)
  }

  /** A message is acknowledged once, with the handler's error, if the handler's loop settled it; otherwise its batcher,
      if configured, takes it or it is acknowledged once as failed; otherwise nothing happens to it. Batcher and batch
      key are what the handler's loop made them. */
  ghost predicate Outcome(m: Message, h: Handling, batchers: set<string>, refusals: map<string, nat>)
    requires h.Returns?
    reads m
  {
    var taken := Get(refusals, BatcherName(h)) <= MAX_ATTEMPTS;
    && m.batcher == BatcherName(h) && m.batchKey == BatchKeyOf(h, m.partitionKey)
    && if SettledByHandler(batchers != {}, h) then m.acks == 1 && m.accepted == 0 && m.error == h.err
       else if BatcherName(h) in batchers
       then m.OneFate() && (m.accepted == 1 <==> taken) &&
            m.error == if taken then None else Some(SendError(BatcherName(h)))
       else m.acks == 0 && m.accepted == 0 && m.error == None
  }

  function Get(refusals: map<string, nat>, name: string): nat {
    if name in refusals then refusals[name] else 0
  }

  lemma HasName(names: set<string>)
    ensures names == {} || exists name: string :: name in names
  {
    if forall name: string :: name !in names {
      assert names == {};
    }
  }

  /** What a group's outcome makes of a message. */
  ghost predicate Settled(m: Message, ok: bool)
    reads m
  {
    if ok then m.accepted == 1 && m.acks == 0 && !m.acked && m.error.None?
    else m.accepted == 0 && m.acks == 1 && m.acked && m.error == Some(SendError(m.batcher))
  }

  ghost predicate Same(m: Message, acked: bool, error: Option<string>, acks: nat, accepted: nat)
    reads m
  {
    m.acked == acked && m.error == error && m.acks == acks && m.accepted == accepted
  }
}
