/** The batcher's loops, without the interleaving: a received group of messages, one round over the queues,
    one round of the flush. */
module BatcherObject {
  import opened BatcherSpec
  import opened Wrappers

  lemma HasKey(keys: set<string>)
    ensures keys == {} || exists k: string :: k in keys
  {
    if forall k: string :: k !in keys {
      assert keys == {};
    }
  }

  /** The batches of one key among those accepted, in order. */
  function BatchesOf(accepted: seq<Batch>, key: string): seq<seq<Msg>> {
    if accepted == [] then []
    else
      var last, rest := accepted[|accepted| - 1], BatchesOf(accepted[..|accepted| - 1], key);
      if last.key == key then rest + [last.messages] else rest
  }

  /** What a round takes from a queue: a full batch if there is one, otherwise on a tick whatever there is. */
  function Handed(queue: seq<Msg>, tick: bool, batchSize: nat): seq<seq<Msg>> {
    if |queue| >= batchSize then [queue[..batchSize]]
    else if tick && queue != [] then [queue]
    else []
  }

  /** What it leaves. */
  function Kept(queue: seq<Msg>, tick: bool, batchSize: nat): seq<Msg> {
    if |queue| >= batchSize then queue[batchSize..]
    else if tick then []
    else queue
  }

  /** The queues during a round: those of willing keys that have had their turn hold what the round leaves in them, and
      the others what they held. */
  ghost predicate QueuesKept(before: map<string, seq<Msg>>, batches: map<string, seq<Msg>>, left: set<string>,
                             tick: bool, willing: set<string>, batchSize: nat) {
    && batches.Keys == before.Keys && left <= before.Keys
    && forall key <- before ::
         batches[key] == if key in left || key !in willing then before[key] else Kept(before[key], tick, batchSize)
  }

  lemma QueuesKeptMore(before: map<string, seq<Msg>>, batches: map<string, seq<Msg>>, batches': map<string, seq<Msg>>,
                       left: set<string>, key: string, tick: bool, willing: set<string>, batchSize: nat)
    requires QueuesKept(before, batches, left, tick, willing, batchSize) && key in left
    requires batches' == if key in willing then batches[key := Kept(batches[key], tick, batchSize)] else batches
    ensures QueuesKept(before, batches', left - {key}, tick, willing, batchSize)
  {
  }

  /** The accepted batches have grown by the given ones of one key, and by no other. */
  ghost predicate HandedOver(accepted: seq<Batch>, accepted': seq<Batch>, key: string, batches: seq<seq<Msg>>) {
    forall k :: BatchesOf(accepted', k) == BatchesOf(accepted, k) + if k == key then batches else []
  }

  lemma OneHandedOver(accepted: seq<Batch>, b: Batch)
    ensures HandedOver(accepted, accepted + [b], b.key, [b.messages])
  {
    assert (accepted + [b])[..|accepted|] == accepted;
  }

  /** They have grown by the given ones of each key gone through. */
  ghost predicate AllHandedOver(accepted: seq<Batch>, accepted': seq<Batch>, hands: map<string, seq<seq<Msg>>>,
                                left: set<string>) {
    forall k :: BatchesOf(accepted', k) == BatchesOf(accepted, k) + if k in hands && k !in left then hands[k] else []
  }

  lemma HandOverMore(a: seq<Batch>, a': seq<Batch>, a'': seq<Batch>, hands: map<string, seq<seq<Msg>>>,
                     left: set<string>, key: string)
    requires key in hands && key in left
    requires AllHandedOver(a, a', hands, left) && HandedOver(a', a'', key, hands[key])
    ensures AllHandedOver(a, a'', hands, left - {key})
  {
    forall k
      ensures BatchesOf(a'', k) == BatchesOf(a, k) + if k in hands && k !in left - {key} then hands[k] else []
    {
      assert BatchesOf(a', k) == BatchesOf(a, k) + if k in hands && k !in left then hands[k] else [];
    }
  }

  lemma AcceptedMore(accepted: seq<Batch>, b: Batch, key: string)
    ensures AcceptedOf(accepted + [b], key) == AcceptedOf(accepted, key) + (if b.key == key then b.messages else [])
  {
    assert (accepted + [b])[..|accepted|] == accepted;
  }

  class Batcher {
    const batchSize: nat
    var batches: map<string, seq<Msg>>
    var accepted: seq<Batch>

    constructor (batchSize: nat)
      requires batchSize > 0
      ensures this.batchSize == batchSize && batches == map[] && accepted == []
    {
      this.batchSize := batchSize;
      batches, accepted := map[], [];
    }

    /** The receiving loop's work on one group of messages. */
    method Receive(messages: seq<Msg>)
      modifies this`batches
      ensures forall key :: Queue(batches, key) == Queue(old(batches), key) + OfKey(messages, key)
    {
      for i := 0 to |messages|
        invariant forall key :: Queue(batches, key) == Queue(old(batches), key) + OfKey(messages[..i], key)
      {
        assert messages[..i + 1][..i] == messages[..i];
        var key := messages[i].batchKey;
        if key !in batches {
          batches := batches[key := []];
        }
        batches := batches[key := batches[key] + [messages[i]]];
      }
      assert messages[..|messages|] == messages;
    }

    /** processBatch, answering as the key's processor does. */
    method ProcessBatch(key: string, batch: seq<Msg>, answer: bool, final: bool) returns (ok: bool)
      modifies this`accepted
      ensures ok == answer
      ensures accepted == if answer then old(accepted) + [Batch(key, batch, final)] else old(accepted)
    {
      ok := answer;
      if ok {
        accepted := accepted + [Batch(key, batch, final)];
      }
    }

    /** One turn of processBatches' inner loop. */
    method Turn(key: string, tick: bool, willing: set<string>)
      requires key in batches && batchSize > 0
      modifies this
      ensures key !in willing ==> batches == old(batches)
      ensures key in willing ==> batches == old(batches)[key := Kept(old(batches)[key], tick, batchSize)]
      ensures HandedOver(old(accepted), accepted, key,
                         if key in willing then Handed(old(batches)[key], tick, batchSize) else [])
      ensures SameLines(old(accepted), old(batches), accepted, batches)
      ensures Extended(old(accepted), accepted, willing, batchSize)
    {
      ghost var before, taken := batches, accepted;
      Offer(key, tick, key in willing);
      if accepted != taken {
        LineKept(taken, before, key, |accepted[|taken|].messages|);
        OneHandedOver(taken, accepted[|taken|]);
      }
    }

    method Offer(key: string, tick: bool, answer: bool)
      requires key in batches && batchSize > 0
      modifies this
      ensures var q := old(batches)[key];
              if answer && |q| >= batchSize
              then batches == old(batches)[key := q[batchSize..]] &&
                   accepted == old(accepted) + [Batch(key, q[..batchSize], false)]
              else if answer && tick && q != []
              then batches == old(batches)[key := []] && accepted == old(accepted) + [Batch(key, q, false)]
              else batches == old(batches) && accepted == old(accepted)
    {
      if !tick && |batches[key]| < batchSize {
        return;
      }
      ghost var q := batches[key];
      assert q[..|q|] == q && q[|q|..] == [];
      var n := if |batches[key]| < batchSize then |batches[key]| else batchSize;
      var batch := batches[key][..n];
      batches := batches[key := batches[key][n..]];
      if batch != [] {
        var ok := ProcessBatch(key, batch, answer, false);
        if !ok {
          batches := batches[key := batch + batches[key]];
          assert batch + q[n..] == q;
        }
      }
    }

    /** A round over all queues, in whatever order the map gives them; `willing` are the keys whose processor
        accepts. The queue of a willing key loses its first batch if that is a full one, or on a tick if there is
        anything in it, and exactly that batch is added to those accepted; no other queue changes, and no key's line
        of accepted messages and queue is disturbed. */
    method Round(tick: bool, willing: set<string>)
      requires batchSize > 0
      modifies this
      ensures batches.Keys == old(batches).Keys
      ensures forall key <- batches :: key !in willing ==> batches[key] == old(batches)[key]
      ensures forall key <- batches :: key in willing ==>
                var q := old(batches)[key];
                batches[key] == if |q| >= batchSize then q[batchSize..] else if tick then [] else q
      ensures forall key <- batches :: key in willing ==>
                var q := old(batches)[key];
                BatchesOf(accepted, key) == BatchesOf(old(accepted), key) +
                                            if |q| >= batchSize then [q[..batchSize]]
                                            else if tick && q != [] then [q] else []
      ensures forall key :: key !in batches || key !in willing ==>
                BatchesOf(accepted, key) == BatchesOf(old(accepted), key)
      ensures SameLines(old(accepted), old(batches), accepted, batches)
      ensures Extended(old(accepted), accepted, willing, batchSize)
    {
      var left := batches.Keys;
      ghost var hands := map key <- batches :: if key in willing then Handed(batches[key], tick, batchSize) else [];
      LinesAtStart(accepted, batches);
      while left != {}
        invariant QueuesKept(old(batches), batches, left, tick, willing, batchSize)
        invariant Accounted(old(accepted), old(batches), accepted, batches, hands, left, willing, batchSize)
        decreases left
      {
        HasKey(left);
        var key: string :| key in left;
        ghost var batchesBefore, acceptedBefore := batches, accepted;
        Turn(key, tick, willing);
        AccountedMore(old(accepted), old(batches), acceptedBefore, batchesBefore, accepted, batches, hands, left, key,
                      willing, batchSize);
        QueuesKeptMore(old(batches), batchesBefore, batches, left, key, tick, willing, batchSize);
        left := left - {key};
      }
    }

    /** One turn of flush's inner loop. */
    method FlushTurn(key: string, willing: set<string>)
      requires key in batches
      modifies this
      ensures batches == if key in willing || old(batches)[key] == [] then old(batches) - {key} else old(batches)
      ensures HandedOver(old(accepted), accepted, key,
                         if key in willing && old(batches)[key] != [] then [old(batches)[key]] else [])
      ensures SameLines(old(accepted), old(batches), accepted, batches)
      ensures Extended(old(accepted), accepted, willing, batchSize)
    {
      LinesAtStart(accepted, batches);
      DroppedKept(accepted, batches, key);
      OneHandedOver(accepted, Batch(key, batches[key], true));
      ghost var before := batches;
      var batch := batches[key];
      batches := batches[key := []];
      if batch != [] {
        var ok := ProcessBatch(key, batch, key in willing, true);
        if ok {
          batches := batches - {key};
        } else {
          batches := batches[key := batch + batches[key]];
          assert batch + [] == batch;
        }
      } else {
        batches := batches - {key};
      }
    }

    /** One round of flush: the queues of willing keys are delivered whole and deleted, empty ones deleted; the
        flush returns when a round leaves nothing. */
    method FlushRound(willing: set<string>) returns (done: bool)
      modifies this
      ensures batches == map key <- old(batches) | key !in willing && old(batches)[key] != [] :: old(batches)[key]
      ensures SameLines(old(accepted), old(batches), accepted, batches)
      ensures Extended(old(accepted), accepted, willing, batchSize)
      ensures done <==> batches == map[]
      ensures forall key <- old(batches) :: key in willing && old(batches)[key] != [] ==>
                BatchesOf(accepted, key) == BatchesOf(old(accepted), key) + [old(batches)[key]]
      ensures forall key :: key !in old(batches) || key !in willing ==>
                BatchesOf(accepted, key) == BatchesOf(old(accepted), key)
    {
      var left := batches.Keys;
      ghost var hands := map key <- batches :: if key in willing && batches[key] != [] then [batches[key]] else [];
      LinesAtStart(accepted, batches);
      assert Flushed(batches, left, willing) == batches;
      while left != {}
        invariant left <= batches.Keys
        invariant batches == Flushed(old(batches), left, willing)
        invariant Accounted(old(accepted), old(batches), accepted, batches, hands, left, willing, batchSize)
        decreases left
      {
        HasKey(left);
        var key: string :| key in left;
        ghost var batchesBefore, acceptedBefore := batches, accepted;
        FlushTurn(key, willing);
        AccountedMore(old(accepted), old(batches), acceptedBefore, batchesBefore, accepted, batches, hands, left, key,
                      willing, batchSize);
        FlushedMore(old(batches), left, key, willing);
        left := left - {key};
      }
      done := batches == map[];
    }
  }

  /** The queues during a round of the flush: of those that have had their turn, the unwilling keys' that hold something
      are still there. */
  function Flushed(before: map<string, seq<Msg>>, left: set<string>, willing: set<string>): map<string, seq<Msg>> {
    map key <- before | key in left || (key !in willing && before[key] != []) :: before[key]
  }

  lemma FlushedMore(before: map<string, seq<Msg>>, left: set<string>, key: string, willing: set<string>)
    requires key in left && key in before
    ensures Flushed(before, left - {key}, willing) ==
            if key in willing || before[key] == [] then Flushed(before, left, willing) - {key}
            else Flushed(before, left, willing)
  {
  }

  /** What a round has done so far with the queues and the accepted batches. */
  ghost predicate Accounted(a: seq<Batch>, q: map<string, seq<Msg>>, a': seq<Batch>, q': map<string, seq<Msg>>,
                            hands: map<string, seq<seq<Msg>>>, left: set<string>, willing: set<string>,
                            batchSize: nat) {
    SameLines(a, q, a', q') && Extended(a, a', willing, batchSize) && AllHandedOver(a, a', hands, left)
  }

  lemma AccountedMore(a: seq<Batch>, q: map<string, seq<Msg>>, a': seq<Batch>, q': map<string, seq<Msg>>,
                      a'': seq<Batch>, q'': map<string, seq<Msg>>, hands: map<string, seq<seq<Msg>>>,
                      left: set<string>, key: string, willing: set<string>, batchSize: nat)
    requires Accounted(a, q, a', q', hands, left, willing, batchSize)
    requires SameLines(a', q', a'', q'') && Extended(a', a'', willing, batchSize)
    requires key in left && key in hands && HandedOver(a', a'', key, hands[key])
    ensures Accounted(a, q, a'', q'', hands, left - {key}, willing, batchSize)
  {
    LinesChain(a, q, a', q', a'', q'');
    HandOverMore(a, a', a'', hands, left, key);
    assert Extended(a, a'', willing, batchSize);
  }

  lemma DroppedKept(accepted: seq<Batch>, batches: map<string, seq<Msg>>, key: string)
    requires key in batches
    ensures batches[key] == [] ==> SameLines(accepted, batches, accepted, batches - {key})
    ensures SameLines(accepted, batches, accepted + [Batch(key, batches[key], true)], batches - {key})
  {
    forall k
      ensures AcceptedOf(accepted + [Batch(key, batches[key], true)], k) + Queue(batches - {key}, k) ==
              AcceptedOf(accepted, k) + Queue(batches, k)
    {
      AcceptedMore(accepted, Batch(key, batches[key], true), k);
    }
  }

  /** Every key's accepted messages followed by its queue are the same. */
  ghost predicate SameLines(accepted: seq<Batch>, batches: map<string, seq<Msg>>, accepted': seq<Batch>,
                            batches': map<string, seq<Msg>>) {
    forall key :: AcceptedOf(accepted', key) + Queue(batches', key) == AcceptedOf(accepted, key) + Queue(batches, key)
  }

  /** Only willing keys' batches of an allowed size have been added. */
  predicate Extended(accepted: seq<Batch>, accepted': seq<Batch>, willing: set<string>, batchSize: nat) {
    accepted <= accepted' &&
    forall i :: |accepted| <= i < |accepted'| ==> BatchOk(batchSize, accepted'[i]) && accepted'[i].key in willing
  }

  lemma LinesAtStart(accepted: seq<Batch>, batches: map<string, seq<Msg>>)
    ensures SameLines(accepted, batches, accepted, batches)
  {
  }

  lemma LinesChain(a: seq<Batch>, q: map<string, seq<Msg>>, a': seq<Batch>, q': map<string, seq<Msg>>,
                   a'': seq<Batch>, q'': map<string, seq<Msg>>)
    requires SameLines(a, q, a', q') && SameLines(a', q', a'', q'')
    ensures SameLines(a, q, a'', q'')
  {
  }

  lemma LineKept(accepted: seq<Batch>, batches: map<string, seq<Msg>>, key: string, n: nat)
    requires key in batches && n <= |batches[key]|
    ensures SameLines(accepted, batches, accepted + [Batch(key, batches[key][..n], false)],
                      batches[key := batches[key][n..]])
  {
    var q := batches[key];
    forall k
      ensures AcceptedOf(accepted + [Batch(key, q[..n], false)], k) + Queue(batches[key := q[n..]], k) ==
              AcceptedOf(accepted, k) + Queue(batches, k)
    {
      AcceptedMore(accepted, Batch(key, q[..n], false), k);
      Split(AcceptedOf(accepted, k), q, n);
    }
  }
}
