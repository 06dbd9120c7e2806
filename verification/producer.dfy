/** The producer's two dispatch loops (broadway/producer.go) and the life cycle of a request (broadway/request.go). */
module ProducerObject {
  import opened RingSpec
  import opened Wrappers
  import HashRingObject

  datatype Msg = Msg(id: int, partitionKey: string)

  /** A message processor's demand. A reply reaches the processor or finds the request closed; the processor may
      close it while the reply waits. */
  class Request {
    const processorId: string
    const initial: int
    var demand: int
    var closed: bool

    constructor (processorId: string, demand: int)
      ensures this.processorId == processorId && this.demand == initial == demand && !closed
    {
      this.processorId, this.initial, this.demand, this.closed := processorId, demand, demand, false;
    }

    method Close()
      modifies this`closed
      ensures closed
    {
      if closed {
        return;
      }
      closed := true;
    }

    /** `closing` says whether the processor closes the request instead of receiving. */
    method Reply(closing: bool) returns (ok: bool)
      modifies this`closed
      ensures ok <==> !old(closed) && !closing
      ensures closed <==> !ok
    {
      if closed {
        return false;
      }
      if closing {
        closed := true;
        return false;
      }
      ok := true;
    }
  }

  /** A successful reply, and the round it was made in. */
  datatype Delivery = Delivery(request: Request, messages: seq<Msg>, round: nat)

  function Sent(log: seq<Delivery>): seq<Msg> {
    if log == [] then [] else Sent(log[..|log| - 1]) + log[|log| - 1].messages
  }

  /** How many messages a request was given. */
  function Given(log: seq<Delivery>, r: Request): nat {
    if log == [] then 0
    else Given(log[..|log| - 1], r) + (if log[|log| - 1].request == r then |log[|log| - 1].messages| else 0)
  }

  lemma SentMore(log: seq<Delivery>, d: Delivery)
    ensures Sent(log + [d]) == Sent(log) + d.messages
  {
    assert (log + [d])[..|log|] == log;
  }

  lemma GivenMore(log: seq<Delivery>, d: Delivery, r: Request)
    ensures Given(log + [d], r) == Given(log, r) + (if d.request == r then |d.messages| else 0)
  {
    assert (log + [d])[..|log|] == log;
  }

  lemma {:induction false} NeverGiven(log: seq<Delivery>, r: Request)
    requires forall d <- log :: d.request != r
    ensures Given(log, r) == 0
    decreases |log|
  {
    if log != [] {
      NeverGiven(log[..|log| - 1], r);
    }
  }

  function All(requests: seq<Request>): set<Request> {
    set r <- requests
  }

  ghost predicate Distinct(requests: seq<Request>) {
    forall i, j :: 0 <= i < j < |requests| ==> requests[i] != requests[j]
  }

  function Less(a: int, b: nat): (n: int)
    ensures n <= a && n <= b && (n == a || n == b)
  {
    if a < b then a else b
  }

  /** The requests but one, in their order. */
  function Without(requests: seq<Request>, r: Request): seq<Request> {
    if requests == [] then []
    else
      var last, rest := requests[|requests| - 1], Without(requests[..|requests| - 1], r);
      if last == r then rest else rest + [last]
  }

  lemma {:induction false} WithoutMember(requests: seq<Request>, r: Request, q: Request)
    ensures q in Without(requests, r) <==> q in requests && q != r
    decreases |requests|
  {
    if requests != [] {
      var n := |requests| - 1;
      WithoutMember(requests[..n], r, q);
      assert requests == requests[..n] + [requests[n]];
    }
  }

  lemma {:induction false} WithoutMembers(requests: seq<Request>, r: Request)
    ensures All(Without(requests, r)) == All(requests) - {r}
    ensures Distinct(requests) ==> Distinct(Without(requests, r))
    decreases |requests|
  {
    if requests != [] {
      var n := |requests| - 1;
      var last, rest := requests[n], Without(requests[..n], r);
      WithoutMembers(requests[..n], r);
      WithoutMember(requests[..n], r, last);
      AllMore(requests[..n], last);
      AllMore(rest, last);
      assert requests == requests[..n] + [last];
      assert Distinct(requests) ==> last !in requests[..n];
    }
  }

  lemma AllMore(requests: seq<Request>, r: Request)
    ensures All(requests + [r]) == All(requests) + {r}
  {
    assert forall q :: q in requests + [r] <==> q in requests || q == r;
    assert forall q :: q in All(requests + [r]) <==> q in requests + [r];
    assert forall q :: q in All(requests) <==> q in requests;
  }

  lemma {:induction false} FirstStays(requests: seq<Request>, r: Request, processorId: string, q: Request)
    requires q != r && FirstOf(requests, processorId, q)
    ensures FirstOf(Without(requests, r), processorId, q)
    decreases |requests|
  {
    var n := |requests| - 1;
    var rest := Without(requests[..n], r);
    var at :| 0 <= at < |requests| && requests[at] == q && forall j :: 0 <= j < at ==>
                requests[j].processorId != processorId;
    if at < n {
      assert requests[..n][at] == q;
      FirstStays(requests[..n], r, processorId, q);
      var i :| 0 <= i < |rest| && rest[i] == q && forall j :: 0 <= j < i ==> rest[j].processorId != processorId;
      assert Without(requests, r)[i] == q;
    } else {
      forall j | 0 <= j < |rest| ensures rest[j].processorId != processorId {
        WithoutMember(requests[..n], r, rest[j]);
        assert forall k :: 0 <= k < n ==> requests[..n][k] == requests[k];
      }
      assert Without(requests, r) == rest + [q];
      assert (rest + [q])[|rest|] == q;
    }
  }

  class Producer {
    var requests: seq<Request>
    ghost var log: seq<Delivery>

    /** Every request that ever arrived. */
    ghost var known: set<Request>

    /** How many rounds have been made. */
    ghost var round: nat

    constructor ()
      ensures Valid() && requests == [] && log == [] && known == {} && round == 0
    {
      requests, log, known, round := [], [], {}, 0;
    }

    /** What a request still asks for is its demand less what it was given, and no request leaves the list before it is
        closed. */
    ghost predicate Counted()
      reads this, known
    {
      && Distinct(requests) && All(requests) <= known
      && (forall d <- log :: d.request in known)
      && (forall r <- known :: r.demand + Given(log, r) == r.initial)
      && (forall r <- known :: r in All(requests) || r.closed)
    }

    /** And no request has been given more than its demand. */
    ghost predicate Valid()
      reads this, known
    {
      Counted() && forall r <- known :: r.demand >= 0
    }

    /** The requests in the list that have been closed. */
    ghost function Shut(): set<Request>
      reads this, requests
    {
      set r <- requests | r.closed
    }

    /** The goroutine that adds arriving requests. */
    method Arrive(processorId: string, demand: nat) returns (r: Request)
      requires Counted()
      modifies this`requests, this`known
      ensures Counted() && (old(Valid()) ==> Valid()) && fresh(r) && requests == old(requests) + [r] &&
              known == old(known) + {r}
      ensures r.processorId == processorId && r.initial == r.demand == demand && !r.closed
    {
      r := new Request(processorId, demand);
      NeverGiven(log, r);
      assert forall q :: q in requests <==> q in All(requests);
      requests := requests + [r];
      known := known + {r};
      assert forall q :: q in requests <==> q in All(requests);
    }

    method Remove(r: Request)
      requires Distinct(requests)
      modifies this`requests
      ensures Distinct(requests) && All(requests) == All(old(requests)) - {r}
      ensures requests == Without(old(requests), r)
    {
      var rest: seq<Request> := [];
      for i := 0 to |requests|
        invariant rest == Without(requests[..i], r)
      {
        assert requests[..i + 1][..i] == requests[..i];
        if requests[i] != r {
          rest := rest + [requests[i]];
        }
      }
      assert requests[..|requests|] == requests;
      WithoutMembers(requests, r);
      requests := rest;
    }

    /** The body of sendMessages' loop over requests. */
    method Serve(r: Request, messages: seq<Msg>, closing: bool) returns (rest: seq<Msg>)
      requires Distinct(requests) && r.demand >= 0
      modifies this`requests, this`log, r
      ensures Distinct(requests) && All(requests) == All(old(requests)) - (if old(r.closed) || closing then {r} else {})
      ensures var n := Less(old(r.demand), |messages|);
              if old(r.closed) || closing
              then rest == messages && log == old(log) && r.demand == old(r.demand)
              else rest == messages[n..] && r.demand == old(r.demand) - n &&
                   log == old(log) + [Delivery(r, messages[..n], round)]
      ensures !old(r.closed) && !closing ==> r.demand == 0 || rest == []
      ensures r.closed <==> old(r.closed) || closing
    {
      var demand := Less(r.demand, |messages|);
      var ok := r.Reply(closing);
      if !ok {
        if r.closed {
          Remove(r);
        }
        return messages;
      }
      log := log + [Delivery(r, messages[..demand], round)];
      rest := messages[demand..];
      r.demand := r.demand - demand;
    }

    /** The loop at the end of a round: satisfied requests are closed and dropped. */
    method Sweep()
      requires Distinct(requests)
      modifies this`requests, All(requests)
      ensures Distinct(requests)
      ensures forall r :: r in requests <==> r in old(requests) && r.demand > 0
      ensures forall r <- old(requests) ::
                r.demand == old(r.demand) && (r.closed <==> old(r.closed) || r.demand <= 0)
    {
      var snapshot := requests;
      for i := 0 to |snapshot|
        invariant Distinct(requests) && All(requests) <= All(snapshot)
        invariant forall r <- snapshot :: r.demand == old(r.demand) && (old(r.closed) ==> r.closed)
        invariant forall r <- snapshot :: r.closed ==> old(r.closed) || r.demand <= 0
        invariant forall j :: 0 <= j < i ==>
                    (snapshot[j].demand <= 0 ==> snapshot[j].closed && snapshot[j] !in requests)
        invariant forall j :: 0 <= j < |snapshot| ==> (j >= i || snapshot[j].demand > 0 ==> snapshot[j] in requests)
      {
        var r := snapshot[i];
        if r.demand <= 0 {
          r.Close();
          assert forall q :: q in requests <==> q in All(requests);
          Remove(r);
          assert forall q :: q in requests <==> q in All(requests);
        }
      }
      assert forall q :: q in requests <==> q in All(requests);
    }

    /** One turn of sendMessages' outer loop; `closing` are the processors that close their requests meanwhile. */
    method Round(messages: seq<Msg>, closing: set<string>) returns (rest: seq<Msg>)
      requires Valid()
      modifies this`requests, this`log, this`round, known
      ensures Valid() && (forall r <- requests :: r in old(requests) && r.demand > 0) && round == old(round) + 1
      ensures Sent(log) + rest == Sent(old(log)) + messages && |rest| <= |messages|
      ensures messages != [] && |rest| == |messages| ==>
                forall r <- old(requests) :: old(r.closed) || r.processorId in closing || old(r.demand) == 0
      ensures rest != [] ==> forall r <- old(requests) :: old(r.closed) || r.processorId in closing || r.demand == 0
      ensures old(log) <= log && Shut() <= old(Shut())
    {
      rest := Offer(messages, closing);
      assert forall r <- requests :: r in All(requests);
      Sweep();
      assert forall r <- requests :: r in All(requests);
      round := round + 1;
    }

    /** The loop over the requests of a round. */
    method Offer(messages: seq<Msg>, closing: set<string>) returns (rest: seq<Msg>)
      requires Valid()
      modifies this`requests, this`log, known
      ensures Valid() && forall r <- requests :: r in old(requests)
      ensures Sent(log) + rest == Sent(old(log)) + messages && |rest| <= |messages|
      ensures messages != [] && |rest| == |messages| ==>
                forall r <- old(requests) :: old(r.closed) || r.processorId in closing || old(r.demand) == 0
      ensures rest != [] ==> forall r <- old(requests) :: old(r.closed) || r.processorId in closing || r.demand == 0
      ensures old(log) <= log && Shut() <= old(Shut())
    {
      rest := messages;
      var snapshot := requests;
      assert forall r <- snapshot :: r in All(snapshot);
      for i := 0 to |snapshot|
        invariant Valid() && known == old(known) && All(requests) <= All(snapshot)
        invariant Sent(log) + rest == Sent(old(log)) + messages && |rest| <= |messages|
        invariant forall j :: i <= j < |snapshot| ==> snapshot[j].demand == old(snapshot[j].demand)
        invariant forall j :: i <= j < |snapshot| ==> snapshot[j].closed == old(snapshot[j].closed)
        invariant old(log) <= log && Shut() <= old(Shut())
        invariant rest != [] ==> forall j :: 0 <= j < i ==>
                    old(snapshot[j].closed) || snapshot[j].processorId in closing || snapshot[j].demand == 0
      {
        if rest == [] {
          break;
        }
        rest := ServeKnown(snapshot[i], rest, snapshot[i].processorId in closing);
      }
      assert forall r <- requests :: r in All(requests);
      if messages != [] && |rest| == |messages| {
        NothingGiven(old(log), log, known);
      }
    }

    method ServeKnown(r: Request, messages: seq<Msg>, closing: bool) returns (rest: seq<Msg>)
      requires Valid() && r in known
      modifies this`requests, this`log, r
      ensures Valid() && All(requests) <= All(old(requests))
      ensures Sent(log) + rest == Sent(old(log)) + messages && |rest| <= |messages|
      ensures rest != [] ==> old(r.closed) || closing || r.demand == 0
      ensures old(log) <= log && Shut() <= old(Shut())
    {
      ghost var before, n := log, Less(r.demand, |messages|);
      rest := Serve(r, messages, closing);
      if log != before {
        LogGrows(before, Delivery(r, messages[..n], round), known);
        SentInPart(Sent(before), messages, n);
      }
      forall q | q in Shut() ensures q in old(Shut()) {
        assert q in All(requests) && q in All(old(requests));
      }
    }

    /** One turn with the arrivals before it. */
    method TakeTurn(messages: seq<Msg>, turn: Turn) returns (rest: seq<Msg>, ghost news: seq<Request>)
      requires Valid()
      modifies this, known
      ensures Valid() && fresh(known - old(known)) && old(known) <= known && round == old(round) + 1
      ensures Sent(log) + rest == Sent(old(log)) + messages
      ensures Arrived([], news, turn.arrivals) && forall r <- news :: fresh(r) && r in known
      ensures Shut() <= old(Shut()) && forall r <- requests :: r in old(requests) + news
      ensures rest != [] ==> forall r <- old(requests) + news ::
                r in old(Shut()) || r.processorId in turn.closing || r.demand == 0
      ensures forall r <- old(known) :: r.demand <= old(r.demand)
    {
      ghost var before, taken := requests, log;
      ArriveAll(turn.arrivals);
      news := requests[|before|..];
      assert requests == before + news;
      rest := Round(messages, turn.closing);
      GivenGrows(taken, log, known);
    }

    /** sendMessages over any number of rounds, with requests arriving between them: what has been delivered, in
        order, followed by what is left is the input; nobody is given more than was asked for; and if anything is left,
        all rounds have been made and every request, those that arrived included, was closed at the start or by its
        processor, or has been given all it asked for. */
    method SendMessages(messages: seq<Msg>, turns: seq<Turn>) returns (rest: seq<Msg>, ghost arrived: seq<Request>)
      requires Valid()
      modifies this, known
      ensures Valid()
      ensures Sent(log) + rest == Sent(old(log)) + messages
      ensures forall r <- known :: Given(log, r) <= r.initial
      ensures forall r <- arrived :: fresh(r) && r in known
      ensures rest != [] ==> Arrived([], arrived, Arrivals(turns)) && round == old(round) + |turns|
      ensures rest != [] && turns != [] ==>
                forall r <- old(requests) + arrived ::
                  r in old(Shut()) || ClosedIn(turns, r.processorId) || Given(log, r) == r.initial
    {
      rest, arrived := messages, [];
      for i := 0 to |turns|
        invariant Valid() && fresh(known - old(known)) && old(known) <= known && round == old(round) + i
        invariant Sent(log) + rest == Sent(old(log)) + messages
        invariant Arrived([], arrived, Arrivals(turns[..i])) && forall r <- arrived :: fresh(r) && r in known
        invariant Shut() <= old(Shut()) && forall r <- requests :: r in old(requests) + arrived
        invariant i == 0 ==> requests == old(requests)
        invariant i > 0 && rest != [] ==> forall r <- old(requests) + arrived ::
                    r in old(Shut()) || ClosedIn(turns[..i], r.processorId) || r.demand == 0
      {
        if rest == [] {
          return;
        }
        ghost var news;
        rest, news := TakeTurn(rest, turns[i]);
        ArrivalsMore(turns, i, arrived, news);
        arrived := arrived + news;
      }
      assert turns[..|turns|] == turns;
    }

    method ArriveAll(arrivals: seq<(string, nat)>)
      requires Counted()
      modifies this`requests, this`known
      ensures Counted() && (old(Valid()) ==> Valid()) && fresh(known - old(known)) && log == old(log)
      ensures Arrived(old(requests), requests, arrivals) && Shut() == old(Shut()) && old(known) <= known
      ensures forall r <- requests[|old(requests)|..] :: fresh(r) && r in known
    {
      for i := 0 to |arrivals|
        invariant Counted() && (old(Valid()) ==> Valid()) && fresh(known - old(known)) && log == old(log)
        invariant Arrived(old(requests), requests, arrivals[..i]) && Shut() == old(Shut()) && old(known) <= known
        invariant forall r <- requests[|old(requests)|..] :: fresh(r) && r in known
      {
        var r := Arrive(arrivals[i].0, arrivals[i].1);
        assert Shut() == old(Shut());
      }
      assert arrivals[..|arrivals|] == arrivals;
    }

    // ---- messages with partition keys ----

    /** lo.GroupBy: each key's messages in their order. */
    static method GroupByKey(messages: seq<Msg>) returns (groups: map<string, seq<Msg>>)
      ensures GroupsOf(groups) && forall key :: Group(groups, key) == OfKey(messages, key)
      ensures forall key <- groups :: groups[key] != []
    {
      groups := map[];
      for i := 0 to |messages|
        invariant GroupsOf(groups) && forall key :: Group(groups, key) == OfKey(messages[..i], key)
        invariant forall key <- groups :: groups[key] != []
      {
        assert messages[..i + 1][..i] == messages[..i];
        var key := messages[i].partitionKey;
        groups := groups[key := Group(groups, key) + [messages[i]]];
      }
      assert messages[..|messages|] == messages;
    }

    /** lo.Find: the first request of the processor, if it has one. */
    method FindRequest(processorId: string) returns (r: Option<Request>)
      ensures r.Some? ==> FirstOf(requests, processorId, r.value)
      ensures r.None? ==> forall q <- requests :: q.processorId != processorId
    {
      for i := 0 to |requests|
        invariant forall j :: 0 <= j < i ==> requests[j].processorId != processorId
      {
        if requests[i].processorId == processorId {
          return Some(requests[i]);
        }
      }
      return None;
    }

    /** The reply to a request, which is dropped if it turns out to be closed. */
    method ReplyOrDrop(r: Request, closing: set<string>) returns (ok: bool)
      requires Distinct(requests) && r in requests
      modifies this`requests, r`closed
      ensures ok <==> !old(r.closed) && r.processorId !in closing
      ensures r.closed <==> !ok
      ensures requests == if ok then old(requests) else Without(old(requests), r)
      ensures Distinct(requests) && All(requests) == All(old(requests)) - (if ok then {} else {r})
      ensures OnlyBlockedGone(old(requests), old(Shut()), requests, Shut(), closing)
      ensures ok ==> Shut() == old(Shut())
    {
      ok := r.Reply(r.processorId in closing);
      if !ok {
        if r.closed {
          Remove(r);
        }
        forall q | q in Shut() ensures q in old(Shut()) {
          WithoutMember(old(requests), r, q);
        }
        assert r in old(Shut()) || r.processorId in closing;
        RemovalGone(old(requests), old(Shut()), Shut(), closing, r);
      }
    }

    /** A group has gone out to a request, whatever is left of its demand. */
    method CountDelivery(r: Request, group: seq<Msg>)
      requires Counted() && r in All(requests)
      modifies this`log, r`demand
      ensures Counted() && log == old(log) + [Delivery(r, group, round)] && r.demand == old(r.demand) - |group|
      ensures Shut() == old(Shut())
    {
      LogGrows(log, Delivery(r, group, round), known);
      log := log + [Delivery(r, group, round)];
      r.demand := r.demand - |group|;
    }

    /** The body of sendPartitionedMessages' loop for one key; `owner` is what the resolver answers. */
    method ServeGroup(group: seq<Msg>, owner: Option<string>, closing: set<string>) returns (ok: bool)
      requires Counted()
      modifies this`requests, this`log, known
      ensures Counted() && known == old(known)
      ensures !ok ==> log == old(log)
      ensures ok ==> |log| == |old(log)| + 1 && log[..|old(log)|] == old(log)
      ensures ok ==> var d := log[|old(log)|];
                     d.messages == group && d.round == round && owner.Some? &&
                       FirstOf(old(requests), owner.value, d.request) &&
                       d.request.demand == old(d.request.demand) - |group|
      ensures ok <==> owner.Some? && !Blocked(old(requests), old(Shut()), closing, owner.value)
      ensures OnlyBlockedGone(old(requests), old(Shut()), requests, Shut(), closing)
    {
      if owner.None? {
        return false;
      }
      var found := FindRequest(owner.value);
      if found.None? {
        return false;
      }
      var r := found.value;
      assert r in All(requests);
      BlockedByFirst(requests, Shut(), closing, owner.value, r);
      ok := ReplyOrDrop(r, closing);
      if !ok {
        return;
      }
      CountDelivery(r, group);
      assert requests == old(requests) && Shut() == old(Shut());
    }

    /** One group of a round. */
    method OfferGroup(hash: Hash, key: string, groups: map<string, seq<Msg>>, ring: Resolver, closing: set<string>)
      returns (rest: map<string, seq<Msg>>)
      requires Counted() && GroupsOf(groups) && key in groups && Sorted(hash, ring(key))
      modifies this`requests, this`log, known
      ensures Counted() && known == old(known)
      ensures rest == groups || rest == groups - {key}
      ensures Lines(Sent(log), rest, Sent(old(log)), groups)
      ensures OnlyRouted(old(log), log, groups, hash, ring, round)
      ensures key in rest <==> PassedOver(hash, ring, key, old(requests), old(Shut()), closing)
      ensures OnlyBlockedGone(old(requests), old(Shut()), requests, Shut(), closing)
    {
      rest := groups;
      ghost var before := log;
      var owner := HashRingObject.HashRing.Nearest(hash, ring(key), key);
      OwnerDecides(hash, ring, key, requests, Shut(), closing, owner);
      var ok := ServeGroup(groups[key], owner, closing);
      if ok {
        assert log == before + [log[|before|]];
        GroupDelivered(before, log[|before|], groups, key, hash, ring, round);
        rest := groups - {key};
      }
    }

    /** The loop of one round over the groups, in any order. */
    method OfferGroups(hash: Hash, groups: map<string, seq<Msg>>, ring: Resolver, closing: set<string>)
      returns (rest: map<string, seq<Msg>>)
      requires Counted() && GroupsOf(groups) && Ordered(hash, ring)
      modifies this`requests, this`log, known
      ensures Counted() && known == old(known) && Within(rest, groups)
      ensures Lines(Sent(log), rest, Sent(old(log)), groups)
      ensures OnlyRouted(old(log), log, groups, hash, ring, round)
      ensures forall key <- rest :: PassedOver(hash, ring, key, old(requests), old(Shut()), closing)
      ensures OnlyBlockedGone(old(requests), old(Shut()), requests, Shut(), closing)
    {
      rest := groups;
      var left := groups.Keys;
      LinesAtStart(Sent(log), groups);
      while left != {}
        invariant left <= rest.Keys && Within(rest, groups)
        invariant Counted() && known == old(known)
        invariant Lines(Sent(log), rest, Sent(old(log)), groups)
        invariant OnlyRouted(old(log), log, groups, hash, ring, round)
        invariant OnlyBlockedGone(old(requests), old(Shut()), requests, Shut(), closing)
        invariant forall key <- rest ::
                    key in left || PassedOver(hash, ring, key, old(requests), old(Shut()), closing)
        decreases left
      {
        HasKey(left);
        var key: string :| key in left;
        left := left - {key};
        ghost var before, restBefore, requestsBefore, shutBefore := log, rest, requests, Shut();
        rest := OfferGroup(hash, key, rest, ring, closing);
        GoneChain(old(requests), old(Shut()), requestsBefore, shutBefore, requests, Shut(), closing);
        if key in rest {
          WasPassedOver(hash, ring, key, old(requests), old(Shut()), requestsBefore, shutBefore, closing);
        }
        LinesChain(Sent(log), rest, Sent(before), restBefore, Sent(old(log)), groups);
        RoutedChain(old(log), before, log, restBefore, groups, hash, ring, round);
      }
    }

    /** One round: groups, then the closing of satisfied requests. */
    method RoundByKey(hash: Hash, groups: map<string, seq<Msg>>, ring: Resolver, closing: set<string>)
      returns (rest: map<string, seq<Msg>>)
      requires Counted() && GroupsOf(groups) && Ordered(hash, ring)
      modifies this`requests, this`log, this`round, known
      ensures Counted() && known == old(known) && Within(rest, groups) && round == old(round) + 1
      ensures Lines(Sent(log), rest, Sent(old(log)), groups)
      ensures OnlyRouted(old(log), log, groups, hash, ring, old(round))
      ensures forall key <- rest :: PassedOver(hash, ring, key, old(requests), old(Shut()), closing)
      ensures forall r <- requests :: r in old(requests) && r.demand > 0
      ensures forall r <- old(requests) :: r.demand <= 0 ==> r.closed && r !in requests
      ensures Shut() <= old(Shut())
    {
      rest := OfferGroups(hash, groups, ring, closing);
      assert forall r <- requests :: r in All(requests);
      Sweep();
      assert forall r <- requests :: r in All(requests);
      round := round + 1;
    }

    /** sendPartitionedMessages over any number of rounds, during which requests arrive and the ring may change at any
        time. For every key, what has been delivered of it followed by what is left is what had been delivered
        before followed by the input's messages of that key, in order; groups go out whole, each to the owner of
        its key on the ring as looked up in that very round; and if nothing is left, all has been delivered. */
    method SendPartitionedMessages(hash: Hash, messages: seq<Msg>, turns: seq<KeyTurn>)
      returns (rest: map<string, seq<Msg>>, ghost groups: map<string, seq<Msg>>)
      requires Counted() && forall turn <- turns :: Ordered(hash, turn.ring)
      modifies this, known
      ensures Counted() && Within(rest, groups)
      ensures forall key :: Group(groups, key) == OfKey(messages, key)
      ensures forall key ::
                OfKey(Sent(log), key) + Group(rest, key) == OfKey(Sent(old(log)), key) + OfKey(messages, key)
      ensures rest == map[] ==> forall key :: OfKey(Sent(log), key) == OfKey(Sent(old(log)), key) + OfKey(messages, key)
      ensures RoutedInTheirRounds(old(log), log, groups, hash, turns, old(round))
      ensures Waited(hash, turns, |turns|, rest.Keys, old(requests), old(Shut()))
    {
      rest := GroupByKey(messages);
      groups := rest;
      LinesAtStart(Sent(log), groups);
      for i := 0 to |turns|
        invariant Counted() && fresh(known - old(known)) && Within(rest, groups) && round == old(round) + i
        invariant Lines(Sent(log), rest, Sent(old(log)), groups)
        invariant RoutedInTheirRounds(old(log), log, groups, hash, turns, old(round))
        invariant Shut() <= old(Shut()) && (i == 0 ==> requests == old(requests))
        invariant Waited(hash, turns, i, rest.Keys, old(requests), old(Shut()))
      {
        if rest == map[] {
          assert Waited(hash, turns, |turns|, rest.Keys, old(requests), old(Shut()));
          break;
        }
        ghost var waiting := requests;
        ArriveAll(turns[i].arrivals);
        ghost var present, shut := requests, Shut();
        ghost var before, restBefore := log, rest;
        rest := RoundByKey(hash, rest, turns[i].ring, turns[i].closing);
        LinesChain(Sent(log), rest, Sent(before), restBefore, Sent(old(log)), groups);
        RoundsChain(old(log), before, log, restBefore, groups, hash, turns, old(round), i);
        WaitedMore(hash, turns, i, restBefore.Keys, rest.Keys, old(requests), old(Shut()), waiting, present, shut);
      }
      LinesEnd(Sent(log), rest, Sent(old(log)), groups, messages);
    }
  }

  /** The earliest request of the processor. */
  ghost predicate FirstOf(requests: seq<Request>, processorId: string, r: Request) {
    exists i :: 0 <= i < |requests| && requests[i] == r && r.processorId == processorId &&
                forall j :: 0 <= j < i ==> requests[j].processorId != processorId
  }

  /** A group for this processor cannot go out: the processor is closing its requests, it has none, or its first one
      is closed. */
  ghost predicate Blocked(requests: seq<Request>, shut: set<Request>, closing: set<string>, processorId: string) {
    || processorId in closing
    || (forall r <- requests :: r.processorId != processorId)
    || exists r <- shut :: FirstOf(requests, processorId, r)
  }

  lemma BlockedByFirst(requests: seq<Request>, shut: set<Request>, closing: set<string>, processorId: string,
                       r: Request)
    requires FirstOf(requests, processorId, r)
    ensures Blocked(requests, shut, closing, processorId) <==> r in shut || processorId in closing
  {
    assert r in requests;
  }

  /** Only requests that were closed or are being closed have left the list, and no other has been closed. */
  ghost predicate OnlyBlockedGone(requests: seq<Request>, shut: set<Request>, requests': seq<Request>,
                                  shut': set<Request>, closing: set<string>) {
    && shut' <= shut && All(requests') <= All(requests)
    && (forall id: string :: !Blocked(requests, shut, closing, id) ==> !Blocked(requests', shut', closing, id))
  }

  lemma {:induction false} HasFirst(requests: seq<Request>, processorId: string) returns (q: Request)
    requires exists r <- requests :: r.processorId == processorId
    ensures FirstOf(requests, processorId, q) && q in requests
    decreases |requests|
  {
    var n := |requests| - 1;
    if exists r <- requests[..n] :: r.processorId == processorId {
      q := HasFirst(requests[..n], processorId);
      var i :| 0 <= i < n && requests[..n][i] == q && forall j :: 0 <= j < i ==>
                 requests[..n][j].processorId != processorId;
      assert requests[i] == q && forall j :: 0 <= j < i ==> requests[j] == requests[..n][j];
    } else {
      q := requests[n];
      assert forall j :: 0 <= j < n ==> requests[..n][j] == requests[j] && requests[j] in requests[..n];
      assert requests == requests[..n] + [q];
    }
  }

  lemma RemovalGone(requests: seq<Request>, shut: set<Request>, shut': set<Request>, closing: set<string>, r: Request)
    requires (r in shut || r.processorId in closing) && shut' <= shut
    ensures OnlyBlockedGone(requests, shut, Without(requests, r), shut', closing)
  {
    var rest := Without(requests, r);
    WithoutMembers(requests, r);
    forall id: string | !Blocked(requests, shut, closing, id) ensures !Blocked(rest, shut', closing, id) {
      var q := HasFirst(requests, id);
      BlockedByFirst(requests, shut, closing, id, q);
      FirstStays(requests, r, id, q);
      BlockedByFirst(rest, shut', closing, id, q);
    }
  }

  lemma GoneChain(requests: seq<Request>, shut: set<Request>, requests': seq<Request>, shut': set<Request>,
                  requests'': seq<Request>, shut'': set<Request>, closing: set<string>)
    requires OnlyBlockedGone(requests, shut, requests', shut', closing)
    requires OnlyBlockedGone(requests', shut', requests'', shut'', closing)
    ensures OnlyBlockedGone(requests, shut, requests'', shut'', closing)
  {
  }

  /** A key's group cannot go out in a round: its key has no owner, or a group for the owner cannot go out. */
  ghost predicate PassedOver(hash: Hash, ring: Resolver, key: string, requests: seq<Request>, shut: set<Request>,
                             closing: set<string>) {
    ring(key) == [] ||
    exists id: string :: Owns(hash, Members(ring(key)), id, key) && Blocked(requests, shut, closing, id)
  }

  lemma OwnerDecides(hash: Hash, ring: Resolver, key: string, requests: seq<Request>, shut: set<Request>,
                     closing: set<string>, owner: Option<string>)
    requires owner.None? <==> ring(key) == []
    requires owner.Some? ==> forall id: string :: Owns(hash, Members(ring(key)), id, key) <==> id == owner.value
    ensures PassedOver(hash, ring, key, requests, shut, closing) <==>
            owner.None? || Blocked(requests, shut, closing, owner.value)
  {
  }

  lemma WasPassedOver(hash: Hash, ring: Resolver, key: string, requests: seq<Request>, shut: set<Request>,
                      requests': seq<Request>, shut': set<Request>, closing: set<string>)
    requires OnlyBlockedGone(requests, shut, requests', shut', closing)
    requires PassedOver(hash, ring, key, requests', shut', closing)
    ensures PassedOver(hash, ring, key, requests, shut, closing)
  {
  }

  predicate IsFor(r: Request, arrival: (string, nat)) {
    r.processorId == arrival.0 && r.initial == arrival.1
  }

  /** The list with a request for each arrival, in their order. */
  ghost predicate Arrived(before: seq<Request>, requests: seq<Request>, arrivals: seq<(string, nat)>) {
    && before <= requests && |requests| == |before| + |arrivals|
    && forall j :: 0 <= j < |arrivals| ==> IsFor(requests[|before| + j], arrivals[j])
  }

  /** All that arrives over some turns. */
  function Arrivals(turns: seq<Turn>): seq<(string, nat)> {
    if turns == [] then [] else Arrivals(turns[..|turns| - 1]) + turns[|turns| - 1].arrivals
  }

  lemma ArrivalsMore(turns: seq<Turn>, i: nat, arrived: seq<Request>, news: seq<Request>)
    requires i < |turns| && Arrived([], arrived, Arrivals(turns[..i])) && Arrived([], news, turns[i].arrivals)
    ensures Arrived([], arrived + news, Arrivals(turns[..i + 1]))
    ensures forall id: string :: ClosedIn(turns[..i + 1], id) <==> ClosedIn(turns[..i], id) || id in turns[i].closing
  {
    assert turns[..i + 1][..i] == turns[..i];
    assert turns[..i + 1] == turns[..i] + [turns[i]];
  }

  predicate ClosedIn(turns: seq<Turn>, processorId: string) {
    exists turn <- turns :: processorId in turn.closing
  }

  lemma {:induction false} GivenIn(log: seq<Delivery>, log': seq<Delivery>, r: Request)
    requires log <= log'
    ensures Given(log, r) <= Given(log', r) && |Sent(log)| <= |Sent(log')|
    ensures |Sent(log')| == |Sent(log)| ==> Given(log', r) == Given(log, r)
    decreases |log'|
  {
    if log != log' {
      GivenIn(log, log'[..|log'| - 1], r);
    }
  }

  lemma GivenGrows(log: seq<Delivery>, log': seq<Delivery>, requests: set<Request>)
    requires log <= log'
    ensures forall r <- requests :: Given(log, r) <= Given(log', r)
  {
    forall r | r in requests ensures Given(log, r) <= Given(log', r) {
      GivenIn(log, log', r);
    }
  }

  lemma NothingGiven(log: seq<Delivery>, log': seq<Delivery>, requests: set<Request>)
    requires log <= log' && |Sent(log')| == |Sent(log)|
    ensures forall r <- requests :: Given(log', r) == Given(log, r)
  {
    forall r | r in requests ensures Given(log', r) == Given(log, r) {
      GivenIn(log, log', r);
    }
  }

  /** Why a key's group did not go out in round i, in terms of what was there at the start and what arrived: the key
      had no owner, or its owner was closing its requests, or had one that was closed at the start, or no request of it
      arrived for the round (nor, for the first round, was there one at the start). */
  ghost predicate WaitedIn(hash: Hash, turns: seq<KeyTurn>, i: nat, key: string, requests: seq<Request>,
                           shut: set<Request>)
    requires i < |turns|
  {
    var turn := turns[i];
    turn.ring(key) == [] ||
    exists id: string :: Owns(hash, Members(turn.ring(key)), id, key) &&
      (id in turn.closing || HasRequest(shut, id) ||
       ((forall a <- turn.arrivals :: a.0 != id) && (i == 0 ==> !HasRequest(All(requests), id))))
  }

  ghost predicate Waited(hash: Hash, turns: seq<KeyTurn>, n: nat, keys: set<string>, requests: seq<Request>,
                         shut: set<Request>)
    requires n <= |turns|
  {
    forall key: string, i | key in keys && 0 <= i < n :: WaitedIn(hash, turns, i, key, requests, shut)
  }

  lemma WaitedMore(hash: Hash, turns: seq<KeyTurn>, i: nat, keys: set<string>, left: set<string>, start: seq<Request>,
                   closed: set<Request>, before: seq<Request>, requests: seq<Request>, shut: set<Request>)
    requires i < |turns| && left <= keys && Waited(hash, turns, i, keys, start, closed)
    requires forall key <- left :: PassedOver(hash, turns[i].ring, key, requests, shut, turns[i].closing)
    requires Arrived(before, requests, turns[i].arrivals) && shut <= closed && (i == 0 ==> before == start)
    ensures Waited(hash, turns, i + 1, left, start, closed)
  {
    forall key: string, j | key in left && 0 <= j < i + 1 ensures WaitedIn(hash, turns, j, key, start, closed) {
      if j == i {
        PassedOverWaits(hash, turns, i, key, start, closed, before, requests, shut);
      }
    }
  }

  ghost predicate HasRequest(requests: set<Request>, processorId: string) {
    exists r <- requests :: r.processorId == processorId
  }

  lemma PassedOverWaits(hash: Hash, turns: seq<KeyTurn>, i: nat, key: string, start: seq<Request>, closed: set<Request>,
                        before: seq<Request>, requests: seq<Request>, shut: set<Request>)
    requires i < |turns| && PassedOver(hash, turns[i].ring, key, requests, shut, turns[i].closing)
    requires Arrived(before, requests, turns[i].arrivals) && shut <= closed && (i == 0 ==> before == start)
    ensures WaitedIn(hash, turns, i, key, start, closed)
  {
    var turn := turns[i];
    if turn.ring(key) != [] {
      var id: string :| Owns(hash, Members(turn.ring(key)), id, key) && Blocked(requests, shut, turn.closing, id);
      if id !in turn.closing && !HasRequest(closed, id) {
        BlockedForLack(requests, shut, closed, turn.closing, id);
        NoneArrived(before, requests, turn.arrivals, id);
      }
    }
  }

  lemma BlockedForLack(requests: seq<Request>, shut: set<Request>, closed: set<Request>, closing: set<string>,
                       id: string)
    requires Blocked(requests, shut, closing, id) && id !in closing && shut <= closed && !HasRequest(closed, id)
    ensures forall r <- requests :: r.processorId != id
  {
  }

  lemma NoneArrived(before: seq<Request>, requests: seq<Request>, arrivals: seq<(string, nat)>, id: string)
    requires Arrived(before, requests, arrivals) && forall r <- requests :: r.processorId != id
    ensures (forall a <- arrivals :: a.0 != id) && !HasRequest(All(before), id)
  {
    forall j | 0 <= j < |arrivals| ensures arrivals[j].0 != id {
      assert requests[|before| + j] in requests && IsFor(requests[|before| + j], arrivals[j]);
    }
    assert forall j :: 0 <= j < |before| ==> before[j] == requests[j] && requests[j] in requests;
  }

  /** For every key, what has been sent of it followed by what is left is what had been sent and was to be sent. */
  ghost predicate Lines(sent: seq<Msg>, rest: map<string, seq<Msg>>, before: seq<Msg>, groups: map<string, seq<Msg>>) {
    forall key :: OfKey(sent, key) + Group(rest, key) == OfKey(before, key) + Group(groups, key)
  }

  /** The ring's list of processors, as the lookup of each key finds it. */
  type Resolver = string -> seq<Node>

  ghost predicate Ordered(hash: Hash, ring: Resolver) {
    forall key :: Sorted(hash, ring(key))
  }

  /** A delivery is a whole group, to the owner of its key. */
  ghost predicate Routed(d: Delivery, groups: map<string, seq<Msg>>, hash: Hash, ring: Resolver) {
    exists key :: key in groups && d.messages == groups[key] &&
      Owns(hash, Members(ring(key)), d.request.processorId, key)
  }

  /** Everything a round added to the log is such a delivery. */
  ghost predicate OnlyRouted(log: seq<Delivery>, log': seq<Delivery>, groups: map<string, seq<Msg>>,
                             hash: Hash, ring: Resolver, round: nat) {
    log <= log' && forall i :: |log| <= i < |log'| ==> Routed(log'[i], groups, hash, ring) && log'[i].round == round
  }

  /** Everything the rounds from `start` on added is such a delivery, by the ring of its own round. */
  ghost predicate RoutedInTheirRounds(log: seq<Delivery>, log': seq<Delivery>, groups: map<string, seq<Msg>>,
                                      hash: Hash,
                                      turns: seq<KeyTurn>, start: nat) {
    && log <= log'
    && forall i :: |log| <= i < |log'| ==> RoutedInItsRound(log'[i], groups, hash, turns, start)
  }

  ghost predicate RoutedInItsRound(d: Delivery, groups: map<string, seq<Msg>>, hash: Hash, turns: seq<KeyTurn>,
                                   start: nat) {
    start <= d.round < start + |turns| && Routed(d, groups, hash, turns[d.round - start].ring)
  }

  predicate Within(rest: map<string, seq<Msg>>, groups: map<string, seq<Msg>>) {
    GroupsOf(groups) && forall key <- rest :: key in groups && rest[key] == groups[key]
  }

  lemma RoutedWithin(d: Delivery, rest: map<string, seq<Msg>>, groups: map<string, seq<Msg>>, hash: Hash,
                     ring: Resolver)
    requires Within(rest, groups) && Routed(d, rest, hash, ring)
    ensures Routed(d, groups, hash, ring)
  {
  }

  lemma RoutedChain(log: seq<Delivery>, log': seq<Delivery>, log'': seq<Delivery>, rest: map<string, seq<Msg>>,
                    groups: map<string, seq<Msg>>, hash: Hash, ring: Resolver, round: nat)
    requires Within(rest, groups)
    requires OnlyRouted(log, log', groups, hash, ring, round) && OnlyRouted(log', log'', rest, hash, ring, round)
    ensures OnlyRouted(log, log'', groups, hash, ring, round)
  {
    forall i | |log| <= i < |log''| ensures Routed(log''[i], groups, hash, ring) && log''[i].round == round {
      if i < |log'| {
        assert log''[i] == log'[i];
      } else {
        RoutedWithin(log''[i], rest, groups, hash, ring);
      }
    }
  }

  lemma RoundsChain(log: seq<Delivery>, log': seq<Delivery>, log'': seq<Delivery>, rest: map<string, seq<Msg>>,
                    groups: map<string, seq<Msg>>, hash: Hash, turns: seq<KeyTurn>, start: nat, turn: nat)
    requires Within(rest, groups) && turn < |turns|
    requires RoutedInTheirRounds(log, log', groups, hash, turns, start)
    requires OnlyRouted(log', log'', rest, hash, turns[turn].ring, start + turn)
    ensures RoutedInTheirRounds(log, log'', groups, hash, turns, start)
  {
    forall i | |log| <= i < |log''| ensures RoutedInItsRound(log''[i], groups, hash, turns, start) {
      if i < |log'| {
        assert log''[i] == log'[i];
      } else {
        RoutedWithin(log''[i], rest, groups, hash, turns[turn].ring);
      }
    }
  }

  lemma LinesChain(sent: seq<Msg>, rest: map<string, seq<Msg>>, sent': seq<Msg>, rest': map<string, seq<Msg>>,
                   before: seq<Msg>, groups: map<string, seq<Msg>>)
    requires Lines(sent, rest, sent', rest') && Lines(sent', rest', before, groups)
    ensures Lines(sent, rest, before, groups)
  {
  }

  lemma LinesEnd(sent: seq<Msg>, rest: map<string, seq<Msg>>, before: seq<Msg>, groups: map<string, seq<Msg>>,
                 messages: seq<Msg>)
    requires Lines(sent, rest, before, groups) && forall key :: Group(groups, key) == OfKey(messages, key)
    ensures forall key :: OfKey(sent, key) + Group(rest, key) == OfKey(before, key) + OfKey(messages, key)
    ensures rest == map[] ==> forall key :: OfKey(sent, key) == OfKey(before, key) + OfKey(messages, key)
  {
    forall key ensures OfKey(sent, key) + Group(rest, key) == OfKey(before, key) + OfKey(messages, key) {
      assert OfKey(sent, key) + Group(rest, key) == OfKey(before, key) + Group(groups, key);
    }
    if rest == map[] {
      forall key ensures OfKey(sent, key) == OfKey(before, key) + OfKey(messages, key) {
        assert OfKey(sent, key) + Group(rest, key) == OfKey(before, key) + OfKey(messages, key);
      }
    }
  }

  lemma LinesAtStart(sent: seq<Msg>, groups: map<string, seq<Msg>>)
    ensures Lines(sent, groups, sent, groups)
  {
  }

  lemma {:induction false} OfKeyConcat(a: seq<Msg>, b: seq<Msg>, key: string)
    ensures OfKey(a + b, key) == OfKey(a, key) + OfKey(b, key)
    decreases |b|
  {
    if b == [] {
      assert a + b == a;
    } else {
      assert (a + b)[..|a + b| - 1] == a + b[..|b| - 1];
      OfKeyConcat(a, b[..|b| - 1], key);
    }
  }

  lemma {:induction false} OfOneKey(group: seq<Msg>, key: string, k: string)
    requires forall m <- group :: m.partitionKey == key
    ensures OfKey(group, k) == if k == key then group else []
    decreases |group|
  {
    if group != [] {
      OfOneKey(group[..|group| - 1], key, k);
      assert group == group[..|group| - 1] + [group[|group| - 1]];
    }
  }

  lemma GroupMoves(sent: seq<Msg>, rest: map<string, seq<Msg>>, key: string, k: string)
    requires key in rest && forall m <- rest[key] :: m.partitionKey == key
    ensures OfKey(sent + rest[key], k) + Group(rest - {key}, k) == OfKey(sent, k) + Group(rest, k)
  {
    OfKeyConcat(sent, rest[key], k);
    OfOneKey(rest[key], key, k);
  }

  lemma GroupSent(sent: seq<Msg>, rest: map<string, seq<Msg>>, before: seq<Msg>, groups: map<string, seq<Msg>>,
                  key: string)
    requires Lines(sent, rest, before, groups) && key in rest && forall m <- rest[key] :: m.partitionKey == key
    ensures Lines(sent + rest[key], rest - {key}, before, groups)
  {
    forall k ensures OfKey(sent + rest[key], k) + Group(rest - {key}, k) == OfKey(before, k) + Group(groups, k) {
      GroupMoves(sent, rest, key, k);
    }
  }

  lemma GroupDelivered(log: seq<Delivery>, d: Delivery, groups: map<string, seq<Msg>>, key: string, hash: Hash,
                       ring: Resolver, round: nat)
    requires GroupsOf(groups) && key in groups && d.messages == groups[key] && d.round == round
    requires Owns(hash, Members(ring(key)), d.request.processorId, key)
    ensures Lines(Sent(log + [d]), groups - {key}, Sent(log), groups)
    ensures OnlyRouted(log, log + [d], groups, hash, ring, round)
  {
    SentMore(log, d);
    GroupSent(Sent(log), groups, Sent(log), groups, key);
  }

  lemma HasKey(keys: set<string>)
    ensures keys == {} || exists k: string :: k in keys
  {
    if forall k: string :: k !in keys {
      assert keys == {};
    }
  }

  /** The messages of one partition key, in order. */
  function OfKey(messages: seq<Msg>, key: string): seq<Msg> {
    if messages == [] then []
    else
      var last, rest := messages[|messages| - 1], OfKey(messages[..|messages| - 1], key);
      if last.partitionKey == key then rest + [last] else rest
  }

  function Group(groups: map<string, seq<Msg>>, key: string): seq<Msg> {
    if key in groups then groups[key] else []
  }

  predicate GroupsOf(groups: map<string, seq<Msg>>) {
    forall key <- groups :: forall m <- groups[key] :: m.partitionKey == key
  }

  /** What other goroutines do around one round. */
  datatype Turn = Turn(arrivals: seq<(string, nat)>, closing: set<string>)

  /** The same for keyed messages, with the ring that each lookup of the round finds. */
  datatype KeyTurn = KeyTurn(arrivals: seq<(string, nat)>, closing: set<string>, ring: Resolver)

  lemma SentInPart(sent: seq<Msg>, messages: seq<Msg>, n: nat)
    requires n <= |messages|
    ensures (sent + messages[..n]) + messages[n..] == sent + messages
  {
    assert messages == messages[..n] + messages[n..];
  }

  lemma LogGrows(log: seq<Delivery>, d: Delivery, requests: set<Request>)
    ensures Sent(log + [d]) == Sent(log) + d.messages
    ensures forall r <- requests :: Given(log + [d], r) == Given(log, r) + (if d.request == r then |d.messages| else 0)
  {
    SentMore(log, d);
    forall r | r in requests
      ensures Given(log + [d], r) == Given(log, r) + (if d.request == r then |d.messages| else 0)
    {
      GivenMore(log, d, r);
    }
  }
}
