/** The streamer's loop over the replication stream (pg/wal.go): from logical messages to transaction batches. */
module WalObject {
  import opened Keys
  import opened Wrappers
  import opened Cdc
  import opened MergerObject

  /** A relation as announced: its names and its columns. Rows and columns are opaque numbers. */
  datatype Relation = Relation(schema: string, table: string, columns: int)

  type Tuple = int

  /** How a tuple becomes a row, and which of the row's values is the key: both depend on the relation, and both are
      parameters. */
  datatype Decoding = Decoding(row: (Relation, Tuple) -> Row, key: (Relation, Option<Row>) -> PK)

  datatype Logical =
    | RelationMessage(id: nat, relation: Relation)
    | BeginMessage(xid: nat)
    | InsertMessage(relationID: nat, tuple: Option<Tuple>)
    | UpdateMessage(relationID: nat, oldTuple: Option<Tuple>, newTuple: Option<Tuple>)
    | DeleteMessage(relationID: nat, oldTuple: Option<Tuple>)
    | CommitMessage(lsn: nat)
    | OtherMessage

  predicate IsChange(m: Logical) {
    m.InsertMessage? || m.UpdateMessage? || m.DeleteMessage?
  }

  datatype StreamState = StreamState(relations: map<nat, Relation>, currentXID: nat, batch: seq<CDCEvent>)

  /** decodeTuple: a missing tuple gives no row. */
  function Decoded(d: Decoding, relation: Relation, tuple: Option<Tuple>): Option<Row> {
    if tuple.Some? then Some(d.row(relation, tuple.value)) else None
  }

  /** decodeInsert, decodeUpdate and decodeDelete. */
  function EventOf(d: Decoding, relation: Relation, m: Logical, xid: nat): CDCEvent
    requires IsChange(m)
  {
    match m
    case InsertMessage(_, tuple) =>
      var after := Decoded(d, relation, tuple);
      CDCEvent(relation.schema, relation.table, Insert, d.key(relation, after), None, after, xid, 0, 0, 0, Unset)
    case UpdateMessage(_, oldTuple, newTuple) =>
      var after := Decoded(d, relation, newTuple);
      CDCEvent(relation.schema, relation.table, Update, d.key(relation, after), Decoded(d, relation, oldTuple), after,
               xid, 0, 0, 0, Unset)
    case DeleteMessage(_, oldTuple) =>
      var before := Decoded(d, relation, oldTuple);
      CDCEvent(relation.schema, relation.table, Delete, d.key(relation, before), before, None, xid, 0, 0, 0, Unset)
  }

  /** One message: the new state, and the batch handed to the merger, if any. */
  function Received(d: Decoding, s: StreamState, m: Logical): (StreamState, seq<WalBatch>) {
    match m
    case RelationMessage(id, relation) => (s.(relations := s.relations[id := relation]), [])
    case BeginMessage(xid) => (s.(currentXID := xid, batch := []), [])
    case CommitMessage(lsn) => (s.(batch := []), [WalBatch(s.batch, lsn)])
    case OtherMessage => (s, [])
    case _ =>
      (if m.relationID in s.relations
       then s.(batch := s.batch + [EventOf(d, s.relations[m.relationID], m, s.currentXID)])
       else s,
       [])
  }

  /** The state and the batches handed to the merger after some messages. */
  function Streamed(d: Decoding, s: StreamState, messages: seq<Logical>): (StreamState, seq<WalBatch>) {
    if messages == [] then (s, [])
    else
      var (before, batches) := Streamed(d, s, messages[..|messages| - 1]);
      var (after, batch) := Received(d, before, messages[|messages| - 1]);
      (after, batches + batch)
  }

  class Streamer {
    const decoding: Decoding
    var relations: map<nat, Relation>
    var currentXID: nat
    var batch: seq<CDCEvent>
    var sent: seq<WalBatch>

    constructor (decoding: Decoding)
      ensures this.decoding == decoding && Now() == StreamState(map[], 0, []) && sent == []
    {
      this.decoding := decoding;
      relations, currentXID, batch, sent := map[], 0, [], [];
    }

    function Now(): StreamState
      reads this
    {
      StreamState(relations, currentXID, batch)
    }

    /** The part of run that deals with received messages. */
    method Run(messages: seq<Logical>)
      modifies this
      ensures Now() == Streamed(decoding, old(Now()), messages).0
      ensures sent == old(sent) + Streamed(decoding, old(Now()), messages).1
    {
      for i := 0 to |messages|
        invariant Now() == Streamed(decoding, old(Now()), messages[..i]).0
        invariant sent == old(sent) + Streamed(decoding, old(Now()), messages[..i]).1
      {
        assert messages[..i + 1][..i] == messages[..i];
        match messages[i]
        case RelationMessage(id, relation) => relations := relations[id := relation];
        case BeginMessage(xid) =>
          currentXID := xid;
          batch := [];
        case InsertMessage(relationID, tuple) => Append(messages[i]);
        case UpdateMessage(relationID, oldTuple, newTuple) => Append(messages[i]);
        case DeleteMessage(relationID, oldTuple) => Append(messages[i]);
        case CommitMessage(lsn) =>
          sent := sent + [WalBatch(batch, lsn)];
          batch := [];
        case OtherMessage =>
      }
      assert messages[..|messages|] == messages;
    }

    method Append(m: Logical)
      requires IsChange(m)
      modifies this`batch
      ensures batch == if m.relationID in relations
                       then old(batch) + [EventOf(decoding, relations[m.relationID], m, currentXID)]
                       else old(batch)
    {
      if m.relationID in relations {
        batch := batch + [EventOf(decoding, relations[m.relationID], m, currentXID)];
      }
    }
  }

  // ---- what the server sends ----

  /** What comes between the begin and the commit of a transaction. */
  predicate IsBody(body: seq<Logical>) {
    forall m <- body :: !m.BeginMessage? && !m.CommitMessage?
  }

  type Body = body: seq<Logical> | IsBody(body) witness []

  /** A committed transaction: changes, and announcements of relations anywhere among them. */
  datatype Transaction = Transaction(xid: nat, lsn: nat, body: Body)

  /** The stream of one transaction. */
  function Encoded(t: Transaction): seq<Logical> {
    [BeginMessage(t.xid)] + t.body + [CommitMessage(t.lsn)]
  }

  function Announced(relations: map<nat, Relation>, body: seq<Logical>): map<nat, Relation> {
    if body == [] then relations
    else
      var last, rest := body[|body| - 1], Announced(relations, body[..|body| - 1]);
      if last.RelationMessage? then rest[last.id := last.relation] else rest
  }

  /** The changes of known relations as events, in order. */
  function EventsOf(d: Decoding, relations: map<nat, Relation>, body: seq<Logical>, xid: nat): seq<CDCEvent> {
    if body == [] then []
    else
      var last, before := body[|body| - 1], body[..|body| - 1];
      var known, rest := Announced(relations, before), EventsOf(d, relations, before, xid);
      if IsChange(last) && last.relationID in known
      then rest + [EventOf(d, known[last.relationID], last, xid)]
      else rest
  }

  function EncodedAll(log: seq<Transaction>): seq<Logical> {
    if log == [] then [] else EncodedAll(log[..|log| - 1]) + Encoded(log[|log| - 1])
  }

  /** One batch per transaction: its changes, its transaction id on each, its commit position on the batch. */
  function BatchesOf(d: Decoding, relations: map<nat, Relation>, log: seq<Transaction>): seq<WalBatch> {
    if log == [] then []
    else
      var t, before := log[|log| - 1], log[..|log| - 1];
      BatchesOf(d, relations, before) +
        [WalBatch(EventsOf(d, Announced(relations, EncodedAll(before)), t.body, t.xid), t.lsn)]
  }

  lemma {:induction false} StreamedConcat(d: Decoding, s: StreamState, a: seq<Logical>, b: seq<Logical>)
    ensures var (mid, first) := Streamed(d, s, a);
            var (last, second) := Streamed(d, mid, b);
            Streamed(d, s, a + b).0 == last && Streamed(d, s, a + b).1 == first + second
    decreases |b|
  {
    if b == [] {
      assert a + b == a;
      assert Streamed(d, s, a).1 + [] == Streamed(d, s, a).1;
    } else {
      var n := |b| - 1;
      assert (a + b)[..|a + b| - 1] == a + b[..n];
      StreamedConcat(d, s, a, b[..n]);
      var (mid, first) := Streamed(d, s, a);
      var (late, second) := Streamed(d, mid, b[..n]);
      assert (first + second) + Received(d, late, b[n]).1 == first + (second + Received(d, late, b[n]).1);
    }
  }

  lemma {:induction false} StreamedBody(d: Decoding, s: StreamState, body: seq<Logical>)
    requires IsBody(body)
    ensures Streamed(d, s, body).0 == s.(relations := Announced(s.relations, body),
                                         batch := s.batch + EventsOf(d, s.relations, body, s.currentXID))
    ensures Streamed(d, s, body).1 == []
    decreases |body|
  {
    if body != [] {
      var n := |body| - 1;
      StreamedBody(d, s, body[..n]);
      assert body[n] in body;
      var now := Streamed(d, s, body[..n]).0;
      assert Received(d, now, body[n]).0.batch == s.batch + EventsOf(d, s.relations, body, s.currentXID);
    }
  }

  lemma StreamedMore(d: Decoding, s: StreamState, messages: seq<Logical>, m: Logical)
    ensures var (before, batches) := Streamed(d, s, messages);
            Streamed(d, s, messages + [m]).0 == Received(d, before, m).0 &&
            Streamed(d, s, messages + [m]).1 == batches + Received(d, before, m).1
  {
    assert (messages + [m])[..|messages|] == messages;
  }

  /** Whatever is left over from before, a transaction's messages give exactly its batch. */
  lemma StreamedTransaction(d: Decoding, s: StreamState, t: Transaction)
    ensures Streamed(d, s, Encoded(t)).0 == StreamState(Announced(s.relations, t.body), t.xid, [])
    ensures Streamed(d, s, Encoded(t)).1 == [WalBatch(EventsOf(d, s.relations, t.body, t.xid), t.lsn)]
  {
    var begun, head := s.(currentXID := t.xid, batch := []), [BeginMessage(t.xid)];
    StreamedMore(d, s, [], BeginMessage(t.xid));
    assert [] + head == head;
    StreamedConcat(d, s, head, t.body);
    StreamedBody(d, begun, t.body);
    assert begun.batch + EventsOf(d, s.relations, t.body, t.xid) == EventsOf(d, s.relations, t.body, t.xid);
    StreamedMore(d, s, head + t.body, CommitMessage(t.lsn));
  }

  lemma {:induction false} AnnouncedConcat(relations: map<nat, Relation>, a: seq<Logical>, b: seq<Logical>)
    ensures Announced(relations, a + b) == Announced(Announced(relations, a), b)
    decreases |b|
  {
    if b == [] {
      assert a + b == a;
    } else {
      assert (a + b)[..|a + b| - 1] == a + b[..|b| - 1];
      AnnouncedConcat(relations, a, b[..|b| - 1]);
    }
  }

  lemma AnnouncedInTransaction(relations: map<nat, Relation>, before: seq<Logical>, t: Transaction)
    ensures Announced(relations, before + Encoded(t)) == Announced(Announced(relations, before), t.body)
  {
    var begin, commit := [BeginMessage(t.xid)], [CommitMessage(t.lsn)];
    assert before + Encoded(t) == ((before + begin) + t.body) + commit;
    AnnouncedConcat(relations, (before + begin) + t.body, commit);
    AnnouncedConcat(relations, before + begin, t.body);
    AnnouncedConcat(relations, before, begin);
    assert begin[..0] == [] && commit[..0] == [];
  }

  /** The streamer turns the stream of a log of transactions into one batch per transaction, in commit order. */
  lemma {:induction false} StreamedLog(d: Decoding, s: StreamState, log: seq<Transaction>)
    ensures Streamed(d, s, EncodedAll(log)).1 == BatchesOf(d, s.relations, log)
    ensures Streamed(d, s, EncodedAll(log)).0.relations == Announced(s.relations, EncodedAll(log))
    decreases |log|
  {
    if log != [] {
      var n := |log| - 1;
      StreamedLog(d, s, log[..n]);
      StreamedConcat(d, s, EncodedAll(log[..n]), Encoded(log[n]));
      StreamedTransaction(d, Streamed(d, s, EncodedAll(log[..n])).0, log[n]);
      AnnouncedInTransaction(s.relations, EncodedAll(log[..n]), log[n]);
    }
  }

  // ---- what a batch holds ----

  /** Some message before the i-th announces the relation. */
  predicate AnnouncedBefore(body: seq<Logical>, i: nat, id: nat)
    requires i <= |body|
  {
    exists k :: 0 <= k < i && body[k].RelationMessage? && body[k].id == id
  }

  /** The k-th is the last of them. */
  predicate LastAnnounced(body: seq<Logical>, i: nat, id: nat, k: nat)
    requires i <= |body|
  {
    k < i && body[k].RelationMessage? && body[k].id == id &&
    forall j :: k < j < i && body[j].RelationMessage? ==> body[j].id != id
  }

  /** What the i-th message's relation is: as last announced before it, or else as known before the transaction. */
  ghost predicate Current(relations: map<nat, Relation>, body: seq<Logical>, i: nat, id: nat, relation: Relation)
    requires i <= |body|
  {
    if AnnouncedBefore(body, i, id) then exists k: nat :: LastAnnounced(body, i, id, k) && body[k].relation == relation
    else id in relations && relations[id] == relation
  }

  predicate Announces(m: Logical, id: nat) {
    m.RelationMessage? && m.id == id
  }

  lemma CurrentKept(relations: map<nat, Relation>, body: seq<Logical>, n: nat, id: nat, relation: Relation)
    requires n < |body| && !Announces(body[n], id)
    ensures AnnouncedBefore(body, n + 1, id) <==> AnnouncedBefore(body, n, id)
    ensures Current(relations, body, n, id, relation) ==> Current(relations, body, n + 1, id, relation)
  {
    if AnnouncedBefore(body, n, id) && Current(relations, body, n, id, relation) {
      var k: nat :| LastAnnounced(body, n, id, k) && body[k].relation == relation;
      assert LastAnnounced(body, n + 1, id, k);
    }
  }

  lemma CurrentNow(relations: map<nat, Relation>, body: seq<Logical>, n: nat, id: nat)
    requires n < |body| && Announces(body[n], id)
    ensures AnnouncedBefore(body, n + 1, id) && Current(relations, body, n + 1, id, body[n].relation)
  {
    assert LastAnnounced(body, n + 1, id, n);
  }

  lemma {:induction false} AnnouncedIsLast(relations: map<nat, Relation>, body: seq<Logical>, i: nat, id: nat)
    requires i <= |body|
    ensures id in Announced(relations, body[..i]) <==> AnnouncedBefore(body, i, id) || id in relations
    ensures id in Announced(relations, body[..i]) ==>
              Current(relations, body, i, id, Announced(relations, body[..i])[id])
    decreases i
  {
    if i > 0 {
      var n := i - 1;
      AnnouncedIsLast(relations, body, n, id);
      assert body[..i][..n] == body[..n];
      var before := Announced(relations, body[..n]);
      if Announces(body[n], id) {
        CurrentNow(relations, body, n, id);
      } else {
        CurrentKept(relations, body, n, id, if id in before then before[id] else Relation("", "", 0));
      }
    }
  }

  /** A change of a relation that has been announced. */
  predicate Known(relations: map<nat, Relation>, body: seq<Logical>, i: nat)
    requires i < |body|
  {
    IsChange(body[i]) && (AnnouncedBefore(body, i, body[i].relationID) || body[i].relationID in relations)
  }

  /** The positions of the changes that become events, up to a message. */
  function KnownUpTo(relations: map<nat, Relation>, body: seq<Logical>, n: nat): set<nat>
    requires n <= |body|
  {
    set i: nat | 0 <= i < n && Known(relations, body, i)
  }

  /** The event has the relation's names, the kind of the change, its row images and the key of its row: the new row's,
      or for a delete the old one's. */
  predicate Carries(d: Decoding, e: CDCEvent, relation: Relation, m: Logical, xid: nat)
    requires IsChange(m)
  {
    && e.schema == relation.schema && e.table == relation.table && e.commitXID == xid
    && (m.InsertMessage? ==> e.operation == Insert && e.before == None && Image(d, relation, m.tuple, e.after))
    && (m.UpdateMessage? ==> e.operation == Update && Image(d, relation, m.oldTuple, e.before) &&
                             Image(d, relation, m.newTuple, e.after))
    && (m.DeleteMessage? ==> e.operation == Delete && Image(d, relation, m.oldTuple, e.before) && e.after == None)
    && e.pk == d.key(relation, if m.DeleteMessage? then e.before else e.after)
    && e.commitLSN == 0 && e.chunkID == 0 && e.chunkSize == 0 && e.chunkHighPK == Unset
  }

  predicate Image(d: Decoding, relation: Relation, tuple: Option<Tuple>, row: Option<Row>) {
    match tuple
    case Some(t) => row == Some(d.row(relation, t))
    case None => row == None
  }

  /** The event of a known change is in the batch where the number of known changes before it says. */
  ghost predicate HasEvent(d: Decoding, relations: map<nat, Relation>, body: seq<Logical>, i: nat, xid: nat,
                           events: seq<CDCEvent>)
    requires i < |body| && Known(relations, body, i)
  {
    var at := |KnownUpTo(relations, body, i)|;
    at < |events| && CarriesChange(d, relations, body, i, xid, events[at])
  }

  ghost predicate CarriesChange(d: Decoding, relations: map<nat, Relation>, body: seq<Logical>, i: nat, xid: nat,
                                e: CDCEvent)
    requires i < |body| && IsChange(body[i])
  {
    exists r: Relation :: Current(relations, body, i, body[i].relationID, r) && Carries(d, e, r, body[i], xid)
  }

  lemma KnownMore(relations: map<nat, Relation>, body: seq<Logical>, n: nat)
    requires n < |body|
    ensures KnownUpTo(relations, body, n + 1) ==
            KnownUpTo(relations, body, n) + (if Known(relations, body, n) then {n} else {})
    ensures |KnownUpTo(relations, body, n + 1)| ==
            |KnownUpTo(relations, body, n)| + (if Known(relations, body, n) then 1 else 0)
  {
    assert KnownUpTo(relations, body, n + 1) ==
           KnownUpTo(relations, body, n) + (if Known(relations, body, n) then {n} else {});
  }

  ghost predicate HasEvents(d: Decoding, relations: map<nat, Relation>, body: seq<Logical>, n: nat, xid: nat,
                            events: seq<CDCEvent>)
    requires n <= |body|
  {
    && |events| == |KnownUpTo(relations, body, n)|
    && forall i: nat :: i < n && Known(relations, body, i) ==> HasEvent(d, relations, body, i, xid, events)
  }

  lemma {:induction false} EventsUpTo(d: Decoding, relations: map<nat, Relation>, body: seq<Logical>, n: nat, xid: nat)
    requires n <= |body|
    ensures HasEvents(d, relations, body, n, xid, EventsOf(d, relations, body[..n], xid))
    decreases n
  {
    if n > 0 {
      var m := n - 1;
      EventsUpTo(d, relations, body, m, xid);
      var before, events := EventsOf(d, relations, body[..m], xid), EventsOf(d, relations, body[..n], xid);
      OneEventMore(d, relations, body, m, xid);
      assert |events| == |KnownUpTo(relations, body, n)| by {
        KnownMore(relations, body, m);
      }
      EventsMore(d, relations, body, m, xid, before, events);
    }
  }

  lemma EventsMore(d: Decoding, relations: map<nat, Relation>, body: seq<Logical>, n: nat, xid: nat,
                   before: seq<CDCEvent>, events: seq<CDCEvent>)
    requires n < |body| && HasEvents(d, relations, body, n, xid, before)
    requires before <= events && |events| == |KnownUpTo(relations, body, n + 1)|
    requires Known(relations, body, n) ==> HasEvent(d, relations, body, n, xid, events)
    ensures HasEvents(d, relations, body, n + 1, xid, events)
  {
    forall i: nat | i < n + 1 && Known(relations, body, i) ensures HasEvent(d, relations, body, i, xid, events) {
      EventIn(d, relations, body, n, xid, before, events, i);
    }
  }

  lemma EventIn(d: Decoding, relations: map<nat, Relation>, body: seq<Logical>, n: nat, xid: nat,
                before: seq<CDCEvent>, events: seq<CDCEvent>, i: nat)
    requires n < |body| && i <= n && Known(relations, body, i) && before <= events
    requires i < n ==> HasEvent(d, relations, body, i, xid, before)
    requires i == n ==> HasEvent(d, relations, body, i, xid, events)
    ensures HasEvent(d, relations, body, i, xid, events)
  {
  }

  lemma OneEventMore(d: Decoding, relations: map<nat, Relation>, body: seq<Logical>, n: nat, xid: nat)
    requires n < |body| && |EventsOf(d, relations, body[..n], xid)| == |KnownUpTo(relations, body, n)|
    ensures var before, events := EventsOf(d, relations, body[..n], xid), EventsOf(d, relations, body[..n + 1], xid);
            && before <= events && |events| == |before| + (if Known(relations, body, n) then 1 else 0)
            && (Known(relations, body, n) ==> HasEvent(d, relations, body, n, xid, events))
  {
    assert body[..n + 1][..n] == body[..n];
    if IsChange(body[n]) {
      AnnouncedIsLast(relations, body, n, body[n].relationID);
    }
  }

  /** The batch of a transaction: its commit position, and one event for each change of a known relation and no other,
      in their order; each has the names of its change's relation as last announced before it, the kind, row images
      and key of the change, and the transaction's id. */
  ghost predicate IsBatchOf(d: Decoding, relations: map<nat, Relation>, t: Transaction, batch: WalBatch) {
    batch.commitLSN == t.lsn && HasEvents(d, relations, t.body, |t.body|, t.xid, batch.events)
  }

  lemma BatchCarriesItsChanges(d: Decoding, s: StreamState, t: Transaction)
    ensures |Streamed(d, s, Encoded(t)).1| == 1
    ensures IsBatchOf(d, s.relations, t, Streamed(d, s, Encoded(t)).1[0])
  {
    StreamedTransaction(d, s, t);
    EventsUpTo(d, s.relations, t.body, |t.body|, t.xid);
    assert t.body[..|t.body|] == t.body;
  }

  lemma {:induction false} BatchAt(d: Decoding, relations: map<nat, Relation>, log: seq<Transaction>, k: nat)
    requires k < |log|
    ensures |BatchesOf(d, relations, log)| == |log|
    ensures BatchesOf(d, relations, log)[k] ==
            WalBatch(EventsOf(d, Announced(relations, EncodedAll(log[..k])), log[k].body, log[k].xid), log[k].lsn)
    decreases |log|
  {
    var n := |log| - 1;
    if n > 0 {
      BatchAt(d, relations, log[..n], if k < n then k else 0);
    }
    if k < n {
      assert log[..n][..k] == log[..k];
    }
  }

  /** Every transaction of a log gets its batch, in commit order; the relations known before it are those last
      announced in the whole stream so far. */
  lemma LogCarriesItsChanges(d: Decoding, s: StreamState, log: seq<Transaction>, k: nat)
    requires k < |log|
    ensures |Streamed(d, s, EncodedAll(log)).1| == |log|
    ensures IsBatchOf(d, Announced(s.relations, EncodedAll(log[..k])), log[k], Streamed(d, s, EncodedAll(log)).1[k])
  {
    StreamedLog(d, s, log);
    BatchAt(d, s.relations, log, k);
    EventsUpTo(d, Announced(s.relations, EncodedAll(log[..k])), log[k].body, |log[k].body|, log[k].xid);
    assert log[k].body[..|log[k].body|] == log[k].body;
  }
}
