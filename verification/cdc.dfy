/** The change-capture events and ranges shared by the scanner, the WAL streamer, the merger
    and the engine (pg/types.go). Row contents are opaque numbers; transaction ids and log
    sequence numbers are only ever compared, so they are natural numbers. */
module Cdc {
  import opened Keys
  import opened Wrappers

  type Row = int

  datatype Phase = Snapshotting | Streaming

  datatype Operation = Insert | Update | Delete | Read

  datatype CDCEvent = CDCEvent(
    schema: string, table: string, operation: Operation, pk: PK,
    before: Option<Row>, after: Option<Row>,
    commitXID: nat, commitLSN: nat,
    chunkID: int, chunkSize: nat, chunkHighPK: PK)

  datatype PKRange = PKRange(table: string, low: PK, high: PK, xmin: nat)

  function QualifyTable(schema: string, table: string): string {
    if schema == "" then table else schema + "." + table
  }

  function TableOf(e: CDCEvent): string {
    QualifyTable(e.schema, e.table)
  }

  /** A batch as the streamer hands it over: every event carries the commit position. */
  function Stamp(events: seq<CDCEvent>, lsn: nat): (r: seq<CDCEvent>)
    ensures |r| == |events|
    ensures forall i :: 0 <= i < |r| ==> r[i] == events[i].(commitLSN := lsn)
  {
    seq(|events|, i requires 0 <= i < |events| => events[i].(commitLSN := lsn))
  }

  /** How often an event occurs. */
  function Count(events: seq<CDCEvent>, e: CDCEvent): nat {
    if events == [] then 0
    else Count(events[..|events| - 1], e) + (if events[|events| - 1] == e then 1 else 0)
  }

  lemma {:induction false} CountConcat(a: seq<CDCEvent>, b: seq<CDCEvent>, e: CDCEvent)
    ensures Count(a + b, e) == Count(a, e) + Count(b, e)
    decreases |b|
  {
    if b == [] {
      assert a + b == a;
    } else {
      assert (a + b)[..|a + b| - 1] == a + b[..|b| - 1];
      CountConcat(a, b[..|b| - 1], e);
    }
  }

  lemma CountSnoc(a: seq<CDCEvent>, x: CDCEvent, e: CDCEvent)
    ensures Count(a + [x], e) == Count(a, e) + (if x == e then 1 else 0)
  {
    assert (a + [x])[..|a + [x]| - 1] == a;
  }

  lemma {:induction false} CountMembers(a: seq<CDCEvent>, e: CDCEvent)
    ensures e in a <==> Count(a, e) > 0
    decreases |a|
  {
    if a != [] {
      CountMembers(a[..|a| - 1], e);
      assert a == a[..|a| - 1] + [a[|a| - 1]];
    }
  }

  /** The events of one table and key, in order. */
  function OfKey(events: seq<CDCEvent>, table: string, pk: PK): seq<CDCEvent> {
    if events == [] then []
    else
      var last := events[|events| - 1];
      var rest := OfKey(events[..|events| - 1], table, pk);
      if TableOf(last) == table && last.pk == pk then rest + [last] else rest
  }

  lemma OfKeySnoc(a: seq<CDCEvent>, x: CDCEvent, table: string, pk: PK)
    ensures OfKey(a + [x], table, pk) ==
            if TableOf(x) == table && x.pk == pk then OfKey(a, table, pk) + [x] else OfKey(a, table, pk)
  {
    assert (a + [x])[..|a + [x]| - 1] == a;
  }

  lemma {:induction false} OfKeyConcat(a: seq<CDCEvent>, b: seq<CDCEvent>, table: string, pk: PK)
    ensures OfKey(a + b, table, pk) == OfKey(a, table, pk) + OfKey(b, table, pk)
    decreases |b|
  {
    if b == [] {
      assert a + b == a;
    } else {
      var n := |b| - 1;
      assert (a + b)[..|a + b| - 1] == a + b[..n];
      OfKeyConcat(a, b[..n], table, pk);
    }
  }

  lemma {:induction false} OfKeyEmpty(events: seq<CDCEvent>, table: string, pk: PK)
    requires forall e <- events :: !(TableOf(e) == table && e.pk == pk)
    ensures OfKey(events, table, pk) == []
    decreases |events|
  {
    if events != [] {
      OfKeyEmpty(events[..|events| - 1], table, pk);
    }
  }
}
