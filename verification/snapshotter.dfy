/** The scanner (pg/snapshot.go): the loop that walks one table chunk by chunk and drives the merger. Here it runs
    over a table nobody writes to; module Capture runs the same steps among concurrent transactions. */
module SnapshotterObject {
  import opened Keys
  import opened Wrappers
  import opened Cdc
  import opened MergerSpec
  import opened Capture
  import opened CaptureInvariant
  import opened Reads
  import EngineSpec
  import MergerObject

  // ---- table names ----

  /** Splits at the first dot; without one the schema is empty. */
  function SplitQualifiedTable(qualified: string): (string, string) {
    var dot := IndexOfDot(qualified);
    if dot < |qualified| then (qualified[..dot], qualified[dot + 1..]) else ("", qualified)
  }

  function IndexOfDot(s: string): (i: nat)
    ensures i <= |s| && (i < |s| ==> s[i] == '.') && forall j :: 0 <= j < i ==> s[j] != '.'
  {
    if s == "" then 0 else if s[0] == '.' then 0
    else
      var i := IndexOfDot(s[1..]);
      assert forall j :: 1 <= j < 1 + i ==> s[j] == s[1..][j - 1];
      1 + i
  }

  /** Joining undoes splitting exactly for names that do not start with a dot. */
  lemma JoiningUndoesSplitting(qualified: string)
    ensures var (schema, table) := SplitQualifiedTable(qualified);
            QualifyTable(schema, table) == qualified <==> qualified == "" || qualified[0] != '.'
  {
    var dot := IndexOfDot(qualified);
    if 0 < dot < |qualified| {
      assert qualified == qualified[..dot] + "." + qualified[dot + 1..];
    } else if dot == 0 && qualified != "" {
      assert |qualified[1..]| < |qualified|;
    }
  }

  // ---- the rows of a static table ----

  /** The table's keys in the order of its primary key. */
  predicate IsSorted(keys: seq<PK>) {
    && (forall i :: 0 <= i < |keys| ==> keys[i] != Unset)
    && (forall i, j :: 0 <= i < j < |keys| ==> Rank(keys[i]) < Rank(keys[j]))
  }

  ghost predicate IsTable(keys: seq<PK>, image: map<PK, Row>) {
    IsSorted(keys) && forall k :: k in keys <==> k in image
  }

  /** The number of keys that are not above the cursor. */
  function Passed(keys: seq<PK>, cursor: PK, from: nat): (n: nat)
    requires IsSorted(keys) && from <= |keys| && forall i :: 0 <= i < from ==> Rank(keys[i]) <= Rank(cursor)
    ensures n <= |keys|
    ensures forall i :: 0 <= i < |keys| ==> (i < n <==> Rank(keys[i]) <= Rank(cursor))
    decreases |keys| - from
  {
    if from == |keys| || Rank(cursor) < Rank(keys[from]) then from else Passed(keys, cursor, from + 1)
  }

  function Above(keys: seq<PK>, cursor: PK): seq<PK>
    requires IsSorted(keys)
  {
    keys[Passed(keys, cursor, 0)..]
  }

  /** The first rows above the cursor, at most `size` of them. */
  predicate FirstAbove(rows: seq<PK>, keys: seq<PK>, cursor: PK, size: nat)
    requires IsSorted(keys)
  {
    rows <= Above(keys, cursor) &&
    |rows| == if size < |Above(keys, cursor)| then size else |Above(keys, cursor)|
  }

  lemma PassedIs(keys: seq<PK>, cursor: PK, n: nat)
    requires IsSorted(keys) && 0 < n <= |keys| && cursor == keys[n - 1]
    ensures Passed(keys, cursor, 0) == n
  {
    assert n < |keys| ==> Rank(cursor) < Rank(keys[n]);
  }

  lemma SplitAt(keys: seq<PK>, from: nat, to: nat)
    requires from <= to <= |keys|
    ensures keys[from..to] + keys[to..] == keys[from..]
  {
  }

  lemma AboveTheLastRead(keys: seq<PK>, cursor: PK, rows: seq<PK>)
    requires IsSorted(keys) && rows != [] && rows <= Above(keys, cursor)
    ensures rows[|rows| - 1] in keys
    ensures rows + Above(keys, rows[|rows| - 1]) == Above(keys, cursor)
  {
    var from := Passed(keys, cursor, 0);
    assert rows == keys[from..from + |rows|];
    PassedIs(keys, rows[|rows| - 1], from + |rows|);
    SplitAt(keys, from, from + |rows|);
  }

  lemma TheRestIsShorter(keys: seq<PK>, cursor: PK, rows: seq<PK>)
    requires IsSorted(keys) && rows != [] && rows <= Above(keys, cursor)
    ensures rows[|rows| - 1] in keys
    ensures |Above(keys, rows[|rows| - 1])| < |Above(keys, cursor)|
  {
    AboveTheLastRead(keys, cursor, rows);
  }

  /** Row i is the i-th key above the cursor. */
  lemma RowIsKey(keys: seq<PK>, cursor: PK, rows: seq<PK>, i: nat)
    requires IsSorted(keys) && rows <= Above(keys, cursor) && i < |rows|
    ensures Passed(keys, cursor, 0) + i < |keys| && rows[i] == keys[Passed(keys, cursor, 0) + i]
    ensures rows[i] in keys && Rank(cursor) < Rank(rows[i])
  {
    assert rows[i] == Above(keys, cursor)[i];
  }

  lemma RowsAscend(keys: seq<PK>, cursor: PK, rows: seq<PK>, i: nat, j: nat)
    requires IsSorted(keys) && rows <= Above(keys, cursor) && i < j < |rows|
    ensures Rank(rows[i]) < Rank(rows[j])
  {
    RowIsKey(keys, cursor, rows, i);
    RowIsKey(keys, cursor, rows, j);
  }

  /** A key above the cursor that the read left out lies above its last row, and the read was full. */
  lemma KeyAtIsRead(keys: seq<PK>, cursor: PK, rows: seq<PK>, size: nat, i: nat)
    requires IsSorted(keys) && size > 0 && FirstAbove(rows, keys, cursor, size)
    requires i < |keys| && Rank(cursor) < Rank(keys[i])
    ensures keys[i] in rows || (|rows| == size && Rank(rows[size - 1]) < Rank(keys[i]))
  {
    var at := i - Passed(keys, cursor, 0);
    RowIsKey(keys, cursor, rows, if at < |rows| then at else |rows| - 1);
    if at < |rows| {
      assert rows[at] == keys[i];
    }
  }

  lemma KeyIsRead(keys: seq<PK>, cursor: PK, rows: seq<PK>, size: nat, k: PK)
    requires IsSorted(keys) && size > 0 && FirstAbove(rows, keys, cursor, size)
    requires k in keys && Rank(cursor) < Rank(k)
    ensures k in rows || (|rows| == size && Rank(rows[size - 1]) < Rank(k))
  {
    var i :| 0 <= i < |keys| && keys[i] == k;
    KeyAtIsRead(keys, cursor, rows, size, i);
  }

  /** The first rows above the cursor are what the capture protocol takes a chunk query to return. */
  lemma FirstRows(keys: seq<PK>, image: map<PK, Row>, cursor: PK, rows: seq<PK>, size: nat)
    requires IsTable(keys, image) && size > 0 && FirstAbove(rows, keys, cursor, size)
    ensures IsChunkRead(rows, image, cursor, size)
  {
    forall i | 0 <= i < |rows| ensures rows[i] in image && Rank(cursor) < Rank(rows[i]) {
      RowIsKey(keys, cursor, rows, i);
    }
    forall i, j | 0 <= i < j < |rows| ensures Rank(rows[i]) < Rank(rows[j]) {
      RowsAscend(keys, cursor, rows, i, j);
    }
    forall k | k in image && Rank(cursor) < Rank(k)
      ensures k in rows || (|rows| == size && Rank(rows[size - 1]) < Rank(k))
    {
      KeyIsRead(keys, cursor, rows, size, k);
    }
  }

  // ---- what the loop leaves behind ----

  /** The merger's state, all that has been sent, and the number of the chunk to come. */
  datatype Progress = Progress(merger: MergerState, sent: seq<CDCEvent>, next: int)

  /** What is left once some chunks have been scanned. */
  function AfterChunks(config: Config, p: Progress, chunks: seq<ChunkRecord>): Progress {
    if chunks == [] then p
    else AfterChunk(config, AfterChunks(config, p, chunks[..|chunks| - 1]), chunks[|chunks| - 1])
  }

  function AfterChunk(config: Config, p: Progress, c: ChunkRecord): Progress {
    var begun := BeginChunk(p.merger, Chunk(p.next, config.table, c.low, c.window));
    Progress(EndChunk(begun, p.next, config.table, c.high, c.xmin),
             p.sent + EndChunkEmits(begun, p.next, c.high, c.xmin) + ReadEvents(config, c, p.next), p.next + 1)
  }

  /** The last turn begins a chunk and finds nothing to read. */
  function AfterEmptyChunk(config: Config, p: Progress, cursor: PK): Progress {
    p.(merger := BeginChunk(p.merger, Chunk(p.next, config.table, cursor, Next(cursor, config.chunkSize))))
  }

  lemma AfterOneMore(config: Config, p: Progress, chunks: seq<ChunkRecord>, c: ChunkRecord)
    ensures AfterChunks(config, p, chunks + [c]) == AfterChunk(config, AfterChunks(config, p, chunks), c)
  {
    assert (chunks + [c])[..|chunks|] == chunks;
  }

  function KeysRead(chunks: seq<ChunkRecord>): seq<PK> {
    if chunks == [] then [] else KeysRead(chunks[..|chunks| - 1]) + chunks[|chunks| - 1].rows
  }

  function ChunkOf(config: Config, image: map<PK, Row>, cursor: PK, rows: seq<PK>, xmin: nat): ChunkRecord
    requires rows != []
  {
    ChunkRecord(cursor, Next(cursor, config.chunkSize), rows[|rows| - 1], xmin, 0, 0, 0, rows, image)
  }

  /** Each chunk holds the first keys above where its predecessor stopped, and `at` is where the last one stopped. */
  ghost predicate HasRead(config: Config, image: map<PK, Row>, keys: seq<PK>, start: PK, chunks: seq<ChunkRecord>,
                          at: PK)
    requires IsSorted(keys)
  {
    if chunks == [] then at == start
    else
      var c := chunks[|chunks| - 1];
      && HasRead(config, image, keys, start, chunks[..|chunks| - 1], c.low)
      && c.rows != [] && FirstAbove(c.rows, keys, c.low, config.chunkSize)
      && c == ChunkOf(config, image, c.low, c.rows, c.xmin) && at == c.high
  }

  lemma HasReadMore(config: Config, image: map<PK, Row>, keys: seq<PK>, start: PK, chunks: seq<ChunkRecord>, at: PK,
                    rows: seq<PK>, xmin: nat)
    requires IsSorted(keys) && HasRead(config, image, keys, start, chunks, at)
    requires rows != [] && FirstAbove(rows, keys, at, config.chunkSize)
    ensures HasRead(config, image, keys, start, chunks + [ChunkOf(config, image, at, rows, xmin)], rows[|rows| - 1])
  {
    assert (chunks + [ChunkOf(config, image, at, rows, xmin)])[..|chunks|] == chunks;
  }

  /** The buffered changes, the cursor and the table have keys of one kind: no comparison panics. */
  predicate OneKind(pending: seq<CDCEvent>, cursor: PK, keys: seq<PK>) {
    && (forall e, k | e in pending && k in keys :: SameKind(e.pk, k))
    && (cursor.Unset? || forall e <- pending :: SameKind(e.pk, cursor))
  }

  lemma ComparableWithChunk(pending: seq<CDCEvent>, cursor: PK, keys: seq<PK>, high: PK)
    requires OneKind(pending, cursor, keys) && high in keys
    ensures forall e <- pending :: Comparable(e.pk, cursor, high)
    ensures OneKind(Overflow(pending, cursor, high), high, keys)
  {
    forall e | e in Overflow(pending, cursor, high) ensures e in pending {
      ChunkMembers(pending, cursor, high, e);
    }
  }

  /** Each chunk has the xmin that its own read returned. */
  predicate ReadWith(chunks: seq<ChunkRecord>, xmins: int -> nat, first: int) {
    forall i :: 0 <= i < |chunks| ==> chunks[i].xmin == xmins(first + i)
  }

  lemma ReadWithMore(chunks: seq<ChunkRecord>, xmins: int -> nat, first: int, c: ChunkRecord, id: int)
    requires ReadWith(chunks, xmins, first) && id == first + |chunks| && c.xmin == xmins(id)
    ensures ReadWith(chunks + [c], xmins, first)
  {
    forall i | 0 <= i < |chunks + [c]| ensures (chunks + [c])[i].xmin == xmins(first + i) {
      if i == |chunks| {
        assert first + i == id;
      }
    }
  }

  /** What a scan from a cursor has gone through so far, where it is, and what it has left behind. */
  ghost predicate Went(config: Config, image: map<PK, Row>, keys: seq<PK>, xmins: int -> nat, start: Progress,
                       cursor: PK, chunks: seq<ChunkRecord>, at: PK, now: Progress)
    requires IsSorted(keys)
  {
    && HasRead(config, image, keys, cursor, chunks, at) && ReadWith(chunks, xmins, start.next)
    && now == AfterChunks(config, start, chunks)
  }

  lemma WentOn(config: Config, image: map<PK, Row>, keys: seq<PK>, xmins: int -> nat, start: Progress, cursor: PK,
               chunks: seq<ChunkRecord>, at: PK, now: Progress, rows: seq<PK>, id: int)
    requires IsSorted(keys) && rows != [] && FirstAbove(rows, keys, at, config.chunkSize)
    requires HasRead(config, image, keys, cursor, chunks, at) && ReadWith(chunks, xmins, start.next)
    requires id == start.next + |chunks|
    requires now == AfterChunk(config, AfterChunks(config, start, chunks), ChunkOf(config, image, at, rows, xmins(id)))
    ensures Went(config, image, keys, xmins, start, cursor, chunks + [ChunkOf(config, image, at, rows, xmins(id))],
                 rows[|rows| - 1], now)
  {
    var c := ChunkOf(config, image, at, rows, xmins(id));
    assert now == AfterChunks(config, start, chunks + [c]) by {
      AfterOneMore(config, start, chunks, c);
    }
    assert HasRead(config, image, keys, cursor, chunks + [c], rows[|rows| - 1]) by {
      HasReadMore(config, image, keys, cursor, chunks, at, rows, xmins(id));
    }
    assert ReadWith(chunks + [c], xmins, start.next) by {
      ReadWithMore(chunks, xmins, start.next, c, id);
    }
  }

  class Snapshotter {
    const config: Config
    const merger: MergerObject.Merger
    const image: map<PK, Row>
    const keys: seq<PK>

    /** The xmin of the snapshot in which each chunk is read: the database's answers, by chunk id. */
    const xmins: int -> nat

    constructor (config: Config, merger: MergerObject.Merger, image: map<PK, Row>, keys: seq<PK>, xmins: int -> nat)
      ensures this.config == config && this.merger == merger && this.image == image && this.keys == keys
      ensures this.xmins == xmins
    {
      this.config, this.merger, this.image, this.keys, this.xmins := config, merger, image, keys, xmins;
    }

    function Now(next: int): Progress
      reads merger
    {
      Progress(merger.State(), merger.output, next)
    }

    ghost predicate Valid() {
      config.chunkSize > 0 && IsTable(keys, image)
    }

    /** The chunk query: the first rows above the cursor, in key order, and the snapshot's xmin. */
    method ReadChunk(chunkID: int, cursor: PK) returns (rows: seq<PK>, xmin: nat)
      requires Valid()
      ensures xmin == xmins(chunkID)
      ensures FirstAbove(rows, keys, cursor, config.chunkSize)
      ensures rows != [] ==> rows[|rows| - 1] in keys && |Above(keys, rows[|rows| - 1])| < |Above(keys, cursor)|
    {
      rows := Above(keys, cursor);
      if config.chunkSize < |rows| {
        rows := rows[..config.chunkSize];
      }
      if rows != [] {
        TheRestIsShorter(keys, cursor, rows);
      }
      xmin := xmins(chunkID);
    }

    /** The inner loop of run. */
    method EmitRows(chunkID: int, rows: seq<PK>, high: PK, ghost c: ChunkRecord)
      requires c.rows == rows && c.high == high && c.image == image
      modifies merger`output
      ensures merger.output == old(merger.output) + ReadEvents(config, c, chunkID)
    {
      for i := 0 to |rows|
        invariant merger.output == old(merger.output) + ReadEvents(config, c, chunkID)[..i]
      {
        var after := if rows[i] in image then Some(image[rows[i]]) else None;
        merger.OnSnapshotEvent(CDCEvent(config.schema, config.tableName, Read, rows[i], None, after, 0, 0,
                                        chunkID, |rows|, high));
      }
    }

    /** The rest of a turn of run's loop, once rows have been read. */
    method FinishChunk(chunkID: int, cursor: PK, rows: seq<PK>, xmin: nat)
      requires rows != [] && Ends(merger.State(), chunkID) && merger.currentChunk.value.pkLow == cursor
      requires forall e <- merger.pendingWALEvents :: Comparable(e.pk, cursor, rows[|rows| - 1])
      modifies merger
      ensures var c := ChunkOf(config, image, cursor, rows, xmin);
              && merger.State() == EndChunk(old(merger.State()), chunkID, config.table, c.high, c.xmin)
              && merger.output == old(merger.output) + EndChunkEmits(old(merger.State()), chunkID, c.high, c.xmin) +
                                  ReadEvents(config, c, chunkID)
    {
      var high := rows[|rows| - 1];
      merger.OnEndChunk(chunkID, config.table, high, xmin);
      EmitRows(chunkID, rows, high, ChunkOf(config, image, cursor, rows, xmin));
    }

    /** One turn of run's loop. */
    method Turn(chunkID: int, cursor: PK) returns (rows: seq<PK>)
      requires Valid() && OneKind(merger.pendingWALEvents, cursor, keys)
      modifies merger
      ensures FirstAbove(rows, keys, cursor, config.chunkSize)
      ensures rows == [] ==> Now(chunkID) == AfterEmptyChunk(config, old(Now(chunkID)), cursor)
      ensures rows != [] ==>
                Now(chunkID + 1) ==
                AfterChunk(config, old(Now(chunkID)), ChunkOf(config, image, cursor, rows, xmins(chunkID)))
      ensures rows != [] ==> OneKind(merger.pendingWALEvents, rows[|rows| - 1], keys)
      ensures rows != [] ==> |Above(keys, rows[|rows| - 1])| < |Above(keys, cursor)|
    {
      merger.OnBeginChunk(chunkID, config.table, cursor, Next(cursor, config.chunkSize));
      var xmin;
      rows, xmin := ReadChunk(chunkID, cursor);
      if rows != [] {
        ComparableWithChunk(merger.pendingWALEvents, cursor, keys, rows[|rows| - 1]);
        FinishChunk(chunkID, cursor, rows, xmin);
      }
    }

    /** run: scans the table from the cursor onwards. Each chunk it went through holds the next keys
        of the table and the xmin of its own read, none is left in the end, and the chunks account for all that
        the merger did and sent; the loop ends with the empty chunk begun and not ended. */
    method Run(cursor: PK, startChunkID: int) returns (ghost chunks: seq<ChunkRecord>, ghost last: PK, ghost next: int)
      requires Valid() && OneKind(merger.pendingWALEvents, cursor, keys)
      modifies merger
      ensures HasRead(config, image, keys, cursor, chunks, last) && Above(keys, last) == []
      ensures next == startChunkID + |chunks|
      ensures ReadWith(chunks, xmins, startChunkID)
      ensures Now(next) == AfterEmptyChunk(config, AfterChunks(config, old(Now(startChunkID)), chunks), last)
    {
      var chunkID, at := startChunkID, cursor;
      ghost var start := Now(startChunkID);
      chunks := [];
      while true
        invariant chunkID == startChunkID + |chunks|
        invariant Went(config, image, keys, xmins, start, cursor, chunks, at, Now(chunkID))
        invariant OneKind(merger.pendingWALEvents, at, keys)
        decreases |Above(keys, at)|
      {
        var rows := Turn(chunkID, at);
        if rows == [] {
          return chunks, at, chunkID;
        }
        ghost var c := ChunkOf(config, image, at, rows, xmins(chunkID));
        WentOn(config, image, keys, xmins, start, cursor, chunks, at, Now(chunkID + 1), rows, chunkID);
        at := rows[|rows| - 1];
        chunkID := chunkID + 1;
        chunks := chunks + [c];
      }
    }
  }

  // ---- what a scan has read ----

  lemma NextChunkOk(config: Config, image: map<PK, Row>, keys: seq<PK>, c: ChunkRecord)
    requires IsSorted(keys) && c.rows != [] && c.rows <= Above(keys, c.low)
    requires c == ChunkOf(config, image, c.low, c.rows, c.xmin)
    ensures ChunkOk(config, c)
  {
    RowIsKey(keys, c.low, c.rows, |c.rows| - 1);
  }

  /** The chunks of a scan tile it. */
  lemma {:induction false} HasReadTiles(config: Config, image: map<PK, Row>, keys: seq<PK>, start: PK,
                                        chunks: seq<ChunkRecord>, at: PK)
    requires IsSorted(keys) && HasRead(config, image, keys, start, chunks, at)
    ensures at == LastHigh(start, chunks) && Tiling(config, start, chunks)
    decreases |chunks|
  {
    if chunks != [] {
      var before, c := chunks[..|chunks| - 1], chunks[|chunks| - 1];
      HasReadTiles(config, image, keys, start, before, c.low);
      NextChunkOk(config, image, keys, c);
      TilingExtended(config, start, before, c);
      assert chunks == before + [c];
    }
  }

  /** They hold the keys above the first cursor, but for those above the last one. */
  lemma {:induction false} KeysHaveBeenRead(config: Config, image: map<PK, Row>, keys: seq<PK>, start: PK,
                                            chunks: seq<ChunkRecord>, at: PK)
    requires IsSorted(keys) && HasRead(config, image, keys, start, chunks, at)
    ensures KeysRead(chunks) + Above(keys, at) == Above(keys, start)
    decreases |chunks|
  {
    if chunks != [] {
      var before, c := chunks[..|chunks| - 1], chunks[|chunks| - 1];
      KeysHaveBeenRead(config, image, keys, start, before, c.low);
      AboveTheLastRead(keys, c.low, c.rows);
      Regrouped(KeysRead(before), c.rows, Above(keys, at));
    }
  }

  lemma Regrouped(a: seq<PK>, b: seq<PK>, c: seq<PK>)
    ensures a + (b + c) == (a + b) + c
  {
  }

  // ---- what a scan delivers ----

  /** One row for each of the keys has been added, in their order, and no other row. */
  ghost predicate AddsRowsOf(before: seq<CDCEvent>, rows: seq<CDCEvent>, keys: seq<PK>) {
    && before <= rows && |rows| == |before| + |keys|
    && forall i :: 0 <= i < |keys| ==> rows[|before| + i].pk == keys[i]
  }

  lemma AddsMore(before: seq<CDCEvent>, rows: seq<CDCEvent>, keys: seq<PK>, config: Config, c: ChunkRecord, id: int)
    requires AddsRowsOf(before, rows, keys)
    ensures AddsRowsOf(before, rows + ReadEvents(config, c, id), keys + c.rows)
  {
  }

  lemma RowsOfTurn(config: Config, p: Progress, c: ChunkRecord)
    requires forall e <- p.merger.pending :: e.operation != Read
    ensures Rows(AfterChunk(config, p, c).sent) == Rows(p.sent) + ReadEvents(config, c, p.next)
    ensures forall e <- AfterChunk(config, p, c).merger.pending :: e.operation != Read
  {
    var begun := BeginChunk(p.merger, Chunk(p.next, config.table, c.low, c.window));
    var emits, news := EndChunkEmits(begun, p.next, c.high, c.xmin), ReadEvents(config, c, p.next);
    forall e ensures (e in emits || e in Overflow(p.merger.pending, c.low, c.high)) ==> e.operation != Read {
      ChunkMembers(p.merger.pending, c.low, c.high, e);
      XMinMembers(InChunk(p.merger.pending, c.low, c.high), c.xmin, e);
    }
    RowsOfOthers(emits);
    RowsOfRows(news);
    RowsConcat(p.sent, emits);
    RowsConcat(p.sent + emits, news);
  }

  /** The rows among the events of a scan are those of its chunks, in scan order. */
  lemma {:induction false} RowsOfScan(config: Config, p: Progress, chunks: seq<ChunkRecord>)
    requires forall e <- p.merger.pending :: e.operation != Read
    ensures AddsRowsOf(Rows(p.sent), Rows(AfterChunks(config, p, chunks).sent), KeysRead(chunks))
    ensures forall e <- AfterChunks(config, p, chunks).merger.pending :: e.operation != Read
    decreases |chunks|
  {
    if chunks != [] {
      var rest, c := chunks[..|chunks| - 1], chunks[|chunks| - 1];
      RowsOfScan(config, p, rest);
      var before := AfterChunks(config, p, rest);
      RowsOfTurn(config, before, c);
      AddsMore(Rows(p.sent), Rows(before.sent), KeysRead(rest), config, c, before.next);
    }
  }

  /** A full scan of a static table goes through chunks that tile it, and adds to what has been sent one row for each
      key above the cursor, in ascending order, and no other row. */
  lemma ScanDeliversTheTable(config: Config, image: map<PK, Row>, keys: seq<PK>, cursor: PK, p: Progress,
                             chunks: seq<ChunkRecord>, last: PK)
    requires IsSorted(keys) && HasRead(config, image, keys, cursor, chunks, last) && Above(keys, last) == []
    requires forall e <- p.merger.pending :: e.operation != Read
    ensures Tiling(config, cursor, chunks) && last == LastHigh(cursor, chunks)
    ensures AddsRowsOf(Rows(p.sent), Rows(AfterChunks(config, p, chunks).sent), Above(keys, cursor))
  {
    HasReadTiles(config, image, keys, cursor, chunks, last);
    assert KeysRead(chunks) == Above(keys, cursor) by {
      KeysHaveBeenRead(config, image, keys, cursor, chunks, last);
    }
    RowsOfScan(config, p, chunks);
  }

  // ---- what a scan does with the changes buffered before it ----

  lemma BufferedAfterChunk(config: Config, p: Progress, c: ChunkRecord, e: CDCEvent)
    requires e.operation != Read
    ensures var now := AfterChunk(config, p, c);
            && Count(now.merger.pending, e) == (if Within(e.pk, c.low, c.high) then 0 else Count(p.merger.pending, e))
            && Count(now.sent, e) == Count(p.sent, e) + (if Within(e.pk, c.low, c.high) && e.commitXID >= c.xmin
                                                         then Count(p.merger.pending, e) else 0)
  {
    var pending := p.merger.pending;
    var inside, outside := InChunk(pending, c.low, c.high), Overflow(pending, c.low, c.high);
    var emits, news := NotBelow(inside, c.xmin), ReadEvents(config, c, p.next);
    assert Count(inside, e) == (if Within(e.pk, c.low, c.high) then Count(pending, e) else 0) &&
           Count(outside, e) == (if Within(e.pk, c.low, c.high) then 0 else Count(pending, e)) by {
      ChunkConserves(pending, c.low, c.high, e);
      ChunkMembers(pending, c.low, c.high, e);
      CountMembers(inside, e);
      CountMembers(outside, e);
    }
    assert Count(emits, e) == (if e.commitXID >= c.xmin then Count(inside, e) else 0) by {
      XMinConserves(inside, c.xmin, e);
      XMinMembers(inside, c.xmin, e);
      CountMembers(emits, e);
      CountMembers(Below(inside, c.xmin), e);
    }
    assert Count(news, e) == 0 by {
      CountMembers(news, e);
    }
    CountConcat(p.sent, emits, e);
    CountConcat(p.sent + emits, news, e);
  }

  predicate Holds(chunks: seq<ChunkRecord>, i: nat, pk: PK)
    requires i < |chunks|
  {
    Within(pk, chunks[i].low, chunks[i].high)
  }

  /** The states that a scan goes through. */
  predicate Scans(config: Config, chunks: seq<ChunkRecord>, states: seq<Progress>) {
    |states| == |chunks| + 1 &&
    forall k :: 0 <= k < |chunks| ==> states[k + 1] == AfterChunk(config, states[k], chunks[k])
  }

  function StatesOf(config: Config, p: Progress, chunks: seq<ChunkRecord>): (states: seq<Progress>)
    ensures |states| == |chunks| + 1
    ensures forall k :: 0 <= k <= |chunks| ==> states[k] == AfterChunks(config, p, chunks[..k])
  {
    seq(|chunks| + 1, k requires 0 <= k <= |chunks| => AfterChunks(config, p, chunks[..k]))
  }

  lemma AfterUpTo(config: Config, p: Progress, chunks: seq<ChunkRecord>, k: nat)
    requires k < |chunks|
    ensures AfterChunks(config, p, chunks[..k + 1]) ==
            AfterChunk(config, AfterChunks(config, p, chunks[..k]), chunks[k])
  {
    assert chunks[..k + 1][..k] == chunks[..k];
  }

  lemma StatesAreScanned(config: Config, p: Progress, chunks: seq<ChunkRecord>)
    ensures Scans(config, chunks, StatesOf(config, p, chunks)) && StatesOf(config, p, chunks)[0] == p
    ensures StatesOf(config, p, chunks)[|chunks|] == AfterChunks(config, p, chunks)
  {
    assert chunks[..|chunks|] == chunks;
    var states := StatesOf(config, p, chunks);
    forall k | 0 <= k < |chunks| ensures states[k + 1] == AfterChunk(config, states[k], chunks[k]) {
      AfterUpTo(config, p, chunks, k);
    }
  }

  /** The copies of a change that are buffered, and those that have been sent. */
  predicate Copies(p: Progress, e: CDCEvent, buffered: nat, sent: nat) {
    Count(p.merger.pending, e) == buffered && Count(p.sent, e) == sent
  }

  /** What becomes of them in a chunk that holds the key, and in one that does not. */
  lemma CopiesSettled(config: Config, p: Progress, c: ChunkRecord, e: CDCEvent, buffered: nat, sent: nat, after: nat)
    requires e.operation != Read && Copies(p, e, buffered, sent) && Within(e.pk, c.low, c.high)
    requires after == if e.commitXID >= c.xmin then sent + buffered else sent
    ensures Copies(AfterChunk(config, p, c), e, 0, after)
  {
    BufferedAfterChunk(config, p, c, e);
  }

  lemma CopiesStay(config: Config, p: Progress, c: ChunkRecord, e: CDCEvent, buffered: nat, sent: nat)
    requires e.operation != Read && Copies(p, e, buffered, sent)
    requires buffered == 0 || !Within(e.pk, c.low, c.high)
    ensures Copies(AfterChunk(config, p, c), e, buffered, sent)
  {
    BufferedAfterChunk(config, p, c, e);
  }

  lemma CopiesStayOne(config: Config, chunks: seq<ChunkRecord>, states: seq<Progress>, e: CDCEvent,
                      buffered: nat, sent: nat, k: nat)
    requires Scans(config, chunks, states) && e.operation != Read && k < |chunks|
    requires Copies(states[k], e, buffered, sent) && (buffered == 0 || !Holds(chunks, k, e.pk))
    ensures Copies(states[k + 1], e, buffered, sent)
  {
    CopiesStay(config, states[k], chunks[k], e, buffered, sent);
  }

  lemma CopiesStayBetween(config: Config, chunks: seq<ChunkRecord>, states: seq<Progress>, e: CDCEvent,
                          buffered: nat, sent: nat, m: nat, n: nat)
    requires Scans(config, chunks, states) && e.operation != Read && m <= n <= |chunks|
    requires buffered == 0 || forall i: nat :: m <= i < n ==> !Holds(chunks, i, e.pk)
    requires Copies(states[m], e, buffered, sent)
    ensures Copies(states[n], e, buffered, sent)
  {
    var stays := seq(n + 1, k requires 0 <= k <= n => Copies(states[k], e, buffered, sent));
    forall k | m <= k < n && stays[k] ensures stays[k + 1] {
      CopiesStayOne(config, chunks, states, e, buffered, sent, k);
    }
    Persists(stays, m, n);
  }

  /** A change that is buffered when the scan begins and whose key no chunk of the scan holds stays buffered. */
  lemma OthersStayBuffered(config: Config, p: Progress, chunks: seq<ChunkRecord>, e: CDCEvent)
    requires e.operation != Read && forall i: nat :: i < |chunks| ==> !Holds(chunks, i, e.pk)
    ensures Copies(AfterChunks(config, p, chunks), e, Count(p.merger.pending, e), Count(p.sent, e))
  {
    var states := StatesOf(config, p, chunks);
    StatesAreScanned(config, p, chunks);
    CopiesStayBetween(config, chunks, states, e, Count(p.merger.pending, e), Count(p.sent, e), 0, |chunks|);
  }

  /** Otherwise it is no longer buffered afterwards: all its copies have been sent if its transaction is not below the
      xmin of the read of the first chunk that holds it, and none if it is. */
  lemma ScanSettlesBuffered(config: Config, p: Progress, chunks: seq<ChunkRecord>, e: CDCEvent, i: nat)
    requires e.operation != Read && i < |chunks| && Holds(chunks, i, e.pk)
    requires forall j: nat :: j < i ==> !Holds(chunks, j, e.pk)
    ensures Copies(AfterChunks(config, p, chunks), e, 0,
                   if e.commitXID >= chunks[i].xmin then Count(p.sent, e) + Count(p.merger.pending, e)
                   else Count(p.sent, e))
  {
    var buffered, sent := Count(p.merger.pending, e), Count(p.sent, e);
    var after := if e.commitXID >= chunks[i].xmin then sent + buffered else sent;
    var states := StatesOf(config, p, chunks);
    StatesAreScanned(config, p, chunks);
    SettledAt(config, chunks, states, e, i, buffered, sent, after);
  }

  lemma SettledAt(config: Config, chunks: seq<ChunkRecord>, states: seq<Progress>, e: CDCEvent, i: nat,
                  buffered: nat, sent: nat, after: nat)
    requires Scans(config, chunks, states) && e.operation != Read && i < |chunks| && Holds(chunks, i, e.pk)
    requires forall j: nat :: j < i ==> !Holds(chunks, j, e.pk)
    requires Copies(states[0], e, buffered, sent)
    requires after == if e.commitXID >= chunks[i].xmin then sent + buffered else sent
    ensures Copies(states[|chunks|], e, 0, after)
  {
    CopiesStayBetween(config, chunks, states, e, buffered, sent, 0, i);
    CopiesSettled(config, states[i], chunks[i], e, buffered, sent, after);
    CopiesStayBetween(config, chunks, states, e, 0, after, i + 1, |chunks|);
  }

  /** The merger has recorded the range of each chunk, with the xmin of its read, in the order of the scan. */
  lemma {:induction false} ScanRecordsItsRanges(config: Config, p: Progress, chunks: seq<ChunkRecord>)
    ensures var now := AfterChunks(config, p, chunks);
            && now.next == p.next + |chunks| && now.merger.phase == p.merger.phase
            && (chunks != [] ==> now.merger.currentChunk == None)
            && |now.merger.scannedRanges| == |p.merger.scannedRanges| + |chunks|
            && p.merger.scannedRanges <= now.merger.scannedRanges
            && forall i :: 0 <= i < |chunks| ==>
                 now.merger.scannedRanges[|p.merger.scannedRanges| + i] ==
                 PKRange(config.table, chunks[i].low, chunks[i].high, chunks[i].xmin)
    decreases |chunks|
  {
    if chunks != [] {
      var n := |chunks| - 1;
      ScanRecordsItsRanges(config, p, chunks[..n]);
      assert forall i :: 0 <= i < n ==> chunks[..n][i] == chunks[i];
    }
  }

  // ---- what the rows of a scan show ----

  /** The event of a row: the table's names, the row's key, its image as the only image, and the chunk it is part of,
      with the number of its rows and the key of the last of them. */
  predicate Shows(config: Config, e: CDCEvent, image: map<PK, Row>, pk: PK, id: int, rows: seq<PK>)
    requires rows != []
  {
    && e.schema == config.schema && e.table == config.tableName && e.operation == Read
    && e.pk == pk && pk in image && e.after == Some(image[pk]) && e.before == None
    && e.commitXID == 0 && e.commitLSN == 0
    && e.chunkID == id && e.chunkSize == |rows| && e.chunkHighPK == rows[|rows| - 1]
  }

  lemma {:induction false} ChunkHasRead(config: Config, image: map<PK, Row>, keys: seq<PK>, start: PK,
                                        chunks: seq<ChunkRecord>, at: PK, i: nat)
    requires IsSorted(keys) && HasRead(config, image, keys, start, chunks, at) && i < |chunks|
    ensures var c := chunks[i]; c.rows != [] && c.rows <= Above(keys, c.low) && c.image == image &&
                                c.high == c.rows[|c.rows| - 1]
    decreases |chunks|
  {
    if i < |chunks| - 1 {
      ChunkHasRead(config, image, keys, start, chunks[..|chunks| - 1], chunks[|chunks| - 1].low, i);
    }
  }

  lemma RowEventShows(config: Config, image: map<PK, Row>, keys: seq<PK>, cursor: PK, chunks: seq<ChunkRecord>,
                      last: PK, i: nat, j: nat, id: int)
    requires IsTable(keys, image) && HasRead(config, image, keys, cursor, chunks, last)
    requires i < |chunks| && j < |chunks[i].rows|
    ensures Shows(config, ReadEvents(config, chunks[i], id)[j], image, chunks[i].rows[j], id, chunks[i].rows)
  {
    ChunkHasRead(config, image, keys, cursor, chunks, last, i);
    RowIsKey(keys, chunks[i].low, chunks[i].rows, j);
  }

  lemma RowOfChunk(config: Config, p: Progress, chunks: seq<ChunkRecord>, i: nat, j: nat, id: int, at: nat)
    requires forall e <- p.merger.pending :: e.operation != Read
    requires i < |chunks| && j < |chunks[i].rows| && id == p.next + i
    requires at == |Rows(p.sent)| + |KeysRead(chunks[..i])| + j
    ensures at < |Rows(AfterChunks(config, p, chunks).sent)|
    ensures Rows(AfterChunks(config, p, chunks).sent)[at] == ReadEvents(config, chunks[i], id)[j]
  {
    var before := RowsOfChunk(config, p, chunks, i, id);
    RowIn(before, ReadEvents(config, chunks[i], id), Rows(AfterChunks(config, p, chunks).sent), j, at);
  }

  lemma RowIn(before: seq<CDCEvent>, news: seq<CDCEvent>, rows: seq<CDCEvent>, j: nat, at: nat)
    requires before + news <= rows && j < |news| && at == |before| + j
    ensures at < |rows| && rows[at] == news[j]
  {
    assert rows[at] == (before + news)[at];
  }

  /** Row j of the scan's chunk i, which has number `id`, is where the rows of the chunks before it end, and shows what
      the table holds. */
  lemma RowOfScanShows(config: Config, image: map<PK, Row>, keys: seq<PK>, cursor: PK, p: Progress,
                       chunks: seq<ChunkRecord>, last: PK, i: nat, j: nat, id: int, at: nat)
    requires IsTable(keys, image) && HasRead(config, image, keys, cursor, chunks, last)
    requires forall e <- p.merger.pending :: e.operation != Read
    requires i < |chunks| && j < |chunks[i].rows| && id == p.next + i
    requires at == |Rows(p.sent)| + |KeysRead(chunks[..i])| + j
    ensures at < |Rows(AfterChunks(config, p, chunks).sent)|
    ensures Shows(config, Rows(AfterChunks(config, p, chunks).sent)[at], image, chunks[i].rows[j], id, chunks[i].rows)
  {
    RowEventShows(config, image, keys, cursor, chunks, last, i, j, id);
    RowOfChunk(config, p, chunks, i, j, id, at);
  }

  lemma RowsUpTo(config: Config, p: Progress, chunks: seq<ChunkRecord>, n: nat, before: Progress, id: int)
    requires n < |chunks| && id == p.next + n && forall e <- p.merger.pending :: e.operation != Read
    requires before == AfterChunks(config, p, chunks[..n])
    ensures |Rows(before.sent)| == |Rows(p.sent)| + |KeysRead(chunks[..n])|
    ensures Rows(AfterChunk(config, before, chunks[n]).sent) ==
            Rows(before.sent) + ReadEvents(config, chunks[n], id)
  {
    RowsOfScan(config, p, chunks[..n]);
    RowsOfTurn(config, before, chunks[n]);
    assert before.next == id by {
      ScanRecordsItsRanges(config, p, chunks[..n]);
    }
  }

  /** What has been sent stays where it is in the rest of the scan. */
  lemma {:induction false} RowsStay(a: seq<CDCEvent>, b: seq<CDCEvent>)
    requires a <= b
    ensures Rows(a) <= Rows(b)
    decreases |b|
  {
    assert b == a + b[|a|..];
    RowsConcat(a, b[|a|..]);
  }

  lemma SentStays(config: Config, chunks: seq<ChunkRecord>, states: seq<Progress>, m: nat, n: nat)
    requires Scans(config, chunks, states) && m <= n <= |chunks|
    ensures states[m].sent <= states[n].sent
  {
    var stays := seq(n + 1, k requires 0 <= k <= n => m <= k && states[m].sent <= states[k].sent);
    forall k | m <= k < n && stays[k] ensures stays[k + 1] {
      SentStaysOne(config, chunks, states, k);
    }
    Persists(stays, m, n);
  }

  lemma SentStaysOne(config: Config, chunks: seq<ChunkRecord>, states: seq<Progress>, k: nat)
    requires Scans(config, chunks, states) && k < |chunks|
    ensures states[k].sent <= states[k + 1].sent
  {
  }

  /** The rows of a chunk come after those of the chunks before it. */
  lemma RowsOfChunk(config: Config, p: Progress, chunks: seq<ChunkRecord>, i: nat, id: int)
    returns (before: seq<CDCEvent>)
    requires (forall e <- p.merger.pending :: e.operation != Read) && i < |chunks| && id == p.next + i
    ensures |before| == |Rows(p.sent)| + |KeysRead(chunks[..i])|
    ensures before + ReadEvents(config, chunks[i], id) <= Rows(AfterChunks(config, p, chunks).sent)
  {
    var states := StatesOf(config, p, chunks);
    StatesAreScanned(config, p, chunks);
    SentStays(config, chunks, states, i + 1, |chunks|);
    RowsStay(states[i + 1].sent, states[|chunks|].sent);
    before := Rows(states[i].sent);
    RowsUpTo(config, p, chunks, i, states[i], id);
  }
}
