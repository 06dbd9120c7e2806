/** The snapshot rows of a run as READ events: their order, and how many there are per chunk. */
module Reads {
  import opened Keys
  import opened Wrappers
  import opened Cdc
  import opened Capture
  import opened EngineSpec
  import opened Watermark

  /** The READ event of one row (pg/snapshot.go, the inner loop of run). */
  function ReadEvent(config: Config, c: ChunkRecord, id: int, pk: PK): CDCEvent {
    CDCEvent(config.schema, config.tableName, Read, pk, None,
             if pk in c.image then Some(c.image[pk]) else None, 0, 0, id, |c.rows|, c.high)
  }

  function ReadEvents(config: Config, c: ChunkRecord, id: int): (r: seq<CDCEvent>)
    ensures |r| == |c.rows|
    ensures forall i :: 0 <= i < |r| ==> r[i] == ReadEvent(config, c, id, c.rows[i])
  {
    seq(|c.rows|, i requires 0 <= i < |c.rows| => ReadEvent(config, c, id, c.rows[i]))
  }

  /** All rows read so far, in the order they are sent. */
  function AllReads(config: Config, chunks: seq<ChunkRecord>): seq<CDCEvent> {
    if chunks == [] then []
    else
      var n := |chunks| - 1;
      AllReads(config, chunks[..n]) + ReadEvents(config, chunks[n], n + 1)
  }

  /** The READ events of a sequence, in order. */
  function Rows(events: seq<CDCEvent>): seq<CDCEvent> {
    if events == [] then []
    else
      var last, rest := events[|events| - 1], Rows(events[..|events| - 1]);
      if last.operation == Read then rest + [last] else rest
  }

  lemma {:induction false} RowsConcat(a: seq<CDCEvent>, b: seq<CDCEvent>)
    ensures Rows(a + b) == Rows(a) + Rows(b)
    decreases |b|
  {
    if b == [] {
      assert a + b == a;
    } else {
      var n := |b| - 1;
      assert (a + b)[..|a + b| - 1] == a + b[..n];
      RowsConcat(a, b[..n]);
    }
  }

  lemma {:induction false} RowsOfRows(events: seq<CDCEvent>)
    requires forall e <- events :: e.operation == Read
    ensures Rows(events) == events
    decreases |events|
  {
    if events != [] {
      var n := |events| - 1;
      RowsOfRows(events[..n]);
      assert events == events[..n] + [events[n]];
    }
  }

  lemma {:induction false} RowsOfOthers(events: seq<CDCEvent>)
    requires forall e <- events :: e.operation != Read
    ensures Rows(events) == []
    decreases |events|
  {
    if events != [] {
      RowsOfOthers(events[..|events| - 1]);
    }
  }

  lemma {:induction false} ReadCountConcat(a: seq<CDCEvent>, b: seq<CDCEvent>, id: int)
    ensures ReadCount(a + b, id) == ReadCount(a, id) + ReadCount(b, id)
    decreases |b|
  {
    if b == [] {
      assert a + b == a;
    } else {
      var n := |b| - 1;
      assert (a + b)[..|a + b| - 1] == a + b[..n];
      ReadCountConcat(a, b[..n], id);
    }
  }

  lemma {:induction false} ReadCountOfRows(events: seq<CDCEvent>, id: int)
    ensures ReadCount(Rows(events), id) == ReadCount(events, id)
    decreases |events|
  {
    if events != [] {
      var n := |events| - 1;
      ReadCountOfRows(events[..n], id);
      if events[n].operation == Read {
        ReadCountConcat(Rows(events[..n]), [events[n]], id);
        assert [events[n]][..0] == [];
      }
    }
  }

  lemma {:induction false} ReadCountNone(events: seq<CDCEvent>, id: int)
    requires forall e <- events :: !(e.operation == Read && e.chunkID == id)
    ensures ReadCount(events, id) == 0
    decreases |events|
  {
    if events != [] {
      ReadCountNone(events[..|events| - 1], id);
    }
  }

  lemma {:induction false} ReadCountAll(events: seq<CDCEvent>, id: int)
    requires forall e <- events :: e.operation == Read && e.chunkID == id
    ensures ReadCount(events, id) == |events|
    decreases |events|
  {
    if events != [] {
      ReadCountAll(events[..|events| - 1], id);
    }
  }

  function Extents(chunks: seq<ChunkRecord>): (r: seq<Extent>)
    ensures |r| == |chunks|
    ensures forall j :: 0 <= j < |r| ==> r[j] == Extent(|chunks[j].rows|, chunks[j].high)
  {
    seq(|chunks|, j requires 0 <= j < |chunks| => Extent(|chunks[j].rows|, chunks[j].high))
  }

  predicate NoEmptyChunk(chunks: seq<ChunkRecord>) {
    forall j :: 0 <= j < |chunks| ==> chunks[j].rows != []
  }

  /** What a READ event says about its chunk. */
  ghost predicate RowOk(config: Config, chunks: seq<ChunkRecord>, e: CDCEvent) {
    && e.operation == Read && 1 <= e.chunkID <= |chunks|
    && e.schema == config.schema && e.table == config.tableName
    && e.chunkSize == |chunks[e.chunkID - 1].rows| && e.chunkHighPK == chunks[e.chunkID - 1].high
    && e.pk in chunks[e.chunkID - 1].rows
  }

  lemma {:induction false} AllRowsOk(config: Config, chunks: seq<ChunkRecord>)
    ensures forall e <- AllReads(config, chunks) :: RowOk(config, chunks, e)
    decreases |chunks|
  {
    if chunks != [] {
      var n := |chunks| - 1;
      AllRowsOk(config, chunks[..n]);
      forall e | e in AllReads(config, chunks) ensures RowOk(config, chunks, e) {
        if e in AllReads(config, chunks[..n]) {
          assert RowOk(config, chunks[..n], e);
        }
      }
    }
  }

  /** Rows come out chunk by chunk, and no chunk is passed over. */
  ghost predicate InChunkOrder(rows: seq<CDCEvent>) {
    && (forall p, q :: 0 <= p < q < |rows| ==> rows[p].chunkID <= rows[q].chunkID)
    && (rows != [] ==> rows[0].chunkID <= 1)
    && (forall p :: 0 < p < |rows| ==> rows[p].chunkID <= rows[p - 1].chunkID + 1)
  }

  lemma {:induction false} AllReadsInOrder(config: Config, chunks: seq<ChunkRecord>)
    requires NoEmptyChunk(chunks)
    ensures InChunkOrder(AllReads(config, chunks))
    ensures chunks != [] ==> AllReads(config, chunks) != [] &&
                             AllReads(config, chunks)[|AllReads(config, chunks)| - 1].chunkID == |chunks|
    decreases |chunks|
  {
    if chunks != [] {
      var n := |chunks| - 1;
      AllReadsInOrder(config, chunks[..n]);
      AllRowsOk(config, chunks[..n]);
      OrderExtended(AllReads(config, chunks[..n]), ReadEvents(config, chunks[n], n + 1), n + 1);
    }
  }

  lemma OrderExtended(rows: seq<CDCEvent>, more: seq<CDCEvent>, id: int)
    requires InChunkOrder(rows)
    requires rows != [] ==> rows[|rows| - 1].chunkID == id - 1
    requires rows == [] ==> id == 1
    requires forall e <- more :: e.chunkID == id
    ensures InChunkOrder(rows + more)
  {
  }

  lemma {:induction false} RowsPerChunk(config: Config, chunks: seq<ChunkRecord>, id: int)
    ensures ReadCount(AllReads(config, chunks), id) == if 1 <= id <= |chunks| then |chunks[id - 1].rows| else 0
    decreases |chunks|
  {
    if chunks != [] {
      var n := |chunks| - 1;
      var news := ReadEvents(config, chunks[n], n + 1);
      RowsPerChunk(config, chunks[..n], id);
      ReadCountConcat(AllReads(config, chunks[..n]), news, id);
      if id == n + 1 {
        ReadCountAll(news, id);
      } else {
        ReadCountNone(news, id);
      }
    }
  }
}
