/** Drained messages and their acknowledgements, and how they stand to the rows read. */
module Delivery {
  import opened Keys
  import opened Wrappers
  import opened Cdc
  import opened Capture
  import opened EngineSpec
  import opened Watermark
  import opened Reads

  /** A message handed to the pipeline, and whether it has been acknowledged without error. */
  datatype Message = Message(event: CDCEvent, acked: bool)

  function Events(d: seq<Message>): (r: seq<CDCEvent>)
    ensures |r| == |d|
    ensures forall i :: 0 <= i < |r| ==> r[i] == d[i].event
  {
    seq(|d|, i requires 0 <= i < |d| => d[i].event)
  }

  predicate AckedRow(m: Message, id: int) {
    m.acked && m.event.operation == Read && m.event.chunkID == id
  }

  /** Acknowledged rows of one chunk. */
  function AckedCount(d: seq<Message>, id: int): nat {
    if d == [] then 0
    else AckedCount(d[..|d| - 1], id) + (if AckedRow(d[|d| - 1], id) then 1 else 0)
  }

  function AcksOf(d: seq<Message>, n: nat): (r: seq<nat>)
    ensures |r| == n
    ensures forall i :: 0 <= i < n ==> r[i] == AckedCount(d, i + 1)
  {
    seq(n, i requires 0 <= i < n => AckedCount(d, i + 1))
  }

  /** The chunk of the last row drained. */
  function SeenOf(rows: seq<CDCEvent>): int {
    if rows == [] then 0 else rows[|rows| - 1].chunkID
  }

  lemma EventsSnoc(d: seq<Message>, m: Message)
    ensures Events(d + [m]) == Events(d) + [m.event]
  {
  }

  lemma {:induction false} AckedWithin(d: seq<Message>, id: int)
    ensures AckedCount(d, id) <= ReadCount(Events(d), id)
    decreases |d|
  {
    if d != [] {
      AckedWithin(d[..|d| - 1], id);
      assert Events(d)[..|d| - 1] == Events(d[..|d| - 1]);
    }
  }

  /** A chunk with an unacknowledged row has fewer acknowledgements than drained rows. */
  lemma {:induction false} UnackedRow(d: seq<Message>, p: nat, id: int)
    requires p < |d| && d[p].event.operation == Read && d[p].event.chunkID == id && !d[p].acked
    ensures AckedCount(d, id) < ReadCount(Events(d), id)
    decreases |d|
  {
    var n := |d| - 1;
    assert Events(d)[..n] == Events(d[..n]);
    if p < n {
      UnackedRow(d[..n], p, id);
    } else {
      AckedWithin(d[..n], id);
    }
  }

  // ---- marking messages acknowledged ----

  predicate Pickable(d: seq<Message>, picks: seq<nat>) {
    && (forall i :: 0 <= i < |picks| ==> picks[i] < |d| && !d[picks[i]].acked)
    && (forall i, j :: 0 <= i < j < |picks| ==> picks[i] != picks[j])
  }

  function Picked(d: seq<Message>, picks: seq<nat>): (r: seq<CDCEvent>)
    requires Pickable(d, picks)
    ensures |r| == |picks|
    ensures forall i :: 0 <= i < |r| ==> r[i] == d[picks[i]].event
  {
    seq(|picks|, i requires 0 <= i < |picks| => d[picks[i]].event)
  }

  function Mark(d: seq<Message>, picks: seq<nat>): (r: seq<Message>)
    requires Pickable(d, picks)
    ensures |r| == |d|
    ensures forall p :: 0 <= p < |d| ==> r[p] == d[p].(acked := d[p].acked || p in picks)
  {
    seq(|d|, p requires 0 <= p < |d| => d[p].(acked := d[p].acked || p in picks))
  }

  lemma {:induction false} MarkOne(d: seq<Message>, p: nat, id: int)
    requires p < |d| && !d[p].acked
    ensures AckedCount(d[p := d[p].(acked := true)], id) ==
            AckedCount(d, id) + (if d[p].event.operation == Read && d[p].event.chunkID == id then 1 else 0)
    decreases |d|
  {
    var n := |d| - 1;
    if p < n {
      MarkOne(d[..n], p, id);
      assert d[p := d[p].(acked := true)][..n] == d[..n][p := d[..n][p].(acked := true)];
    } else {
      assert d[p := d[p].(acked := true)][..n] == d[..n];
    }
  }

  lemma MarkLast(d: seq<Message>, picks: seq<nat>)
    requires Pickable(d, picks) && picks != []
    ensures var n := |picks| - 1;
            var before := Mark(d, picks[..n]);
            && !before[picks[n]].acked && before[picks[n]].event == d[picks[n]].event
            && Mark(d, picks) == before[picks[n] := before[picks[n]].(acked := true)]
  {
    var n := |picks| - 1;
    assert picks == picks[..n] + [picks[n]];
    assert picks[n] !in picks[..n];
  }

  lemma {:induction false} MarkCounts(d: seq<Message>, picks: seq<nat>, id: int)
    requires Pickable(d, picks)
    ensures AckedCount(Mark(d, picks), id) == AckedCount(d, id) + ReadCount(Picked(d, picks), id)
    decreases |picks|
  {
    if picks == [] {
      assert Mark(d, picks) == d;
    } else {
      var n := |picks| - 1;
      var before := Mark(d, picks[..n]);
      MarkCounts(d, picks[..n], id);
      assert Picked(d, picks)[..n] == Picked(d, picks[..n]);
      MarkLast(d, picks);
      MarkOne(before, picks[n], id);
    }
  }

  // ---- the drained rows are a prefix of the rows read ----

  /** The rows drained so far, followed by those still under way, are the rows read. */
  ghost predicate FlowOk(config: Config, chunks: seq<ChunkRecord>, d: seq<Message>, underWay: seq<CDCEvent>) {
    Rows(Events(d)) + underWay == AllReads(config, chunks)
  }

  lemma DrainedRowsPerChunk(config: Config, chunks: seq<ChunkRecord>, d: seq<Message>, underWay: seq<CDCEvent>, id: int)
    requires FlowOk(config, chunks, d, underWay)
    ensures ReadCount(Events(d), id) + ReadCount(underWay, id) ==
            if 1 <= id <= |chunks| then |chunks[id - 1].rows| else 0
  {
    RowsPerChunk(config, chunks, id);
    ReadCountConcat(Rows(Events(d)), underWay, id);
    ReadCountOfRows(Events(d), id);
  }

  lemma SeenInRange(config: Config, chunks: seq<ChunkRecord>, d: seq<Message>, underWay: seq<CDCEvent>)
    requires FlowOk(config, chunks, d, underWay) && NoEmptyChunk(chunks)
    ensures 0 <= SeenOf(Rows(Events(d))) <= |chunks|
    ensures forall e <- Rows(Events(d)) :: 1 <= e.chunkID <= SeenOf(Rows(Events(d)))
    ensures forall e <- underWay :: SeenOf(Rows(Events(d))) <= e.chunkID
  {
    AllRowsOk(config, chunks);
    AllReadsInOrder(config, chunks);
    var rows, all := Rows(Events(d)), AllReads(config, chunks);
    forall e | e in rows ensures 1 <= e.chunkID <= SeenOf(rows) {
      var p :| 0 <= p < |rows| && rows[p] == e;
      assert all[p] == rows[p] && all[|rows| - 1] == rows[|rows| - 1];
      assert RowOk(config, chunks, all[p]) && RowOk(config, chunks, all[|rows| - 1]);
    }
    forall e | e in underWay ensures SeenOf(rows) <= e.chunkID {
      var q :| 0 <= q < |underWay| && underWay[q] == e;
      assert all[|rows| + q] == e;
      assert RowOk(config, chunks, all[|rows| + q]);
      if rows != [] {
        assert all[|rows| - 1] == rows[|rows| - 1];
      }
    }
    if rows != [] {
      assert all[|rows| - 1] == rows[|rows| - 1];
      assert RowOk(config, chunks, all[|rows| - 1]);
    }
  }

  lemma UnderWayRowsOk(config: Config, chunks: seq<ChunkRecord>, d: seq<Message>, underWay: seq<CDCEvent>)
    requires FlowOk(config, chunks, d, underWay)
    ensures forall e <- underWay :: RowOk(config, chunks, e)
  {
    AllRowsOk(config, chunks);
    assert forall e <- underWay :: e in Rows(Events(d)) + underWay;
  }

  /** The counts the engine tracks are well formed. */
  lemma CountsShaped(config: Config, chunks: seq<ChunkRecord>, d: seq<Message>, underWay: seq<CDCEvent>)
    requires FlowOk(config, chunks, d, underWay) && NoEmptyChunk(chunks) && |chunks| < MAX_INT
    ensures 0 <= SeenOf(Rows(Events(d))) <= |chunks|
    ensures Shaped(Extents(chunks), SeenOf(Rows(Events(d))), AcksOf(d, |chunks|))
  {
    SeenInRange(config, chunks, d, underWay);
    forall i | 0 <= i < |chunks| ensures AckedCount(d, i + 1) <= |chunks[i].rows| {
      AckedWithin(d, i + 1);
      DrainedRowsPerChunk(config, chunks, d, underWay, i + 1);
    }
    forall i | SeenOf(Rows(Events(d))) <= i < |chunks| ensures AcksOf(d, |chunks|)[i] == 0 {
      AckedWithin(d, i + 1);
      ReadCountOfRows(Events(d), i + 1);
      ReadCountNone(Rows(Events(d)), i + 1);
    }
  }

  /** The next row to drain belongs to the newest chunk seen or opens the one after it. */
  lemma NextRow(config: Config, chunks: seq<ChunkRecord>, d: seq<Message>, e: CDCEvent, rest: seq<CDCEvent>)
    requires FlowOk(config, chunks, d, [e] + rest) && NoEmptyChunk(chunks)
    ensures RowOk(config, chunks, e)
    ensures SeenOf(Rows(Events(d))) <= e.chunkID <= SeenOf(Rows(Events(d))) + 1
    ensures !Full(Extents(chunks), AcksOf(d, |chunks|), e.chunkID)
  {
    var rows, all := Rows(Events(d)), AllReads(config, chunks);
    assert all[|rows|] == e;
    assert RowOk(config, chunks, e) by {
      AllRowsOk(config, chunks);
    }
    assert SeenOf(rows) <= e.chunkID <= SeenOf(rows) + 1 by {
      AllReadsInOrder(config, chunks);
      if rows != [] {
        assert all[|rows| - 1] == rows[|rows| - 1];
      }
    }
    NotFullYet(config, chunks, d, [e] + rest, e);
  }

  lemma NotFullYet(config: Config, chunks: seq<ChunkRecord>, d: seq<Message>, underWay: seq<CDCEvent>, e: CDCEvent)
    requires FlowOk(config, chunks, d, underWay) && e in underWay && RowOk(config, chunks, e)
    ensures !Full(Extents(chunks), AcksOf(d, |chunks|), e.chunkID)
  {
    DrainedRowsPerChunk(config, chunks, d, underWay, e.chunkID);
    AckedWithin(d, e.chunkID);
    ReadCountPositive(underWay, e.chunkID);
  }

  /** A full chunk: every row of it has been drained and acknowledged. */
  lemma FullChunkIsAcked(config: Config, chunks: seq<ChunkRecord>, d: seq<Message>, underWay: seq<CDCEvent>, id: int)
    requires FlowOk(config, chunks, d, underWay) && Full(Extents(chunks), AcksOf(d, |chunks|), id)
    ensures forall p :: 0 <= p < |d| && d[p].event.operation == Read && d[p].event.chunkID == id ==> d[p].acked
    ensures forall e <- underWay :: e.operation == Read ==> e.chunkID != id
  {
    DrainedRowsPerChunk(config, chunks, d, underWay, id);
    AckedWithin(d, id);
    forall p | 0 <= p < |d| && d[p].event.operation == Read && d[p].event.chunkID == id ensures d[p].acked {
      if !d[p].acked {
        UnackedRow(d, p, id);
      }
    }
    ReadCountPositive(underWay, id);
  }

  /** Acknowledging unacknowledged messages is an acknowledgement the watermark allows. */
  lemma PickedMayAck(config: Config, chunks: seq<ChunkRecord>, d: seq<Message>, underWay: seq<CDCEvent>,
                     picks: seq<nat>)
    requires FlowOk(config, chunks, d, underWay) && NoEmptyChunk(chunks) && |chunks| < MAX_INT && Pickable(d, picks)
    ensures Events(Mark(d, picks)) == Events(d)
    ensures 0 <= SeenOf(Rows(Events(d))) <= |chunks|
    ensures AcksOf(Mark(d, picks), |chunks|) == AckMore(AcksOf(d, |chunks|), Picked(d, picks))
    ensures MayAck(Extents(chunks), SeenOf(Rows(Events(d))), AcksOf(d, |chunks|), Picked(d, picks))
  {
    var m := Mark(d, picks);
    assert Events(m) == Events(d);
    forall i | 0 <= i < |chunks| ensures AcksOf(m, |chunks|)[i] == AckMore(AcksOf(d, |chunks|), Picked(d, picks))[i] {
      MarkCounts(d, picks, i + 1);
    }
    CountsShaped(config, chunks, m, underWay);
    SeenInRange(config, chunks, d, underWay);
    forall id | id in ReadIds(Picked(d, picks)) ensures 1 <= id <= SeenOf(Rows(Events(d))) {
      var e :| e in Picked(d, picks) && e.operation == Read && e.chunkID == id;
      var i :| 0 <= i < |picks| && d[picks[i]].event == e;
      RowsMembers(Events(d), e);
      assert Events(d)[picks[i]] == e;
    }
  }

  // ---- the drained rows tell which chunks have been seen ----

  lemma PrefixInOrder(rows: seq<CDCEvent>, n: nat)
    requires InChunkOrder(rows) && n <= |rows|
    ensures InChunkOrder(rows[..n])
  {
    var first := rows[..n];
    forall p | 0 < p < n ensures first[p].chunkID <= first[p - 1].chunkID + 1 {
      assert first[p] == rows[p] && first[p - 1] == rows[p - 1];
    }
  }

  lemma {:induction false} SeenChunkHasARow(rows: seq<CDCEvent>, id: int) returns (e: CDCEvent)
    requires InChunkOrder(rows) && 1 <= id <= SeenOf(rows)
    ensures e in rows && e.chunkID == id
    decreases |rows|
  {
    e := rows[|rows| - 1];
    if e.chunkID != id {
      PrefixInOrder(rows, |rows| - 1);
      assert e.chunkID <= SeenOf(rows[..|rows| - 1]) + 1;
      e := SeenChunkHasARow(rows[..|rows| - 1], id);
    }
  }

  /** Two scans with the same rows drained agree on every chunk seen, whatever either has read beyond. */
  lemma SeenChunkIsKnown(config: Config, d: seq<Message>, chunks: seq<ChunkRecord>, underWay: seq<CDCEvent>,
                         others: seq<ChunkRecord>, otherUnderWay: seq<CDCEvent>, id: int)
    requires FlowOk(config, chunks, d, underWay) && FlowOk(config, others, d, otherUnderWay)
    requires NoEmptyChunk(chunks) && 1 <= id <= SeenOf(Rows(Events(d)))
    ensures id <= |chunks| && id <= |others| && Extents(chunks)[id - 1] == Extents(others)[id - 1]
  {
    var rows := Rows(Events(d));
    assert InChunkOrder(rows) by {
      AllReadsInOrder(config, chunks);
      PrefixInOrder(AllReads(config, chunks), |rows|);
      assert rows == AllReads(config, chunks)[..|rows|];
    }
    var e := SeenChunkHasARow(rows, id);
    assert RowOk(config, chunks, e) by {
      AllRowsOk(config, chunks);
    }
    assert RowOk(config, others, e) by {
      AllRowsOk(config, others);
    }
  }

  /** So equal drained messages are equal progress. */
  lemma DrainedIsProgress(config: Config, d: seq<Message>, chunks: seq<ChunkRecord>, underWay: seq<CDCEvent>,
                          others: seq<ChunkRecord>, otherUnderWay: seq<CDCEvent>)
    requires FlowOk(config, chunks, d, underWay) && FlowOk(config, others, d, otherUnderWay)
    requires NoEmptyChunk(chunks) && NoEmptyChunk(others) && |chunks| < MAX_INT && |others| < MAX_INT
    ensures 0 <= SeenOf(Rows(Events(d)))
    ensures SameSeen(SeenOf(Rows(Events(d))), Extents(chunks), AcksOf(d, |chunks|), Extents(others),
                     AcksOf(d, |others|))
  {
    CountsShaped(config, chunks, d, underWay);
    CountsShaped(config, others, d, otherUnderWay);
    forall i | 0 <= i < SeenOf(Rows(Events(d))) ensures Extents(chunks)[i] == Extents(others)[i] {
      SeenChunkIsKnown(config, d, chunks, underWay, others, otherUnderWay, i + 1);
    }
  }

  lemma {:induction false} RowsMembers(events: seq<CDCEvent>, e: CDCEvent)
    ensures e in Rows(events) <==> e in events && e.operation == Read
    decreases |events|
  {
    if events != [] {
      var n := |events| - 1;
      RowsMembers(events[..n], e);
      assert events == events[..n] + [events[n]];
    }
  }
}
