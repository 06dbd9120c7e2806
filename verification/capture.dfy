/** The capture half of the protocol: a database whose transactions begin and commit in any
    interleaving, the scanner that reads one table chunk by chunk (pg/snapshot.go), the streamer
    that delivers committed transactions in commit order (pg/wal.go), and the merger between
    them. The state carries, next to what the program holds, a history of what happened. */
module Capture {
  import opened Keys
  import opened Wrappers
  import opened Cdc
  import opened MergerSpec
  import EngineSpec

  // ---- the database ----

  /** A transaction's changes as the streamer decodes them, in order. */
  datatype Txn = Txn(xid: nat, lsn: nat, events: seq<CDCEvent>)

  datatype Db = Db(base: map<PK, Row>, nextXid: nat, active: set<nat>, log: seq<Txn>)

  /** The events of one transaction as the merger receives them. */
  function EventsOf(txn: Txn): seq<CDCEvent> {
    Stamp(txn.events, txn.lsn)
  }

  /** A snapshot's xmin: the lowest transaction id that has not finished. */
  ghost predicate IsXMin(db: Db, xmin: nat) {
    (xmin == db.nextXid || xmin in db.active) && xmin <= db.nextXid && forall a <- db.active :: xmin <= a
  }

  predicate MayCommit(db: Db, txn: Txn) {
    && txn.xid in db.active
    && (db.log != [] ==> db.log[|db.log| - 1].lsn < txn.lsn)
    && forall e <- txn.events :: e.operation != Read && e.commitXID == txn.xid
  }

  function Change(rows: map<PK, Row>, e: CDCEvent): map<PK, Row> {
    if e.operation == Delete then rows - {e.pk}
    else if e.after.Some? then rows[e.pk := e.after.value]
    else rows
  }

  function ChangeAll(table: string, rows: map<PK, Row>, events: seq<CDCEvent>): map<PK, Row> {
    if events == [] then rows
    else
      var before, last := ChangeAll(table, rows, events[..|events| - 1]), events[|events| - 1];
      if TableOf(last) == table && last.pk != Unset then Change(before, last) else before
  }

  /** The table's rows once the first n committed transactions are applied. */
  function TableAt(table: string, db: Db, n: nat): map<PK, Row>
    requires n <= |db.log|
  {
    if n == 0 then db.base
    else ChangeAll(table, TableAt(table, db, n - 1), EventsOf(db.log[n - 1]))
  }

  /** What a chunk query returns: the first `size` keys above the cursor, ascending. */
  ghost predicate IsChunkRead(rows: seq<PK>, image: map<PK, Row>, cursor: PK, size: nat) {
    && |rows| <= size && 0 < size
    && (forall i :: 0 <= i < |rows| ==> rows[i] in image && Rank(cursor) < Rank(rows[i]))
    && (forall i, j :: 0 <= i < j < |rows| ==> Rank(rows[i]) < Rank(rows[j]))
    && (|rows| < size ==> forall k <- image :: Rank(cursor) < Rank(k) ==> k in rows)
    && (|rows| == size ==> forall k <- image :: Rank(cursor) < Rank(k) <= Rank(rows[size - 1]) ==> k in rows)
  }

  // ---- the state ----

  datatype Config = Config(table: string, schema: string, tableName: string, chunkSize: nat)

  /** A finished chunk: its bounds, the window the merger buffered for it, the snapshot it was read
      from (xmin, and how many transactions that snapshot sees), how many transactions had been
      delivered when it began and when it ended, and the rows read. */
  datatype ChunkRecord = ChunkRecord(
    low: PK, window: PK, high: PK, xmin: nat, visible: nat, begun: nat, ended: nat,
    rows: seq<PK>, image: map<PK, Row>)

  /** Where the scanner is in its loop. Exhausted keeps how many transactions the last, empty read saw; Off is
      the scanner of a process that started in the streaming phase. */
  datatype ScanPoint = Ready | Begun | Snapped(xmin: nat, visible: nat) | Exhausted(visible: nat) | Off

  /** The merger as one transaction found it, and how many chunks had ended by then. */
  datatype Arrival = Arrival(merger: MergerState, ended: nat)

  datatype State = State(
    config: Config, db: Db,
    start: PK, from: nat, delivered: nat, merger: MergerState,
    cursor: PK, chunkID: int, point: ScanPoint, begun: nat, completed: Option<nat>,
    chunks: seq<ChunkRecord>, arrivals: seq<Arrival>,
    arrived: seq<CDCEvent>, emitted: seq<CDCEvent>, discarded: seq<CDCEvent>,
    taken: seq<CDCEvent>, settled: seq<CDCEvent>)

  function RangeOf(config: Config, c: ChunkRecord): PKRange {
    PKRange(config.table, c.low, c.high, c.xmin)
  }

  function Ranges(config: Config, chunks: seq<ChunkRecord>): (r: seq<PKRange>)
    ensures |r| == |chunks|
    ensures forall j :: 0 <= j < |chunks| ==> r[j] == RangeOf(config, chunks[j])
  {
    seq(|chunks|, j requires 0 <= j < |chunks| => RangeOf(config, chunks[j]))
  }

  function LastHigh(start: PK, chunks: seq<ChunkRecord>): PK {
    if chunks == [] then start else chunks[|chunks| - 1].high
  }

  /** A process that starts with the given phase and cursor over an existing database, the streamer
      resuming at some transaction. */
  function Starting(config: Config, db: Db, phase: Phase, cursor: PK, from: nat): State {
    State(config, db, cursor, from, from, MergerState(phase, [], None, []),
          cursor, 1, if phase == Streaming then Off else Ready, from, None, [], [], [], [], [], [], [])
  }

  // ---- the steps ----

  function BeginTxn(s: State): State {
    s.(db := s.db.(active := s.db.active + {s.db.nextXid}, nextXid := s.db.nextXid + 1))
  }

  function CommitTxn(s: State, txn: Txn): State {
    s.(db := s.db.(active := s.db.active - {txn.xid}, log := s.db.log + [txn]))
  }

  function AbortTxn(s: State, xid: nat): State {
    s.(db := s.db.(active := s.db.active - {xid}))
  }

  predicate MayScanBegin(s: State) {
    s.point == Ready && s.chunkID < EngineSpec.MAX_INT - 1
  }

  /** onBeginChunk with the estimated bounds. */
  function ScanBegin(s: State): State {
    s.(point := Begun, begun := s.delivered,
       merger := BeginChunk(s.merger, Chunk(s.chunkID, s.config.table, s.cursor, Next(s.cursor, s.config.chunkSize))))
  }

  /** The chunk's transaction takes its snapshot. */
  function ScanSnapshot(s: State, xmin: nat): State {
    s.(point := Snapped(xmin, |s.db.log|))
  }

  ghost predicate MayScanRead(s: State, rows: seq<PK>) {
    && s.point.Snapped? && s.point.visible <= |s.db.log|
    && IsChunkRead(rows, TableAt(s.config.table, s.db, s.point.visible), s.cursor, s.config.chunkSize)
  }

  function NewChunk(s: State, rows: seq<PK>): ChunkRecord
    requires s.point.Snapped? && s.point.visible <= |s.db.log| && rows != []
  {
    ChunkRecord(s.cursor, Next(s.cursor, s.config.chunkSize), rows[|rows| - 1], s.point.xmin, s.point.visible,
                s.begun, s.delivered, rows, TableAt(s.config.table, s.db, s.point.visible))
  }

  /** onEndChunk, and the scanner's loop variables for the next turn. */
  function ScanEnd(s: State, rows: seq<PK>): State
    requires s.point.Snapped? && s.point.visible <= |s.db.log| && rows != []
  {
    var high, xmin := rows[|rows| - 1], s.point.xmin;
    s.(point := Ready, cursor := high, chunkID := s.chunkID + 1,
       chunks := s.chunks + [NewChunk(s, rows)],
       merger := EndChunk(s.merger, s.chunkID, s.config.table, high, xmin),
       emitted := s.emitted + EndChunkEmits(s.merger, s.chunkID, high, xmin),
       discarded := s.discarded + Below(InChunk(s.merger.pending, s.cursor, high), xmin),
       settled := s.settled + InChunk(s.merger.pending, s.cursor, high))
  }

  /** An empty read ends the scan; the chunk in progress is never ended. */
  function ScanExhaust(s: State): State
    requires s.point.Snapped?
  {
    s.(point := Exhausted(s.point.visible))
  }

  /** onWALBatch for the next committed transaction. */
  function Deliver(s: State): State
    requires s.delivered < |s.db.log|
  {
    var events := EventsOf(s.db.log[s.delivered]);
    s.(delivered := s.delivered + 1,
       arrivals := s.arrivals + [Arrival(s.merger, |s.chunks|)],
       arrived := s.arrived + events,
       merger := Receive(s.merger, events),
       emitted := s.emitted + Decided(s.merger, events, Emit),
       discarded := s.discarded + Decided(s.merger, events, BelowXMin) + Decided(s.merger, events, Unscanned),
       taken := s.taken + Taken(s.merger, events),
       settled := s.settled + SettledNow(s.merger, events))
  }

  /** onSnapshotComplete; the history notes how many transactions had been delivered by then. */
  function Completed(s: State): State {
    s.(merger := Complete(s.merger), completed := Some(s.delivered),
       emitted := s.emitted + s.merger.pending,
       settled := s.settled + s.merger.pending)
  }

  datatype Step =
    | DoBeginTxn
    | DoCommitTxn(txn: Txn)
    | DoAbortTxn(xid: nat)
    | DoScanBegin
    | DoScanSnapshot(xmin: nat)
    | DoScanEnd(rows: seq<PK>)
    | DoScanExhaust
    | DoDeliver
    | DoComplete

  ghost predicate Enabled(s: State, step: Step) {
    match step
    case DoBeginTxn => true
    case DoCommitTxn(txn) => MayCommit(s.db, txn)
    case DoAbortTxn(xid) => xid in s.db.active
    case DoScanBegin => MayScanBegin(s)
    case DoScanSnapshot(xmin) => s.point == Begun && IsXMin(s.db, xmin)
    case DoScanEnd(rows) => rows != [] && MayScanRead(s, rows)
    case DoScanExhaust => MayScanRead(s, [])
    case DoDeliver => s.delivered < |s.db.log|
    case DoComplete => s.point.Exhausted? && s.completed.None?
  }

  ghost function Apply(s: State, step: Step): State
    requires Enabled(s, step)
  {
    match step
    case DoBeginTxn => BeginTxn(s)
    case DoCommitTxn(txn) => CommitTxn(s, txn)
    case DoAbortTxn(xid) => AbortTxn(s, xid)
    case DoScanBegin => ScanBegin(s)
    case DoScanSnapshot(xmin) => ScanSnapshot(s, xmin)
    case DoScanEnd(rows) => ScanEnd(s, rows)
    case DoScanExhaust => ScanExhaust(s)
    case DoDeliver => Deliver(s)
    case DoComplete => Completed(s)
  }
}
