/** The state a streaming session keeps, and every way the code changes it (driver.go, wal.go, cursor.go). */
module Session {
  import opened Basics
  import opened Rows
  import opened DeadLetters

  /** The locals of processWALStream together with the two positions of the walConsumer. */
  datatype Core = Core(
    buf: seq<ParsedInsert>,
    pending: seq<ParsedInsert>,
    pendingCommit: Lsn,
    inTx: bool,
    xlogPos: Lsn,
    flush: Lsn)

  /** A decoded message; an INSERT that yields no job and a message that does not decode change nothing. */
  datatype Event = Begin | Insert(job: Option<ParsedInsert>) | Commit(lsn: Lsn) | Nothing

  function StartCore(start: Lsn): Core {
    Core([], [], start, false, start, start)
  }

  function OnPosition(c: Core, position: Lsn): Core {
    c.(xlogPos := Max(c.xlogPos, position))
  }

  function OnEvent(c: Core, e: Event): Core {
    match e
    case Begin => c.(inTx := true)
    case Insert(Some(row)) => c.(buf := c.buf + [row])
    case Insert(None) => c
    case Commit(lsn) =>
      c.(buf := [], pending := c.pending + c.buf, pendingCommit := Max(c.pendingCommit, lsn), inTx := false)
    case Nothing => c
  }

  predicate CanAdvanceIdleFlush(pending: seq<ParsedInsert>, buf: seq<ParsedInsert>, inTx: bool) {
    pending == [] && buf == [] && !inTx
  }

  predicate IdleDue(c: Core) {
    CanAdvanceIdleFlush(c.pending, c.buf, c.inTx) && c.xlogPos > c.flush
  }

  function Flushed(c: Core): Core {
    c.(pending := [], flush := Max(c.flush, c.pendingCommit))
  }

  function IdleFlushed(c: Core): Core {
    c.(flush := Max(c.flush, c.xlogPos))
  }

  // ---- The durable database: the cursor row of the slot and the dead-letter table ----------

  datatype Db = Db(cursor: Option<Lsn>, dlq: seq<DlqRow>)

  /** What readCursor reports: 0/0 stands for a missing row. */
  function CursorOf(db: Db): Lsn {
    match db.cursor
    case None => 0
    case Some(lsn) => lsn
  }

  /** The upsert with its only-forward guard. */
  function WriteCursor(cursor: Option<Lsn>, lsn: Lsn): Option<Lsn> {
    match cursor
    case None => Some(lsn)
    case Some(stored) => if lsn > stored then Some(lsn) else cursor
  }

  function Persist(db: Db, letters: seq<DlqRow>, lsn: Lsn): Db {
    Db(WriteCursor(db.cursor, lsn), db.dlq + letters)
  }

  lemma PersistRaisesCursor(db: Db, letters: seq<DlqRow>, lsn: Lsn)
    ensures CursorOf(Persist(db, letters, lsn)) == Max(CursorOf(db), lsn)
    ensures Persist(db, letters, lsn).cursor.Some? && Persist(db, letters, lsn).dlq == db.dlq + letters
  {
  }

  // ---- What the server is told --------------------------------------------------------------

  datatype Status = Status(write: Lsn, flush: Lsn, apply: Lsn)

  function StandbyStatusUpdate(xlogPos: Lsn, flush: Lsn): Status {
    var write := if flush == 0 then 0 else if xlogPos < flush then flush else xlogPos;
    Status(write, flush, flush)
  }

  /** pglogrepl.SendStandbyStatusUpdate sends the write position for a flush or apply position of zero. */
  function Wire(s: Status): Status {
    Status(s.write, if s.flush == 0 then s.write else s.flush, if s.apply == 0 then s.write else s.apply)
  }

  /** The slot's confirmed position only moves forward. */
  function Confirm(confirmed: Lsn, s: Status): Lsn {
    Max(confirmed, s.flush)
  }

  /**
   * On the wire the flush position is exactly what was persisted, and the write position is what was received, but
   * never behind it; before anything is persisted all of it is zero.
   */
  lemma WireTellsTheTruth(xlogPos: Lsn, flush: Lsn)
    ensures var s := Wire(StandbyStatusUpdate(xlogPos, flush));
      s.flush == s.apply == flush <= s.write && s.write == if flush == 0 then 0 else Max(xlogPos, flush)
  {
  }

  /** Without the all-zero special case the library's rule would report received as flushed, exactly on a first run. */
  lemma PlainStatusLiesExactly(xlogPos: Lsn, flush: Lsn)
    ensures Wire(Status(Max(xlogPos, flush), flush, flush)).flush == flush <==> !(flush == 0 && xlogPos > 0)
  {
  }
}
