/** The driver's code: a WAL consumer, a database and a loop that moves rows from one to the other. */
module DriverCode {
  import opened Basics
  import opened Rows
  import opened DeadLetters
  import opened Session
  import opened Stream

  /** The cursor row of the slot and the dead-letter table. */
  class Database {
    var cursor: Option<Lsn>
    var dlq: seq<DlqRow>

    ghost function Contents(): Db
      reads this
    {
      Db(cursor, dlq)
    }

    constructor ()
      ensures Contents() == Db(None, [])
    {
      cursor, dlq := None, [];
    }

    method ReadCursor() returns (lsn: Lsn)
      ensures lsn == CursorOf(Contents())
    {
      if cursor.None? {
        return 0;
      }
      return cursor.value;
    }

    /** One transaction: the dead letters, the cursor, and a commit that may fail with or without effect. */
    method FlushTx(letters: seq<DlqRow>, lsn: Lsn, o: TxOutcome) returns (ok: bool)
      modifies this
      ensures ok == o.Committed?
      ensures Contents() == if TakesEffect(o) then Persist(old(Contents()), letters, lsn) else old(Contents())
      ensures o.RolledBack? ==> cursor == old(cursor) && dlq == old(dlq)
      ensures !o.RolledBack? ==>
                && dlq == old(dlq) + letters
                && cursor == if old(cursor) == None then Some(lsn) else Some(Max(old(cursor).value, lsn))
    {
      var rows := dlq + letters;
      var position := cursor;
      if position.None? || lsn > position.value {
        position := Some(lsn);
      }
      if !o.RolledBack? {
        cursor, dlq := position, rows;
      }
      return o.Committed?;
    }
  }

  /** The server's side of the slot. */
  class Slot {
    var confirmed: Lsn

    constructor (lsn: Lsn)
      ensures confirmed == lsn
    {
      confirmed := lsn;
    }

    method Receive(s: Status)
      modifies this
      ensures confirmed == Confirm(old(confirmed), s)
    {
      if s.flush > confirmed {
        confirmed := s.flush;
      }
    }
  }

  /** jack-service: the jobs it was sent, and which rows its answers accepted. */
  class Jack {
    var submitted: seq<seq<Job>>
    ghost var batches: seq<seq<ParsedInsert>>
    ghost var accepted: set<ParsedInsert>

    constructor ()
      ensures submitted == [] && batches == [] && accepted == {} && Valid()
    {
      submitted, batches, accepted := [], [], {};
    }

    ghost predicate Valid()
      reads this
    {
      && |submitted| == |batches|
      && forall i :: 0 <= i < |batches| ==> JobsOf(submitted[i], batches[i])
    }
  }

  ghost predicate JobsOf(jobs: seq<Job>, rows: seq<ParsedInsert>) {
    |jobs| == |rows| && forall i :: 0 <= i < |rows| ==> JobCarries(jobs[i], rows[i])
  }

  method ToJobs(inserts: seq<ParsedInsert>) returns (jobs: seq<Job>)
    ensures JobsOf(jobs, inserts)
  {
    jobs := [];
    for i := 0 to |inserts|
      invariant JobsOf(jobs, inserts[..i])
    {
      hide JobCarries, ToJob;
      ToJobCarries(inserts[i]);
      jobs := jobs + [ToJob(inserts[i])];
    }
    assert inserts[..|inserts|] == inserts;
  }

  class WalConsumer {
    var relations: map<nat, RelationMeta>
    var clientXLogPos: Lsn
    var flushLSN: Lsn

    constructor ()
      ensures relations == map[] && clientXLogPos == 0 && flushLSN == 0
    {
      relations, clientXLogPos, flushLSN := map[], 0, 0;
    }

    method StartStreaming(startLSN: Lsn)
      modifies this`clientXLogPos, this`flushLSN
      ensures clientXLogPos == flushLSN == startLSN
    {
      clientXLogPos := startLSN;
      flushLSN := startLSN;
    }

    method SendStandbyStatus(slot: Slot, sent: bool)
      modifies slot
      ensures slot.confirmed == if sent then Max(old(slot.confirmed), flushLSN) else old(slot.confirmed)
      ensures slot.confirmed ==
              if sent then Confirm(old(slot.confirmed), Wire(StandbyStatusUpdate(clientXLogPos, flushLSN)))
              else old(slot.confirmed)
    {
      WireTellsTheTruth(clientXLogPos, flushLSN);
      var write := clientXLogPos;
      if flushLSN == 0 {
        write := 0;
      } else if write < flushLSN {
        write := flushLSN;
      }
      if sent {
        slot.Receive(Wire(Status(write, flushLSN, flushLSN)));
      }
    }

    method SetFlushLSN(lsn: Lsn)
      modifies this`flushLSN
      ensures flushLSN == Max(old(flushLSN), lsn)
    {
      if lsn > flushLSN {
        flushLSN := lsn;
      }
    }

    method ReceivedPosition(position: Lsn)
      modifies this`clientXLogPos
      ensures clientXLogPos == Max(old(clientXLogPos), position)
    {
      if position > clientXLogPos {
        clientXLogPos := position;
      }
    }

    method SetRelation(id: nat, name: string, columns: seq<Column>)
      modifies this`relations
      ensures relations == old(relations)[id := RelationMeta(name, columns)]
    {
      relations := relations[id := RelationMeta(name, columns)];
    }

    /** An unknown relation yields neither job nor error; the name of a known one is not looked at. */
    method ParseInsert(relation: nat, values: seq<ColumnValue>, clock: Clock)
      returns (r: Result<Option<ParsedInsert>, ParseError>)
      ensures r == Stream.ParseInsert(Relations(relations), relation, values, clock)
    {
      if relation !in relations {
        return Ok(None);
      }
      var row := ParseInsertColumns(relations[relation].columns, values, clock);
      match row {
        case Ok(p) => return Ok(Some(p));
        case Err(e) => return Err(e);
      }
    }
  }

  class Driver {
    const cfg: Config
    const db: Database
    const slot: Slot
    const jack: Jack
    var isLeader: bool

    constructor (cfg: Config, db: Database, slot: Slot, jack: Jack)
      ensures this.cfg == cfg && this.db == db && this.slot == slot && this.jack == jack && !isLeader
    {
      this.cfg, this.db, this.slot, this.jack := cfg, db, slot, jack;
      isLeader := false;
    }

    /** The objects hold the world w, after the batches of earlier sessions. */
    ghost predicate Shows(wal: WalConsumer, w: World, earlier: seq<seq<ParsedInsert>>)
      reads db, slot, jack, wal
    {
      && db.Contents() == w.db && slot.confirmed == w.confirmed
      && jack.Valid() && jack.batches == earlier + w.batches && jack.accepted == w.accepted
      && wal.clientXLogPos == w.core.xlogPos && wal.flushLSN == w.core.flush
      && Relations(wal.relations) == w.relations
    }

    method FlushBatch(
      wal: WalConsumer, inserts: seq<ParsedInsert>, commitLSN: Lsn, f: FlushScript, ghost w: World,
      ghost earlier: seq<seq<ParsedInsert>>)
      returns (err: Option<Error>)
      requires Shows(wal, w, earlier) && inserts == w.core.pending && commitLSN == w.core.pendingCommit && inserts != []
      modifies db, slot, jack, wal`flushLSN
      ensures Shows(wal, Stream.FlushBatch(w, f).w, earlier)
      ensures Stream.FlushBatch(w, f) == Returns(err, Stream.FlushBatch(w, f).w)
      ensures slot.confirmed ==
              if err.None? && f.statusSent then Max(old(slot.confirmed), wal.flushLSN) else old(slot.confirmed)
    {
      hide Letters, Consistent, Accepted, Explains, AnswersInOrder, StandbyStatusUpdate, Wire, Confirm, JobsOf;
      var jobs := ToJobs(inserts);
      jack.submitted := jack.submitted + [jobs];
      jack.batches := jack.batches + [inserts];
      if f.submission.SubmitFailed? {
        return Some(SubmitError);
      }
      var results := f.submission.results;
      var mapped := MapResults(inserts, results);
      if mapped.Err? {
        return Some(InconsistentAnswer);
      }
      jack.accepted := jack.accepted + Accepted(inserts, results);
      var ok := db.FlushTx(mapped.value, commitLSN, f.commit);
      if !ok {
        return Some(PersistError);
      }
      wal.SetFlushLSN(commitLSN);
      wal.SendStandbyStatus(slot, f.statusSent);
      return None;
    }

    /** The idle advance and the standby report, when the standby deadline has passed. */
    method StandbyTick(
      wal: WalConsumer, buf: seq<ParsedInsert>, pending: seq<ParsedInsert>, inTx: bool, t: Turn, now: Time,
      ghost w: World, ghost earlier: seq<seq<ParsedInsert>>)
      returns (err: Option<Error>)
      requires Shows(wal, w, earlier) && w.core.buf == buf && w.core.pending == pending && w.core.inTx == inTx
      requires now >= w.standbyAt
      modifies db, slot, wal`flushLSN
      ensures Shows(wal, StandbyStage(cfg, w, t, now).w, earlier)
      ensures StandbyStage(cfg, w, t, now) == Returns(err, StandbyStage(cfg, w, t, now).w)
      ensures slot.confirmed == if err.None? then Max(old(slot.confirmed), wal.flushLSN) else old(slot.confirmed)
    {
      if CanAdvanceIdleFlush(pending, buf, inTx) && wal.clientXLogPos > wal.flushLSN {
        var flushLSN := wal.clientXLogPos;
        var ok := db.FlushTx([], flushLSN, t.idleCommit);
        if !ok {
          return Some(PersistError);
        }
        wal.SetFlushLSN(flushLSN);
      }
      wal.SendStandbyStatus(slot, t.standbySent);
      if !t.standbySent {
        return Some(StatusError);
      }
      return None;
    }

    /** receiveMessage: the position moves first; only XLogData carries a message on. */
    method ReceiveMessage(wal: WalConsumer, r: Receive, ghost w: World, ghost earlier: seq<seq<ParsedInsert>>)
      returns (failed: bool, message: Option<Message>, ghost v: World)
      requires Shows(wal, w, earlier)
      modifies slot, wal`clientXLogPos
      ensures Shows(wal, v, earlier)
      ensures message == if r.Data? then Some(r.message) else None
      ensures failed <==> r.ReceiveFailed? || (r.Keepalive? && r.replyRequested && !r.replySent)
      ensures r.Data? ==> v == w.(core := OnPosition(w.core, r.end))
      ensures v.core == w.core.(xlogPos := v.core.xlogPos) && v.batchAt == w.batchAt && v.standbyAt == w.standbyAt
      ensures r.TimedOut? || r.Ignored? || r.ReceiveFailed? ==> v == w
      ensures r.Keepalive? ==> v == Report(w.(core := OnPosition(w.core, r.serverEnd)), r.replyRequested && r.replySent)
      ensures slot.confirmed ==
              if r.Keepalive? && r.replyRequested && r.replySent then Max(old(slot.confirmed), wal.flushLSN)
              else old(slot.confirmed)
      ensures wal.clientXLogPos == match r
        case Keepalive(serverEnd, _, _) => Max(old(wal.clientXLogPos), serverEnd)
        case Data(end, _) => Max(old(wal.clientXLogPos), end)
        case _ => old(wal.clientXLogPos)
    {
      failed, message, v := false, None, w;
      match r {
        case TimedOut =>
        case Ignored =>
        case ReceiveFailed =>
          failed := true;
        case Keepalive(serverEnd, replyRequested, replySent) =>
          wal.ReceivedPosition(serverEnd);
          v := w.(core := OnPosition(w.core, serverEnd));
          if replyRequested {
            wal.SendStandbyStatus(slot, replySent);
            v := Report(v, replySent);
            failed := !replySent;
          }
        case Data(end, m) =>
          wal.ReceivedPosition(end);
          v := w.(core := OnPosition(w.core, end));
          message := Some(m);
      }
    }

    /** The locals of the receive loop hold the session state of w. */
    static predicate Locals(
      w: World, buf: seq<ParsedInsert>, pending: seq<ParsedInsert>, pendingCommitLSN: Lsn, inTx: bool,
      nextBatchAt: Option<Time>, nextStandbyAt: Time)
    {
      && w.core.buf == buf && w.core.pending == pending && w.core.pendingCommit == pendingCommitLSN
      && w.core.inTx == inTx
      && w.batchAt == nextBatchAt && w.standbyAt == nextStandbyAt
    }

    /** The switch over a decoded message; one that does not decode, or is of no known kind, changes no local. */
    method TakeMessage(
      wal: WalConsumer, m: Message, t: Turn, ghost w: World, ghost earlier: seq<seq<ParsedInsert>>,
      buf0: seq<ParsedInsert>, pending0: seq<ParsedInsert>, commit0: Lsn, inTx0: bool, batchAt0: Option<Time>,
      standbyAt: Time)
      returns (
        buf: seq<ParsedInsert>, pending: seq<ParsedInsert>, pendingCommitLSN: Lsn, inTx: bool,
        nextBatchAt: Option<Time>)
      requires Shows(wal, w, earlier) && Locals(w, buf0, pending0, commit0, inTx0, batchAt0, standbyAt)
      modifies wal`relations
      ensures Shows(wal, Noted(cfg, w, t, m), earlier)
      ensures Locals(Noted(cfg, w, t, m), buf, pending, pendingCommitLSN, inTx, nextBatchAt, standbyAt)
    {
      buf, pending, pendingCommitLSN, inTx, nextBatchAt := buf0, pending0, commit0, inTx0, batchAt0;
      match m {
        case BeginMessage =>
          inTx := true;
        case RelationMessage(id, name, columns) =>
          wal.SetRelation(id, name, columns);
        case InsertMessage(relation, values) =>
          var parsed := wal.ParseInsert(relation, values, cfg.clock);
          if parsed.Ok? && parsed.value.Some? {
            buf := buf + [parsed.value.value];
          }
        case CommitMessage(endLsn) =>
          var wasPendingEmpty := pending == [];
          pending := pending + buf;
          if endLsn > pendingCommitLSN {
            pendingCommitLSN := endLsn;
          }
          buf := [];
          inTx := false;
          if wasPendingEmpty && pending != [] {
            nextBatchAt := Some(t.nowAtCommit + cfg.batchTimeout);
          }
        case Undecodable =>
        case Unhandled =>
      }
    }

    /** A message, and the flush when its commit fills the batch. */
    method OnMessage(
      wal: WalConsumer, m: Message, t: Turn, position: Lsn, ghost w: World, ghost earlier: seq<seq<ParsedInsert>>,
      buf0: seq<ParsedInsert>, pending0: seq<ParsedInsert>, commit0: Lsn, inTx0: bool, batchAt0: Option<Time>,
      standbyAt: Time)
      returns (
        err: Option<Error>, buf: seq<ParsedInsert>, pending: seq<ParsedInsert>, pendingCommitLSN: Lsn, inTx: bool,
        nextBatchAt: Option<Time>)
      requires Positive(cfg)
      requires Shows(wal, w.(core := OnPosition(w.core, position)), earlier)
      requires Locals(w, buf0, pending0, commit0, inTx0, batchAt0, standbyAt)
      modifies db, slot, jack, wal`flushLSN, wal`relations
      ensures MessageStage(cfg, w, t, position, m) == Returns(err, MessageStage(cfg, w, t, position, m).w)
      ensures Shows(wal, MessageStage(cfg, w, t, position, m).w, earlier)
      ensures err.None? ==>
                Locals(MessageStage(cfg, w, t, position, m).w, buf, pending, pendingCommitLSN, inTx, nextBatchAt,
                    standbyAt)
    {
      hide Stream.FlushBatch, MessageStage, Noted;
      err := None;
      ghost var heard := w.(core := OnPosition(w.core, position));
      buf, pending, pendingCommitLSN, inTx, nextBatchAt :=
        TakeMessage(wal, m, t, heard, earlier, buf0, pending0, commit0, inTx0, batchAt0, standbyAt);
      ghost var noted := Noted(cfg, heard, t, m);
      MessageStageShape(cfg, w, t, position, m);
      if m.CommitMessage? && |pending| >= cfg.maxBatchSize {
        FlushBatchShape(noted, t.sizeFlush);
        err := FlushBatch(wal, pending, pendingCommitLSN, t.sizeFlush, noted, earlier);
        if err.Some? {
          return;
        }
        pending := [];
        nextBatchAt := None;
      }
    }

    /** The flush of a batch whose deadline has passed. */
    method BatchTick(
      wal: WalConsumer, t: Turn, ghost w: World, ghost earlier: seq<seq<ParsedInsert>>, pending0: seq<ParsedInsert>,
      pendingCommitLSN: Lsn, batchAt0: Option<Time>)
      returns (err: Option<Error>, pending: seq<ParsedInsert>, nextBatchAt: Option<Time>, now: Time)
      requires Shows(wal, w, earlier)
      requires w.core.pending == pending0 && w.core.pendingCommit == pendingCommitLSN && w.batchAt == batchAt0
      modifies db, slot, jack, wal`flushLSN
      ensures BatchStage(w, t) == Returns(err, BatchStage(w, t).w) && Shows(wal, BatchStage(w, t).w, earlier)
      ensures err.None? ==> BatchStage(w, t).w.core.pending == pending && BatchStage(w, t).w.batchAt == nextBatchAt
      ensures now == NowAfterBatch(w, t)
    {
      hide Stream.FlushBatch, BatchStage;
      BatchStageShape(w, t);
      err, pending, nextBatchAt, now := None, pending0, batchAt0, t.now;
      if nextBatchAt.Some? && now >= nextBatchAt.value {
        now := t.nowAfterFlush;
        if pending != [] {
          err := FlushBatch(wal, pending, pendingCommitLSN, t.batchFlush, w, earlier);
          if err.Some? {
            return;
          }
          pending := [];
        }
        nextBatchAt := None;
      }
    }

    /** One iteration of the receive loop. */
    method Iterate(
      wal: WalConsumer, t: Turn, ghost w: World, ghost earlier: seq<seq<ParsedInsert>>, buf0: seq<ParsedInsert>,
      pending0: seq<ParsedInsert>, commit0: Lsn, inTx0: bool, batchAt0: Option<Time>, standbyAt0: Time)
      returns (
        err: Option<Error>, buf: seq<ParsedInsert>, pending: seq<ParsedInsert>, pendingCommitLSN: Lsn, inTx: bool,
        nextBatchAt: Option<Time>, nextStandbyAt: Time)
      requires Positive(cfg) && Shows(wal, w, earlier)
      requires Locals(w, buf0, pending0, commit0, inTx0, batchAt0, standbyAt0)
      modifies db, slot, jack, wal
      ensures RunTurn(cfg, w, t) == Returns(err, RunTurn(cfg, w, t).w) && Shows(wal, RunTurn(cfg, w, t).w, earlier)
      ensures err.None? ==>
                Locals(RunTurn(cfg, w, t).w, buf, pending, pendingCommitLSN, inTx, nextBatchAt, nextStandbyAt)
    {
      hide BatchStage, StandbyStage, ReceiveStage, MessageStage, RunTurn, Shows;
      StagesOfTurn(cfg, w, t);
      BatchStageShape(w, t);
      buf, pendingCommitLSN, inTx, nextStandbyAt := buf0, commit0, inTx0, standbyAt0;
      if t.cancelled {
        err, pending, nextBatchAt := Some(Cancelled), pending0, batchAt0;
        return;
      }
      var now: Time;
      err, pending, nextBatchAt, now := BatchTick(wal, t, w, earlier, pending0, commit0, batchAt0);
      if err.Some? {
        return;
      }
      ghost var w1 := BatchStage(w, t).w;
      StandbyStageShape(cfg, w1, t, now);
      if now >= nextStandbyAt {
        err := StandbyTick(wal, buf, pending, inTx, t, now, w1, earlier);
        if err.Some? {
          return;
        }
        nextStandbyAt := t.nowAfterStandby + cfg.standbyInterval;
      }
      ghost var w2 := StandbyStage(cfg, w1, t, now).w;
      assert StandbyStage(cfg, w1, t, now) == Running(w2);
      ReceiveStageShape(cfg, w2, t);
      var failed, data, heard := ReceiveMessage(wal, t.receive, w2, earlier);
      if failed {
        err := Some(ReceiveError);
      } else if data.Some? {
        err, buf, pending, pendingCommitLSN, inTx, nextBatchAt := OnMessage(
          wal, data.value, t, t.receive.end, w2, earlier, buf, pending, pendingCommitLSN, inTx, nextBatchAt,
              nextStandbyAt);
      }
    }

    /** The receive loop, from a consumer that has just started streaming. */
    method ProcessWALStream(wal: WalConsumer, startLSN: Lsn, startedAt: Time, script: seq<Turn>)
      returns (err: Option<Error>, ghost end: World)
      requires Positive(cfg) && jack.Valid()
      requires wal.clientXLogPos == wal.flushLSN == startLSN && wal.relations == map[]
      modifies db, slot, jack, wal
      ensures Shows(wal, end, old(jack.batches))
      ensures var w := StartWorld(
          cfg, startLSN, startedAt, old(db.Contents()), old(slot.confirmed), old(jack.accepted));
        Run(cfg, w, script) == Returns(err, end)
    {
      hide RunTurn;
      ghost var earlier := jack.batches;
      ghost var w0 := StartWorld(cfg, startLSN, startedAt, db.Contents(), slot.confirmed, jack.accepted);
      end := w0;
      var buf: seq<ParsedInsert>, pending: seq<ParsedInsert> := [], [];
      var pendingCommitLSN, inTx := startLSN, false;
      var nextBatchAt: Option<Time> := None;
      var nextStandbyAt := startedAt + cfg.standbyInterval;

      for k := 0 to |script|
        invariant Run(cfg, w0, script[..k]) == Running(end) && Shows(wal, end, earlier)
        invariant Locals(end, buf, pending, pendingCommitLSN, inTx, nextBatchAt, nextStandbyAt)
      {
        hide Shows, Locals, Run;
        ghost var w := end;
        OneMoreTurn(cfg, w0, script, k, w);
        end := RunTurn(cfg, w, script[k]).w;
        err, buf, pending, pendingCommitLSN, inTx, nextBatchAt, nextStandbyAt :=
          Iterate(wal, script[k], w, earlier, buf, pending, pendingCommitLSN, inTx, nextBatchAt, nextStandbyAt);
        if err.Some? {
          return;
        }
      }
      assert script[..|script|] == script;
      err := None;
    }

    /** A session starts at the durable cursor; only a started session makes the driver leader. */
    method RunOnce(o: Opening) returns (err: Option<Error>, ghost end: World)
      requires Positive(cfg) && jack.Valid()
      modifies this`isLeader, db, slot, jack
      ensures jack.Valid()
      ensures !o.Streams? ==> unchanged(this`isLeader, db, slot, jack) && err == Some(ReceiveError)
      ensures o.Streams? ==>
        && isLeader
        && (var w := StartWorld(
              cfg, CursorOf(old(db.Contents())), o.startedAt, old(db.Contents()), old(slot.confirmed),
              old(jack.accepted));
            Run(cfg, w, o.script) == Returns(err, end))
        && db.Contents() == end.db && slot.confirmed == end.confirmed && jack.accepted == end.accepted
        && jack.batches == old(jack.batches) + end.batches
    {
      var startLSN := db.ReadCursor();
      end := StartWorld(cfg, startLSN, 0, db.Contents(), slot.confirmed, jack.accepted);
      if !o.Streams? {
        return Some(ReceiveError), end;
      }
      var wal := new WalConsumer();
      wal.StartStreaming(startLSN);
      isLeader := true;
      err, end := ProcessWALStream(wal, startLSN, o.startedAt, o.script);
    }

    /** What the loop in Run keeps between sessions. */
    ghost predicate Keeps(r: Residue)
      reads this, db, slot, jack
    {
      && jack.Valid() && isLeader == r.leads
      && db.Contents() == r.db && slot.confirmed == r.confirmed && jack.accepted == r.accepted
      && jack.batches == r.batches
    }

    /**
     * Run: session after session. Leadership ends with a busy slot or at shutdown; any other error leaves it
     * as it was, also when the wait before the next attempt is cut short.
     */
    method RunLoop(attempts: seq<Attempt>, ghost r0: Residue)
      requires Positive(cfg) && Keeps(r0)
      modifies this`isLeader, db, slot, jack
      ensures Keeps(Attempts(cfg, r0, attempts).r)
      ensures exists lives :: Life(cfg, attempts, lives) && lives[0] == r0 && Keeps(lives[|lives| - 1])
    {
      ghost var lives := AttemptsAreALife(cfg, r0, attempts);
      ghost var r := r0;
      for k := 0 to |attempts|
        invariant Attempts(cfg, r0, attempts[..k]) == Going(r) && Keeps(r)
      {
        hide Stream.Run;
        OneMoreAttempt(cfg, r0, attempts, k, r);
        ghost var after := AttemptOnce(cfg, r, attempts[k]);
        r := after.r;
        var err, end := RunOnce(attempts[k].opening);
        if err.None? {
          return;
        }
        if attempts[k].cancelled || err == Some(Cancelled) {
          isLeader := false;
          return;
        }
        if attempts[k].opening.SlotInUse? {
          isLeader := false;
        }
        if attempts[k].cancelledInWait {
          return;
        }
      }
      assert attempts[..|attempts|] == attempts;
    }
  }

  /** What is left when a session is over. */
  datatype Residue = Residue(
    leads: bool, db: Db, confirmed: Lsn, accepted: set<ParsedInsert>, batches: seq<seq<ParsedInsert>>)

  /** One round of the loop in Run, and whether the context was cancelled by its end or in the wait after it. */
  datatype Attempt = Attempt(opening: Opening, cancelled: bool, cancelledInWait: bool)

  datatype Looping = Going(r: Residue) | Over(r: Residue)

  /** A session that has not returned is where the observation ends. */
  ghost function AttemptOnce(cfg: Config, r: Residue, a: Attempt): Looping {
    match a.opening
    case Streams(startedAt, script) =>
      var session := Run(cfg, StartWorld(cfg, CursorOf(r.db), startedAt, r.db, r.confirmed, r.accepted), script);
      var after := Residue(true, session.w.db, session.w.confirmed, session.w.accepted, r.batches + session.w.batches);
      if session.Running? then Over(after)
      else if a.cancelled || session.error == Cancelled then Over(after.(leads := false))
      else if a.cancelledInWait then Over(after)
      else Going(after)
    case _ =>
      var after := if a.cancelled || a.opening.SlotInUse? then r.(leads := false) else r;
      if a.cancelled || a.cancelledInWait then Over(after) else Going(after)
  }

  ghost function Attempts(cfg: Config, r: Residue, attempts: seq<Attempt>): Looping {
    if attempts == [] then Going(r)
    else
      match Attempts(cfg, r, attempts[..|attempts| - 1])
      case Over(last) => Over(last)
      case Going(last) => AttemptOnce(cfg, last, attempts[|attempts| - 1])
  }

  /** The session that a streaming attempt runs: it starts at the cursor that the ones before have left. */
  ghost function SessionOf(cfg: Config, r: Residue, o: Opening): Outcome
    requires o.Streams?
  {
    Run(cfg, StartWorld(cfg, CursorOf(r.db), o.startedAt, r.db, r.confirmed, r.accepted), o.script)
  }

  /** The session of this attempt has not returned. */
  ghost predicate StillStreams(cfg: Config, r: Residue, a: Attempt) {
    a.opening.Streams? && SessionOf(cfg, r, a.opening).Running?
  }

  /** The context is cancelled by the time the attempt returns. */
  ghost predicate ShutsDown(cfg: Config, r: Residue, a: Attempt) {
    && !StillStreams(cfg, r, a)
    && (a.cancelled || (a.opening.Streams? && SessionOf(cfg, r, a.opening).error == Cancelled))
  }

  /** No attempt is made after this one. */
  ghost predicate IsLast(cfg: Config, r: Residue, a: Attempt) {
    StillStreams(cfg, r, a) || ShutsDown(cfg, r, a) || a.cancelledInWait
  }

  /** What one attempt makes of what the ones before it have left. */
  ghost predicate Lives(cfg: Config, r: Residue, a: Attempt, next: Residue) {
    && (next.leads <==> (r.leads || a.opening.Streams?) && !a.opening.SlotInUse? && !ShutsDown(cfg, r, a))
    && if a.opening.Streams? then
         var end := SessionOf(cfg, r, a.opening).w;
         && next.db == end.db && next.confirmed == end.confirmed && next.accepted == end.accepted
         && next.batches == r.batches + end.batches
       else next == r.(leads := next.leads)
  }

  /**
   * Attempt after attempt, each from what the one before has left, and none left out: lives[k] is what there is before
   * attempt k, and the last of them what there is in the end.
   */
  ghost predicate Life(cfg: Config, attempts: seq<Attempt>, lives: seq<Residue>) {
    && 1 <= |lives| <= |attempts| + 1
    && (forall k :: 0 <= k < |lives| - 1 ==> Lives(cfg, lives[k], attempts[k], lives[k + 1]))
    && (forall k :: 0 <= k < |lives| - 2 ==> !IsLast(cfg, lives[k], attempts[k]))
    && (|lives| <= |attempts| ==> |lives| >= 2 && IsLast(cfg, lives[|lives| - 2], attempts[|lives| - 2]))
  }

  lemma AttemptLives(cfg: Config, r: Residue, a: Attempt)
    ensures Lives(cfg, r, a, AttemptOnce(cfg, r, a).r)
    ensures AttemptOnce(cfg, r, a).Over? <==> IsLast(cfg, r, a)
  {
    hide Run;
  }

  /** The loop makes every attempt up to the first after which it ends. */
  lemma {:induction false} AttemptsAreALife(cfg: Config, r0: Residue, attempts: seq<Attempt>)
    returns (lives: seq<Residue>)
    ensures Life(cfg, attempts, lives) && lives[0] == r0 && lives[|lives| - 1] == Attempts(cfg, r0, attempts).r
    ensures Attempts(cfg, r0, attempts).Over? ==>
              |lives| >= 2 && IsLast(cfg, lives[|lives| - 2], attempts[|lives| - 2])
    ensures Attempts(cfg, r0, attempts).Going? ==> |lives| == |attempts| + 1
    ensures Attempts(cfg, r0, attempts).Going? && attempts != [] ==>
              !IsLast(cfg, lives[|attempts| - 1], attempts[|attempts| - 1])
  {
    if attempts == [] {
      lives := [r0];
    } else {
      var n := |attempts| - 1;
      hide AttemptOnce, Lives, IsLast;
      lives := AttemptsAreALife(cfg, r0, attempts[..n]);
      var last := Attempts(cfg, r0, attempts[..n]);
      if last.Going? {
        AttemptLives(cfg, last.r, attempts[n]);
        lives := lives + [AttemptOnce(cfg, last.r, attempts[n]).r];
      }
    }
  }

  /** Leadership is held at the start, or won by the attempt before j. */
  ghost predicate Won(cfg: Config, attempts: seq<Attempt>, lives: seq<Residue>, j: nat)
    requires j < |lives| <= |attempts| + 1
  {
    if j == 0 then lives[0].leads
    else attempts[j - 1].opening.Streams? && !ShutsDown(cfg, lives[j - 1], attempts[j - 1])
  }

  /** A busy slot or a shutdown takes it away. */
  ghost predicate Lost(cfg: Config, attempts: seq<Attempt>, lives: seq<Residue>, i: nat)
    requires i < |attempts| && i < |lives|
  {
    attempts[i].opening.SlotInUse? || ShutsDown(cfg, lives[i], attempts[i])
  }

  /** Leadership was won by the attempt before j and not lost from there to n. */
  ghost predicate WonSince(cfg: Config, attempts: seq<Attempt>, lives: seq<Residue>, j: nat, n: nat)
    requires n < |lives| <= |attempts| + 1
  {
    j <= n && Won(cfg, attempts, lives, j) && forall i :: j <= i < n ==> !Lost(cfg, attempts, lives, i)
  }

  /** A driver leads exactly when it has led or streamed, and no busy slot and no shutdown came since. */
  lemma {:induction false} LeadershipExactly(cfg: Config, attempts: seq<Attempt>, lives: seq<Residue>, n: nat)
    requires Life(cfg, attempts, lives) && n < |lives|
    ensures lives[n].leads <==> exists j: nat :: WonSince(cfg, attempts, lives, j, n)
  {
    hide IsLast, SessionOf, ShutsDown;
    if n == 0 {
      assert lives[0].leads ==> WonSince(cfg, attempts, lives, 0, 0);
    } else {
      LeadershipExactly(cfg, attempts, lives, n - 1);
      assert Lives(cfg, lives[n - 1], attempts[n - 1], lives[n]);
      if lives[n].leads {
        if lives[n - 1].leads {
          var j: nat :| WonSince(cfg, attempts, lives, j, n - 1);
          assert WonSince(cfg, attempts, lives, j, n);
        } else {
          assert WonSince(cfg, attempts, lives, n, n);
        }
      }
      if j: nat :| WonSince(cfg, attempts, lives, j, n) {
        if j == n {
          assert Won(cfg, attempts, lives, n);
        } else {
          assert WonSince(cfg, attempts, lives, j, n - 1) && !Lost(cfg, attempts, lives, n - 1);
        }
      }
    }
  }

  lemma {:induction false} OverForGood(cfg: Config, r: Residue, attempts: seq<Attempt>, k: nat)
    requires k <= |attempts| && Attempts(cfg, r, attempts[..k]).Over?
    ensures Attempts(cfg, r, attempts) == Attempts(cfg, r, attempts[..k])
    decreases |attempts|
  {
    hide AttemptOnce;
    if k == |attempts| {
      assert attempts[..k] == attempts;
    } else {
      var prior := attempts[..|attempts| - 1];
      assert prior[..k] == attempts[..k];
      OverForGood(cfg, r, prior, k);
    }
  }

  lemma OneMoreAttempt(cfg: Config, r0: Residue, attempts: seq<Attempt>, k: nat, r: Residue)
    requires k < |attempts| && Attempts(cfg, r0, attempts[..k]) == Going(r)
    ensures Attempts(cfg, r0, attempts[..k + 1]) == AttemptOnce(cfg, r, attempts[k])
    ensures AttemptOnce(cfg, r, attempts[k]).Over? ==> Attempts(cfg, r0, attempts) == AttemptOnce(cfg, r, attempts[k])
  {
    hide AttemptOnce;
    assert attempts[..k + 1][..k] == attempts[..k];
    if AttemptOnce(cfg, r, attempts[k]).Over? {
      OverForGood(cfg, r0, attempts, k + 1);
    }
  }

  /** What one call of runOnce meets: reading the cursor, connecting, START_REPLICATION, and the stream. */
  datatype Opening =
    | CursorUnreadable
    | NotConnected
    | SlotInUse
    | NotStarted
    | Streams(startedAt: Time, script: seq<Turn>)

  function Returns(err: Option<Error>, w: World): Outcome {
    match err
    case None => Running(w)
    case Some(e) => Stopped(w, e)
  }

  // ---- How the pieces of a turn look from the loop --------------------------------------------------

  lemma OneMoreTurn(cfg: Config, w0: World, script: seq<Turn>, k: nat, w: World)
    requires k < |script| && Run(cfg, w0, script[..k]) == Running(w)
    ensures Run(cfg, w0, script[..k + 1]) == RunTurn(cfg, w, script[k])
    ensures RunTurn(cfg, w, script[k]).Stopped? ==> Run(cfg, w0, script) == RunTurn(cfg, w, script[k])
  {
    hide RunTurn;
    assert script[..k + 1][..k] == script[..k];
    if RunTurn(cfg, w, script[k]).Stopped? {
      StoppedForGood(cfg, w0, script, k + 1);
    }
  }

  lemma StagesOfTurn(cfg: Config, w: World, t: Turn)
    ensures t.cancelled ==> RunTurn(cfg, w, t) == Stopped(w, Cancelled)
    ensures !t.cancelled && BatchStage(w, t).Stopped? ==> RunTurn(cfg, w, t) == BatchStage(w, t)
    ensures !t.cancelled && BatchStage(w, t).Running? ==>
              var standby := StandbyStage(cfg, BatchStage(w, t).w, t, NowAfterBatch(w, t));
              RunTurn(cfg, w, t) == if standby.Stopped? then standby else ReceiveStage(cfg, standby.w, t)
  {
    hide BatchStage, StandbyStage, ReceiveStage;
  }

  lemma BatchStageShape(w: World, t: Turn)
    ensures var due := w.batchAt.Some? && t.now >= w.batchAt.value;
      && (due && w.core.pending != [] ==> BatchStage(w, t) == Stream.FlushBatch(w, t.batchFlush))
      && (due && w.core.pending == [] ==> BatchStage(w, t) == Running(w.(batchAt := None)))
      && (!due ==> BatchStage(w, t) == Running(w))
      && (due && BatchStage(w, t).Running? ==>
            BatchStage(w, t).w.core == (if w.core.pending == [] then w.core else Flushed(w.core))
            && BatchStage(w, t).w.batchAt == None && BatchStage(w, t).w.standbyAt == w.standbyAt)
  {
    if w.core.pending != [] {
      FlushBatchShape(w, t.batchFlush);
    }
    hide Stream.FlushBatch;
  }

  lemma FlushBatchShape(w: World, f: FlushScript)
    ensures var r := Stream.FlushBatch(w, f);
      r.Running? ==> r.w.core == Flushed(w.core) && r.w.batchAt == None && r.w.standbyAt == w.standbyAt
  {
  }

  lemma StandbyStageShape(cfg: Config, w: World, t: Turn, now: Time)
    ensures now < w.standbyAt ==> StandbyStage(cfg, w, t, now) == Running(w)
    ensures var r := StandbyStage(cfg, w, t, now);
      && r.w.core.buf == w.core.buf && r.w.core.pending == w.core.pending && r.w.core.inTx == w.core.inTx
      && r.w.core.pendingCommit == w.core.pendingCommit && r.w.batchAt == w.batchAt
      && (r.Running? && now >= w.standbyAt ==> r.w.standbyAt == t.nowAfterStandby + cfg.standbyInterval)
  {
  }

  lemma ReceiveStageShape(cfg: Config, w: World, t: Turn)
    ensures match t.receive
      case TimedOut => ReceiveStage(cfg, w, t) == Running(w)
      case Ignored => ReceiveStage(cfg, w, t) == Running(w)
      case ReceiveFailed => ReceiveStage(cfg, w, t) == Stopped(w, ReceiveError)
      case Keepalive(serverEnd, requested, sent) =>
        var v := Report(w.(core := OnPosition(w.core, serverEnd)), requested && sent);
        ReceiveStage(cfg, w, t) == if requested && !sent then Stopped(v, ReceiveError) else Running(v)
      case Data(end, m) => ReceiveStage(cfg, w, t) == MessageStage(cfg, w, t, end, m)
  {
  }

  lemma MessageStageShape(cfg: Config, w: World, t: Turn, position: Lsn, m: Message)
    requires Positive(cfg)
    ensures var v := Noted(cfg, w.(core := OnPosition(w.core, position)), t, m);
      MessageStage(cfg, w, t, position, m) ==
      if m.CommitMessage? && |v.core.pending| >= cfg.maxBatchSize then Stream.FlushBatch(v, t.sizeFlush) else Running(v)
  {
    hide Stream.FlushBatch;
  }
}
