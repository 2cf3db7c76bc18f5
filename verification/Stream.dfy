/**
 * One session as a fold over what its environment does to it. A turn is one iteration of the receive
 * loop of processWALStream (driver.go:477-567) with the clock readings, server messages, submit answers
 * and database outcomes that iteration meets; a script is any finite number of them.
 */
module Stream {
  import opened Basics
  import opened Rows
  import opened DeadLetters
  import opened Session

  datatype Config = Config(maxBatchSize: nat, batchTimeout: Time, standbyInterval: Time, clock: Clock)

  ghost predicate Positive(cfg: Config) {
    cfg.maxBatchSize > 0 && cfg.batchTimeout > 0 && cfg.standbyInterval > 0
  }

  datatype RelationMeta = RelationMeta(name: string, columns: seq<Column>)

  datatype Relations = Relations(known: map<nat, RelationMeta>)

  datatype Message =
    | Undecodable
    | Unhandled
    | BeginMessage
    | RelationMessage(id: nat, name: string, columns: seq<Column>)
    | InsertMessage(relation: nat, values: seq<ColumnValue>)
    | CommitMessage(endLsn: Lsn)

  datatype Receive =
    | TimedOut
    | ReceiveFailed
    | Ignored
    | Keepalive(serverEnd: Lsn, replyRequested: bool, replySent: bool)
    | Data(end: Lsn, message: Message)

  datatype Submission = SubmitFailed | SubmitAnswered(results: seq<SubmitResult>)

  /** A commit can fail and still have taken effect. */
  datatype TxOutcome = Committed | CommittedButFailed | RolledBack

  datatype FlushScript = FlushScript(submission: Submission, commit: TxOutcome, statusSent: bool)

  datatype Turn = Turn(
    cancelled: bool,
    now: Time,
    batchFlush: FlushScript,
    nowAfterFlush: Time,
    idleCommit: TxOutcome,
    standbySent: bool,
    nowAfterStandby: Time,
    receive: Receive,
    nowAtCommit: Time,
    sizeFlush: FlushScript)

  datatype Error = Cancelled | SubmitError | InconsistentAnswer | PersistError | StatusError | ReceiveError

  /** Everything a session changes: its own state, the database, the slot, and what jack-service was sent. */
  datatype World = World(
    core: Core,
    relations: Relations,
    batchAt: Option<Time>,
    standbyAt: Time,
    db: Db,
    confirmed: Lsn,
    accepted: set<ParsedInsert>,
    batches: seq<seq<ParsedInsert>>,
    seen: seq<Event>)

  datatype Outcome = Running(w: World) | Stopped(w: World, error: Error)

  // ---- The pieces of a turn -----------------------------------------------------------------

  function TakesEffect(o: TxOutcome): bool {
    !o.RolledBack?
  }

  function PersistIn(w: World, letters: seq<DlqRow>, lsn: Lsn, o: TxOutcome): World {
    if TakesEffect(o) then w.(db := Persist(w.db, letters, lsn)) else w
  }

  function Report(w: World, sent: bool): World {
    if sent then w.(confirmed := Confirm(w.confirmed, Wire(StandbyStatusUpdate(w.core.xlogPos, w.core.flush)))) else w
  }

  ghost function FlushBatch(w: World, f: FlushScript): Outcome {
    var sent := w.(batches := w.batches + [w.core.pending]);
    match f.submission
    case SubmitFailed => Stopped(sent, SubmitError)
    case SubmitAnswered(results) =>
      if !Consistent(w.core.pending, results) then Stopped(sent, InconsistentAnswer)
      else
        var answered := sent.(accepted := sent.accepted + Accepted(w.core.pending, results));
        var durable := PersistIn(answered, Letters(w.core.pending, results), w.core.pendingCommit, f.commit);
        if !f.commit.Committed? then Stopped(durable, PersistError)
        else Running(Report(durable.(core := Flushed(w.core), batchAt := None), f.statusSent))
  }

  ghost function BatchStage(w: World, t: Turn): Outcome {
    if w.batchAt.Some? && t.now >= w.batchAt.value then
      if w.core.pending != [] then FlushBatch(w, t.batchFlush) else Running(w.(batchAt := None))
    else Running(w)
  }

  function NowAfterBatch(w: World, t: Turn): Time {
    if w.batchAt.Some? && t.now >= w.batchAt.value then t.nowAfterFlush else t.now
  }

  function StandbyStage(cfg: Config, w: World, t: Turn, now: Time): Outcome {
    if now < w.standbyAt then Running(w)
    else
      var idle := IdleDue(w.core);
      var durable := if idle then PersistIn(w, [], w.core.xlogPos, t.idleCommit) else w;
      if idle && !t.idleCommit.Committed? then Stopped(durable, PersistError)
      else
        var raised := if idle then durable.(core := IdleFlushed(w.core)) else durable;
        if !t.standbySent then Stopped(raised, StatusError)
        else Running(Report(raised, true).(standbyAt := t.nowAfterStandby + cfg.standbyInterval))
  }

  /** An unknown relation yields no job and no error. */
  function ParseInsert(relations: Relations, relation: nat, values: seq<ColumnValue>, clock: Clock):
    Result<Option<ParsedInsert>, ParseError>
  {
    if relation !in relations.known then Ok(None)
    else
      match ParseColumns(relations.known[relation].columns, values, clock)
      case Ok(row) => Ok(Some(row))
      case Err(e) => Err(e)
  }

  function JobOf(cfg: Config, relations: Relations, relation: nat, values: seq<ColumnValue>): Option<ParsedInsert> {
    match ParseInsert(relations, relation, values, cfg.clock)
    case Ok(job) => job
    case Err(_) => None
  }

  function EventOf(cfg: Config, relations: Relations, m: Message): Event {
    match m
    case BeginMessage => Begin
    case InsertMessage(relation, values) => Insert(JobOf(cfg, relations, relation, values))
    case CommitMessage(endLsn) => Commit(endLsn)
    case _ => Nothing
  }

  function Learn(relations: Relations, m: Message): Relations {
    if m.RelationMessage? then Relations(relations.known[m.id := RelationMeta(m.name, m.columns)]) else relations
  }

  /** The deadline is armed by the commit that fills an empty batch. */
  function ArmBatch(cfg: Config, before: Core, after: Core, batchAt: Option<Time>, now: Time): Option<Time> {
    if before.pending == [] && after.pending != [] then Some(now + cfg.batchTimeout) else batchAt
  }

  /** The world once a message has been taken in, before the size trigger is looked at. */
  ghost function Noted(cfg: Config, w: World, t: Turn, m: Message): World {
    var e := EventOf(cfg, w.relations, m);
    var core := OnEvent(w.core, e);
    w.(core := core, relations := Learn(w.relations, m),
       batchAt := ArmBatch(cfg, w.core, core, w.batchAt, t.nowAtCommit), seen := w.seen + [e])
  }

  ghost function MessageStage(cfg: Config, w: World, t: Turn, position: Lsn, m: Message): Outcome {
    var next := Noted(cfg, w.(core := OnPosition(w.core, position)), t, m);
    if EventOf(cfg, w.relations, m).Commit? && |next.core.pending| >= cfg.maxBatchSize then
      if next.core.pending != [] then FlushBatch(next, t.sizeFlush) else Running(next.(batchAt := None))
    else Running(next)
  }

  ghost function ReceiveStage(cfg: Config, w: World, t: Turn): Outcome {
    match t.receive
    case TimedOut => Running(w)
    case Ignored => Running(w)
    case ReceiveFailed => Stopped(w, ReceiveError)
    case Keepalive(serverEnd, replyRequested, replySent) =>
      var moved := w.(core := OnPosition(w.core, serverEnd));
      if !replyRequested then Running(moved)
      else if replySent then Running(Report(moved, true))
      else Stopped(moved, ReceiveError)
    case Data(end, m) => MessageStage(cfg, w, t, end, m)
  }

  ghost function RunTurn(cfg: Config, w: World, t: Turn): Outcome {
    if t.cancelled then Stopped(w, Cancelled)
    else
      match BatchStage(w, t)
      case Stopped(w1, e) => Stopped(w1, e)
      case Running(w1) =>
        match StandbyStage(cfg, w1, t, NowAfterBatch(w, t))
        case Stopped(w2, e) => Stopped(w2, e)
        case Running(w2) => ReceiveStage(cfg, w2, t)
  }

  ghost function Run(cfg: Config, w: World, script: seq<Turn>): Outcome {
    if script == [] then Running(w)
    else
      match Run(cfg, w, script[..|script| - 1])
      case Stopped(w1, e) => Stopped(w1, e)
      case Running(w1) => RunTurn(cfg, w1, script[|script| - 1])
  }

  /** Nothing happens after a session has returned. */
  lemma {:induction false} StoppedForGood(cfg: Config, w: World, script: seq<Turn>, k: nat)
    requires k <= |script| && Run(cfg, w, script[..k]).Stopped?
    ensures Run(cfg, w, script) == Run(cfg, w, script[..k])
    decreases |script|
  {
    hide RunTurn;
    if k == |script| {
      assert script[..k] == script;
    } else {
      var prior := script[..|script| - 1];
      assert prior[..k] == script[..k];
      StoppedForGood(cfg, w, prior, k);
    }
  }

  /** A session starts at the durable cursor it has read, with the standby timer running and no relation known. */
  function StartWorld(cfg: Config, start: Lsn, now: Time, db: Db, confirmed: Lsn, accepted: set<ParsedInsert>): World {
    World(StartCore(start), Relations(map[]), None, now + cfg.standbyInterval, db, confirmed, accepted, [], [])
  }

  function NextReceiveDeadline(batchAt: Option<Time>, standbyAt: Time): (d: Time)
    ensures d <= standbyAt && (batchAt.Some? ==> d <= batchAt.value)
    ensures d == standbyAt || batchAt == Some(d)
  {
    if batchAt.None? || standbyAt < batchAt.value then standbyAt else batchAt.value
  }

  // ---- The deadline discipline ----------------------------------------------------------------

  /** What holds at the head of the receive loop. */
  ghost predicate LoopHead(cfg: Config, w: World) {
    && (w.core.pending != [] <==> w.batchAt.Some?)
    && |w.core.pending| < cfg.maxBatchSize
  }

  /** Unless it flushes, a step leaves an armed deadline alone and only adds to the pending rows. */
  ghost predicate KeepsDeadline(w: World, v: World) {
    && |v.batches| >= |w.batches|
    && (|v.batches| == |w.batches| && w.core.pending != [] ==>
        v.batchAt == w.batchAt && w.core.pending <= v.core.pending)
  }

  lemma BatchStageKeepsLoopHead(cfg: Config, w: World, t: Turn)
    requires Positive(cfg) && LoopHead(cfg, w)
    ensures var r := BatchStage(w, t); r.Running? ==> LoopHead(cfg, r.w) && KeepsDeadline(w, r.w)
  {
  }

  lemma StandbyStageKeepsLoopHead(cfg: Config, w: World, t: Turn, now: Time)
    requires Positive(cfg) && LoopHead(cfg, w)
    ensures var r := StandbyStage(cfg, w, t, now); r.Running? ==> LoopHead(cfg, r.w) && KeepsDeadline(w, r.w)
  {
  }

  lemma ReceiveStageKeepsLoopHead(cfg: Config, w: World, t: Turn)
    requires Positive(cfg) && LoopHead(cfg, w)
    ensures var r := ReceiveStage(cfg, w, t); r.Running? ==> LoopHead(cfg, r.w) && KeepsDeadline(w, r.w)
  {
  }

  /** No turn breaks the discipline, and later commits never push an armed deadline back. */
  lemma TurnKeepsLoopHead(cfg: Config, w: World, t: Turn)
    requires Positive(cfg) && LoopHead(cfg, w)
    ensures var r := RunTurn(cfg, w, t); r.Running? ==> LoopHead(cfg, r.w) && KeepsDeadline(w, r.w)
  {
    hide BatchStage, StandbyStage, ReceiveStage;
    BatchStageKeepsLoopHead(cfg, w, t);
    var r1 := BatchStage(w, t);
    if !t.cancelled && r1.Running? {
      StandbyStageKeepsLoopHead(cfg, r1.w, t, NowAfterBatch(w, t));
      var r2 := StandbyStage(cfg, r1.w, t, NowAfterBatch(w, t));
      if r2.Running? {
        ReceiveStageKeepsLoopHead(cfg, r2.w, t);
      }
    }
  }

  /** At every loop head the deadline is armed exactly when rows are pending, and the batch is below its trigger. */
  lemma {:induction false} DeadlinesAreArmed(cfg: Config, w: World, script: seq<Turn>)
    requires Positive(cfg) && LoopHead(cfg, w)
    ensures var r := Run(cfg, w, script); r.Running? ==> LoopHead(cfg, r.w) && KeepsDeadline(w, r.w)
  {
    if script != [] {
      DeadlinesAreArmed(cfg, w, script[..|script| - 1]);
      var prior := Run(cfg, w, script[..|script| - 1]);
      if prior.Running? {
        hide RunTurn;
        TurnKeepsLoopHead(cfg, prior.w, script[|script| - 1]);
      }
    }
  }

  // ---- What the server is told ------------------------------------------------------------------

  /** A flush whose status is sent confirms the session's flush position, and one whose status is lost leaves it be. */
  lemma FlushIsReported(w: World, f: FlushScript)
    ensures var r := FlushBatch(w, f);
      r.w.confirmed == if r.Running? && f.statusSent then Max(w.confirmed, r.w.core.flush) else w.confirmed
  {
    hide Letters, Accepted, Consistent;
    WireTellsTheTruth(w.core.xlogPos, Flushed(w.core).flush);
  }

  /** So does a standby deadline that does not end the session. */
  lemma StandbyIsReported(cfg: Config, w: World, t: Turn, now: Time)
    ensures var r := StandbyStage(cfg, w, t, now);
      r.w.confirmed == if r.Running? && now >= w.standbyAt then Max(w.confirmed, r.w.core.flush) else w.confirmed
  {
    WireTellsTheTruth(w.core.xlogPos, w.core.flush);
    WireTellsTheTruth(w.core.xlogPos, IdleFlushed(w.core).flush);
  }

  /** And so does a keepalive that asks for an answer and gets it. */
  lemma KeepaliveIsAnswered(cfg: Config, w: World, t: Turn)
    requires t.receive.Keepalive?
    ensures var r := ReceiveStage(cfg, w, t); var answered := t.receive.replyRequested && t.receive.replySent;
      && r.w.confirmed == (if answered then Max(w.confirmed, w.core.flush) else w.confirmed)
      && (r.Running? <==> t.receive.replyRequested ==> t.receive.replySent)
  {
    WireTellsTheTruth(OnPosition(w.core, t.receive.serverEnd).xlogPos, w.core.flush);
  }

  // ---- When the deadlines are -------------------------------------------------------------------

  lemma BatchStageDeadlines(w: World, t: Turn)
    ensures var r := BatchStage(w, t); r.Running? ==>
      && r.w.standbyAt == w.standbyAt
      && r.w.batchAt == if w.batchAt.Some? && t.now >= w.batchAt.value then None else w.batchAt
  {
  }

  lemma ReceiveStageDeadlines(cfg: Config, w: World, t: Turn)
    ensures var r := ReceiveStage(cfg, w, t); r.Running? ==>
      && r.w.standbyAt == w.standbyAt
      && (r.w.batchAt.Some? && r.w.batchAt != w.batchAt ==>
            && t.receive.Data? && t.receive.message.CommitMessage? && w.core.pending == []
            && r.w.batchAt == Some(t.nowAtCommit + cfg.batchTimeout))
  {
    hide Letters, Accepted, Consistent, JobOf;
  }

  /**
   * The standby deadline is one interval after the session began or the last one was met; the batch deadline is one
   * timeout after the commit that found the batch empty.
   */
  lemma DeadlinesAreOneTimeoutAway(
    cfg: Config, start: Lsn, began: Time, db: Db, confirmed: Lsn, accepted: set<ParsedInsert>, w: World, t: Turn)
    ensures StartWorld(cfg, start, began, db, confirmed, accepted).standbyAt == began + cfg.standbyInterval
    ensures StartWorld(cfg, start, began, db, confirmed, accepted).batchAt == None
    ensures var v := RunTurn(cfg, w, t).w; RunTurn(cfg, w, t).Running? ==>
      && v.standbyAt ==
         (if NowAfterBatch(w, t) >= w.standbyAt then t.nowAfterStandby + cfg.standbyInterval else w.standbyAt)
      && (v.batchAt.Some? && v.batchAt != w.batchAt ==>
            && t.receive.Data? && t.receive.message.CommitMessage?
            && v.batchAt == Some(t.nowAtCommit + cfg.batchTimeout))
  {
    hide BatchStage, ReceiveStage;
    BatchStageDeadlines(w, t);
    var w1, now := BatchStage(w, t).w, NowAfterBatch(w, t);
    ReceiveStageDeadlines(cfg, StandbyStage(cfg, w1, t, now).w, t);
  }
}
