/** Once failures stop, a session works off what it is sent, and exactly how far the durable cursor then gets. */
module Progress {
  import opened Basics
  import opened Rows
  import opened DeadLetters
  import opened Session
  import opened Stream
  import opened Fold
  import Messages

  // ---- What a session has caught up with -----------------------------------------------------------

  /** The LSN of the last decoded commit that completed at least one row. */
  function LastRowCommit(events: seq<Event>): Lsn {
    if events == [] then 0
    else
      var prior, last := events[..|events| - 1], events[|events| - 1];
      if last.Commit? && Open(prior) != [] then Max(LastRowCommit(prior), last.lsn) else LastRowCommit(prior)
  }

  /** The cursor covers what was flushed, and every row that is not pending or buffered any more. */
  ghost predicate CaughtUp(w: World) {
    && w.core.flush <= CursorOf(w.db)
    && w.core.buf == Open(w.seen)
    && LastRowCommit(w.seen) <= w.core.pendingCommit
    && (w.core.pending == [] ==> LastRowCommit(w.seen) <= w.core.flush)
  }

  ghost predicate Steady(cfg: Config, w: World) {
    LoopHead(cfg, w) && CaughtUp(w)
  }

  predicate BatchIsDue(w: World, t: Turn) {
    w.batchAt.Some? && t.now >= w.batchAt.value
  }

  /** The rows still pending once a due batch has been flushed. */
  function Kept(w: World, t: Turn): seq<ParsedInsert> {
    if BatchIsDue(w, t) then [] else w.core.pending
  }

  /** The position a flush of what is pending would write. */
  function InFlight(core: Core): Lsn {
    if core.pending != [] then core.pendingCommit else 0
  }

  // ---- The stages of a turn, when they run on ---------------------------------------------------------

  lemma FlushCatchesUp(w: World, f: FlushScript)
    requires CaughtUp(w)
    ensures var r := FlushBatch(w, f); r.Running? ==>
      && CaughtUp(r.w) && r.w.core == Flushed(w.core) && r.w.batchAt == None && r.w.standbyAt == w.standbyAt
      && r.w.seen == w.seen && r.w.relations == w.relations
      && CursorOf(r.w.db) == Max(CursorOf(w.db), w.core.pendingCommit)
  {
    hide LastRowCommit, Open, Accepted, Letters;
    if FlushBatch(w, f).Running? {
      PersistRaisesCursor(w.db, Letters(w.core.pending, f.submission.results), w.core.pendingCommit);
    }
  }

  lemma BatchStageCatchesUp(cfg: Config, w: World, t: Turn)
    requires Positive(cfg) && Steady(cfg, w)
    ensures var r := BatchStage(w, t); r.Running? ==>
      && Steady(cfg, r.w)
      && r.w.core == w.core.(pending := Kept(w, t), flush := r.w.core.flush)
      && r.w.seen == w.seen && r.w.standbyAt == w.standbyAt && r.w.relations == w.relations
      && CursorOf(r.w.db) == (if BatchIsDue(w, t) then Max(CursorOf(w.db), InFlight(w.core)) else CursorOf(w.db))
  {
    hide FlushBatch, LastRowCommit, Open;
    FlushCatchesUp(w, t.batchFlush);
  }

  lemma StandbyStageCatchesUp(cfg: Config, w: World, t: Turn, now: Time)
    requires Positive(cfg) && Steady(cfg, w)
    ensures var r := StandbyStage(cfg, w, t, now);
      && (t.idleCommit.Committed? && t.standbySent ==> r.Running?)
      && (r.Running? ==>
            && Steady(cfg, r.w) && r.w.core == w.core.(flush := r.w.core.flush)
            && r.w.seen == w.seen && r.w.batchAt == w.batchAt && r.w.relations == w.relations
            && r.w.batches == w.batches
            && CursorOf(r.w.db) ==
               (if now >= w.standbyAt && IdleDue(w.core) then Max(CursorOf(w.db), w.core.xlogPos) else CursorOf(w.db)))
  {
    hide LastRowCommit, Open;
    PersistRaisesCursor(w.db, [], w.core.xlogPos);
  }

  lemma EventCatchesUp(w: World, next: World, e: Event)
    requires CaughtUp(w) && next.seen == w.seen + [e] && next.db == w.db
    requires next.core.(xlogPos := w.core.xlogPos) == OnEvent(w.core, e)
    ensures CaughtUp(next)
  {
    OneMore(w.seen, e);
    assert next.seen[..|next.seen| - 1] == w.seen;
  }

  lemma CommitIsCommit(cfg: Config, relations: Relations, m: Message)
    ensures EventOf(cfg, relations, m).Commit? <==> m.CommitMessage?
  {
  }

  lemma CommitGathers(cfg: Config, relations: Relations, m: Message)
    requires m.CommitMessage?
    ensures EventOf(cfg, relations, m) == Commit(m.endLsn)
  {
  }

  /** The commit fills the batch. */
  predicate Fills(cfg: Config, next: World, m: Message) {
    m.CommitMessage? && |next.core.pending| >= cfg.maxBatchSize
  }

  lemma MessageCatchesUp(cfg: Config, w: World, t: Turn, position: Lsn, m: Message)
    requires Positive(cfg) && Steady(cfg, w)
    ensures var next := Noted(cfg, w.(core := OnPosition(w.core, position)), t, m);
      var r := MessageStage(cfg, w, t, position, m);
      r.Running? ==>
        && Steady(cfg, r.w) && r.w.relations == Learn(w.relations, m)
        && r.w.core == (if Fills(cfg, next, m) then Flushed(next.core) else next.core)
        && CursorOf(r.w.db) ==
            (if Fills(cfg, next, m) then Max(CursorOf(w.db), InFlight(next.core)) else CursorOf(w.db))
  {
    hide FlushBatch, LastRowCommit, Open, EventOf, Learn;
    var e := EventOf(cfg, w.relations, m);
    var next := Noted(cfg, w.(core := OnPosition(w.core, position)), t, m);
    EventCatchesUp(w, next, e);
    CommitIsCommit(cfg, w.relations, m);
    FlushCatchesUp(next, t.sizeFlush);
  }

  lemma ReceiveCatchesUp(cfg: Config, w: World, t: Turn)
    requires Positive(cfg) && Steady(cfg, w)
    ensures ReceiveStage(cfg, w, t).Running? ==> Steady(cfg, ReceiveStage(cfg, w, t).w)
  {
    hide MessageStage, LastRowCommit, Open;
    if t.receive.Data? {
      MessageCatchesUp(cfg, w, t, t.receive.end, t.receive.message);
    }
  }

  /** Whatever the environment does, a session that has not returned is steady. */
  lemma RunningIsSteady(cfg: Config, w: World, t: Turn)
    requires Positive(cfg) && Steady(cfg, w)
    ensures RunTurn(cfg, w, t).Running? ==> Steady(cfg, RunTurn(cfg, w, t).w)
  {
    hide BatchStage, StandbyStage, ReceiveStage, CaughtUp;
    BatchStageCatchesUp(cfg, w, t);
    var r1, now := BatchStage(w, t), NowAfterBatch(w, t);
    if r1.Running? {
      StandbyStageCatchesUp(cfg, r1.w, t, now);
      var r2 := StandbyStage(cfg, r1.w, t, now);
      if r2.Running? {
        ReceiveCatchesUp(cfg, r2.w, t);
      }
    }
  }

  lemma {:induction false} RunIsSteady(cfg: Config, w: World, script: seq<Turn>)
    requires Positive(cfg) && Steady(cfg, w)
    ensures Run(cfg, w, script).Running? ==> Steady(cfg, Run(cfg, w, script).w)
  {
    if script != [] {
      hide RunTurn, CaughtUp;
      RunIsSteady(cfg, w, script[..|script| - 1]);
      var prior := Run(cfg, w, script[..|script| - 1]);
      if prior.Running? {
        RunningIsSteady(cfg, prior.w, script[|script| - 1]);
      }
    }
  }

  /** A new session is steady, whatever the cursor it starts from. */
  lemma StartIsSteady(cfg: Config, now: Time, db: Db, confirmed: Lsn, accepted: set<ParsedInsert>)
    requires Positive(cfg)
    ensures var w := StartWorld(cfg, CursorOf(db), now, db, confirmed, accepted); Steady(cfg, w) && RowsSettled(w)
  {
  }

  // ---- How far the cursor gets, exactly ------------------------------------------------------------------

  /**
   * The position a turn's message puts in flight: the highest commit so far, when it arrives with rows of its own
   * or behind rows that are still pending; and nothing when it finds the batch empty.
   */
  function CarriedBy(cfg: Config, w: World, t: Turn): Lsn {
    if t.receive.Data? then
      InFlight(OnEvent(w.core.(pending := Kept(w, t)), EventOf(cfg, w.relations, t.receive.message)))
    else 0
  }

  /** The highest position that was ever in flight. */
  ghost function Carried(cfg: Config, w: World, script: seq<Turn>): Lsn {
    if script == [] then InFlight(w.core)
    else
      var prior := script[..|script| - 1];
      match Run(cfg, w, prior)
      case Running(v) => Max(Carried(cfg, w, prior), CarriedBy(cfg, v, script[|script| - 1]))
      case Stopped(_, _) => Carried(cfg, w, prior)
  }

  /** The cursor moves to positions in flight and to positions heard, and to no others. */
  ghost predicate Moves(w: World, v: World, carried: Lsn) {
    && w.core.xlogPos <= v.core.xlogPos
    && InFlight(v.core) <= Max(InFlight(w.core), carried) <= Max(CursorOf(v.db), InFlight(v.core))
    && CursorOf(w.db) <= CursorOf(v.db)
    && CursorOf(v.db) <= Max(CursorOf(w.db), Max(v.core.xlogPos, Max(InFlight(w.core), carried)))
  }

  lemma ReceptionMoves(cfg: Config, w: World, v: World, t: Turn)
    requires Positive(cfg) && Steady(cfg, w) && ReceiveStage(cfg, w, t).Running?
    requires v.core.pending == w.core.pending && v.core.pendingCommit == w.core.pendingCommit
    requires v.core.buf == w.core.buf && v.relations == w.relations && Kept(v, t) == v.core.pending
    ensures Moves(w, ReceiveStage(cfg, w, t).w, CarriedBy(cfg, v, t))
  {
    hide MessageStage, LastRowCommit, Open, EventOf, LoopHead;
    if t.receive.Data? {
      MessageCatchesUp(cfg, w, t, t.receive.end, t.receive.message);
      CommitIsCommit(cfg, w.relations, t.receive.message);
    }
  }

  lemma FlushedFirst(cfg: Config, w: World, w2: World, r: World, t: Turn, carried: Lsn)
    requires Moves(w2, r, carried)
    requires w2.core.pending == Kept(w, t) && w2.core.pendingCommit == w.core.pendingCommit &&
              w2.core.xlogPos == w.core.xlogPos
    requires Max(CursorOf(w.db), if Kept(w, t) == [] then InFlight(w.core) else 0) <= CursorOf(w2.db)
    requires CursorOf(w2.db) <= Max(CursorOf(w.db), Max(w.core.xlogPos, InFlight(w.core)))
    ensures Moves(w, r, carried)
  {
  }

  lemma CarriedAfterFlush(cfg: Config, w: World, v: World, t: Turn)
    requires v.core.pending == Kept(w, t) == Kept(v, t) && v.core.pendingCommit == w.core.pendingCommit
    requires v.core.buf == w.core.buf && v.relations == w.relations
    ensures CarriedBy(cfg, v, t) == CarriedBy(cfg, w, t)
  {
    hide EventOf;
  }

  lemma TurnMoves(cfg: Config, w: World, t: Turn)
    requires Positive(cfg) && Steady(cfg, w) && RunTurn(cfg, w, t).Running?
    ensures Moves(w, RunTurn(cfg, w, t).w, CarriedBy(cfg, w, t))
  {
    BatchStageCatchesUp(cfg, w, t);
    var w1, now := BatchStage(w, t).w, NowAfterBatch(w, t);
    StandbyStageCatchesUp(cfg, w1, t, now);
    var w2 := StandbyStage(cfg, w1, t, now).w;
    var r := RunTurn(cfg, w, t).w;
    assert r == ReceiveStage(cfg, w2, t).w && ReceiveStage(cfg, w2, t).Running?;
    hide BatchStage, StandbyStage, ReceiveStage, RunTurn, CaughtUp, Moves, CarriedBy, LoopHead;
    assert Kept(w1, t) == w1.core.pending by {
      DueBatchIsFlushed(cfg, w, t);
    }
    CarriedAfterFlush(cfg, w, w1, t);
    ReceptionMoves(cfg, w2, w1, t);
    FlushedFirst(cfg, w, w2, r, t, CarriedBy(cfg, w, t));
  }

  lemma DueBatchIsFlushed(cfg: Config, w: World, t: Turn)
    requires Positive(cfg) && Steady(cfg, w) && BatchStage(w, t).Running?
    ensures Kept(BatchStage(w, t).w, t) == Kept(w, t)
  {
    hide CaughtUp, FlushBatch;
    BatchStageCatchesUp(cfg, w, t);
  }

  lemma MovesCompose(w: World, u: World, v: World, first: Lsn, second: Lsn)
    requires Moves(w, u, first) && Moves(u, v, second)
    ensures Moves(w, v, Max(first, second))
  {
  }

  lemma {:induction false} RunMoves(cfg: Config, w: World, script: seq<Turn>)
    requires Positive(cfg) && Steady(cfg, w) && Run(cfg, w, script).Running?
    ensures Moves(w, Run(cfg, w, script).w, Carried(cfg, w, script))
  {
    if script != [] {
      var prior, last := script[..|script| - 1], script[|script| - 1];
      var v := Run(cfg, w, prior).w;
      hide RunTurn, CarriedBy, CaughtUp, Moves;
      RunMoves(cfg, w, prior);
      RunIsSteady(cfg, w, prior);
      TurnMoves(cfg, v, last);
      MovesCompose(w, v, RunTurn(cfg, v, last).w, Carried(cfg, w, prior), CarriedBy(cfg, v, last));
    }
  }

  lemma {:induction false} CarriedFromTheStart(cfg: Config, w: World, script: seq<Turn>)
    ensures InFlight(w.core) <= Carried(cfg, w, script)
  {
    if script != [] {
      hide RunTurn, CarriedBy;
      CarriedFromTheStart(cfg, w, script[..|script| - 1]);
    }
  }

  /** No transaction is open and nothing is pending. */
  predicate Closed(w: World) {
    w.core.pending == [] && w.core.buf == [] && !w.core.inTx
  }

  /** The standby deadline passes without a failure. */
  predicate WaitsOut(w: World, last: Turn) {
    && !last.cancelled && last.idleCommit.Committed? && last.standbySent && last.receive.TimedOut?
    && last.now >= w.standbyAt && last.nowAfterFlush >= w.standbyAt
  }

  predicate Idles(w: World, last: Turn) {
    Closed(w) && WaitsOut(w, last)
  }

  lemma IdleTurnAdvances(cfg: Config, w: World, last: Turn)
    requires Positive(cfg) && Steady(cfg, w) && Idles(w, last)
    ensures var r := RunTurn(cfg, w, last);
      && r.Running? && r.w.core == w.core.(flush := r.w.core.flush) && r.w.seen == w.seen && r.w.batches == w.batches
      && r.w.core.xlogPos <= r.w.core.flush <= CursorOf(r.w.db) && Steady(cfg, r.w)
      && r.w.confirmed == Max(w.confirmed, r.w.core.flush)
  {
    hide LastRowCommit, Open;
    StandbyIsReported(cfg, BatchStage(w, last).w, last, NowAfterBatch(w, last));
    BatchStageCatchesUp(cfg, w, last);
    StandbyStageCatchesUp(cfg, BatchStage(w, last).w, last, NowAfterBatch(w, last));
  }

  /**
   * Over all scripts: whenever a session comes to an idle standby deadline, the cursor is exactly the highest of where
   * it was, the highest position heard, and the highest position that was ever in flight; and the slot is told of all
   * that was heard and of the commit of every transaction that brought a row.
   */
  lemma CursorExactly(cfg: Config, w: World, script: seq<Turn>, last: Turn)
    requires Positive(cfg) && Steady(cfg, w)
    requires Run(cfg, w, script).Running? && Idles(Run(cfg, w, script).w, last)
    ensures var v := Run(cfg, w, script).w; var r := RunTurn(cfg, v, last);
      && r.Running? && LastRowCommit(r.w.seen) <= CursorOf(r.w.db)
      && CursorOf(r.w.db) == Max(CursorOf(w.db), Max(v.core.xlogPos, Carried(cfg, w, script)))
      && LastRowCommit(r.w.seen) <= r.w.core.flush && v.core.xlogPos <= r.w.core.flush
      && r.w.confirmed == Max(v.confirmed, r.w.core.flush)
  {
    hide RunTurn, Run, Carried, LastRowCommit, Open;
    var v := Run(cfg, w, script).w;
    RunIsSteady(cfg, w, script);
    RunMoves(cfg, w, script);
    IdleTurnAdvances(cfg, v, last);
    TurnMoves(cfg, v, last);
    CarriedFromTheStart(cfg, w, script);
    MovesCompose(w, v, RunTurn(cfg, v, last).w, Carried(cfg, w, script), 0);
  }

  /** The LSN of the last decoded commit. */
  function LastCommit(events: seq<Event>): Lsn {
    if events == [] then 0
    else
      var last := events[|events| - 1];
      if last.Commit? then last.lsn else LastCommit(events[..|events| - 1])
  }

  /**
   * The cursor reaches the last commit exactly when it was there already, or the position was heard, or some commit
   * at least as high arrived with rows of its own or behind rows still pending. A last empty commit need not be.
   */
  lemma LastCommitIsReachedExactly(cfg: Config, w: World, script: seq<Turn>, last: Turn)
    requires Positive(cfg) && Steady(cfg, w)
    requires Run(cfg, w, script).Running? && Idles(Run(cfg, w, script).w, last)
    ensures var v := Run(cfg, w, script).w; var r := RunTurn(cfg, v, last).w; var commit := LastCommit(r.seen);
      commit <= CursorOf(r.db)
      <==> commit <= CursorOf(w.db) || commit <= v.core.xlogPos || commit <= Carried(cfg, w, script)
  {
    hide RunTurn, Run, Carried, LastCommit;
    CursorExactly(cfg, w, script, last);
  }

  /** A commit message is positioned at or past the LSN it carries. */
  predicate Positioned(t: Turn) {
    t.receive.Data? && t.receive.message.CommitMessage? ==> t.receive.message.endLsn <= t.receive.end
  }

  lemma ReceptionIsHeard(cfg: Config, w: World, t: Turn)
    requires Positive(cfg) && Steady(cfg, w) && ReceiveStage(cfg, w, t).Running? && Positioned(t)
    requires LastCommit(w.seen) <= w.core.xlogPos
    ensures LastCommit(ReceiveStage(cfg, w, t).w.seen) <= ReceiveStage(cfg, w, t).w.core.xlogPos
  {
    hide MessageStage, LastRowCommit, Open, EventOf, Learn, LoopHead, LastCommit;
    if t.receive.Data? {
      var m := t.receive.message;
      MessageCatchesUp(cfg, w, t, t.receive.end, m);
      Messages.ReceiveStageLearns(cfg, w, t);
      CommitIsCommit(cfg, w.relations, m);
      LastCommitOfMore(w.seen, EventOf(cfg, w.relations, m));
      if m.CommitMessage? {
        CommitGathers(cfg, w.relations, m);
      }
    }
  }

  lemma LastCommitOfMore(events: seq<Event>, e: Event)
    ensures LastCommit(events + [e]) == if e.Commit? then e.lsn else LastCommit(events)
  {
    assert (events + [e])[..|events|] == events;
  }

  lemma TurnIsHeard(cfg: Config, w: World, t: Turn)
    requires Positive(cfg) && Steady(cfg, w) && RunTurn(cfg, w, t).Running? && Positioned(t)
    requires LastCommit(w.seen) <= w.core.xlogPos
    ensures LastCommit(RunTurn(cfg, w, t).w.seen) <= RunTurn(cfg, w, t).w.core.xlogPos
  {
    hide BatchStage, StandbyStage, ReceiveStage, LastCommit, CaughtUp, LoopHead;
    BatchStageCatchesUp(cfg, w, t);
    var w1, now := BatchStage(w, t).w, NowAfterBatch(w, t);
    StandbyStageCatchesUp(cfg, w1, t, now);
    ReceptionIsHeard(cfg, StandbyStage(cfg, w1, t, now).w, t);
  }

  lemma {:induction false} CommitsAreHeard(cfg: Config, w: World, script: seq<Turn>)
    requires Positive(cfg) && Steady(cfg, w) && Run(cfg, w, script).Running?
    requires LastCommit(w.seen) <= w.core.xlogPos && forall i :: 0 <= i < |script| ==> Positioned(script[i])
    ensures LastCommit(Run(cfg, w, script).w.seen) <= Run(cfg, w, script).w.core.xlogPos
  {
    if script != [] {
      hide RunTurn, CaughtUp, LoopHead, LastCommit, Positioned;
      var prior := script[..|script| - 1];
      CommitsAreHeard(cfg, w, prior);
      RunIsSteady(cfg, w, prior);
      TurnIsHeard(cfg, Run(cfg, w, prior).w, script[|script| - 1]);
    }
  }

  /**
   * When every commit message is positioned at or past the LSN it carries, the cursor is at or past the last decoded
   * commit, empty or not, after any idle standby deadline.
   */
  lemma PositionedCommitsAreReached(cfg: Config, w: World, script: seq<Turn>, last: Turn)
    requires Positive(cfg) && Steady(cfg, w)
    requires Run(cfg, w, script).Running? && Idles(Run(cfg, w, script).w, last)
    requires LastCommit(w.seen) <= w.core.xlogPos && forall i :: 0 <= i < |script| ==> Positioned(script[i])
    ensures var r := RunTurn(cfg, Run(cfg, w, script).w, last);
      r.Running? && LastCommit(r.w.seen) <= CursorOf(r.w.db)
  {
    hide RunTurn, Run, Carried, LastCommit, Positioned, CaughtUp, LoopHead;
    CursorExactly(cfg, w, script, last);
    CommitsAreHeard(cfg, w, script);
    RunIsSteady(cfg, w, script);
    IdleTurnAdvances(cfg, Run(cfg, w, script).w, last);
  }

  const UNUSED := FlushScript(SubmitFailed, RolledBack, false)

  function Quiet(now: Time, r: Receive): Turn {
    Turn(false, now, UNUSED, now, Committed, true, now, r, now, UNUSED)
  }

  /**
   * A fresh session hears an empty transaction whose messages are positioned at 0, before the LSN the commit carries,
   * and then its standby deadline.
   */
  function EmptyTransaction(): seq<Turn> {
    [Quiet(0, Data(0, BeginMessage)), Quiet(0, Data(0, CommitMessage(10)))]
  }

  lemma EmptyTransactionIsHeard(cfg: Config)
    requires Positive(cfg)
    ensures var w := StartWorld(cfg, 0, 0, Db(None, []), 0, {});
      var r := Run(cfg, w, EmptyTransaction());
      && r.Running? && r.w == w.(core := w.core.(pendingCommit := 10), seen := [Begin, Commit(10)])
      && Carried(cfg, w, EmptyTransaction()) == 0
  {
    var w := StartWorld(cfg, 0, 0, Db(None, []), 0, {});
    var t1, t2 := Quiet(0, Data(0, BeginMessage)), Quiet(0, Data(0, CommitMessage(10)));
    assert EmptyTransaction()[..1] == [t1] && [t1][..0] == [];
    var v := w.(core := w.core.(inTx := true), seen := [Begin]);
    assert RunTurn(cfg, w, t1) == Running(v);
    assert RunTurn(cfg, v, t2) == Running(w.(core := w.core.(pendingCommit := 10), seen := [Begin, Commit(10)]));
    assert Run(cfg, w, []) == Running(w);
    assert Run(cfg, w, [t1]) == Running(v);
    assert Carried(cfg, w, [t1]) == 0;
  }

  /** The cursor stays at 0 past the standby deadline, although the commit at 10 was decoded. */
  lemma EmptyLastCommitIsNotReached(cfg: Config)
    requires Positive(cfg)
    ensures var w := StartWorld(cfg, 0, 0, Db(None, []), 0, {});
      var last := Quiet(cfg.standbyInterval, TimedOut);
      var r := Run(cfg, w, EmptyTransaction() + [last]);
      && r.Running? && LastCommit(r.w.seen) == 10 && CursorOf(r.w.db) == 0
  {
    var w, last := StartWorld(cfg, 0, 0, Db(None, []), 0, {}), Quiet(cfg.standbyInterval, TimedOut);
    EmptyTransactionIsHeard(cfg);
    StartIsSteady(cfg, 0, Db(None, []), 0, {});
    CursorExactly(cfg, w, EmptyTransaction(), last);
    var v := Run(cfg, w, EmptyTransaction()).w;
    RunIsSteady(cfg, w, EmptyTransaction());
    IdleTurnAdvances(cfg, v, last);
    hide RunTurn, Carried, EmptyTransaction;
    assert (EmptyTransaction() + [last])[..|EmptyTransaction()|] == EmptyTransaction();
    assert Run(cfg, w, EmptyTransaction() + [last]) == RunTurn(cfg, v, last);
  }

  // ---- Where the session stands, exactly ---------------------------------------------------------------

  /** The position a turn's message carries. */
  function HeardPosition(t: Turn): Lsn {
    match t.receive
    case Keepalive(serverEnd, _, _) => serverEnd
    case Data(end, _) => end
    case _ => 0
  }

  function HighestHeard(script: seq<Turn>): Lsn {
    if script == [] then 0 else Max(HighestHeard(script[..|script| - 1]), HeardPosition(script[|script| - 1]))
  }

  function HighestCommit(events: seq<Event>): Lsn {
    if events == [] then 0
    else
      var last := events[|events| - 1];
      Max(HighestCommit(events[..|events| - 1]), if last.Commit? then last.lsn else 0)
  }

  lemma HighestCommitOfMore(events: seq<Event>, e: Event)
    ensures HighestCommit(events + [e]) == Max(HighestCommit(events), if e.Commit? then e.lsn else 0)
  {
    assert (events + [e])[..|events|] == events;
  }

  lemma ReceptionPositions(cfg: Config, w: World, t: Turn)
    requires Positive(cfg) && Steady(cfg, w) && ReceiveStage(cfg, w, t).Running?
    ensures ReceiveStage(cfg, w, t).w.core.xlogPos == Max(w.core.xlogPos, HeardPosition(t))
  {
    hide MessageStage, LastRowCommit, Open, EventOf, Learn, LoopHead;
    if t.receive.Data? {
      MessageCatchesUp(cfg, w, t, t.receive.end, t.receive.message);
    }
  }

  lemma TurnPositions(cfg: Config, w: World, t: Turn, base: Lsn)
    requires Positive(cfg) && Steady(cfg, w) && RunTurn(cfg, w, t).Running?
    requires w.core.pendingCommit == Max(base, HighestCommit(w.seen))
    ensures var v := RunTurn(cfg, w, t).w;
      && v.core.xlogPos == Max(w.core.xlogPos, HeardPosition(t))
      && v.core.pendingCommit == Max(base, HighestCommit(v.seen))
  {
    BatchStageCatchesUp(cfg, w, t);
    var w1, now := BatchStage(w, t).w, NowAfterBatch(w, t);
    StandbyStageCatchesUp(cfg, w1, t, now);
    var w2 := StandbyStage(cfg, w1, t, now).w;
    assert RunTurn(cfg, w, t) == ReceiveStage(cfg, w2, t);
    hide BatchStage, StandbyStage, ReceiveStage, RunTurn, CaughtUp, LoopHead, HighestCommit;
    ReceptionCommits(cfg, w2, t, base);
    ReceptionPositions(cfg, w2, t);
  }

  lemma ReceptionCommits(cfg: Config, w: World, t: Turn, base: Lsn)
    requires Positive(cfg) && Steady(cfg, w) && ReceiveStage(cfg, w, t).Running?
    requires w.core.pendingCommit == Max(base, HighestCommit(w.seen))
    ensures ReceiveStage(cfg, w, t).w.core.pendingCommit == Max(base, HighestCommit(ReceiveStage(cfg, w, t).w.seen))
  {
    hide MessageStage, LastRowCommit, Open, EventOf, Learn, LoopHead, HighestCommit;
    if t.receive.Data? {
      var m := t.receive.message;
      MessageCatchesUp(cfg, w, t, t.receive.end, m);
      Messages.ReceiveStageLearns(cfg, w, t);
      CommitIsCommit(cfg, w.relations, m);
      HighestCommitOfMore(w.seen, EventOf(cfg, w.relations, m));
    }
  }

  /**
   * In a session that has not returned, the received position is the highest that was heard, and the position a flush
   * would write is the highest decoded commit; both count from where the session began.
   */
  lemma {:induction false} PositionsExactly(cfg: Config, w: World, script: seq<Turn>)
    requires Positive(cfg) && Steady(cfg, w) && Run(cfg, w, script).Running?
    requires HighestCommit(w.seen) <= w.core.pendingCommit
    ensures var v := Run(cfg, w, script).w;
      && v.core.xlogPos == Max(w.core.xlogPos, HighestHeard(script))
      && v.core.pendingCommit == Max(w.core.pendingCommit, HighestCommit(v.seen))
  {
    if script != [] {
      hide RunTurn, CaughtUp, LoopHead, HighestCommit, HeardPosition;
      var prior := script[..|script| - 1];
      PositionsExactly(cfg, w, prior);
      RunIsSteady(cfg, w, prior);
      TurnPositions(cfg, Run(cfg, w, prior).w, script[|script| - 1], w.core.pendingCommit);
    }
  }

  // ---- When a session ends, exactly -----------------------------------------------------------------------

  /** The batch is not answered consistently, or its transaction does not commit. */
  ghost predicate FlushFails(batch: seq<ParsedInsert>, f: FlushScript) {
    || f.submission.SubmitFailed?
    || (f.submission.SubmitAnswered? && !Consistent(batch, f.submission.results))
    || !f.commit.Committed?
  }

  /** The session as a due batch leaves it. */
  function AfterBatch(core: Core, due: bool): Core {
    if due then Flushed(core) else core
  }

  /** The deadline has passed, and the idle advance or the report fails. */
  predicate StandbyFails(w: World, t: Turn) {
    && NowAfterBatch(w, t) >= w.standbyAt
    && ((IdleDue(AfterBatch(w.core, BatchIsDue(w, t))) && !t.idleCommit.Committed?) || !t.standbySent)
  }

  /** The reception fails, or the flush of the batch that its commit fills. */
  ghost predicate ReceptionFails(cfg: Config, w: World, t: Turn) {
    match t.receive
    case ReceiveFailed => true
    case Keepalive(_, requested, sent) => requested && !sent
    case Data(_, m) =>
      var batch := Kept(w, t) + w.core.buf;
      m.CommitMessage? && |batch| >= cfg.maxBatchSize && batch != [] && FlushFails(batch, t.sizeFlush)
    case _ => false
  }

  lemma FlushFailsExactly(w: World, f: FlushScript)
    ensures FlushBatch(w, f).Stopped? <==> FlushFails(w.core.pending, f)
  {
    hide Letters, Accepted, Consistent;
  }

  lemma BatchStageStopsExactly(cfg: Config, w: World, t: Turn)
    requires LoopHead(cfg, w)
    ensures BatchStage(w, t).Stopped? <==> BatchIsDue(w, t) && FlushFails(w.core.pending, t.batchFlush)
    ensures BatchStage(w, t).Running? ==>
              && BatchStage(w, t).w.core == AfterBatch(w.core, BatchIsDue(w, t))
              && BatchStage(w, t).w.standbyAt == w.standbyAt && BatchStage(w, t).w.relations == w.relations
  {
    hide Letters, Accepted, Consistent;
    FlushFailsExactly(w, t.batchFlush);
  }

  lemma ReceptionStopsExactly(cfg: Config, w: World, v: World, t: Turn)
    requires Positive(cfg) && v.core.pending == Kept(w, t) && v.core.buf == w.core.buf
    ensures ReceiveStage(cfg, v, t).Stopped? <==> ReceptionFails(cfg, w, t)
  {
    hide FlushBatch, FlushFails, EventOf, Learn;
    if t.receive.Data? {
      var m := t.receive.message;
      var next := Noted(cfg, v.(core := OnPosition(v.core, t.receive.end)), t, m);
      CommitIsCommit(cfg, v.relations, m);
      FlushFailsExactly(next, t.sizeFlush);
      if m.CommitMessage? {
        CommitGathers(cfg, v.relations, m);
      }
    }
  }

  /**
   * A turn ends the session exactly when it is cancelled, a flush is not answered consistently or not committed, the
   * standby deadline fails, or the reception does. A status that is lost behind a flush does not end it.
   */
  lemma TurnStopsExactly(cfg: Config, w: World, t: Turn)
    requires Positive(cfg) && LoopHead(cfg, w)
    ensures RunTurn(cfg, w, t).Stopped? <==>
            || t.cancelled
            || (BatchIsDue(w, t) && FlushFails(w.core.pending, t.batchFlush))
            || StandbyFails(w, t)
            || ReceptionFails(cfg, w, t)
  {
    hide BatchStage, ReceiveStage, FlushFails, ReceptionFails;
    BatchStageStopsExactly(cfg, w, t);
    var w1, now := BatchStage(w, t).w, NowAfterBatch(w, t);
    if BatchStage(w, t).Running? {
      ReceptionStopsExactly(cfg, w, StandbyStage(cfg, w1, t, now).w, t);
    }
  }

  // ---- A turn without failures ------------------------------------------------------------------------

  /** jack-service answers consistently whenever a consistent answer exists, and the commit succeeds. */
  ghost predicate Answers(f: FlushScript, pending: seq<ParsedInsert>) {
    && f.submission.SubmitAnswered? && f.commit.Committed?
    && (DistinctCids(pending) ==> Consistent(pending, f.submission.results))
  }

  ghost predicate Hears(t: Turn) {
    match t.receive
    case ReceiveFailed => false
    case Keepalive(_, requested, sent) => requested ==> sent
    case _ => true
  }

  /** Nothing fails in this turn, as far as that is up to the environment. */
  ghost predicate Healthy(cfg: Config, w: World, t: Turn) {
    && !t.cancelled && t.idleCommit.Committed? && t.standbySent && Hears(t)
    && (w.core.pending != [] ==> Answers(t.batchFlush, w.core.pending))
    && (t.receive.Data? ==> Answers(t.sizeFlush, Kept(w, t) + w.core.buf))
  }

  ghost predicate AllDistinct(batches: seq<seq<ParsedInsert>>) {
    forall i :: 0 <= i < |batches| ==> DistinctCids(batches[i])
  }

  lemma OneDistinct(batch: seq<ParsedInsert>)
    ensures AllDistinct([batch]) <==> DistinctCids(batch)
  {
    hide DistinctCids;
    assert [batch][0] == batch;
  }

  /** v has submitted what w had, and these batches. */
  ghost predicate Submits(w: World, v: World, batches: seq<seq<ParsedInsert>>) {
    v.batches == w.batches + batches
  }

  lemma FlushRunsExactly(w: World, f: FlushScript)
    requires Answers(f, w.core.pending)
    ensures var r := FlushBatch(w, f);
      Submits(w, r.w, [w.core.pending]) && (r.Running? <==> DistinctCids(w.core.pending))
  {
    hide Letters, Accepted;
  }

  lemma BatchStageRunsExactly(cfg: Config, w: World, t: Turn)
    requires LoopHead(cfg, w) && Healthy(cfg, w, t)
    ensures var r := BatchStage(w, t);
      && Submits(w, r.w, if BatchIsDue(w, t) then [w.core.pending] else [])
      && (r.Running? <==> (BatchIsDue(w, t) ==> DistinctCids(w.core.pending)))
  {
    hide FlushBatch, DistinctCids, Consistent;
    if w.core.pending != [] {
      FlushRunsExactly(w, t.batchFlush);
    }
  }

  lemma ReceiveRunsExactly(cfg: Config, w: World, t: Turn)
    requires Positive(cfg) && Hears(t)
    requires t.receive.Data? ==> Answers(t.sizeFlush, w.core.pending + w.core.buf)
    ensures var r := ReceiveStage(cfg, w, t);
      exists batches :: Submits(w, r.w, batches) && (r.Running? <==> AllDistinct(batches))
  {
    hide FlushBatch, DistinctCids, Consistent, EventOf, Learn;
    var r := ReceiveStage(cfg, w, t);
    if t.receive.Data? && t.receive.message.CommitMessage? {
      var next := Noted(cfg, w.(core := OnPosition(w.core, t.receive.end)), t, t.receive.message);
      CommitIsCommit(cfg, w.relations, t.receive.message);
      CommitGathers(cfg, w.relations, t.receive.message);
      if |next.core.pending| >= cfg.maxBatchSize {
        FlushRunsExactly(next, t.sizeFlush);
        OneDistinct(next.core.pending);
        assert Submits(w, r.w, [next.core.pending]);
        return;
      }
    } else if t.receive.Data? {
      CommitIsCommit(cfg, w.relations, t.receive.message);
    }
    assert Submits(w, r.w, []) && AllDistinct([]);
  }

  /** A turn without failures goes on exactly when no batch it submits holds an id twice. */
  lemma TurnRunsExactly(cfg: Config, w: World, t: Turn)
    requires Positive(cfg) && Steady(cfg, w) && Healthy(cfg, w, t)
    ensures var r := RunTurn(cfg, w, t);
      exists batches :: Submits(w, r.w, batches) && (r.Running? <==> AllDistinct(batches))
  {
    hide BatchStage, StandbyStage, ReceiveStage, CaughtUp, DistinctCids, Consistent;
    BatchStageRunsExactly(cfg, w, t);
    BatchStageCatchesUp(cfg, w, t);
    var r1, now := BatchStage(w, t), NowAfterBatch(w, t);
    var first := if BatchIsDue(w, t) then [w.core.pending] else [];
    OneDistinct(w.core.pending);
    if r1.Running? {
      StandbyStageCatchesUp(cfg, r1.w, t, now);
      var w2 := StandbyStage(cfg, r1.w, t, now).w;
      ReceiveRunsExactly(cfg, w2, t);
      var r := ReceiveStage(cfg, w2, t);
      var rest :| Submits(w2, r.w, rest) && (r.Running? <==> AllDistinct(rest));
      DistinctTogether(first, rest);
      assert Submits(w, r.w, first + rest);
    } else {
      assert Submits(w, r1.w, first) && !AllDistinct(first);
    }
  }

  lemma NothingSubmitted(w: World)
    ensures Submits(w, w, []) && AllDistinct([])
  {
  }

  lemma SubmitsTogether(w: World, u: World, v: World, first: seq<seq<ParsedInsert>>, rest: seq<seq<ParsedInsert>>)
    requires Submits(w, u, first) && Submits(u, v, rest)
    ensures Submits(w, v, first + rest)
  {
    Regroup(w.batches, first, rest);
  }

  lemma DistinctTogether(a: seq<seq<ParsedInsert>>, b: seq<seq<ParsedInsert>>)
    ensures AllDistinct(a + b) <==> AllDistinct(a) && AllDistinct(b)
  {
    hide DistinctCids;
    if AllDistinct(a + b) {
      forall i | 0 <= i < |a| ensures DistinctCids(a[i]) {
        assert (a + b)[i] == a[i];
      }
      forall i | 0 <= i < |b| ensures DistinctCids(b[i]) {
        assert (a + b)[|a| + i] == b[i];
      }
    }
  }

  // ---- The termination measure ----------------------------------------------------------------------

  /** What is left to do: messages not yet received, and a batch not yet flushed. */
  function Work(w: World, due: seq<Message>): nat {
    2 * |due| + if w.core.pending != [] then 1 else 0
  }

  /** The turn receives the next message; when none is due, it outlasts the batch deadline. */
  predicate Productive(w: World, t: Turn, due: seq<Message>) {
    if due != [] then t.receive.Data? && t.receive.message == due[0]
    else !t.receive.Data? && (w.batchAt.Some? ==> t.now >= w.batchAt.value)
  }

  function Rest(t: Turn, due: seq<Message>): seq<Message> {
    if t.receive.Data? && due != [] then due[1..] else due
  }

  /** Of a finite number of timeouts and keepalives in between, how many are left. */
  function Spare(w: World, t: Turn, due: seq<Message>, idle: nat): nat {
    if Productive(w, t, due) || idle == 0 then idle else idle - 1
  }

  /**
   * An environment that no longer fails, whatever the session has come to: each turn brings the next message or
   * outlasts the batch deadline, but for a bounded number of timeouts and keepalives at any time in between.
   */
  ghost predicate Cooperates(cfg: Config, environment: (World, seq<Message>, nat) -> Turn) {
    forall w, due, idle :: Steady(cfg, w) ==> Helps(cfg, w, environment(w, due, idle), due, idle)
  }

  ghost predicate Helps(cfg: Config, w: World, t: Turn, due: seq<Message>, idle: nat) {
    Healthy(cfg, w, t) && (Productive(w, t, due) || (idle > 0 && !t.receive.Data?))
  }

  lemma PendingShrinks(cfg: Config, w: World, t: Turn)
    requires Positive(cfg) && Steady(cfg, w) && RunTurn(cfg, w, t).Running? && !t.receive.Data?
    ensures RunTurn(cfg, w, t).w.core == w.core.(pending := Kept(w, t), flush := RunTurn(cfg, w, t).w.core.flush,
                                                 xlogPos := RunTurn(cfg, w, t).w.core.xlogPos)
  {
    hide BatchStage, StandbyStage, LastRowCommit, Open, LoopHead;
    BatchStageCatchesUp(cfg, w, t);
    StandbyStageCatchesUp(cfg, BatchStage(w, t).w, t, NowAfterBatch(w, t));
  }

  /** Every turn that goes on takes work off, or one of the timeouts and keepalives that are left. */
  lemma TurnReducesWork(cfg: Config, w: World, t: Turn, due: seq<Message>, idle: nat)
    requires Positive(cfg) && Steady(cfg, w) && Helps(cfg, w, t, due, idle)
    requires Work(w, due) > 0 && RunTurn(cfg, w, t).Running?
    ensures Steady(cfg, RunTurn(cfg, w, t).w)
    ensures Work(RunTurn(cfg, w, t).w, Rest(t, due)) + Spare(w, t, due, idle) < Work(w, due) + idle
  {
    hide RunTurn, CaughtUp, Healthy;
    RunningIsSteady(cfg, w, t);
    if !t.receive.Data? {
      PendingShrinks(cfg, w, t);
    }
  }

  /** The turns a session takes until no message is due and no batch is pending, or it returns. */
  ghost function Drain(
    cfg: Config, w: World, due: seq<Message>, idle: nat, environment: (World, seq<Message>, nat) -> Turn): seq<Turn>
    requires Positive(cfg) && Steady(cfg, w) && Cooperates(cfg, environment)
    decreases Work(w, due) + idle
  {
    if Work(w, due) == 0 then []
    else
      var t := environment(w, due, idle);
      var r := RunTurn(cfg, w, t);
      if r.Stopped? then [t]
      else
        TurnReducesWork(cfg, w, t, due, idle);
        [t] + Drain(cfg, r.w, Rest(t, due), Spare(w, t, due, idle), environment)
  }

  lemma {:induction false} RunFromFront(cfg: Config, w: World, t: Turn, script: seq<Turn>)
    ensures Run(cfg, w, [t] + script) ==
            if RunTurn(cfg, w, t).Stopped? then RunTurn(cfg, w, t) else Run(cfg, RunTurn(cfg, w, t).w, script)
  {
    hide RunTurn;
    var all := [t] + script;
    if script == [] {
      assert all[..0] == [] && Run(cfg, w, []) == Running(w);
    } else {
      assert all[..|all| - 1] == [t] + script[..|script| - 1];
      RunFromFront(cfg, w, t, script[..|script| - 1]);
    }
  }

  /** What is due ends with a decoded commit, or nothing is due and no transaction is open. */
  ghost predicate EndsClosed(w: World, due: seq<Message>) {
    if due == [] then w.core.buf == [] && !w.core.inTx else due[|due| - 1].CommitMessage?
  }

  lemma CommitCloses(cfg: Config, w: World, t: Turn)
    requires Positive(cfg) && Steady(cfg, w) && RunTurn(cfg, w, t).Running?
    requires t.receive.Data? && t.receive.message.CommitMessage?
    ensures RunTurn(cfg, w, t).w.core.buf == [] && !RunTurn(cfg, w, t).w.core.inTx
  {
    hide BatchStage, StandbyStage, MessageStage, LastRowCommit, Open;
    BatchStageCatchesUp(cfg, w, t);
    var w1, now := BatchStage(w, t).w, NowAfterBatch(w, t);
    StandbyStageCatchesUp(cfg, w1, t, now);
    MessageCatchesUp(cfg, StandbyStage(cfg, w1, t, now).w, t, t.receive.end, t.receive.message);
  }

  lemma StaysClosed(cfg: Config, w: World, t: Turn, due: seq<Message>, idle: nat)
    requires Positive(cfg) && Steady(cfg, w) && RunTurn(cfg, w, t).Running?
    requires Helps(cfg, w, t, due, idle) && EndsClosed(w, due)
    ensures EndsClosed(RunTurn(cfg, w, t).w, Rest(t, due))
  {
    hide RunTurn, CaughtUp, Healthy, LoopHead;
    if !t.receive.Data? {
      PendingShrinks(cfg, w, t);
    } else if t.receive.message.CommitMessage? {
      CommitCloses(cfg, w, t);
    }
  }

  lemma {:induction false} HeardFirst(t: Turn, script: seq<Turn>)
    ensures Messages.MessagesOf([t] + script) == Messages.Heard(t) + Messages.MessagesOf(script)
  {
    var all := [t] + script;
    if script == [] {
      assert all[..0] == [];
    } else {
      assert all[..|all| - 1] == [t] + script[..|script| - 1];
      HeardFirst(t, script[..|script| - 1]);
    }
  }

  lemma NothingHeard()
    ensures Messages.MessagesOf([]) == []
  {
  }

  lemma HeardIsDue(cfg: Config, w: World, t: Turn, due: seq<Message>, idle: nat)
    requires Helps(cfg, w, t, due, idle)
    ensures due == Messages.Heard(t) + Rest(t, due)
  {
    if t.receive.Data? {
      assert due == [due[0]] + due[1..];
    }
  }

  /**
   * Progress: against any environment that has stopped failing, a session drains exactly when no batch it submits
   * holds an id twice; then it has received exactly what was due, in order, nothing is pending, and no transaction
   * is open.
   */
  lemma {:induction false} DrainsExactly(
    cfg: Config, w: World, due: seq<Message>, idle: nat, environment: (World, seq<Message>, nat) -> Turn)
    requires Positive(cfg) && Steady(cfg, w) && Cooperates(cfg, environment) && EndsClosed(w, due)
    ensures var r := Run(cfg, w, Drain(cfg, w, due, idle, environment));
      && (exists batches :: Submits(w, r.w, batches) && (r.Running? <==> AllDistinct(batches)))
      && (r.Running? ==>
            && Steady(cfg, r.w) && Closed(r.w)
            && Messages.MessagesOf(Drain(cfg, w, due, idle, environment)) == due)
    decreases Work(w, due) + idle
  {
    hide RunTurn, CaughtUp, Healthy, DistinctCids, LoopHead, Messages.MessagesOf, Messages.Heard, AllDistinct, Submits;
    NothingHeard();
    NothingSubmitted(w);
    if Work(w, due) == 0 {
    } else {
      var t := environment(w, due, idle);
      assert Helps(cfg, w, t, due, idle);
      var r := RunTurn(cfg, w, t);
      TurnRunsExactly(cfg, w, t);
      var first :| Submits(w, r.w, first) && (r.Running? <==> AllDistinct(first));
      if r.Stopped? {
        RunFromFront(cfg, w, t, []);
        assert [t] + [] == [t];
      } else {
        TurnReducesWork(cfg, w, t, due, idle);
        StaysClosed(cfg, w, t, due, idle);
        var later, spare := Rest(t, due), Spare(w, t, due, idle);
        DrainsExactly(cfg, r.w, later, spare, environment);
        var script := Drain(cfg, r.w, later, spare, environment);
        RunFromFront(cfg, w, t, script);
        HeardFirst(t, script);
        HeardIsDue(cfg, w, t, due, idle);
        var end := Run(cfg, r.w, script);
        var rest :| Submits(r.w, end.w, rest) && (end.Running? <==> AllDistinct(rest));
        DistinctTogether(first, rest);
        SubmitsTogether(w, r.w, end.w, first, rest);
      }
    }
  }

  /**
   * And at its next standby deadline the cursor is at or past the commit of every transaction that brought a row,
   * and exactly the highest of where it began, what was heard, and what was in flight.
   */
  lemma CursorCatchesUp(
    cfg: Config, w: World, due: seq<Message>, idle: nat, environment: (World, seq<Message>, nat) -> Turn, last: Turn)
    requires Positive(cfg) && Steady(cfg, w) && Cooperates(cfg, environment) && EndsClosed(w, due)
    requires var script := Drain(cfg, w, due, idle, environment);
      Run(cfg, w, script).Running? && WaitsOut(Run(cfg, w, script).w, last)
    ensures var script := Drain(cfg, w, due, idle, environment);
      var v := Run(cfg, w, script).w; var r := RunTurn(cfg, v, last);
      && r.Running? && r.w.seen == w.seen + Messages.Decode(cfg, w.relations, due)
      && LastRowCommit(r.w.seen) <= CursorOf(r.w.db)
      && CursorOf(r.w.db) == Max(CursorOf(w.db), Max(v.core.xlogPos, Carried(cfg, w, script)))
      && LastRowCommit(r.w.seen) <= r.w.core.flush && v.core.xlogPos <= r.w.core.flush
      && r.w.confirmed == Max(v.confirmed, r.w.core.flush)
  {
    hide Run, RunTurn, Carried, LastRowCommit, CaughtUp, LoopHead, Messages.Decode, Messages.MessagesOf, Drain;
    var script := Drain(cfg, w, due, idle, environment);
    DrainsExactly(cfg, w, due, idle, environment);
    Messages.SessionLearns(cfg, w, script);
    RunIsSteady(cfg, w, script);
    IdleTurnAdvances(cfg, Run(cfg, w, script).w, last);
    CursorExactly(cfg, w, script, last);
  }

  // ---- Distinct ids suffice ------------------------------------------------------------------------------

  predicate Suffix(a: seq<ParsedInsert>, b: seq<ParsedInsert>) {
    |a| <= |b| && a == b[|b| - |a|..]
  }

  function Held(w: World): seq<ParsedInsert> {
    w.core.pending + w.core.buf
  }

  /** The row a message adds to the buffer, if it adds one. */
  function Brings(cfg: Config, relations: Relations, m: Message): seq<ParsedInsert> {
    match EventOf(cfg, relations, m)
    case Insert(Some(row)) => [row]
    case _ => []
  }

  function BringAll(cfg: Config, relations: Relations, due: seq<Message>): seq<ParsedInsert>
    decreases |due|
  {
    if due == [] then [] else Brings(cfg, relations, due[0]) + BringAll(cfg, Learn(relations, due[0]), due[1..])
  }

  /** No two rows held or still to come share an id, as is the case for an identity column. */
  ghost predicate Answerable(cfg: Config, w: World, due: seq<Message>) {
    DistinctCids(Held(w) + BringAll(cfg, w.relations, due))
  }

  ghost predicate Received(cfg: Config, w: World, v: World, t: Turn) {
    if t.receive.Data? then
      && v.relations == Learn(w.relations, t.receive.message)
      && Suffix(Held(v), Held(w) + Brings(cfg, w.relations, t.receive.message))
    else v.relations == w.relations && Suffix(Held(v), Held(w))
  }

  lemma MessageReceived(cfg: Config, w: World, t: Turn)
    requires Positive(cfg) && Steady(cfg, w) && ReceiveStage(cfg, w, t).Running?
    ensures Received(cfg, w, ReceiveStage(cfg, w, t).w, t)
  {
    hide MessageStage, LastRowCommit, Open, EventOf, Learn, LoopHead;
    if t.receive.Data? {
      var m := t.receive.message;
      MessageCatchesUp(cfg, w, t, t.receive.end, m);
      CommitIsCommit(cfg, w.relations, m);
      var next := Noted(cfg, w.(core := OnPosition(w.core, t.receive.end)), t, m);
      assert Held(next) == Held(w) + Brings(cfg, w.relations, m);
    }
  }

  /** What a turn that goes on has made of the session by the time it receives. */
  lemma BeforeReceiving(cfg: Config, w: World, t: Turn) returns (v: World)
    requires Positive(cfg) && Steady(cfg, w) && RunTurn(cfg, w, t).Running?
    ensures Steady(cfg, v) && RunTurn(cfg, w, t) == ReceiveStage(cfg, v, t)
    ensures v.relations == w.relations && v.core.pending == Kept(w, t) && v.core.buf == w.core.buf
  {
    hide BatchStage, StandbyStage, ReceiveStage, CaughtUp, LoopHead;
    BatchStageCatchesUp(cfg, w, t);
    var w1, now := BatchStage(w, t).w, NowAfterBatch(w, t);
    StandbyStageCatchesUp(cfg, w1, t, now);
    v := StandbyStage(cfg, w1, t, now).w;
  }

  lemma TurnReceives(cfg: Config, w: World, t: Turn)
    requires Positive(cfg) && Steady(cfg, w) && RunTurn(cfg, w, t).Running?
    ensures Received(cfg, w, RunTurn(cfg, w, t).w, t)
  {
    hide ReceiveStage, RunTurn, CaughtUp, LoopHead, Brings, Learn, Held, Suffix;
    var v := BeforeReceiving(cfg, w, t);
    var r := ReceiveStage(cfg, v, t).w;
    MessageReceived(cfg, v, t);
    KeptIsSuffix(w, v, t);
    if t.receive.Data? {
      SuffixOfAppend(Held(r), Held(v), Held(w), Brings(cfg, w.relations, t.receive.message));
    } else {
      assert Held(w) + [] == Held(w) && Held(v) + [] == Held(v);
      SuffixOfAppend(Held(r), Held(v), Held(w), []);
    }
  }

  lemma KeptIsSuffix(w: World, v: World, t: Turn)
    requires v.core.pending == Kept(w, t) && v.core.buf == w.core.buf
    ensures Suffix(Held(v), Held(w))
  {
    if BatchIsDue(w, t) {
      assert Held(w)[|w.core.pending|..] == w.core.buf;
      assert Held(v) == w.core.buf;
    }
  }

  lemma SuffixOfAppend(a: seq<ParsedInsert>, b: seq<ParsedInsert>, c: seq<ParsedInsert>, d: seq<ParsedInsert>)
    requires Suffix(a, b + d) && Suffix(b, c)
    ensures Suffix(a, c + d)
  {
    assert (c + d)[|c| - |b|..] == b + d;
  }

  lemma StaysAnswerable(cfg: Config, w: World, v: World, t: Turn, due: seq<Message>)
    requires Answerable(cfg, w, due) && Received(cfg, w, v, t)
    requires t.receive.Data? ==> due != [] && t.receive.message == due[0]
    ensures Answerable(cfg, v, Rest(t, due))
  {
    var all := Held(w) + BringAll(cfg, w.relations, due);
    if t.receive.Data? {
      var more := BringAll(cfg, Learn(w.relations, due[0]), due[1..]);
      assert all == Held(w) + Brings(cfg, w.relations, due[0]) + more;
      SuffixIsDistinct(Held(v), Held(w) + Brings(cfg, w.relations, due[0]), more);
    } else {
      SuffixIsDistinct(Held(v), Held(w), BringAll(cfg, w.relations, due));
    }
  }

  lemma SuffixIsDistinct(a: seq<ParsedInsert>, b: seq<ParsedInsert>, more: seq<ParsedInsert>)
    requires Suffix(a, b) && DistinctCids(b + more)
    ensures DistinctCids(a + more)
  {
    var k := |b| - |a|;
    forall i, j | 0 <= i < j < |a + more| ensures Cid((a + more)[i]) != Cid((a + more)[j]) {
      assert (a + more)[i] == (b + more)[k + i] && (a + more)[j] == (b + more)[k + j];
    }
  }

  lemma PrefixIsDistinct(a: seq<ParsedInsert>, more: seq<ParsedInsert>)
    requires DistinctCids(a + more)
    ensures DistinctCids(a)
  {
    forall i, j | 0 <= i < j < |a| ensures Cid(a[i]) != Cid(a[j]) {
      assert (a + more)[i] == a[i] && (a + more)[j] == a[j];
    }
  }

  lemma HeldIsDistinct(cfg: Config, w: World, t: Turn, due: seq<Message>)
    requires Answerable(cfg, w, due)
    ensures DistinctCids(w.core.pending) && DistinctCids(Kept(w, t) + w.core.buf)
  {
    hide BringAll;
    var more := BringAll(cfg, w.relations, due);
    assert Held(w) + more == w.core.pending + (w.core.buf + more);
    PrefixIsDistinct(w.core.pending, w.core.buf + more);
    assert Held(w)[|Held(w)| - |Kept(w, t) + w.core.buf|..] == Kept(w, t) + w.core.buf;
    SuffixIsDistinct(Kept(w, t) + w.core.buf, Held(w), more);
    PrefixIsDistinct(Kept(w, t) + w.core.buf, more);
  }

  lemma AnswerableTurnRuns(cfg: Config, w: World, t: Turn, due: seq<Message>)
    requires Positive(cfg) && Steady(cfg, w) && Healthy(cfg, w, t) && Answerable(cfg, w, due)
    ensures RunTurn(cfg, w, t).Running?
  {
    hide BatchStage, StandbyStage, CaughtUp, DistinctCids, Consistent, Answerable, EventOf, Learn, FlushBatch;
    HeldIsDistinct(cfg, w, t, due);
    BatchStageRunsExactly(cfg, w, t);
    BatchStageCatchesUp(cfg, w, t);
    var w1, now := BatchStage(w, t).w, NowAfterBatch(w, t);
    StandbyStageCatchesUp(cfg, w1, t, now);
    var w2 := StandbyStage(cfg, w1, t, now).w;
    if t.receive.Data? {
      var m := t.receive.message;
      CommitIsCommit(cfg, w2.relations, m);
      if m.CommitMessage? {
        CommitGathers(cfg, w2.relations, m);
        FlushRunsExactly(Noted(cfg, w2.(core := OnPosition(w2.core, t.receive.end)), t, m), t.sizeFlush);
      }
    }
  }

  /** With distinct ids every session drains. */
  lemma {:induction false} DistinctIdsDrain(
    cfg: Config, w: World, due: seq<Message>, idle: nat, environment: (World, seq<Message>, nat) -> Turn)
    requires Positive(cfg) && Steady(cfg, w) && Cooperates(cfg, environment) && Answerable(cfg, w, due)
    ensures Run(cfg, w, Drain(cfg, w, due, idle, environment)).Running?
    decreases Work(w, due) + idle
  {
    hide RunTurn, CaughtUp, Healthy, Answerable, LoopHead, Received;
    if Work(w, due) > 0 {
      var t := environment(w, due, idle);
      assert Helps(cfg, w, t, due, idle);
      AnswerableTurnRuns(cfg, w, t, due);
      var v, later, spare := RunTurn(cfg, w, t).w, Rest(t, due), Spare(w, t, due, idle);
      TurnReducesWork(cfg, w, t, due, idle);
      TurnReceives(cfg, w, t);
      StaysAnswerable(cfg, w, v, t, due);
      DistinctIdsDrain(cfg, v, later, spare, environment);
      RunFromFront(cfg, w, t, Drain(cfg, v, later, spare, environment));
    }
  }

  // ---- Every row is accepted or dead-lettered -----------------------------------------------------------

  ghost predicate Done(w: World, p: ParsedInsert) {
    p in w.accepted || Dead(w.db.dlq, p)
  }

  /** Every row a session has decoded is still held, or was accepted, or is dead-lettered. */
  ghost predicate RowsSettled(w: World) {
    forall p :: p in DecodedRows(w.seen) ==> p in Held(w) || Done(w, p)
  }

  ghost predicate Settles(w: World, v: World) {
    && w.accepted <= v.accepted && w.db.dlq <= v.db.dlq
    && forall p :: p in w.core.pending ==> p in v.core.pending || Done(v, p)
  }

  lemma DoneStays(w: World, v: World, p: ParsedInsert)
    requires w.accepted <= v.accepted && w.db.dlq <= v.db.dlq && Done(w, p)
    ensures Done(v, p)
  {
    if Dead(w.db.dlq, p) {
      var d :| d in w.db.dlq && Carries(d, p);
      assert d in v.db.dlq;
    }
  }

  lemma FlushSettles(w: World, f: FlushScript)
    ensures FlushBatch(w, f).Running? ==> Settles(w, FlushBatch(w, f).w)
  {
    hide Letters, Accepted;
    if FlushBatch(w, f).Running? {
      var v := FlushBatch(w, f).w;
      var results := f.submission.results;
      forall p | p in w.core.pending ensures Done(v, p) {
        EveryInsertDecided(w.core.pending, results, p);
        if Dead(Letters(w.core.pending, results), p) {
          var d :| d in Letters(w.core.pending, results) && Carries(d, p);
          assert d in v.db.dlq;
        }
      }
    }
  }

  lemma BatchStageSettles(w: World, t: Turn)
    ensures BatchStage(w, t).Running? ==> Settles(w, BatchStage(w, t).w)
  {
    hide FlushBatch;
    FlushSettles(w, t.batchFlush);
  }

  lemma StandbyStageSettles(cfg: Config, w: World, t: Turn, now: Time)
    ensures StandbyStage(cfg, w, t, now).Running? ==> Settles(w, StandbyStage(cfg, w, t, now).w)
  {
  }

  lemma SettledTogether(w: World, u: World, v: World)
    requires Settles(w, u) && Settles(u, v)
    ensures Settles(w, v)
  {
    hide Done;
    forall p | p in w.core.pending ensures p in v.core.pending || Done(v, p) {
      if Done(u, p) {
        DoneStays(u, v, p);
      }
    }
  }

  lemma SettlingKeeps(w: World, v: World)
    requires RowsSettled(w) && Settles(w, v) && v.seen == w.seen && v.core.buf == w.core.buf
    ensures RowsSettled(v)
  {
    hide Done, DecodedRows;
    forall p | p in DecodedRows(v.seen) ensures p in Held(v) || Done(v, p) {
      if p !in Held(w) {
        DoneStays(w, v, p);
      }
    }
  }

  lemma NotedIsSettled(cfg: Config, w: World, t: Turn, m: Message)
    requires RowsSettled(w)
    ensures RowsSettled(Noted(cfg, w, t, m))
  {
    hide EventOf, Learn;
    var v, e := Noted(cfg, w, t, m), EventOf(cfg, w.relations, m);
    assert v.seen[..|w.seen|] == w.seen;
    forall p | p in DecodedRows(v.seen) ensures p in Held(v) || Done(v, p) {
      if p in DecodedRows(w.seen) {
        assert p in Held(w) || Done(w, p);
      }
    }
  }

  lemma ReceptionIsSettled(cfg: Config, w: World, t: Turn)
    requires RowsSettled(w) && ReceiveStage(cfg, w, t).Running?
    ensures RowsSettled(ReceiveStage(cfg, w, t).w)
  {
    var v := ReceiveStage(cfg, w, t).w;
    if t.receive.Data? {
      hide FlushBatch, Noted, EventOf, DecodedRows;
      var heard := w.(core := OnPosition(w.core, t.receive.end));
      assert RowsSettled(heard);
      var next := Noted(cfg, heard, t, t.receive.message);
      NotedIsSettled(cfg, heard, t, t.receive.message);
      FlushSettles(next, t.sizeFlush);
      if v.batches != next.batches {
        FlushOnly(next, t.sizeFlush);
        SettlingKeeps(next, v);
      }
    }
  }

  lemma FlushOnly(w: World, f: FlushScript)
    ensures var v := FlushBatch(w, f).w; v.seen == w.seen && v.core.buf == w.core.buf && v.batches != w.batches
  {
  }

  lemma TurnIsSettled(cfg: Config, w: World, t: Turn)
    requires Positive(cfg) && Steady(cfg, w) && RowsSettled(w) && RunTurn(cfg, w, t).Running?
    ensures RowsSettled(RunTurn(cfg, w, t).w)
  {
    hide BatchStage, StandbyStage, ReceiveStage, CaughtUp, LoopHead, RowsSettled, Settles;
    BatchStageCatchesUp(cfg, w, t);
    BatchStageSettles(w, t);
    var w1, now := BatchStage(w, t).w, NowAfterBatch(w, t);
    StandbyStageCatchesUp(cfg, w1, t, now);
    StandbyStageSettles(cfg, w1, t, now);
    var w2 := StandbyStage(cfg, w1, t, now).w;
    SettledTogether(w, w1, w2);
    SettlingKeeps(w, w2);
    ReceptionIsSettled(cfg, w2, t);
  }

  lemma {:induction false} RunIsSettled(cfg: Config, w: World, script: seq<Turn>)
    requires Positive(cfg) && Steady(cfg, w) && RowsSettled(w) && Run(cfg, w, script).Running?
    ensures RowsSettled(Run(cfg, w, script).w)
  {
    if script != [] {
      hide RunTurn, CaughtUp, LoopHead, RowsSettled;
      var prior := script[..|script| - 1];
      RunIsSettled(cfg, w, prior);
      RunIsSteady(cfg, w, prior);
      TurnIsSettled(cfg, Run(cfg, w, prior).w, script[|script| - 1]);
    }
  }

  /**
   * Progress, end to end: with distinct ids, against any environment that has stopped failing, a session receives all
   * that is due; every row it has decoded is accepted or dead-lettered; and the cursor is at or past the commits that
   * brought them, and past the last commit too if commit messages are positioned where they should be.
   */
  lemma EverythingDueIsSettled(
    cfg: Config, w: World, due: seq<Message>, idle: nat, environment: (World, seq<Message>, nat) -> Turn, last: Turn)
    requires Positive(cfg) && Steady(cfg, w) && RowsSettled(w) && Cooperates(cfg, environment)
    requires EndsClosed(w, due) && Answerable(cfg, w, due)
    requires WaitsOut(Run(cfg, w, Drain(cfg, w, due, idle, environment)).w, last)
    ensures var script := Drain(cfg, w, due, idle, environment);
      && Run(cfg, w, script).Running? && Messages.MessagesOf(script) == due
      && var r := RunTurn(cfg, Run(cfg, w, script).w, last);
        && r.Running? && r.w.seen == w.seen + Messages.Decode(cfg, w.relations, due)
        && (forall p :: p in DecodedRows(r.w.seen) ==> Done(r.w, p))
        && LastRowCommit(r.w.seen) <= CursorOf(r.w.db)
        && LastRowCommit(r.w.seen) <= r.w.core.flush <= r.w.confirmed && r.w.core.xlogPos <= r.w.confirmed
        && (LastCommit(w.seen) <= w.core.xlogPos && (forall i :: 0 <= i < |script| ==> Positioned(script[i])) ==>
              LastCommit(r.w.seen) <= CursorOf(r.w.db))
  {
    hide Run, RunTurn, Carried, LastRowCommit, LastCommit, CaughtUp, LoopHead, Answerable, DecodedRows, Positioned;
    hide Messages.Decode, Messages.MessagesOf, Drain, Done, Cooperates, EndsClosed;
    var script := Drain(cfg, w, due, idle, environment);
    DistinctIdsDrain(cfg, w, due, idle, environment);
    DrainsExactly(cfg, w, due, idle, environment);
    CursorCatchesUp(cfg, w, due, idle, environment, last);
    var v := Run(cfg, w, script).w;
    RunIsSettled(cfg, w, script);
    IdleTurnAdvances(cfg, v, last);
    TurnIsSettled(cfg, v, last);
    if LastCommit(w.seen) <= w.core.xlogPos && forall i :: 0 <= i < |script| ==> Positioned(script[i]) {
      PositionedCommitsAreReached(cfg, w, script, last);
    }
  }

  // ---- Such environments exist ----------------------------------------------------------------------

  function Accepting(rows: seq<ParsedInsert>): FlushScript {
    FlushScript(SubmitAnswered(AcceptAll(rows)), Committed, true)
  }

  /** Accepts everything, and makes the session wait while it may. */
  function Friendly(w: World, due: seq<Message>, idle: nat): Turn {
    var now := if w.batchAt.Some? then w.batchAt.value else 0;
    var receive := if idle > 0 || due == [] then TimedOut else Data(0, due[0]);
    Turn(false, now, Accepting(w.core.pending), now, Committed, true, now, receive, now, Accepting(w.core.buf))
  }

  lemma AcceptingAnswers(rows: seq<ParsedInsert>)
    ensures Answers(Accepting(rows), rows)
  {
    hide Consistent, DistinctCids;
    AnswerableExactly(rows);
  }

  lemma FriendlyHelps(cfg: Config, w: World, due: seq<Message>, idle: nat)
    requires LoopHead(cfg, w)
    ensures Helps(cfg, w, Friendly(w, due, idle), due, idle)
  {
    hide Answers, Accepting;
    AcceptingAnswers(w.core.pending);
    AcceptingAnswers(w.core.buf);
    assert [] + w.core.buf == w.core.buf;
  }

  /** The premise of progress can be met: an environment that accepts everything cooperates. */
  lemma FriendlyCooperates(cfg: Config)
    ensures Cooperates(cfg, Friendly)
  {
    hide Helps, CaughtUp;
    forall w, due, idle | Steady(cfg, w) ensures Helps(cfg, w, Friendly(w, due, idle), due, idle) {
      FriendlyHelps(cfg, w, due, idle);
    }
  }
}
