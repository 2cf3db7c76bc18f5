/**
 * The delivery protocol as a step relation over one slot, one database and any number of drivers.
 * Nothing below relies on two drivers not streaming at once: whether the slot is exclusive is a
 * parameter of the rules, and no invariant mentions it.
 */
module Cluster {
  import opened Basics
  import opened Rows
  import opened DeadLetters
  import opened Session
  import opened Server
  import opened Stream

  /**
   * What is known about the positions a session hears (WALStart + len(WALData), and ServerWALEnd).
   * Visible: a position reaches the commit end LSN of a transaction that has not been sent in full only
   *   while the session itself can see that transaction open: it decoded its Begin or buffers a row.
   * Started: as Visible, but it is enough that the server has sent the Begin.
   * Anything: no relation to what has been sent.
   */
  datatype Positions = Visible | Started | Anything

  /**
   * The three conjuncts of canAdvanceIdleFlush, the position assumption, slot exclusivity, and whether a commit
   * that its driver has given up on may still take effect at any later time.
   */
  datatype Rules = Rules(
    checksPending: bool, checksBuffer: bool, checksTx: bool, positions: Positions, exclusiveSlot: bool,
    lateCommits: bool)

  /** The transactions are fixed in advance: a finite run meets finitely many of them. */
  datatype Env = Env(wal: seq<Tx>, confirmed0: Lsn, drivers: nat, rules: Rules)

  datatype Phase =
    | Down
    | Ready(start: Lsn)
    | Streaming(core: Core, feed: Feed, from: Lsn)
    | Answered(core: Core, feed: Feed, from: Lsn, letters: seq<DlqRow>)

  datatype Driver = Driver(phase: Phase, isLeader: bool)

  datatype RowRef = RowRef(tx: nat, row: nat)

  /** A transaction whose driver is gone and whose commit the database may still carry out. */
  datatype Landing = Landing(letters: seq<DlqRow>, lsn: Lsn)

  /**
   * accepted, dropped are histories: rows some submit was answered for without an error, and rows some
   * delivery yielded no job for. The dead-letter table only grows.
   */
  datatype State = State(
    db: Db,
    confirmed: Lsn,
    holder: Option<nat>,
    drivers: seq<Driver>,
    accepted: set<ParsedInsert>,
    dropped: set<RowRef>,
    late: seq<Landing>)

  ghost predicate ValidEnv(env: Env) {
    && Ordered(env.wal)
    && forall t :: 0 <= t < |env.wal| ==> env.wal[t].commit > env.confirmed0
  }

  ghost predicate Init(env: Env, s: State) {
    && s.db == Db(None, []) && s.confirmed == env.confirmed0 && s.holder == None
    && s.accepted == {} && s.dropped == {} && s.late == []
    && |s.drivers| == env.drivers
    && forall i :: 0 <= i < |s.drivers| ==> s.drivers[i] == Driver(Down, false)
  }

  // ---- Steps ------------------------------------------------------------------------------------

  datatype Step =
    | ReadCursor
    | Start
    | SlotBusy
    | Deliver(position: Lsn, event: Event, lost: bool)
    | Hear(position: Lsn)
    | Submit(results: seq<SubmitResult>)
    | SubmitFails(taken: set<ParsedInsert>)
    | PersistBatch(batchOutcome: TxOutcome)
    | AdvanceIdle(idleOutcome: TxOutcome)
    | BatchHangs
    | IdleHangs
    | Lands(which: nat)
    | SendStatus
    | StreamError
    | Crash
    | ServerForgetsHolder

  predicate PositionsHold(env: Env, core: Core, feed: Feed) {
    forall t :: feed.tx <= t < |env.wal| && env.wal[t].commit <= core.xlogPos ==>
      match env.rules.positions
      case Visible => t == feed.tx && feed.msg > 0 && (core.inTx || core.buf != [])
      case Started => t == feed.tx && feed.msg > 0
      case Anything => true
  }

  predicate MayAdvanceIdle(rules: Rules, core: Core) {
    && (rules.checksPending ==> core.pending == [])
    && (rules.checksBuffer ==> core.buf == [])
    && (rules.checksTx ==> !core.inTx)
    && core.xlogPos > core.flush
  }

  function Put(s: State, i: nat, phase: Phase): State
    requires i < |s.drivers|
  {
    s.(drivers := s.drivers[i := s.drivers[i].(phase := phase)])
  }

  function DroppedBy(wal: seq<Tx>, feed: Feed, lost: bool): set<RowRef>
    requires feed.tx < |wal|
  {
    if lost && IsRow(wal, feed) then {RowRef(feed.tx, feed.msg - 1)} else {}
  }

  predicate Talks(env: Env, s: State, i: nat) {
    env.rules.exclusiveSlot ==> s.holder == Some(i)
  }

  ghost predicate DriverStep(env: Env, s: State, s': State, i: nat, step: Step)
    requires i < |s.drivers|
  {
    var d := s.drivers[i];
    match step
    case ReadCursor =>
      d.phase.Down? && s' == Put(s, i, Ready(CursorOf(s.db)))
    case Start =>
      && d.phase.Ready?
      && (env.rules.exclusiveSlot ==> s.holder == None)
      && var from := Max(d.phase.start, s.confirmed);
        var begun := Streaming(StartCore(d.phase.start), Feed(FirstAfter(env.wal, from), 0), from);
        s' == s.(drivers := s.drivers[i := Driver(begun, true)], holder := Some(i))
    case SlotBusy =>
      d.phase.Ready? && s' == s.(drivers := s.drivers[i := Driver(Down, false)])
    case Deliver(position, event, lost) =>
      && d.phase.Streaming? && Talks(env, s, i)
      && d.phase.feed.tx < |env.wal| && Delivers(env.wal, d.phase.feed, event, lost)
      && var core := OnEvent(OnPosition(d.phase.core, position), event);
        var feed := Advance(env.wal, d.phase.feed);
        PositionsHold(env, core, feed) &&
        s' == Put(s, i, Streaming(core, feed, d.phase.from))
              .(dropped := s.dropped + DroppedBy(env.wal, d.phase.feed, lost))
    case Hear(position) =>
      && d.phase.Streaming? && Talks(env, s, i)
      && var core := OnPosition(d.phase.core, position);
        PositionsHold(env, core, d.phase.feed) && s' == Put(s, i, Streaming(core, d.phase.feed, d.phase.from))
    case Submit(results) =>
      && d.phase.Streaming? && d.phase.core.pending != [] && Consistent(d.phase.core.pending, results)
      && var letters := Letters(d.phase.core.pending, results);
        s' == Put(s, i, Phase.Answered(d.phase.core, d.phase.feed, d.phase.from, letters))
               .(accepted := s.accepted + Accepted(d.phase.core.pending, results))
    case SubmitFails(taken) =>
      && d.phase.Streaming? && (forall p :: p in taken ==> p in d.phase.core.pending)
      && s' == Put(s, i, Down).(accepted := s.accepted + taken)
    case PersistBatch(o) =>
      && d.phase.Answered?
      && var next := if o.Committed? then Streaming(Flushed(d.phase.core), d.phase.feed, d.phase.from) else Down;
        var db := if TakesEffect(o) then Persist(s.db, d.phase.letters, d.phase.core.pendingCommit) else s.db;
        s' == Put(s, i, next).(db := db)
    case AdvanceIdle(o) =>
      && d.phase.Streaming? && MayAdvanceIdle(env.rules, d.phase.core)
      && var next := if o.Committed? then Streaming(IdleFlushed(d.phase.core), d.phase.feed, d.phase.from) else Down;
        s' == Put(s, i, next).(db := if TakesEffect(o) then Persist(s.db, [], d.phase.core.xlogPos) else s.db)
    case BatchHangs =>
      && env.rules.lateCommits && d.phase.Answered?
      && s' == Put(s, i, Down).(late := s.late + [Landing(d.phase.letters, d.phase.core.pendingCommit)])
    case IdleHangs =>
      && env.rules.lateCommits && d.phase.Streaming? && MayAdvanceIdle(env.rules, d.phase.core)
      && s' == Put(s, i, Down).(late := s.late + [Landing([], d.phase.core.xlogPos)])
    case Lands(k) =>
      && k < |s.late|
      && s' == s.(db := Persist(s.db, s.late[k].letters, s.late[k].lsn), late := s.late[..k] + s.late[k + 1..])
    case SendStatus =>
      && d.phase.Streaming? && Talks(env, s, i)
      && var status := Wire(StandbyStatusUpdate(d.phase.core.xlogPos, d.phase.core.flush));
        s' == s.(confirmed := Confirm(s.confirmed, status))
    case StreamError =>
      s' == Put(s, i, Down)
    case Crash =>
      s' == s.(drivers := s.drivers[i := Driver(Down, false)])
    case ServerForgetsHolder =>
      s' == s.(holder := None)
  }

  ghost predicate Next(env: Env, s: State, s': State) {
    exists i: nat, step :: i < |s.drivers| && DriverStep(env, s, s', i, step)
  }

  /** A run: a non-empty sequence of states from an initial one, each a step after the one before it. */
  ghost predicate IsRun(env: Env, run: seq<State>) {
    && run != [] && Init(env, run[0])
    && forall k :: 0 < k < |run| ==> Next(env, run[k - 1], run[k])
  }

  lemma Extend(env: Env, run: seq<State>, s: State, i: nat, step: Step) returns (longer: seq<State>)
    requires IsRun(env, run) && i < |run[|run| - 1].drivers| && DriverStep(env, run[|run| - 1], s, i, step)
    ensures longer == run + [s] && IsRun(env, longer)
  {
    longer := run + [s];
    forall k | 0 < k < |longer| ensures Next(env, longer[k - 1], longer[k]) {
      if k < |run| {
        assert longer[k - 1] == run[k - 1] && longer[k] == run[k];
      }
    }
  }

  // ---- What the protocol promises -----------------------------------------------------------------

  ghost predicate IsRef(wal: seq<Tx>, t: nat, k: nat) {
    t < |wal| && k < |wal[t].rows|
  }

  /** The row at (t, k) is accounted for: accepted, dead-lettered, or its insert yielded no job. */
  ghost predicate Settled(env: Env, s: State, t: nat, k: nat)
    requires IsRef(env.wal, t, k)
  {
    || RowRef(t, k) in s.dropped
    || env.wal[t].rows[k] in s.accepted
    || Dead(s.db.dlq, env.wal[t].rows[k])
  }

  ghost predicate SettledUpTo(env: Env, s: State, lsn: Lsn) {
    forall t: nat, k: nat | IsRef(env.wal, t, k) && env.wal[t].commit <= lsn :: Settled(env, s, t, k)
  }

  /** At-least-once delivery: nothing at or below the durable cursor is unaccounted for. */
  ghost predicate Delivered(env: Env, s: State) {
    SettledUpTo(env, s, CursorOf(s.db))
  }

  /** The slot lets go of WAL only behind the durable cursor. */
  ghost predicate SlotBehindCursor(env: Env, s: State) {
    s.confirmed <= Max(env.confirmed0, CursorOf(s.db))
  }
}
