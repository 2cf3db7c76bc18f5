/** Each part of the idle guard, and the position assumption, is needed: a losing run for every weaker rule. */
module Counterexamples {
  import opened Basics
  import opened Rows
  import opened DeadLetters
  import opened Session
  import opened Server
  import opened Stream
  import opened Cluster
  import opened Safety
  import opened SingleDriver

  const ROW: ParsedInsert := ParsedInsert(1, 1, [112], [106], [], 0, [], false)

  /** One row, committed at LSN 10, after the slot was created at LSN 5. */
  function OneRow(rules: Rules): Env {
    Env([Tx(10, [ROW])], 5, 1, rules)
  }

  function With(cursor: Option<Lsn>, core: Core, feed: Feed): State {
    State(Db(cursor, []), 5, Some(0), [Driver(Streaming(core, feed, 5), true)], {}, {}, [])
  }

  /** The first session of a fresh deployment is streaming and has heard nothing yet. */
  lemma Begun(env: Env) returns (run: seq<State>)
    requires env == OneRow(env.rules)
    ensures ValidEnv(env) && IsRun(env, run) && run[|run| - 1] == With(None, StartCore(0), Feed(0, 0))
  {
    var fresh0 := State(Db(None, []), 5, None, [Driver(Down, false)], {}, {}, []);
    var ready := fresh0.(drivers := [Driver(Ready(0), false)]);
    run := [fresh0];
    assert IsRun(env, run);
    assert fresh0.drivers[0 := Driver(Ready(0), false)] == ready.drivers;
    run := Extend(env, run, ready, 0, Step.ReadCursor);
    assert env.wal[..0] == [] && FirstAfter(env.wal, 5) == 0;
    assert ready.drivers[0 := Driver(Streaming(StartCore(0), Feed(0, 0), 5), true)] ==
        With(None, StartCore(0), Feed(0, 0)).drivers;
    run := Extend(env, run, With(None, StartCore(0), Feed(0, 0)), 0, Step.Start);
  }

  lemma Delivery(env: Env, run: seq<State>, core: Core, feed: Feed, position: Lsn, event: Event, lost: bool)
    returns (longer: seq<State>)
    requires env == OneRow(env.rules) && IsRun(env, run) && run[|run| - 1] == With(None, core, feed)
    requires feed.tx == 0 && Delivers(env.wal, feed, event, lost) && !(lost && IsRow(env.wal, feed))
    requires PositionsHold(env, OnEvent(OnPosition(core, position), event), Advance(env.wal, feed))
    ensures IsRun(env, longer)
    ensures longer[|longer| - 1] == With(None, OnEvent(OnPosition(core, position), event), Advance(env.wal, feed))
  {
    var next := Streaming(OnEvent(OnPosition(core, position), event), Advance(env.wal, feed), 5);
    var s' := With(None, next.core, next.feed);
    assert run[|run| - 1].drivers[0 := Driver(next, true)] == s'.drivers;
    assert run[|run| - 1].dropped + DroppedBy(env.wal, feed, lost) == s'.dropped;
    longer := Extend(env, run, s', 0, Deliver(position, event, lost));
  }

  /** An idle advance to LSN 10 leaves the row behind the cursor: it is neither accepted, dead-lettered nor dropped. */
  lemma Passed(env: Env, run: seq<State>, core: Core, feed: Feed) returns (longer: seq<State>)
    requires env == OneRow(env.rules) && IsRun(env, run) && run[|run| - 1] == With(None, core, feed)
    requires MayAdvanceIdle(env.rules, core) && core.xlogPos == 10
    ensures IsRun(env, longer) && !Delivered(env, longer[|longer| - 1])
    ensures longer[|longer| - 1] == With(Some(10), IdleFlushed(core), feed)
  {
    var s' := With(Some(10), IdleFlushed(core), feed);
    assert run[|run| - 1].drivers[0 := Driver(Streaming(IdleFlushed(core), feed, 5), true)] == s'.drivers;
    assert s'.db == Persist(run[|run| - 1].db, [], 10);
    longer := Extend(env, run, s', 0, AdvanceIdle(Committed));
    assert IsRef(env.wal, 0, 0) && env.wal[0].commit <= CursorOf(s'.db);
    assert !Settled(env, s', 0, 0);
  }

  /** Ignoring pending rows: the row is committed and waiting for its batch. */
  lemma LosesPending(rules: Rules) returns (run: seq<State>)
    requires !rules.checksPending
    ensures IsRun(OneRow(rules), run) && !Delivered(OneRow(rules), run[|run| - 1])
  {
    var env := OneRow(rules);
    run := Begun(env);
    var c0 := StartCore(0);
    run := Delivery(env, run, c0, Feed(0, 0), 7, Begin, false);
    var c1 := OnEvent(OnPosition(c0, 7), Begin);
    run := Delivery(env, run, c1, Feed(0, 1), 8, Insert(Some(ROW)), false);
    var c2 := OnEvent(OnPosition(c1, 8), Insert(Some(ROW)));
    run := Delivery(env, run, c2, Feed(0, 2), 10, Commit(10), false);
    run := Passed(env, run, OnEvent(OnPosition(c2, 10), Commit(10)), Feed(1, 0));
  }

  /** Ignoring the buffer: the Begin did not decode, so the row is buffered outside a transaction. */
  lemma LosesBuffered(rules: Rules) returns (run: seq<State>)
    requires !rules.checksBuffer
    ensures IsRun(OneRow(rules), run) && !Delivered(OneRow(rules), run[|run| - 1])
  {
    var env := OneRow(rules);
    run := Begun(env);
    var c0 := StartCore(0);
    run := Delivery(env, run, c0, Feed(0, 0), 7, Nothing, true);
    var c1 := OnEvent(OnPosition(c0, 7), Nothing);
    run := Delivery(env, run, c1, Feed(0, 1), 10, Insert(Some(ROW)), false);
    run := Passed(env, run, OnEvent(OnPosition(c1, 10), Insert(Some(ROW))), Feed(0, 2));
  }

  /** Ignoring the open transaction: its Begin has arrived and its row has not. */
  lemma LosesOpenTx(rules: Rules) returns (run: seq<State>)
    requires !rules.checksTx
    ensures IsRun(OneRow(rules), run) && !Delivered(OneRow(rules), run[|run| - 1])
  {
    var env := OneRow(rules);
    run := Begun(env);
    run := Delivery(env, run, StartCore(0), Feed(0, 0), 10, Begin, false);
    run := Passed(env, run, OnEvent(OnPosition(StartCore(0), 10), Begin), Feed(0, 1));
  }

  /** Positions that run ahead of a transaction whose Begin was sent but did not decode, under the full guard. */
  lemma LosesBehindLostBegin(rules: Rules) returns (run: seq<State>)
    requires rules.positions != Visible
    ensures IsRun(OneRow(rules), run) && !Delivered(OneRow(rules), run[|run| - 1])
  {
    var env := OneRow(rules);
    run := Begun(env);
    run := Delivery(env, run, StartCore(0), Feed(0, 0), 10, Nothing, true);
    run := Passed(env, run, OnEvent(OnPosition(StartCore(0), 10), Nothing), Feed(0, 1));
  }

  /** Positions without any relation to the stream lose a row before anything at all was sent. */
  lemma LosesUnsent(rules: Rules) returns (run: seq<State>)
    requires rules.positions == Anything
    ensures IsRun(OneRow(rules), run) && !Delivered(OneRow(rules), run[|run| - 1])
    ensures run[|run| - 1] == With(Some(10), IdleFlushed(OnPosition(StartCore(0), 10)), Feed(0, 0))
  {
    var env := OneRow(rules);
    var begun := Begun(env);
    var core := OnPosition(StartCore(0), 10);
    var s' := With(None, core, Feed(0, 0));
    assert begun[|begun| - 1].drivers[0 := Driver(Streaming(core, Feed(0, 0), 5), true)] == s'.drivers;
    run := Extend(env, begun, s', 0, Hear(10));
    run := Passed(env, run, core, Feed(0, 0));
  }

  /** The guard and the position assumption are exactly what at-least-once delivery takes. */
  lemma SafeExactly(rules: Rules)
    ensures (forall env, run ::
              ValidEnv(env) && env.rules == rules && IsRun(env, run) ==> Delivered(env, run[|run| - 1]))
            <==> FullRules(rules)
  {
    if FullRules(rules) {
      forall env, run | ValidEnv(env) && env.rules == rules && IsRun(env, run) ensures Delivered(env, run[|run| - 1]) {
        AtLeastOnce(env, run);
      }
    } else {
      var env := OneRow(rules);
      assert ValidEnv(env);
      var run: seq<State>;
      if !rules.checksPending {
        run := LosesPending(rules);
      } else if !rules.checksBuffer {
        run := LosesBuffered(rules);
      } else if !rules.checksTx {
        run := LosesOpenTx(rules);
      } else {
        run := LosesBehindLostBegin(rules);
      }
      assert ValidEnv(env) && env.rules == rules && IsRun(env, run) && !Delivered(env, run[|run| - 1]);
    }
  }

  /**
   * The fourth test, receivedPastFlush, only saves a transaction: without it the write moves no position, and
   * changes the database exactly when there is no cursor row yet, which it then creates at 0.
   */
  lemma WritingAnOldPositionIsNothing(env: Env, s: State, core: Core, feed: Feed)
    requires SessionInv(env, s, core, feed) && core.xlogPos <= core.flush
    ensures IdleFlushed(core) == core
    ensures CursorOf(Persist(s.db, [], core.xlogPos)) == CursorOf(s.db)
    ensures Persist(s.db, [], core.xlogPos) == s.db <==> s.db.cursor.Some?
    ensures s.db.cursor.None? ==> Persist(s.db, [], core.xlogPos) == Db(Some(0), s.db.dlq)
  {
    assert s.db.dlq + [] == s.db.dlq;
  }

  function Contested(): Env {
    Env([], 5, 2, Rules(true, true, true, Visible, true, false))
  }

  const STREAMING := Streaming(StartCore(0), Feed(0, 0), 5)

  function Rivals(holder: Option<nat>, first: Driver, second: Driver): State {
    State(Db(None, []), 5, holder, [first, second], {}, {}, [])
  }

  /** The first driver leads, meets a stream error, and keeps its flag. */
  lemma FirstLeads() returns (run: seq<State>)
    ensures ValidEnv(Contested()) && IsRun(Contested(), run)
    ensures run[|run| - 1] == Rivals(Some(0), Driver(Down, true), Driver(Down, false))
  {
    var env, idle := Contested(), Driver(Down, false);
    run := [Rivals(None, idle, idle)];
    run := Extend(env, run, Rivals(None, Driver(Ready(0), false), idle), 0, Step.ReadCursor);
    run := Extend(env, run, Rivals(Some(0), Driver(STREAMING, true), idle), 0, Step.Start);
    run := Extend(env, run, Rivals(Some(0), Driver(Down, true), idle), 0, StreamError);
  }

  lemma SecondLeads(run: seq<State>) returns (longer: seq<State>)
    requires IsRun(Contested(), run)
    requires run[|run| - 1] == Rivals(Some(0), Driver(Down, true), Driver(Down, false))
    ensures IsRun(Contested(), longer)
    ensures longer[|longer| - 1] == Rivals(Some(1), Driver(Down, true), Driver(STREAMING, true))
  {
    var env, was := Contested(), Driver(Down, true);
    longer := Extend(env, run, Rivals(None, was, Driver(Down, false)), 0, ServerForgetsHolder);
    longer := Extend(env, longer, Rivals(None, was, Driver(Ready(0), false)), 1, Step.ReadCursor);
    longer := Extend(env, longer, Rivals(Some(1), was, Driver(STREAMING, true)), 1, Step.Start);
  }

  /** An ordinary stream error leaves isLeader set, so two drivers can both believe they lead an exclusive slot. */
  lemma TwoLeaders()
    ensures exists env, run :: ValidEnv(env) && FullRules(env.rules) && env.rules.exclusiveSlot && BothLead(env, run)
  {
    hide IsRun;
    var run := FirstLeads();
    run := SecondLeads(run);
    assert BothLead(Contested(), run);
  }

  ghost predicate BothLead(env: Env, run: seq<State>) {
    && run != [] && IsRun(env, run)
    && var s := run[|run| - 1]; |s.drivers| == 2 && s.drivers[0].isLeader && s.drivers[1].isLeader
  }

  // ---- A row can be dead-lettered twice ---------------------------------------------------------------

  const REJECTION := SubmitResult(Cid(ROW), [120], [])

  const LETTERS := [Letter(ROW, REJECTION)]

  lemma RejectionIsConsistent()
    ensures Consistent([ROW], [REJECTION])
    ensures Letters([ROW], [REJECTION]) == LETTERS && Accepted([ROW], [REJECTION]) == {}
  {
    assert ROW in [ROW];
    assert Known([ROW], Cid(ROW));
    LettersOfOne([ROW], REJECTION);
  }

  /** One transaction, under all rules and with an exclusive slot, which makes the runs below harder to come by. */
  ghost predicate OneTxExclusive(env: Env) {
    |env.wal| == 1 && env.wal[0].commit == 10 && env.confirmed0 == 5 && FullRules(env.rules) && env.rules.exclusiveSlot
  }

  function TwoDrivers(): Env {
    Env([Tx(10, [ROW])], 5, 2, Rules(true, true, true, Visible, true, false))
  }

  function LateDriver(): Env {
    Env([Tx(10, [ROW])], 5, 1, Rules(true, true, true, Visible, true, true))
  }

  function Flight(letters: seq<DlqRow>): Phase {
    Phase.Answered(Core([], [ROW], 10, false, 0, 0), Feed(1, 0), 5, letters)
  }

  const LANDED := Streaming(Core([], [], 10, false, 0, 10), Feed(1, 0), 5)

  lemma Move(env: Env, run: seq<State>, i: nat, step: Step, phase: Phase) returns (longer: seq<State>)
    requires IsRun(env, run) && i < |run[|run| - 1].drivers|
    requires DriverStep(env, run[|run| - 1], Put(run[|run| - 1], i, phase), i, step)
    ensures IsRun(env, longer) && longer[|longer| - 1] == Put(run[|run| - 1], i, phase)
  {
    longer := Extend(env, run, Put(run[|run| - 1], i, phase), i, step);
  }

  lemma Hand(env: Env, run: seq<State>, i: nat, core: Core, feed: Feed, event: Event, next: Core)
    returns (longer: seq<State>)
    requires OneTxExclusive(env) && IsRun(env, run) && i < |run[|run| - 1].drivers|
    requires run[|run| - 1].drivers[i].phase == Streaming(core, feed, 5) && run[|run| - 1].holder == Some(i)
    requires feed.tx == 0 && event == Decoded(env.wal, feed) && next == OnEvent(core, event) && next.xlogPos == 0
    ensures IsRun(env, longer)
    ensures longer[|longer| - 1] == Put(run[|run| - 1], i, Streaming(next, Advance(env.wal, feed), 5))
  {
    var s := run[|run| - 1];
    assert s.dropped + {} == s.dropped;
    longer := Move(env, run, i, Deliver(0, event, false), Streaming(next, Advance(env.wal, feed), 5));
  }

  /** A driver that starts at cursor 0 receives the transaction and has its row rejected. */
  lemma ReceiveAndReject(env: Env, run: seq<State>, i: nat) returns (longer: seq<State>)
    requires OneTxExclusive(env) && env.wal[0].rows == [ROW] && IsRun(env, run) && i < |run[|run| - 1].drivers|
    requires var s := run[|run| - 1];
      s.drivers[i].phase == STREAMING && s.holder == Some(i) && s.accepted == {} && s.dropped == {}
    ensures IsRun(env, longer) && longer[|longer| - 1] == Put(run[|run| - 1], i, Flight(LETTERS))
  {
    var c1, c3 := Core([], [], 0, true, 0, 0), Core([], [ROW], 10, false, 0, 0);
    longer := Hand(env, run, i, StartCore(0), Feed(0, 0), Begin, c1);
    longer := Hand(env, longer, i, c1, Feed(0, 1), Insert(Some(ROW)), c1.(buf := [ROW]));
    longer := Hand(env, longer, i, c1.(buf := [ROW]), Feed(0, 2), Commit(10), c3);
    RejectionIsConsistent();
    longer := Move(env, longer, i, Submit([REJECTION]), Flight(LETTERS));
  }

  lemma OpenSession(env: Env, run: seq<State>, i: nat) returns (longer: seq<State>)
    requires OneTxExclusive(env) && IsRun(env, run) && i < |run[|run| - 1].drivers|
    requires var s := run[|run| - 1];
      s.drivers[i].phase == Down && s.db == Db(None, []) && s.confirmed == 5 && s.holder == None
    ensures IsRun(env, longer)
    ensures var s := run[|run| - 1];
      longer[|longer| - 1] == s.(drivers := s.drivers[i := Driver(STREAMING, true)], holder := Some(i))
  {
    var s := run[|run| - 1];
    longer := Move(env, run, i, Step.ReadCursor, Ready(0));
    assert env.wal[..0] == [] && FirstAfter(env.wal, 5) == 0;
    var s2 := s.(drivers := s.drivers[i := Driver(STREAMING, true)], holder := Some(i));
    longer := Extend(env, longer, s2, i, Step.Start);
  }

  lemma Persisted(env: Env, run: seq<State>, i: nat) returns (longer: seq<State>)
    requires IsRun(env, run) && i < |run[|run| - 1].drivers| && run[|run| - 1].drivers[i].phase == Flight(LETTERS)
    ensures IsRun(env, longer)
    ensures longer[|longer| - 1] == Put(run[|run| - 1], i, LANDED).(db := Persist(run[|run| - 1].db, LETTERS, 10))
  {
    var s := run[|run| - 1];
    longer := Extend(env, run, Put(s, i, LANDED).(db := Persist(s.db, LETTERS, 10)), i, PersistBatch(Committed));
  }

  function Fresh(drivers: seq<Driver>): State {
    State(Db(None, []), 5, None, drivers, {}, {}, [])
  }

  lemma LosingTheSlotInFlight() returns (run: seq<State>)
    ensures ValidEnv(TwoDrivers()) && IsRun(TwoDrivers(), run)
    ensures run[|run| - 1].db == Db(Some(10), LETTERS + LETTERS)
  {
    var env := TwoDrivers();
    run := [Fresh([Driver(Down, false), Driver(Down, false)])];
    run := OpenSession(env, run, 0);
    run := ReceiveAndReject(env, run, 0);
    run := Extend(env, run, run[|run| - 1].(holder := None), 0, ServerForgetsHolder);
    run := OpenSession(env, run, 1);
    run := ReceiveAndReject(env, run, 1);
    run := Persisted(env, run, 1);
    run := Persisted(env, run, 0);
  }

  lemma TwiceIsNotDistinct()
    ensures !DistinctLetters(LETTERS + LETTERS)
  {
    var dlq := LETTERS + LETTERS;
    assert dlq[0].id == dlq[1].id;
  }

  /** A holder that loses the slot between its submit and its commit: the row is dead-lettered by both drivers. */
  lemma TwoDriversDeadLetterTwice()
    ensures ValidEnv(TwoDrivers()) && UniqueIds(TwoDrivers().wal)
    ensures exists run: seq<State> :: IsRun(TwoDrivers(), run) && !DistinctLetters(run[|run| - 1].db.dlq)
  {
    hide DriverStep;
    var run := LosingTheSlotInFlight();
    TwiceIsNotDistinct();
  }

  lemma HangingCommit() returns (run: seq<State>)
    ensures ValidEnv(LateDriver()) && IsRun(LateDriver(), run) && |run[|run| - 1].drivers| == 1
    ensures var s := run[|run| - 1];
      && s == Fresh([Driver(Down, true)]).(late := [Landing(LETTERS, 10)])
  {
    var env := LateDriver();
    run := [Fresh([Driver(Down, false)])];
    run := OpenSession(env, run, 0);
    run := ReceiveAndReject(env, run, 0);
    var s := run[|run| - 1];
    run := Extend(env, run, Put(s, 0, Down).(late := [Landing(LETTERS, 10)]), 0, BatchHangs);
    run := Extend(env, run, run[|run| - 1].(holder := None), 0, ServerForgetsHolder);
  }

  lemma CommitLandsLate() returns (run: seq<State>)
    ensures IsRun(LateDriver(), run) && run[|run| - 1].db == Db(Some(10), LETTERS + LETTERS)
  {
    var env := LateDriver();
    run := HangingCommit();
    run := OpenSession(env, run, 0);
    run := ReceiveAndReject(env, run, 0);
    run := Persisted(env, run, 0);
    var s := run[|run| - 1];
    run := Extend(env, run, s.(db := Persist(s.db, LETTERS, 10), late := []), 0, Lands(0));
  }

  /** A commit that takes effect after the restarted driver has read the cursor does the same to a single driver. */
  lemma LateCommitDeadLettersTwice()
    ensures ValidEnv(LateDriver()) && UniqueIds(LateDriver().wal) && LateDriver().drivers == 1
    ensures exists run: seq<State> :: IsRun(LateDriver(), run) && !DistinctLetters(run[|run| - 1].db.dlq)
  {
    hide DriverStep;
    var run := CommitLandsLate();
    TwiceIsNotDistinct();
  }
}
