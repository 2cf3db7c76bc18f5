/** A transaction that holds an id twice: no cursor passes it, in any run, unless one of the two rows is dropped. */
module RepeatedIds {
  import opened Basics
  import opened Rows
  import opened DeadLetters
  import opened Session
  import opened Server
  import opened Stream
  import opened Cluster
  import opened Safety
  import opened Counterexamples

  ghost predicate Twins(wal: seq<Tx>, t: nat, k: nat, l: nat) {
    IsRef(wal, t, k) && IsRef(wal, t, l) && k < l && wal[t].rows[k].id == wal[t].rows[l].id
  }

  /** Until a commit takes them along the two rows are buffered; from then on the batch has no consistent answer. */
  ghost predicate Blocks(env: Env, core: Core, feed: Feed, t: nat, k: nat, l: nat)
    requires Twins(env.wal, t, k, l)
  {
    if core.pendingCommit < env.wal[t].commit then
      && (Sent(feed, t, k) ==> env.wal[t].rows[k] in core.buf)
      && (Sent(feed, t, l) ==> !DistinctCids(core.buf))
    else !DistinctCids(core.pending)
  }

  ghost predicate PhaseBlocks(env: Env, phase: Phase, t: nat, k: nat, l: nat)
    requires Twins(env.wal, t, k, l)
  {
    match phase
    case Streaming(core, feed, _) => Blocks(env, core, feed, t, k, l)
    case Answered(core, feed, _, _) => Blocks(env, core, feed, t, k, l) && DistinctCids(core.pending)
    case _ => true
  }

  ghost predicate Blocked(env: Env, s: State, t: nat, k: nat, l: nat)
    requires Twins(env.wal, t, k, l)
  {
    && CursorOf(s.db) < env.wal[t].commit
    && (forall x :: x in s.late ==> x.lsn < env.wal[t].commit)
    && forall i :: 0 <= i < |s.drivers| ==> PhaseBlocks(env, s.drivers[i].phase, t, k, l)
  }

  lemma StillRepeated(a: seq<ParsedInsert>, b: seq<ParsedInsert>)
    requires !DistinctCids(a) || !DistinctCids(b)
    ensures !DistinctCids(a + b)
  {
    if i, j :| 0 <= i < j < |a| && Cid(a[i]) == Cid(a[j]) {
      assert (a + b)[i] == a[i] && (a + b)[j] == a[j];
    } else {
      var i, j :| 0 <= i < j < |b| && Cid(b[i]) == Cid(b[j]);
      assert (a + b)[|a| + i] == b[i] && (a + b)[|a| + j] == b[j];
    }
  }

  lemma SecondRepeats(buf: seq<ParsedInsert>, p: ParsedInsert, q: ParsedInsert)
    requires p in buf && p.id == q.id
    ensures !DistinctCids(buf + [q])
  {
    var i :| 0 <= i < |buf| && buf[i] == p;
    assert (buf + [q])[i] == p && (buf + [q])[|buf|] == q;
  }

  lemma RowBlocks(env: Env, core: Core, feed: Feed, next: Core, t: nat, k: nat, l: nat)
    requires ValidEnv(env) && Twins(env.wal, t, k, l) && Blocks(env, core, feed, t, k, l)
    requires feed.tx < |env.wal| && IsRow(env.wal, feed)
    requires next.pending == core.pending && next.pendingCommit == core.pendingCommit
    requires || next.buf == core.buf + [env.wal[feed.tx].rows[feed.msg - 1]]
             || (next.buf == core.buf && feed != Feed(t, k + 1) && feed != Feed(t, l + 1))
    ensures Blocks(env, next, Advance(env.wal, feed), t, k, l)
  {
    if next.buf != core.buf {
      var row := env.wal[feed.tx].rows[feed.msg - 1];
      if !DistinctCids(core.buf) {
        StillRepeated(core.buf, [row]);
      } else if feed == Feed(t, l + 1) && core.pendingCommit < env.wal[t].commit {
        SecondRepeats(core.buf, env.wal[t].rows[k], row);
      }
    }
  }

  lemma CommitBlocks(env: Env, s: State, core: Core, feed: Feed, position: Lsn, t: nat, k: nat, l: nat)
    requires ValidEnv(env) && Twins(env.wal, t, k, l) && Blocks(env, core, feed, t, k, l)
    requires SessionInv(env, s, core, feed) && feed.tx < |env.wal| && feed.msg == |env.wal[feed.tx].rows| + 1
    ensures var next := OnEvent(OnPosition(core, position), Commit(env.wal[feed.tx].commit));
      Blocks(env, next, Advance(env.wal, feed), t, k, l)
  {
    assert core.pendingCommit < env.wal[feed.tx].commit;
    if t <= feed.tx {
      assert Sent(feed, t, l);
      StillRepeated(core.pending, core.buf);
    }
  }

  lemma DeliveryBlocks(
    env: Env, s: State, core: Core, feed: Feed, position: Lsn, event: Event, lost: bool, t: nat, k: nat, l: nat)
    requires ValidEnv(env) && Twins(env.wal, t, k, l) && Blocks(env, core, feed, t, k, l)
    requires SessionInv(env, s, core, feed) && feed.tx < |env.wal| && Delivers(env.wal, feed, event, lost)
    requires RowRef(t, k) !in DroppedBy(env.wal, feed, lost) && RowRef(t, l) !in DroppedBy(env.wal, feed, lost)
    ensures Blocks(env, OnEvent(OnPosition(core, position), event), Advance(env.wal, feed), t, k, l)
  {
    hide SessionInv, DistinctCids;
    var next := OnEvent(OnPosition(core, position), event);
    assert ValidFeed(env.wal, feed) by {
      FeedIsValid(env, s, core, feed);
    }
    if IsRow(env.wal, feed) {
      RowBlocks(env, core, feed, next, t, k, l);
    } else if event.Commit? {
      CommitBlocks(env, s, core, feed, position, t, k, l);
    }
  }

  lemma FeedIsValid(env: Env, s: State, core: Core, feed: Feed)
    requires SessionInv(env, s, core, feed)
    ensures ValidFeed(env.wal, feed)
  {
  }

  lemma IdleStaysBehind(env: Env, s: State, core: Core, feed: Feed, t: nat, k: nat, l: nat)
    requires ValidEnv(env) && FullRules(env.rules) && Twins(env.wal, t, k, l) && Blocks(env, core, feed, t, k, l)
    requires SessionInv(env, s, core, feed) && MayAdvanceIdle(env.rules, core)
    ensures core.xlogPos < env.wal[t].commit
  {
    assert DistinctCids(core.pending);
    assert !Sent(feed, t, k);
    assert feed.tx <= t;
  }

  lemma StartBlocks(env: Env, s: State, start: Lsn, t: nat, k: nat, l: nat)
    requires ValidEnv(env) && Twins(env.wal, t, k, l) && start <= CursorOf(s.db) < env.wal[t].commit
    requires SlotBehindCursor(env, s)
    ensures Blocks(env, StartCore(start), Feed(FirstAfter(env.wal, Max(start, s.confirmed)), 0), t, k, l)
  {
  }

  lemma OtherPhasesBlock(env: Env, s: State, s': State, i: nat, step: Step, t: nat, k: nat, l: nat)
    requires Twins(env.wal, t, k, l) && Blocked(env, s, t, k, l) && i < |s.drivers| && DriverStep(env, s, s', i, step)
    requires |s'.drivers| == |s.drivers| && PhaseBlocks(env, s'.drivers[i].phase, t, k, l)
    ensures forall j :: 0 <= j < |s'.drivers| ==> PhaseBlocks(env, s'.drivers[j].phase, t, k, l)
  {
    hide PhaseBlocks;
    StepGrows(env, s, s', i, step);
  }

  lemma DriverStaysBlocked(env: Env, s: State, s': State, i: nat, step: Step, t: nat, k: nat, l: nat)
    requires ValidEnv(env) && FullRules(env.rules) && Inv(env, s) && Twins(env.wal, t, k, l) && Blocked(env, s, t, k, l)
    requires i < |s.drivers| && DriverStep(env, s, s', i, step)
    requires RowRef(t, k) !in s'.dropped && RowRef(t, l) !in s'.dropped
    ensures |s'.drivers| == |s.drivers| && PhaseBlocks(env, s'.drivers[i].phase, t, k, l)
  {
    hide SessionInv, Delivered, PositionsHold, LateInv, Letters, Accepted, SlotBehindCursor;
    var phase := s.drivers[i].phase;
    assert PhaseInv(env, s, phase) && PhaseBlocks(env, phase, t, k, l);
    if step.Start? {
      StartBlocks(env, s, phase.start, t, k, l);
    } else if step.Deliver? {
      DeliveryBlocks(env, s, phase.core, phase.feed, step.position, step.event, step.lost, t, k, l);
    } else {
      hide Delivers, Blocks;
      if step.PersistBatch? && step.batchOutcome.Committed? {
        FlushBlocks(env, phase.core, phase.feed, t, k, l);
      } else if phase.Streaming? {
        var heard := OnPosition(phase.core, if step.Hear? then step.position else 0);
        SameBlocks(env, phase.core, heard, phase.feed, t, k, l);
        SameBlocks(env, phase.core, IdleFlushed(phase.core), phase.feed, t, k, l);
      }
    }
  }

  lemma FlushBlocks(env: Env, core: Core, feed: Feed, t: nat, k: nat, l: nat)
    requires Twins(env.wal, t, k, l) && Blocks(env, core, feed, t, k, l) && DistinctCids(core.pending)
    ensures Blocks(env, Flushed(core), feed, t, k, l)
  {
  }

  lemma SameBlocks(env: Env, core: Core, next: Core, feed: Feed, t: nat, k: nat, l: nat)
    requires Twins(env.wal, t, k, l) && Blocks(env, core, feed, t, k, l)
    requires next.pending == core.pending && next.buf == core.buf && next.pendingCommit == core.pendingCommit
    ensures Blocks(env, next, feed, t, k, l)
  {
  }

  /** What a flush writes lies before the transaction, for otherwise its batch would have no consistent answer. */
  lemma CursorStaysBehind(env: Env, s: State, s': State, i: nat, step: Step, t: nat, k: nat, l: nat)
    requires ValidEnv(env) && FullRules(env.rules) && Inv(env, s) && Twins(env.wal, t, k, l) && Blocked(env, s, t, k, l)
    requires i < |s.drivers| && DriverStep(env, s, s', i, step)
    ensures CursorOf(s'.db) < env.wal[t].commit && forall x :: x in s'.late ==> x.lsn < env.wal[t].commit
  {
    hide SessionInv, Delivered, PositionsHold, LateInv, Letters, Accepted, Delivers, Consistent, DistinctCids;
    var phase := s.drivers[i].phase;
    assert PhaseInv(env, s, phase) && PhaseBlocks(env, phase, t, k, l);
    if step.AdvanceIdle? || step.IdleHangs? {
      IdleStaysBehind(env, s, phase.core, phase.feed, t, k, l);
    } else if step.Lands? {
      assert s.late[step.which] in s.late;
    }
  }

  lemma StepStaysBlocked(env: Env, s: State, s': State, i: nat, step: Step, t: nat, k: nat, l: nat)
    requires ValidEnv(env) && FullRules(env.rules) && Inv(env, s) && Twins(env.wal, t, k, l) && Blocked(env, s, t, k, l)
    requires i < |s.drivers| && DriverStep(env, s, s', i, step)
    requires RowRef(t, k) !in s'.dropped && RowRef(t, l) !in s'.dropped
    ensures Blocked(env, s', t, k, l)
  {
    DriverStaysBlocked(env, s, s', i, step, t, k, l);
    OtherPhasesBlock(env, s, s', i, step, t, k, l);
    CursorStaysBehind(env, s, s', i, step, t, k, l);
    hide DriverStep, PhaseBlocks, Inv;
  }

  lemma NextStaysBlocked(env: Env, s: State, s': State, t: nat, k: nat, l: nat)
    requires ValidEnv(env) && FullRules(env.rules) && Inv(env, s) && Twins(env.wal, t, k, l) && Next(env, s, s')
    requires RowRef(t, k) !in s'.dropped && RowRef(t, l) !in s'.dropped
    requires RowRef(t, k) !in s.dropped && RowRef(t, l) !in s.dropped ==> Blocked(env, s, t, k, l)
    ensures Blocked(env, s', t, k, l)
  {
    hide Inv, Blocked, DriverStep;
    var i: nat, step :| i < |s.drivers| && DriverStep(env, s, s', i, step);
    StepGrows(env, s, s', i, step);
    StepStaysBlocked(env, s, s', i, step, t, k, l);
  }

  lemma InitIsBlocked(env: Env, s: State, t: nat, k: nat, l: nat)
    requires ValidEnv(env) && Init(env, s) && Twins(env.wal, t, k, l)
    ensures Blocked(env, s, t, k, l)
  {
  }

  lemma {:induction false} RunStaysBlocked(env: Env, run: seq<State>, t: nat, k: nat, l: nat)
    requires ValidEnv(env) && FullRules(env.rules) && IsRun(env, run) && Twins(env.wal, t, k, l)
    requires RowRef(t, k) !in run[|run| - 1].dropped && RowRef(t, l) !in run[|run| - 1].dropped
    ensures Blocked(env, run[|run| - 1], t, k, l)
  {
    hide Inv, Blocked, Next, Init, ValidEnv, Twins;
    if |run| == 1 {
      InitIsBlocked(env, run[0], t, k, l);
    } else {
      var earlier := run[..|run| - 1];
      if RowRef(t, k) !in run[|run| - 2].dropped && RowRef(t, l) !in run[|run| - 2].dropped {
        RunStaysBlocked(env, earlier, t, k, l);
      }
      RunKeepsInv(env, earlier);
      NextStaysBlocked(env, run[|run| - 2], run[|run| - 1], t, k, l);
    }
  }

  /**
   * In every reachable state, with any number of drivers, crashes and restarts: if neither of two rows with one id
   * was dropped, the durable cursor is still before their transaction.
   */
  lemma RepeatedIdIsNeverPassed(env: Env, run: seq<State>, t: nat, k: nat, l: nat)
    requires ValidEnv(env) && FullRules(env.rules) && IsRun(env, run) && Twins(env.wal, t, k, l)
    requires RowRef(t, k) !in run[|run| - 1].dropped && RowRef(t, l) !in run[|run| - 1].dropped
    ensures CursorOf(run[|run| - 1].db) < env.wal[t].commit
  {
    RunStaysBlocked(env, run, t, k, l);
  }

  // ---- A run that meets it ---------------------------------------------------------------------------------

  function TwinTx(): Env {
    Env([Tx(10, [ROW, ROW])], 5, 1, Rules(true, true, true, Visible, true, false))
  }

  lemma TwinsArrive() returns (run: seq<State>)
    ensures IsRun(TwinTx(), run) && |run[|run| - 1].drivers| == 1 && run[|run| - 1].dropped == {}
    ensures run[|run| - 1].drivers[0].phase == Streaming(Core([], [ROW, ROW], 10, false, 0, 0), Feed(1, 0), 5)
  {
    var env := TwinTx();
    run := [Counterexamples.Fresh([Cluster.Driver(Down, false)])];
    run := OpenSession(env, run, 0);
    var c1 := Core([], [], 0, true, 0, 0);
    run := Hand(env, run, 0, StartCore(0), Feed(0, 0), Begin, c1);
    run := Hand(env, run, 0, c1, Feed(0, 1), Insert(Some(ROW)), c1.(buf := [ROW]));
    run := Hand(env, run, 0, c1.(buf := [ROW]), Feed(0, 2), Insert(Some(ROW)), c1.(buf := [ROW, ROW]));
    run := Hand(env, run, 0, c1.(buf := [ROW, ROW]), Feed(0, 3), Commit(10), Core([], [ROW, ROW], 10, false, 0, 0));
  }

  /** The whole transaction is received and pending, nothing is dropped, and no answer to its batch is consistent. */
  lemma RepeatedIdIsReached()
    ensures ValidEnv(TwinTx()) && FullRules(TwinTx().rules) && Twins(TwinTx().wal, 0, 0, 1)
    ensures exists run: seq<State> :: IsRun(TwinTx(), run) && run[|run| - 1].dropped == {} && Stuck(run[|run| - 1])
  {
    hide IsRun;
    var run := TwinsArrive();
    assert Cid([ROW, ROW][0]) == Cid([ROW, ROW][1]);
    AnswerableExactly([ROW, ROW]);
    assert Stuck(run[|run| - 1]);
  }

  ghost predicate Stuck(s: State) {
    && |s.drivers| == 1 && s.drivers[0].phase.Streaming? && s.drivers[0].phase.core.pending == [ROW, ROW]
    && !exists results :: Consistent([ROW, ROW], results)
  }
}
