/** What holds in addition when one driver, crashing and restarting at will, is the slot's only consumer. */
module SingleDriver {
  import opened Basics
  import opened Rows
  import opened DeadLetters
  import opened Session
  import opened Server
  import opened Stream
  import opened Cluster
  import opened Safety
  import opened Containment

  /** The id column is an identity: no two rows of the log share an id. */
  ghost predicate UniqueIds(wal: seq<Tx>) {
    forall t: nat, k: nat, u: nat, l: nat | IsRef(wal, t, k) && IsRef(wal, u, l) &&
        wal[t].rows[k].id == wal[u].rows[l].id ::
      t == u && k == l
  }

  ghost predicate SoloSession(env: Env, s: State, core: Core, feed: Feed) {
    && (forall p ::
        p in core.pending ==> SentAfter(env, feed, CursorOf(s.db), p) && CommittedBy(env, core.pendingCommit, p))
    && (forall p :: p in core.buf ==> SentAfter(env, feed, Max(CursorOf(s.db), core.pendingCommit), p))
    && (forall t :: feed.tx <= t < |env.wal| ==> CursorOf(s.db) < env.wal[t].commit)
  }

  ghost predicate FromPending(letters: seq<DlqRow>, pending: seq<ParsedInsert>) {
    DistinctLetters(letters) && forall d :: d in letters ==> exists p :: p in pending && Carries(d, p)
  }

  ghost predicate DeadBehindCursor(env: Env, s: State) {
    && DistinctLetters(s.db.dlq)
    && forall d :: d in s.db.dlq ==> exists p :: CommittedBy(env, CursorOf(s.db), p) && Carries(d, p)
  }

  ghost predicate SoloInv(env: Env, s: State) {
    && |s.drivers| == 1 && s.late == []
    && DeadBehindCursor(env, s)
    && match s.drivers[0].phase
      case Down => true
      case Ready(start) => start == CursorOf(s.db)
      case Streaming(core, feed, _) => SoloSession(env, s, core, feed)
      case Answered(core, feed, _, letters) => SoloSession(env, s, core, feed) && FromPending(letters, core.pending)
  }

  lemma SoloDelivery(env: Env, s: State, s': State, core: Core, feed: Feed, position: Lsn, event: Event, lost: bool)
    requires ValidEnv(env) && SessionInv(env, s, core, feed) && SoloSession(env, s, core, feed)
    requires feed.tx < |env.wal| && Delivers(env.wal, feed, event, lost) && s'.db == s.db
    ensures SoloSession(env, s', OnEvent(OnPosition(core, position), event), Advance(env.wal, feed))
  {
    var next, after, cursor := OnEvent(OnPosition(core, position), event), Advance(env.wal, feed), CursorOf(s.db);
    var wall := Max(cursor, core.pendingCommit);
    forall p | p in core.buf ensures SentAfter(env, after, wall, p) && SentAfter(env, after, cursor, p) {
      SentMore(env, feed, wall, p);
    }
    forall p | p in core.pending ensures SentAfter(env, after, cursor, p) {
      SentMore(env, feed, cursor, p);
    }
    if event.Commit? {
      forall p | p in next.pending ensures CommittedBy(env, next.pendingCommit, p) {
        if p in core.buf {
          BeforeTheCommit(env, feed, wall, p);
        } else {
          CommittedByMore(env, core.pendingCommit, next.pendingCommit, p);
        }
      }
    } else if event.Insert? && event.job.Some? {
      var p := event.job.value;
      assert Sent(after, feed.tx, feed.msg - 1) && IsRef(env.wal, feed.tx, feed.msg - 1);
      assert SentAfter(env, after, wall, p);
    }
  }

  lemma SoloFlush(env: Env, s: State, s': State, core: Core, feed: Feed, letters: seq<DlqRow>)
    requires ValidEnv(env) && UniqueIds(env.wal) && SoloSession(env, s, core, feed) && SessionInv(env, s, core, feed)
    requires DeadBehindCursor(env, s) && FromPending(letters, core.pending)
    requires s'.db == Persist(s.db, letters, core.pendingCommit)
    ensures DeadBehindCursor(env, s') && SoloSession(env, s', Flushed(core), feed)
  {
    hide DistinctLetters;
    var cursor, raised := CursorOf(s.db), CursorOf(s'.db);
    assert raised == Max(cursor, core.pendingCommit);
    forall d | d in s.db.dlq ensures exists p :: CommittedBy(env, raised, p) && Carries(d, p) {
      var p :| CommittedBy(env, cursor, p) && Carries(d, p);
      CommittedByMore(env, cursor, raised, p);
    }
    forall d | d in letters ensures exists p :: CommittedBy(env, raised, p) && Carries(d, p) {
      var p :| p in core.pending && Carries(d, p);
      CommittedByMore(env, core.pendingCommit, raised, p);
    }
    forall d, e | d in s.db.dlq && e in letters ensures d.id != e.id {
      OldAndNewDiffer(env, s, core, feed, d, e);
    }
    DistinctTogether(s.db.dlq, letters);
  }

  lemma DistinctTogether(a: seq<DlqRow>, b: seq<DlqRow>)
    requires DistinctLetters(a) && DistinctLetters(b)
    requires forall d, e :: d in a && e in b ==> d.id != e.id
    ensures DistinctLetters(a + b) && forall d :: d in a + b ==> d in a || d in b
  {
  }

  lemma OldAndNewDiffer(env: Env, s: State, core: Core, feed: Feed, d: DlqRow, e: DlqRow)
    requires UniqueIds(env.wal) && SoloSession(env, s, core, feed) && DeadBehindCursor(env, s)
    requires d in s.db.dlq && exists p :: p in core.pending && Carries(e, p)
    ensures d.id != e.id
  {
    var p :| CommittedBy(env, CursorOf(s.db), p) && Carries(d, p);
    var q :| q in core.pending && Carries(e, q);
    BehindIsNotAhead(env, feed, CursorOf(s.db), p, q);
  }

  lemma BehindIsNotAhead(env: Env, feed: Feed, cursor: Lsn, p: ParsedInsert, q: ParsedInsert)
    requires UniqueIds(env.wal) && CommittedBy(env, cursor, p) && SentAfter(env, feed, cursor, q)
    ensures p.id != q.id
  {
    var t: nat, k: nat :| IsRef(env.wal, t, k) && env.wal[t].rows[k] == p && env.wal[t].commit <= cursor;
    var u: nat, l: nat :| IsRef(env.wal, u, l) && Sent(feed, u, l) && env.wal[u].rows[l] == q &&
        cursor < env.wal[u].commit;
  }

  lemma SoloIdle(env: Env, s: State, s': State, core: Core, feed: Feed)
    requires ValidEnv(env) && FullRules(env.rules) && SessionInv(env, s, core, feed) && SoloSession(env, s, core, feed)
    requires MayAdvanceIdle(env.rules, core) && DeadBehindCursor(env, s)
    requires s'.db == Persist(s.db, [], core.xlogPos)
    ensures DeadBehindCursor(env, s') && SoloSession(env, s', IdleFlushed(core), feed)
  {
    assert s'.db.dlq == s.db.dlq;
    forall d | d in s.db.dlq ensures exists p :: CommittedBy(env, CursorOf(s'.db), p) && Carries(d, p) {
      var p :| CommittedBy(env, CursorOf(s.db), p) && Carries(d, p);
      CommittedByMore(env, CursorOf(s.db), CursorOf(s'.db), p);
    }
  }

  lemma SoloAnswer(core: Core, results: seq<SubmitResult>)
    requires Consistent(core.pending, results)
    ensures FromPending(Letters(core.pending, results), core.pending)
  {
    LettersAreDistinct(core.pending, results);
    forall d | d in Letters(core.pending, results) ensures exists p :: p in core.pending && Carries(d, p) {
      LetterIsSound(core.pending, results, d);
    }
  }

  lemma SoloStart(env: Env, s: State, start: Lsn)
    requires ValidEnv(env) && start == CursorOf(s.db)
    ensures SoloSession(env, s, StartCore(start), Feed(FirstAfter(env.wal, Max(start, s.confirmed)), 0))
  {
  }

  lemma SoloSame(env: Env, s: State, s': State, core: Core, core': Core, feed: Feed)
    requires SoloSession(env, s, core, feed) && s'.db == s.db
    requires core'.pending == core.pending && core'.buf == core.buf && core'.pendingCommit == core.pendingCommit
    ensures SoloSession(env, s', core', feed)
  {
  }

  lemma StepKeepsSolo(env: Env, s: State, s': State, i: nat, step: Step)
    requires ValidEnv(env) && FullRules(env.rules) && UniqueIds(env.wal) && !env.rules.lateCommits
    requires Inv(env, s) && SoloInv(env, s)
    requires i < |s.drivers| && DriverStep(env, s, s', i, step)
    ensures SoloInv(env, s')
  {
    hide SessionInv, SoloSession, Delivered, PositionsHold, FromPending, Consistent;
    var d := s.drivers[0];
    assert PhaseInv(env, s, d.phase);
    match step {
      case ReadCursor =>
      case Start => SoloStart(env, s, d.phase.start);
        SoloSame(env, s, s', StartCore(d.phase.start), StartCore(d.phase.start), s'.drivers[0].phase.feed);
      case SlotBusy =>
      case Deliver(position, event, lost) =>
        SoloDelivery(env, s, s', d.phase.core, d.phase.feed, position, event, lost);
      case Hear(position) =>
        SoloSame(env, s, s', d.phase.core, OnPosition(d.phase.core, position), d.phase.feed);
      case Submit(results) =>
        SoloAnswer(d.phase.core, results);
        SoloSame(env, s, s', d.phase.core, d.phase.core, d.phase.feed);
      case SubmitFails(taken) =>
      case PersistBatch(o) =>
        if TakesEffect(o) {
          SoloFlush(env, s, s', d.phase.core, d.phase.feed, d.phase.letters);
        }
      case AdvanceIdle(o) =>
        if TakesEffect(o) {
          SoloIdle(env, s, s', d.phase.core, d.phase.feed);
        }
      case SendStatus =>
        SoloSame(env, s, s', d.phase.core, d.phase.core, d.phase.feed);
      case StreamError =>
      case Crash =>
      case ServerForgetsHolder =>
        if d.phase.Streaming? || d.phase.Answered? {
          SoloSame(env, s, s', d.phase.core, d.phase.core, d.phase.feed);
        }
    }
  }

  lemma {:induction false} RunKeepsSolo(env: Env, run: seq<State>)
    requires ValidEnv(env) && FullRules(env.rules) && UniqueIds(env.wal)
    requires env.drivers == 1 && !env.rules.lateCommits && IsRun(env, run)
    ensures Inv(env, run[|run| - 1]) && SoloInv(env, run[|run| - 1])
  {
    RunKeepsInv(env, run);
    if |run| > 1 {
      hide Inv, SoloInv, DriverStep;
      var earlier := run[..|run| - 1];
      RunKeepsSolo(env, earlier);
      var s, s' := run[|run| - 2], run[|run| - 1];
      assert Next(env, s, s');
      var i: nat, step :| i < |s.drivers| && DriverStep(env, s, s', i, step);
      StepKeepsSolo(env, s, s', i, step);
    }
  }

  /** Across any number of crashes and sessions, no row has two dead-letter entries. */
  lemma DeadLetteredAtMostOnce(env: Env, run: seq<State>)
    requires ValidEnv(env) && FullRules(env.rules) && UniqueIds(env.wal)
    requires env.drivers == 1 && !env.rules.lateCommits && IsRun(env, run)
    ensures DistinctLetters(run[|run| - 1].db.dlq)
  {
    RunKeepsSolo(env, run);
  }

  /** Once the durable cursor has reached a row, no session ever holds it for submission again. */
  lemma NeverSubmittedAgain(env: Env, run: seq<State>, a: nat, t: nat, k: nat)
    requires ValidEnv(env) && FullRules(env.rules) && UniqueIds(env.wal)
    requires env.drivers == 1 && !env.rules.lateCommits && IsRun(env, run)
    requires a < |run| && IsRef(env.wal, t, k) && env.wal[t].commit <= CursorOf(run[a].db)
    ensures |run[|run| - 1].drivers| == 1
    ensures var phase := run[|run| - 1].drivers[0].phase;
      phase.Streaming? || phase.Answered? ==> env.wal[t].rows[k] !in phase.core.pending + phase.core.buf
  {
    RunKeepsSolo(env, run);
    NothingMovesBack(env, run, a, |run| - 1);
    var s := run[|run| - 1];
    var phase := s.drivers[0].phase;
    if phase.Streaming? || phase.Answered? {
      var cursor, row := CursorOf(s.db), env.wal[t].rows[k];
      assert CommittedBy(env, cursor, row);
      forall q | q in phase.core.pending + phase.core.buf ensures q != row {
        if q in phase.core.buf {
          var u: nat, l: nat :| IsRef(env.wal, u, l) && Sent(phase.feed, u, l) && env.wal[u].rows[l] == q
                             && Max(cursor, phase.core.pendingCommit) < env.wal[u].commit;
          assert SentAfter(env, phase.feed, cursor, q);
        }
        BehindIsNotAhead(env, phase.feed, cursor, row, q);
      }
    }
  }
}
