/** At-least-once delivery, cursor and slot safety, in every reachable state of the cluster. */
module Safety {
  import opened Basics
  import opened Rows
  import opened DeadLetters
  import opened Session
  import opened Server
  import opened Stream
  import opened Cluster

  ghost predicate FullRules(rules: Rules) {
    rules.checksPending && rules.checksBuffer && rules.checksTx && rules.positions == Visible
  }

  // ---- The invariant ----------------------------------------------------------------------------

  ghost predicate SettledOrHeld(env: Env, s: State, t: nat, k: nat, held: seq<ParsedInsert>)
    requires IsRef(env.wal, t, k)
  {
    Settled(env, s, t, k) || env.wal[t].rows[k] in held
  }

  /** Whatever a flush at pendingCommit would pass is settled or pending. */
  ghost predicate PendingCovers(env: Env, s: State, core: Core) {
    forall t: nat, k: nat | IsRef(env.wal, t, k) && env.wal[t].commit <= core.pendingCommit ::
      SettledOrHeld(env, s, t, k, core.pending)
  }

  /** Whatever was sent is settled, pending, or buffered. */
  ghost predicate SentIsHeld(env: Env, s: State, core: Core, feed: Feed) {
    forall t: nat, k: nat | IsRef(env.wal, t, k) && Sent(feed, t, k) ::
      SettledOrHeld(env, s, t, k, core.pending + core.buf)
  }

  ghost predicate UnsentIsAhead(env: Env, core: Core, feed: Feed) {
    forall t :: feed.tx <= t < |env.wal| ==> core.pendingCommit < env.wal[t].commit
  }

  ghost predicate SessionInv(env: Env, s: State, core: Core, feed: Feed) {
    && ValidFeed(env.wal, feed)
    && core.flush <= CursorOf(s.db)
    && PendingCovers(env, s, core)
    && SentIsHeld(env, s, core, feed)
    && UnsentIsAhead(env, core, feed)
    && PositionsHold(env, core, feed)
  }

  ghost predicate PhaseInv(env: Env, s: State, phase: Phase) {
    match phase
    case Down => true
    case Ready(start) => start <= CursorOf(s.db)
    case Streaming(core, feed, from) => SessionInv(env, s, core, feed)
    case Answered(core, feed, from, letters) =>
      && SessionInv(env, s, core, feed)
      && forall p :: p in core.pending ==> p in s.accepted || Dead(letters, p)
  }

  /** Whatever a commit may still pass is settled, or among the letters it brings. */
  ghost predicate LandingCovers(env: Env, s: State, x: Landing) {
    forall t: nat, k: nat | IsRef(env.wal, t, k) && env.wal[t].commit <= x.lsn ::
      Settled(env, s, t, k) || Dead(x.letters, env.wal[t].rows[k])
  }

  ghost predicate LateInv(env: Env, s: State) {
    forall x :: x in s.late ==> LandingCovers(env, s, x)
  }

  ghost predicate Inv(env: Env, s: State) {
    && Delivered(env, s)
    && SlotBehindCursor(env, s)
    && LateInv(env, s)
    && forall i :: 0 <= i < |s.drivers| ==> PhaseInv(env, s, s.drivers[i].phase)
  }

  // ---- More history never unsettles anything ------------------------------------------------------

  ghost predicate Grows(s: State, s': State) {
    && s.accepted <= s'.accepted && s.dropped <= s'.dropped
    && s.db.dlq <= s'.db.dlq
    && CursorOf(s.db) <= CursorOf(s'.db)
  }

  lemma SettledStays(env: Env, s: State, s': State, t: nat, k: nat)
    requires Grows(s, s') && IsRef(env.wal, t, k)
    ensures Settled(env, s, t, k) ==> Settled(env, s', t, k)
  {
    if Dead(s.db.dlq, env.wal[t].rows[k]) {
      var d :| d in s.db.dlq && Carries(d, env.wal[t].rows[k]);
      assert d in s'.db.dlq;
    }
  }

  lemma SessionStays(env: Env, s: State, s': State, core: Core, feed: Feed)
    requires Grows(s, s') && SessionInv(env, s, core, feed)
    ensures SessionInv(env, s', core, feed)
  {
    forall t: nat, k: nat | IsRef(env.wal, t, k) ensures Settled(env, s, t, k) ==> Settled(env, s', t, k) {
      SettledStays(env, s, s', t, k);
    }
  }

  lemma PhaseStays(env: Env, s: State, s': State, phase: Phase)
    requires Grows(s, s') && PhaseInv(env, s, phase)
    ensures PhaseInv(env, s', phase)
  {
    if phase.Streaming? || phase.Answered? {
      SessionStays(env, s, s', phase.core, phase.feed);
    }
  }

  lemma DeliveredStays(env: Env, s: State, s': State, lsn: Lsn)
    requires Grows(s, s') && SettledUpTo(env, s, lsn)
    ensures SettledUpTo(env, s', lsn)
  {
    forall t: nat, k: nat | IsRef(env.wal, t, k) && env.wal[t].commit <= lsn ensures Settled(env, s', t, k) {
      SettledStays(env, s, s', t, k);
    }
  }

  // ---- Step by step ---------------------------------------------------------------------------------

  lemma StepGrows(env: Env, s: State, s': State, i: nat, step: Step)
    requires i < |s.drivers| && DriverStep(env, s, s', i, step)
    ensures Grows(s, s') && s.confirmed <= s'.confirmed && |s'.drivers| == |s.drivers|
    ensures forall j :: 0 <= j < |s.drivers| && j != i ==> s'.drivers[j] == s.drivers[j]
  {
  }

  lemma StartHolds(env: Env, s: State, start: Lsn)
    requires ValidEnv(env) && Inv(env, s) && start <= CursorOf(s.db)
    ensures SessionInv(env, s, StartCore(start), Feed(FirstAfter(env.wal, Max(start, s.confirmed)), 0))
  {
    var from := Max(start, s.confirmed);
    var feed := Feed(FirstAfter(env.wal, from), 0);
    forall t: nat, k: nat | IsRef(env.wal, t, k) && env.wal[t].commit <= from ensures Settled(env, s, t, k) {
      assert env.wal[t].commit > env.confirmed0;
    }
    assert forall t: nat, k: nat | IsRef(env.wal, t, k) && Sent(feed, t, k) :: env.wal[t].commit <= from;
  }

  lemma RowArrives(env: Env, s: State, s': State, core: Core, feed: Feed, next: Core)
    requires ValidEnv(env) && SessionInv(env, s, core, feed) && Grows(s, s')
    requires feed.tx < |env.wal| && IsRow(env.wal, feed)
    requires next.pending == core.pending && next.pendingCommit == core.pendingCommit && next.flush == core.flush
    requires || next.buf == core.buf + [env.wal[feed.tx].rows[feed.msg - 1]]
             || (next.buf == core.buf && RowRef(feed.tx, feed.msg - 1) in s'.dropped)
    requires PositionsHold(env, next, Advance(env.wal, feed))
    ensures SessionInv(env, s', next, Advance(env.wal, feed))
  {
    SessionStays(env, s, s', core, feed);
    var after := Advance(env.wal, feed);
    forall t: nat, k: nat | IsRef(env.wal, t, k) && Sent(after, t, k)
      ensures SettledOrHeld(env, s', t, k, next.pending + next.buf)
    {
      if Sent(feed, t, k) {
        assert SettledOrHeld(env, s', t, k, core.pending + core.buf);
      }
    }
  }

  lemma CommitArrives(env: Env, s: State, core: Core, feed: Feed, position: Lsn)
    requires ValidEnv(env) && SessionInv(env, s, core, feed)
    requires feed.tx < |env.wal| && feed.msg == |env.wal[feed.tx].rows| + 1
    requires PositionsHold(env, OnEvent(OnPosition(core, position), Commit(env.wal[feed.tx].commit)),
              Advance(env.wal, feed))
    ensures SessionInv(env, s, OnEvent(OnPosition(core, position), Commit(env.wal[feed.tx].commit)),
              Advance(env.wal, feed))
  {
    var next := OnEvent(OnPosition(core, position), Commit(env.wal[feed.tx].commit));
    assert next.pendingCommit == env.wal[feed.tx].commit;
    forall t: nat, k: nat | IsRef(env.wal, t, k) && t <= feed.tx
      ensures SettledOrHeld(env, s, t, k, next.pending)
    {
      assert Sent(feed, t, k);
    }
    assert next.pending + next.buf == next.pending;
  }

  lemma DeliverHolds(env: Env, s: State, s': State, core: Core, feed: Feed, position: Lsn, event: Event, lost: bool)
    requires ValidEnv(env) && SessionInv(env, s, core, feed) && Grows(s, s')
    requires feed.tx < |env.wal| && Delivers(env.wal, feed, event, lost)
    requires s'.dropped == s.dropped + DroppedBy(env.wal, feed, lost)
    requires PositionsHold(env, OnEvent(OnPosition(core, position), event), Advance(env.wal, feed))
    ensures SessionInv(env, s', OnEvent(OnPosition(core, position), event), Advance(env.wal, feed))
  {
    var next := OnEvent(OnPosition(core, position), event);
    if IsRow(env.wal, feed) {
      RowArrives(env, s, s', core, feed, next);
    } else {
      SessionStays(env, s, s', core, feed);
      if event.Commit? {
        CommitArrives(env, s', core, feed, position);
      }
    }
  }

  lemma BatchPersists(env: Env, s: State, s': State, core: Core, feed: Feed, letters: seq<DlqRow>)
    requires Inv(env, s) && SessionInv(env, s, core, feed)
    requires forall p :: p in core.pending ==> p in s.accepted || Dead(letters, p)
    requires s'.db == Persist(s.db, letters, core.pendingCommit) && s'.accepted == s.accepted && s'.dropped == s.dropped
    ensures Delivered(env, s') && SessionInv(env, s', Flushed(core), feed)
  {
    forall p | p in core.pending ensures p in s'.accepted || Dead(s'.db.dlq, p) {
      if Dead(letters, p) {
        var d :| d in letters && Carries(d, p);
        assert d in s'.db.dlq;
      }
    }
    DeliveredStays(env, s, s', CursorOf(s.db));
    SessionStays(env, s, s', core, feed);
    assert Flushed(core).pending + Flushed(core).buf == core.buf;
  }

  lemma IdlePersists(env: Env, s: State, s': State, core: Core, feed: Feed)
    requires ValidEnv(env) && FullRules(env.rules) && Inv(env, s) && SessionInv(env, s, core, feed)
    requires MayAdvanceIdle(env.rules, core)
    requires s'.db == Persist(s.db, [], core.xlogPos) && s'.accepted == s.accepted && s'.dropped == s.dropped
    ensures Delivered(env, s') && SessionInv(env, s', IdleFlushed(core), feed)
  {
    DeliveredStays(env, s, s', CursorOf(s.db));
    SessionStays(env, s, s', core, feed);
    forall t: nat, k: nat | IsRef(env.wal, t, k) && env.wal[t].commit <= core.xlogPos ensures Settled(env, s', t, k) {
      assert t < feed.tx;
      assert Sent(feed, t, k);
      assert SettledOrHeld(env, s', t, k, core.pending + core.buf);
    }
  }

  lemma LandingStays(env: Env, s: State, s': State, x: Landing)
    requires Grows(s, s') && LandingCovers(env, s, x)
    ensures LandingCovers(env, s', x)
  {
    forall t: nat, k: nat | IsRef(env.wal, t, k) ensures Settled(env, s, t, k) ==> Settled(env, s', t, k) {
      SettledStays(env, s, s', t, k);
    }
  }

  lemma BatchLandingCovers(env: Env, s: State, core: Core, feed: Feed, letters: seq<DlqRow>)
    requires SessionInv(env, s, core, feed)
    requires forall p :: p in core.pending ==> p in s.accepted || Dead(letters, p)
    ensures LandingCovers(env, s, Landing(letters, core.pendingCommit))
  {
  }

  lemma IdleLandingCovers(env: Env, s: State, core: Core, feed: Feed)
    requires ValidEnv(env) && FullRules(env.rules) && SessionInv(env, s, core, feed) && MayAdvanceIdle(env.rules, core)
    ensures LandingCovers(env, s, Landing([], core.xlogPos))
  {
    forall t: nat, k: nat | IsRef(env.wal, t, k) && env.wal[t].commit <= core.xlogPos ensures Settled(env, s, t, k) {
      assert t < feed.tx;
      assert Sent(feed, t, k);
      assert SettledOrHeld(env, s, t, k, core.pending + core.buf);
    }
  }

  /** A commit that lands late finds its rows still settled, whatever has happened meanwhile. */
  lemma LandingPersists(env: Env, s: State, s': State, x: Landing)
    requires Delivered(env, s) && LandingCovers(env, s, x)
    requires s'.db == Persist(s.db, x.letters, x.lsn) && s'.accepted == s.accepted && s'.dropped == s.dropped
    ensures Delivered(env, s')
  {
    DeliveredStays(env, s, s', CursorOf(s.db));
    LandingStays(env, s, s', x);
    forall t: nat, k: nat | IsRef(env.wal, t, k) && env.wal[t].commit <= x.lsn ensures Settled(env, s', t, k) {
      if Dead(x.letters, env.wal[t].rows[k]) {
        var d :| d in x.letters && Carries(d, env.wal[t].rows[k]);
        assert d in s'.db.dlq;
      }
    }
  }

  lemma LateHolds(env: Env, s: State, s': State, i: nat, step: Step)
    requires ValidEnv(env) && FullRules(env.rules) && Inv(env, s)
    requires i < |s.drivers| && DriverStep(env, s, s', i, step) && Grows(s, s')
    ensures LateInv(env, s')
  {
    hide SessionInv, Delivered, PositionsHold, Grows, LandingCovers, Consistent;
    var d := s.drivers[i];
    assert PhaseInv(env, s, d.phase);
    if step.BatchHangs? {
      BatchLandingCovers(env, s, d.phase.core, d.phase.feed, d.phase.letters);
    } else if step.IdleHangs? {
      IdleLandingCovers(env, s, d.phase.core, d.phase.feed);
    }
    forall x | x in s'.late ensures LandingCovers(env, s', x) {
      assert LandingCovers(env, s, x);
      LandingStays(env, s, s', x);
    }
  }

  lemma AnswerHolds(env: Env, s: State, s': State, core: Core, feed: Feed, results: seq<SubmitResult>)
    requires SessionInv(env, s, core, feed) && Grows(s, s')
    requires Consistent(core.pending, results) && Accepted(core.pending, results) <= s'.accepted
    ensures PhaseInv(env, s', Phase.Answered(core, feed, 0, Letters(core.pending, results)))
  {
    SessionStays(env, s, s', core, feed);
    forall p | p in core.pending ensures p in s'.accepted || Dead(Letters(core.pending, results), p) {
      EveryInsertDecided(core.pending, results, p);
    }
  }

  /** The driver that moves, and the shared state, satisfy the invariant again. */
  lemma StepHolds(env: Env, s: State, s': State, i: nat, step: Step)
    requires ValidEnv(env) && FullRules(env.rules) && Inv(env, s)
    requires i < |s.drivers| && DriverStep(env, s, s', i, step) && Grows(s, s') && |s'.drivers| == |s.drivers|
    ensures Delivered(env, s') && SlotBehindCursor(env, s') && PhaseInv(env, s', s'.drivers[i].phase)
  {
    hide SessionInv, Delivered, PositionsHold, Grows, LandingCovers;
    var d := s.drivers[i];
    assert PhaseInv(env, s, d.phase);
    CursorKept(env, s, s');
    match step {
      case ReadCursor =>
      case Start => StartHolds(env, s, d.phase.start);
        SessionStays(env, s, s', s'.drivers[i].phase.core, s'.drivers[i].phase.feed);
      case SlotBusy =>
      case Deliver(position, event, lost) =>
        DeliverHolds(env, s, s', d.phase.core, d.phase.feed, position, event, lost);
      case Hear(position) =>
        Heard(env, s, s', d.phase.core, d.phase.feed, position);
      case Submit(results) =>
        AnswerHolds(env, s, s', d.phase.core, d.phase.feed, results);
      case SubmitFails(taken) =>
      case PersistBatch(o) =>
        if TakesEffect(o) {
          BatchPersists(env, s, s', d.phase.core, d.phase.feed, d.phase.letters);
        }
      case AdvanceIdle(o) =>
        if TakesEffect(o) {
          IdlePersists(env, s, s', d.phase.core, d.phase.feed);
        }
      case BatchHangs =>
      case IdleHangs =>
      case Lands(k) =>
        assert s.late[k] in s.late;
        LandingPersists(env, s, s', s.late[k]);
        PhaseStays(env, s, s', d.phase);
      case SendStatus =>
        WireTellsTheTruth(d.phase.core.xlogPos, d.phase.core.flush);
        SessionStays(env, s, s', d.phase.core, d.phase.feed);
        FlushBehindCursor(env, s, d.phase.core, d.phase.feed);
      case StreamError =>
      case Crash =>
      case ServerForgetsHolder =>
        PhaseStays(env, s, s', d.phase);
    }
  }

  lemma CursorKept(env: Env, s: State, s': State)
    requires Grows(s, s') && Delivered(env, s)
    ensures CursorOf(s.db) <= CursorOf(s'.db)
    ensures CursorOf(s.db) == CursorOf(s'.db) ==> Delivered(env, s')
  {
    DeliveredStays(env, s, s', CursorOf(s.db));
  }

  lemma FlushBehindCursor(env: Env, s: State, core: Core, feed: Feed)
    requires SessionInv(env, s, core, feed)
    ensures core.flush <= CursorOf(s.db)
  {
  }

  lemma Heard(env: Env, s: State, s': State, core: Core, feed: Feed, position: Lsn)
    requires SessionInv(env, s, core, feed) && Grows(s, s')
    requires PositionsHold(env, OnPosition(core, position), feed)
    ensures SessionInv(env, s', OnPosition(core, position), feed)
  {
    SessionStays(env, s, s', core, feed);
  }

  lemma StepKeepsInv(env: Env, s: State, s': State, i: nat, step: Step)
    requires ValidEnv(env) && FullRules(env.rules) && Inv(env, s)
    requires i < |s.drivers| && DriverStep(env, s, s', i, step)
    ensures Inv(env, s') && Grows(s, s')
  {
    StepGrows(env, s, s', i, step);
    StepHolds(env, s, s', i, step);
    LateHolds(env, s, s', i, step);
    forall j | 0 <= j < |s'.drivers| ensures PhaseInv(env, s', s'.drivers[j].phase) {
      hide DriverStep, PhaseInv;
      if j != i {
        PhaseStays(env, s, s', s.drivers[j].phase);
      }
    }
  }

  lemma {:induction false} RunKeepsInv(env: Env, run: seq<State>)
    requires ValidEnv(env) && FullRules(env.rules) && IsRun(env, run)
    ensures Inv(env, run[|run| - 1])
  {
    if |run| == 1 {
    } else {
      hide Inv, DriverStep;
      RunKeepsInv(env, run[..|run| - 1]);
      var s, s' := run[|run| - 2], run[|run| - 1];
      var i: nat, step :| i < |s.drivers| && DriverStep(env, s, s', i, step);
      StepKeepsInv(env, s, s', i, step);
    }
  }

  // ---- The guarantees, over every run --------------------------------------------------------------

  /** At-least-once delivery and slot safety, whether or not the slot keeps drivers apart. */
  lemma AtLeastOnce(env: Env, run: seq<State>)
    requires ValidEnv(env) && FullRules(env.rules) && IsRun(env, run)
    ensures Delivered(env, run[|run| - 1]) && SlotBehindCursor(env, run[|run| - 1])
  {
    RunKeepsInv(env, run);
  }

  /** No session has told the server more than the database holds, however late or stale it is. */
  lemma FlushNeverPassesCursor(env: Env, run: seq<State>, i: nat)
    requires ValidEnv(env) && FullRules(env.rules) && IsRun(env, run)
    requires i < |run[|run| - 1].drivers|
    ensures var s := run[|run| - 1];
      match s.drivers[i].phase
      case Down => true
      case Ready(start) => start <= CursorOf(s.db)
      case Streaming(core, _, _) => core.flush <= CursorOf(s.db)
      case Answered(core, _, _, _) => core.flush <= CursorOf(s.db)
  {
    RunKeepsInv(env, run);
    assert PhaseInv(env, run[|run| - 1], run[|run| - 1].drivers[i].phase);
  }

  ghost predicate Onward(s: State, s': State) {
    Grows(s, s') && s.confirmed <= s'.confirmed
  }

  lemma NextIsOnward(env: Env, s: State, s': State)
    requires Next(env, s, s')
    ensures Onward(s, s')
  {
    hide DriverStep;
    var i: nat, step :| i < |s.drivers| && DriverStep(env, s, s', i, step);
    StepGrows(env, s, s', i, step);
  }

  /** Under any rules the cursor, the confirmed position, the dead letters and the histories only move forward. */
  lemma {:induction false} NothingMovesBack(env: Env, run: seq<State>, a: nat, b: nat)
    requires a <= b < |run| && forall k :: 0 < k < |run| ==> Next(env, run[k - 1], run[k])
    ensures Onward(run[a], run[b])
    decreases b
  {
    if a < b {
      hide Next;
      NothingMovesBack(env, run, a, b - 1);
      NextIsOnward(env, run[b - 1], run[b]);
    }
  }
}
