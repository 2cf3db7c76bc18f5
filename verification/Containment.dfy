/** What a lost message costs: its own row if it is an insert, and otherwise only time. */
module Containment {
  import opened Basics
  import opened Rows
  import opened DeadLetters
  import opened Session
  import opened Server
  import opened Stream
  import opened Cluster
  import opened Safety

  /** p is a row that was sent, of a transaction that committed after lo. */
  ghost predicate SentAfter(env: Env, feed: Feed, lo: Lsn, p: ParsedInsert) {
    exists t: nat, k: nat ::
        IsRef(env.wal, t, k) && Sent(feed, t, k) && env.wal[t].rows[k] == p && lo < env.wal[t].commit
  }

  ghost predicate CommittedBy(env: Env, hi: Lsn, p: ParsedInsert) {
    exists t: nat, k: nat :: IsRef(env.wal, t, k) && env.wal[t].rows[k] == p && env.wal[t].commit <= hi
  }

  lemma SentMore(env: Env, feed: Feed, lo: Lsn, p: ParsedInsert)
    requires feed.tx < |env.wal| && SentAfter(env, feed, lo, p)
    ensures SentAfter(env, Advance(env.wal, feed), lo, p)
  {
    var t: nat, k: nat :| IsRef(env.wal, t, k) && Sent(feed, t, k) && env.wal[t].rows[k] == p && lo < env.wal[t].commit;
    assert Sent(Advance(env.wal, feed), t, k);
  }

  lemma CommittedByMore(env: Env, hi: Lsn, higher: Lsn, p: ParsedInsert)
    requires CommittedBy(env, hi, p) && hi <= higher
    ensures CommittedBy(env, higher, p)
  {
    var t: nat, k: nat :| IsRef(env.wal, t, k) && env.wal[t].rows[k] == p && env.wal[t].commit <= hi;
  }

  lemma BeforeTheCommit(env: Env, feed: Feed, lo: Lsn, p: ParsedInsert)
    requires Ordered(env.wal) && feed.tx < |env.wal| && SentAfter(env, feed, lo, p)
    ensures CommittedBy(env, env.wal[feed.tx].commit, p)
  {
    var t: nat, k: nat :| IsRef(env.wal, t, k) && Sent(feed, t, k) && env.wal[t].rows[k] == p && lo < env.wal[t].commit;
    assert t <= feed.tx;
  }

  /** A flush at pendingCommit passes no buffered row, and ships no row below its own commit. */
  ghost predicate HeldInPlace(env: Env, core: Core, feed: Feed) {
    && (forall p :: p in core.pending ==> CommittedBy(env, core.pendingCommit, p))
    && (forall p :: p in core.buf ==> SentAfter(env, feed, core.pendingCommit, p))
  }

  ghost predicate PhaseInPlace(env: Env, phase: Phase) {
    match phase
    case Streaming(core, feed, _) => HeldInPlace(env, core, feed)
    case Answered(core, feed, _, _) => HeldInPlace(env, core, feed)
    case _ => true
  }

  lemma DeliveryInPlace(env: Env, s: State, core: Core, feed: Feed, position: Lsn, event: Event, lost: bool)
    requires ValidEnv(env) && SessionInv(env, s, core, feed) && HeldInPlace(env, core, feed)
    requires feed.tx < |env.wal| && Delivers(env.wal, feed, event, lost)
    ensures HeldInPlace(env, OnEvent(OnPosition(core, position), event), Advance(env.wal, feed))
  {
    var next, after := OnEvent(OnPosition(core, position), event), Advance(env.wal, feed);
    forall p | p in core.buf ensures SentAfter(env, after, core.pendingCommit, p) {
      SentMore(env, feed, core.pendingCommit, p);
    }
    if event.Commit? {
      forall p | p in next.pending ensures CommittedBy(env, next.pendingCommit, p) {
        if p in core.buf {
          BeforeTheCommit(env, feed, core.pendingCommit, p);
        } else {
          CommittedByMore(env, core.pendingCommit, next.pendingCommit, p);
        }
      }
    } else if event.Insert? && event.job.Some? {
      assert Sent(after, feed.tx, feed.msg - 1) && IsRef(env.wal, feed.tx, feed.msg - 1);
      assert SentAfter(env, after, core.pendingCommit, event.job.value);
    }
  }

  lemma StepKeepsInPlace(env: Env, s: State, s': State, i: nat, step: Step, j: nat)
    requires ValidEnv(env) && Inv(env, s)
    requires i < |s.drivers| && DriverStep(env, s, s', i, step) && j < |s'.drivers| == |s.drivers|
    requires PhaseInPlace(env, s.drivers[j].phase)
    ensures PhaseInPlace(env, s'.drivers[j].phase)
  {
    hide SessionInv, Delivered, PositionsHold, Consistent;
    assert PhaseInv(env, s, s.drivers[j].phase);
    if step.Deliver? && j == i {
      var phase := s.drivers[i].phase;
      DeliveryInPlace(env, s, phase.core, phase.feed, step.position, step.event, step.lost);
    }
  }

  lemma NextKeepsInPlace(env: Env, s: State, s': State, j: nat)
    requires ValidEnv(env) && Inv(env, s) && Next(env, s, s') && j < |s'.drivers|
    requires j < |s.drivers| ==> PhaseInPlace(env, s.drivers[j].phase)
    ensures PhaseInPlace(env, s'.drivers[j].phase)
  {
    hide DriverStep, PhaseInPlace, Inv;
    var i: nat, step :| i < |s.drivers| && DriverStep(env, s, s', i, step);
    StepGrows(env, s, s', i, step);
    StepKeepsInPlace(env, s, s', i, step, j);
  }

  lemma {:induction false} RunKeepsInPlace(env: Env, run: seq<State>, j: nat)
    requires ValidEnv(env) && FullRules(env.rules) && IsRun(env, run) && j < |run[|run| - 1].drivers|
    ensures PhaseInPlace(env, run[|run| - 1].drivers[j].phase)
  {
    if |run| > 1 {
      hide Next, PhaseInPlace, Inv, Init, ValidEnv;
      var earlier := run[..|run| - 1];
      if j < |run[|run| - 2].drivers| {
        RunKeepsInPlace(env, earlier, j);
      }
      RunKeepsInv(env, earlier);
      NextKeepsInPlace(env, run[|run| - 2], run[|run| - 1], j);
    }
  }

  /**
   * In every reachable state the rows a lost Commit left buffered block the idle advance and lie ahead of every
   * cursor this session can write before they ship; and rows ship at an LSN not below their own commit.
   */
  lemma LostCommitIsContained(env: Env, run: seq<State>, j: nat)
    requires ValidEnv(env) && FullRules(env.rules) && IsRun(env, run)
    requires j < |run[|run| - 1].drivers|
    requires var phase := run[|run| - 1].drivers[j].phase; phase.Streaming? || phase.Answered?
    ensures var phase := run[|run| - 1].drivers[j].phase;
      && (phase.core.buf != [] ==> !MayAdvanceIdle(env.rules, phase.core))
      && (forall p :: p in phase.core.buf ==> SentAfter(env, phase.feed, phase.core.pendingCommit, p))
      && (forall p :: p in phase.core.pending ==> CommittedBy(env, phase.core.pendingCommit, p))
  {
    RunKeepsInPlace(env, run, j);
  }

  /** A step drops at most one row, and only the row whose own insert a driver was due. */
  lemma LostInsertIsContained(env: Env, s: State, s': State, ref: RowRef)
    requires Next(env, s, s') && ref in s'.dropped && ref !in s.dropped
    ensures s'.dropped == s.dropped + {ref}
    ensures exists i :: 0 <= i < |s.drivers| && s.drivers[i].phase.Streaming?
              && s.drivers[i].phase.feed == Feed(ref.tx, ref.row + 1) && s'.drivers[i].phase.Streaming?
              && s'.drivers[i].phase.core.buf == s.drivers[i].phase.core.buf
              && s'.drivers[i].phase.core.pending == s.drivers[i].phase.core.pending
  {
    var i: nat, step :| i < |s.drivers| && DriverStep(env, s, s', i, step);
    assert step.Deliver?;
    assert s'.drivers[i].phase.Streaming?;
  }
}
