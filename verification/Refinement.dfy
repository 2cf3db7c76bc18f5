/**
 * Whatever the driver's code does is a run of the cluster: one session, all sessions of one driver, and the
 * stages of any number of drivers in any interleaving. The rows that a run drops are those whose messages the
 * code received and did not decode to a job, so delivery of all other rows carries over.
 */
module Refinement {
  import opened Basics
  import opened Rows
  import opened DeadLetters
  import opened Session
  import opened Server
  import opened Stream
  import opened Stages
  import opened Cluster
  import opened Safety
  import Code = DriverCode
  import Messages
  import SingleDriver

  /** The state shows the world w, with the rows d dropped so far, and driver i leads. */
  ghost predicate Shown(s: State, i: nat, w: World, d: set<RowRef>) {
    && i < |s.drivers| && s.drivers[i].isLeader
    && s.db == w.db && s.confirmed == w.confirmed && s.accepted == w.accepted && s.dropped == d
  }

  /** Driver i of the run's last state is streaming, and the state shows w and d. */
  ghost predicate At(env: Env, run: seq<State>, i: nat, feed: Feed, w: World, d: set<RowRef>) {
    && run != [] && IsRun(env, run)
    && var s := run[|run| - 1];
      && Shown(s, i, w, d) && Talks(env, s, i)
      && s.drivers[i].phase.Streaming? && s.drivers[i].phase.core == w.core && s.drivers[i].phase.feed == feed
  }

  /** Driver i holds an answer and has not written it yet. */
  ghost predicate Holding(env: Env, run: seq<State>, i: nat, feed: Feed, w: World, letters: seq<DlqRow>, d: set<RowRef>)
  {
    && run != [] && IsRun(env, run)
    && var s := run[|run| - 1];
      && Shown(s, i, w, d) && Talks(env, s, i)
      && s.drivers[i].phase.Answered? && s.drivers[i].phase.core == w.core && s.drivers[i].phase.feed == feed
      && s.drivers[i].phase.letters == letters
  }

  /** The session of driver i has ended, and the state shows what it left behind. */
  ghost predicate Ended(env: Env, run: seq<State>, i: nat, w: World, d: set<RowRef>) {
    && run != [] && IsRun(env, run)
    && Shown(run[|run| - 1], i, w, d) && run[|run| - 1].drivers[i].phase.Down?
  }

  /** The run goes on with steps of driver i alone. */
  ghost predicate OnlyMoves(run: seq<State>, longer: seq<State>, i: nat) {
    && run != [] && run <= longer
    && var s, s' := run[|run| - 1], longer[|longer| - 1];
      && |s'.drivers| == |s.drivers|
      && forall j :: 0 <= j < |s.drivers| && j != i ==> s'.drivers[j] == s.drivers[j]
  }

  ghost predicate Follows(env: Env, run: seq<State>, i: nat, feed: Feed, r: Outcome, d: set<RowRef>) {
    match r
    case Running(w) => At(env, run, i, feed, w, d)
    case Stopped(w, _) => Ended(env, run, i, w, d)
  }

  // ---- What the server may say to a session -----------------------------------------------------------

  /** The message is the next one due, possibly lost, or one that carries no part of a transaction. */
  ghost predicate Says(env: Env, cfg: Config, w: World, feed: Feed, r: Receive, next: Feed) {
    match r
    case Data(end, m) =>
      var e := EventOf(cfg, w.relations, m);
      var core := OnEvent(OnPosition(w.core, end), e);
      || (next == feed && e == Nothing && PositionsHold(env, core, feed))
      || (feed.tx < |env.wal| && next == Advance(env.wal, feed) && PositionsHold(env, core, next)
          && exists lost :: Delivers(env.wal, feed, e, lost))
    case Keepalive(serverEnd, _, _) => next == feed && PositionsHold(env, OnPosition(w.core, serverEnd), feed)
    case _ => next == feed
  }

  /** The row that a reception drops: the one that was due, if what was received does not decode to it. */
  function Drops(wal: seq<Tx>, cfg: Config, relations: Relations, r: Receive, feed: Feed, next: Feed): set<RowRef> {
    if r.Data? && next != feed && feed.tx < |wal| then
      DroppedBy(wal, feed, EventOf(cfg, relations, r.message) != Decoded(wal, feed))
    else {}
  }

  /** A reception drops a row exactly when that row's own insert was due and the message did not decode to it. */
  lemma DropsExactly(
    wal: seq<Tx>, cfg: Config, relations: Relations, r: Receive, feed: Feed, next: Feed, t: nat, k: nat)
    requires IsRef(wal, t, k)
    ensures RowRef(t, k) in Drops(wal, cfg, relations, r, feed, next) <==>
            && r.Data? && next != feed && feed == Feed(t, k + 1)
            && EventOf(cfg, relations, r.message) != Insert(Some(wal[t].rows[k]))
  {
    hide EventOf;
  }

  // ---- The pieces of a turn ---------------------------------------------------------------------------

  lemma StaysPut(env: Env, run: seq<State>, i: nat, feed: Feed, w: World, d: set<RowRef>)
    requires At(env, run, i, feed, w, d)
    ensures OnlyMoves(run, run, i)
  {
  }

  lemma Die(env: Env, run: seq<State>, i: nat, feed: Feed, w: World, d: set<RowRef>) returns (longer: seq<State>)
    requires At(env, run, i, feed, w, d)
    ensures OnlyMoves(run, longer, i) && Ended(env, longer, i, w, d)
  {
    longer := Extend(env, run, Put(run[|run| - 1], i, Down), i, StreamError);
  }

  lemma Tell(env: Env, run: seq<State>, i: nat, feed: Feed, w: World, d: set<RowRef>, sent: bool)
    returns (longer: seq<State>)
    requires At(env, run, i, feed, w, d)
    ensures OnlyMoves(run, longer, i) && At(env, longer, i, feed, Report(w, sent), d)
  {
    longer := run;
    if sent {
      var s := run[|run| - 1];
      longer := Extend(env, run, s.(confirmed := Report(w, true).confirmed), i, SendStatus);
    }
  }

  lemma SubmitIsStep(env: Env, run: seq<State>, i: nat, feed: Feed, w: World, d: set<RowRef>, submission: Submission)
    returns (longer: seq<State>)
    requires At(env, run, i, feed, w, d) && w.core.pending != []
    ensures OnlyMoves(run, longer, i)
    ensures match SubmitHalf(w, submission)
      case Refused(v, _) => Ended(env, longer, i, v, d)
      case Mapped(v, letters) => Holding(env, longer, i, feed, v, letters, d)
  {
    if submission.SubmitFailed? || !Consistent(w.core.pending, submission.results) {
      longer := Die(env, run, i, feed, w, d);
    } else {
      var results := submission.results;
      var s := run[|run| - 1];
      var phase := Phase.Answered(w.core, feed, s.drivers[i].phase.from, Letters(w.core.pending, results));
      var s' := Put(s, i, phase).(accepted := s.accepted + Accepted(w.core.pending, results));
      longer := Extend(env, run, s', i, Submit(results));
    }
  }

  lemma PersistIsStep(
    env: Env, run: seq<State>, i: nat, feed: Feed, w: World, letters: seq<DlqRow>, d: set<RowRef>, f: FlushScript)
    returns (longer: seq<State>)
    requires Holding(env, run, i, feed, w, letters, d)
    ensures OnlyMoves(run, longer, i) && Follows(env, longer, i, feed, PersistHalf(w, letters, f), d)
  {
    var s := run[|run| - 1];
    var next := if f.commit.Committed? then Streaming(Flushed(w.core), feed, s.drivers[i].phase.from) else Down;
    var db := if TakesEffect(f.commit) then Persist(s.db, letters, w.core.pendingCommit) else s.db;
    longer := Extend(env, run, Put(s, i, next).(db := db), i, PersistBatch(f.commit));
    if f.commit.Committed? {
      longer := Tell(env, longer, i, feed, w.(db := db, core := Flushed(w.core), batchAt := None), d, f.statusSent);
    }
  }

  lemma FlushIsSteps(env: Env, run: seq<State>, i: nat, feed: Feed, w: World, d: set<RowRef>, f: FlushScript)
    returns (longer: seq<State>)
    requires At(env, run, i, feed, w, d) && w.core.pending != []
    ensures OnlyMoves(run, longer, i) && Follows(env, longer, i, feed, FlushBatch(w, f), d)
  {
    hide SubmitHalf, PersistHalf, FlushBatch, At, Holding, Ended;
    FlushIsHalves(w, f);
    longer := SubmitIsStep(env, run, i, feed, w, d, f.submission);
    var answer := SubmitHalf(w, f.submission);
    if answer.Mapped? {
      longer := PersistIsStep(env, longer, i, feed, answer.w, answer.letters, d, f);
    }
  }

  lemma BatchDue(env: Env, run: seq<State>, i: nat, feed: Feed, w: World, d: set<RowRef>, t: Turn)
    returns (longer: seq<State>)
    requires At(env, run, i, feed, w, d)
    ensures OnlyMoves(run, longer, i) && Follows(env, longer, i, feed, BatchStage(w, t), d)
  {
    hide FlushBatch, IsRun;
    longer := run;
    if w.batchAt.Some? && t.now >= w.batchAt.value && w.core.pending != [] {
      longer := FlushIsSteps(env, run, i, feed, w, d, t.batchFlush);
    }
  }

  lemma AdvanceIsStep(env: Env, run: seq<State>, i: nat, feed: Feed, w: World, d: set<RowRef>, o: TxOutcome)
    returns (longer: seq<State>)
    requires At(env, run, i, feed, w, d) && FullRules(env.rules) && IdleDue(w.core)
    ensures OnlyMoves(run, longer, i)
    ensures var durable := PersistIn(w, [], w.core.xlogPos, o);
      if o.Committed? then At(env, longer, i, feed, durable.(core := IdleFlushed(w.core)), d)
      else Ended(env, longer, i, durable, d)
  {
    var s := run[|run| - 1];
    var next := if o.Committed? then Streaming(IdleFlushed(w.core), feed, s.drivers[i].phase.from) else Down;
    var db := if TakesEffect(o) then Persist(s.db, [], w.core.xlogPos) else s.db;
    longer := Extend(env, run, Put(s, i, next).(db := db), i, AdvanceIdle(o));
  }

  lemma StandbyDue(
    env: Env, cfg: Config, run: seq<State>, i: nat, feed: Feed, w: World, d: set<RowRef>, t: Turn, now: Time)
    returns (longer: seq<State>)
    requires At(env, run, i, feed, w, d) && FullRules(env.rules)
    ensures OnlyMoves(run, longer, i) && Follows(env, longer, i, feed, StandbyStage(cfg, w, t, now), d)
  {
    hide IsRun;
    longer := run;
    if now >= w.standbyAt {
      var v := w;
      if IdleDue(w.core) {
        longer := AdvanceIsStep(env, run, i, feed, w, d, t.idleCommit);
        if !t.idleCommit.Committed? {
          return;
        }
        v := PersistIn(w, [], w.core.xlogPos, t.idleCommit).(core := IdleFlushed(w.core));
      }
      if t.standbySent {
        longer := Tell(env, longer, i, feed, v, d, true);
      } else {
        longer := Die(env, longer, i, feed, v, d);
      }
    }
  }

  lemma Listen(env: Env, run: seq<State>, i: nat, feed: Feed, w: World, d: set<RowRef>, position: Lsn)
    returns (longer: seq<State>)
    requires At(env, run, i, feed, w, d) && PositionsHold(env, OnPosition(w.core, position), feed)
    ensures OnlyMoves(run, longer, i) && At(env, longer, i, feed, w.(core := OnPosition(w.core, position)), d)
  {
    var s := run[|run| - 1];
    var phase := Streaming(OnPosition(w.core, position), feed, s.drivers[i].phase.from);
    longer := Extend(env, run, Put(s, i, phase), i, Hear(position));
  }

  /** A message is lost exactly when it does not decode to what was due. */
  lemma LostIsUndecoded(wal: seq<Tx>, feed: Feed, e: Event, lost: bool)
    requires feed.tx < |wal| && Delivers(wal, feed, e, lost)
    ensures lost <==> e != Decoded(wal, feed)
  {
  }

  lemma AdvanceMoves(wal: seq<Tx>, feed: Feed)
    requires feed.tx < |wal|
    ensures Advance(wal, feed) != feed
  {
  }

  lemma Take(
    env: Env, cfg: Config, run: seq<State>, i: nat, feed: Feed, w: World, d: set<RowRef>, t: Turn, end: Lsn,
    m: Message, next: Feed)
    returns (longer: seq<State>)
    requires At(env, run, i, feed, w, d) && Says(env, cfg, w, feed, Data(end, m), next)
    ensures OnlyMoves(run, longer, i)
    ensures At(env, longer, i, next, Noted(cfg, w.(core := OnPosition(w.core, end)), t, m),
               d + Drops(env.wal, cfg, w.relations, Data(end, m), feed, next))
  {
    hide EventOf;
    var e := EventOf(cfg, w.relations, m);
    var core := OnEvent(OnPosition(w.core, end), e);
    if feed.tx < |env.wal| {
      AdvanceMoves(env.wal, feed);
    }
    if next == feed {
      longer := Listen(env, run, i, feed, w, d, end);
    } else {
      var lost :| Delivers(env.wal, feed, e, lost);
      LostIsUndecoded(env.wal, feed, e, lost);
      var s := run[|run| - 1];
      var s' := Put(s, i, Streaming(core, next, s.drivers[i].phase.from))
                .(dropped := s.dropped + DroppedBy(env.wal, feed, lost));
      longer := Extend(env, run, s', i, Deliver(end, e, lost));
    }
  }

  lemma TakenIn(
    env: Env, cfg: Config, run: seq<State>, i: nat, feed: Feed, w: World, d: set<RowRef>, t: Turn, end: Lsn,
    m: Message, next: Feed)
    returns (longer: seq<State>)
    requires At(env, run, i, feed, w, d) && Says(env, cfg, w, feed, Data(end, m), next)
    ensures OnlyMoves(run, longer, i)
    ensures Follows(env, longer, i, next, MessageStage(cfg, w, t, end, m),
                    d + Drops(env.wal, cfg, w.relations, Data(end, m), feed, next))
  {
    hide FlushBatch, IsRun, EventOf, Noted, Drops, Says;
    longer := Take(env, cfg, run, i, feed, w, d, t, end, m, next);
    var v := Noted(cfg, w.(core := OnPosition(w.core, end)), t, m);
    var d' := d + Drops(env.wal, cfg, w.relations, Data(end, m), feed, next);
    if EventOf(cfg, w.relations, m).Commit? && |v.core.pending| >= cfg.maxBatchSize && v.core.pending != [] {
      longer := FlushIsSteps(env, longer, i, next, v, d', t.sizeFlush);
    }
  }

  lemma Heartbeat(
    env: Env, cfg: Config, run: seq<State>, i: nat, feed: Feed, w: World, d: set<RowRef>, t: Turn, next: Feed)
    returns (longer: seq<State>)
    requires At(env, run, i, feed, w, d) && Says(env, cfg, w, feed, t.receive, next) && !t.receive.Data?
    ensures next == feed && OnlyMoves(run, longer, i) && Follows(env, longer, i, feed, ReceiveStage(cfg, w, t), d)
  {
    hide IsRun;
    longer := run;
    if t.receive.ReceiveFailed? {
      longer := Die(env, run, i, feed, w, d);
    } else if t.receive.Keepalive? {
      var v := w.(core := OnPosition(w.core, t.receive.serverEnd));
      longer := Listen(env, run, i, feed, w, d, t.receive.serverEnd);
      if t.receive.replyRequested && t.receive.replySent {
        longer := Tell(env, longer, i, feed, v, d, true);
      } else if t.receive.replyRequested {
        longer := Die(env, longer, i, feed, v, d);
      }
    }
  }

  lemma Reception(
    env: Env, cfg: Config, run: seq<State>, i: nat, feed: Feed, w: World, d: set<RowRef>, t: Turn, next: Feed)
    returns (longer: seq<State>)
    requires At(env, run, i, feed, w, d) && Says(env, cfg, w, feed, t.receive, next)
    ensures OnlyMoves(run, longer, i)
    ensures Follows(env, longer, i, next, ReceiveStage(cfg, w, t),
                    d + Drops(env.wal, cfg, w.relations, t.receive, feed, next))
  {
    hide MessageStage, IsRun, At, Ended, Says;
    if t.receive.Data? {
      longer := TakenIn(env, cfg, run, i, feed, w, d, t, t.receive.end, t.receive.message, next);
    } else {
      longer := Heartbeat(env, cfg, run, i, feed, w, d, t, next);
      assert d + {} == d;
    }
  }

  /** The server keeps to its stream and its positions for one turn, and the session is then due next. */
  ghost predicate TurnHeard(env: Env, cfg: Config, w: World, t: Turn, feed: Feed, next: Feed) {
    if t.cancelled then next == feed
    else
      match BatchStage(w, t)
      case Stopped(_, _) => next == feed
      case Running(w1) =>
        match StandbyStage(cfg, w1, t, NowAfterBatch(w, t))
        case Stopped(_, _) => next == feed
        case Running(w2) => Says(env, cfg, w2, feed, t.receive, next)
  }

  lemma NothingHeard(wal: seq<Tx>, cfg: Config, relations: Relations, r: Receive, feed: Feed, d: set<RowRef>)
    ensures d + Drops(wal, cfg, relations, r, feed, feed) == d
  {
  }

  lemma TurnIsSteps(
    env: Env, cfg: Config, run: seq<State>, i: nat, feed: Feed, w: World, d: set<RowRef>, t: Turn, next: Feed)
    returns (longer: seq<State>)
    requires FullRules(env.rules) && At(env, run, i, feed, w, d) && TurnHeard(env, cfg, w, t, feed, next)
    ensures OnlyMoves(run, longer, i)
    ensures Follows(env, longer, i, next, RunTurn(cfg, w, t),
                    d + Drops(env.wal, cfg, w.relations, t.receive, feed, next))
  {
    hide BatchStage, StandbyStage, ReceiveStage, Says, At, Ended, Drops;
    NothingHeard(env.wal, cfg, w.relations, t.receive, feed, d);
    if t.cancelled {
      longer := Die(env, run, i, feed, w, d);
      return;
    }
    longer := BatchDue(env, run, i, feed, w, d, t);
    var r1, now := BatchStage(w, t), NowAfterBatch(w, t);
    Messages.EarlierStagesLearnNothing(cfg, w, t, now);
    Messages.EarlierStagesLearnNothing(cfg, r1.w, t, now);
    if r1.Running? {
      longer := StandbyDue(env, cfg, longer, i, feed, r1.w, d, t, now);
      var r2 := StandbyStage(cfg, r1.w, t, now);
      if r2.Running? {
        longer := Reception(env, cfg, longer, i, feed, r2.w, d, t, next);
      }
    }
  }

  lemma ReadIsStep(env: Env, run: seq<State>, i: nat) returns (longer: seq<State>)
    requires IsRun(env, run) && i < |run[|run| - 1].drivers| && run[|run| - 1].drivers[i].phase.Down?
    ensures var s := run[|run| - 1];
      && IsRun(env, longer) && OnlyMoves(run, longer, i)
      && longer[|longer| - 1] == Put(s, i, Ready(CursorOf(s.db)))
  {
    var s := run[|run| - 1];
    longer := Extend(env, run, Put(s, i, Ready(CursorOf(s.db))), i, ReadCursor);
  }

  /** A start at a cursor read earlier, whatever has become of the cursor since. */
  lemma StartIsStep(env: Env, cfg: Config, run: seq<State>, i: nat, start: Lsn, now: Time) returns (longer: seq<State>)
    requires IsRun(env, run) && i < |run[|run| - 1].drivers| && run[|run| - 1].drivers[i].phase == Ready(start)
    requires env.rules.exclusiveSlot ==> run[|run| - 1].holder == None
    ensures var s := run[|run| - 1];
      && OnlyMoves(run, longer, i)
      && At(env, longer, i, Feed(FirstAfter(env.wal, Max(start, s.confirmed)), 0),
            StartWorld(cfg, start, now, s.db, s.confirmed, s.accepted), s.dropped)
  {
    var s := run[|run| - 1];
    var from := Max(start, s.confirmed);
    var begun := Streaming(StartCore(start), Feed(FirstAfter(env.wal, from), 0), from);
    longer := Extend(env, run, s.(drivers := s.drivers[i := Cluster.Driver(begun, true)], holder := Some(i)), i, Start);
  }

  /** runOnce: reading the cursor and starting at it put a driver into the session StartWorld describes. */
  lemma OpeningIsSteps(env: Env, cfg: Config, run: seq<State>, i: nat, now: Time) returns (longer: seq<State>)
    requires IsRun(env, run) && i < |run[|run| - 1].drivers| && run[|run| - 1].drivers[i].phase.Down?
    requires env.rules.exclusiveSlot ==> run[|run| - 1].holder == None
    ensures var s := run[|run| - 1]; var start := CursorOf(s.db);
      && OnlyMoves(run, longer, i)
      && At(env, longer, i, Feed(FirstAfter(env.wal, Max(start, s.confirmed)), 0),
            StartWorld(cfg, start, now, s.db, s.confirmed, s.accepted), s.dropped)
  {
    hide IsRun, At;
    var read := ReadIsStep(env, run, i);
    longer := StartIsStep(env, cfg, read, i, CursorOf(run[|run| - 1].db), now);
  }

  // ---- One session --------------------------------------------------------------------------------------

  /** feeds[k] is what the session is due before turn k. */
  ghost predicate ScriptHeard(env: Env, cfg: Config, w: World, script: seq<Turn>, feeds: seq<Feed>) {
    && |feeds| == |script| + 1
    && forall k :: 0 <= k < |script| ==>
      match Run(cfg, w, script[..k])
      case Running(v) => TurnHeard(env, cfg, v, script[k], feeds[k], feeds[k + 1])
      case Stopped(_, _) => true
  }

  /** The rows a session received and did not decode, up to where it returned. */
  ghost function SessionDrops(wal: seq<Tx>, cfg: Config, w: World, script: seq<Turn>, feeds: seq<Feed>): set<RowRef>
    requires |feeds| == |script| + 1
  {
    if script == [] then {}
    else
      var n := |script| - 1;
      SessionDrops(wal, cfg, w, script[..n], feeds[..n + 1]) +
      match Run(cfg, w, script[..n])
      case Running(v) => Drops(wal, cfg, v.relations, script[n].receive, feeds[n], feeds[n + 1])
      case Stopped(_, _) => {}
  }

  lemma EarlierTurnsHeard(env: Env, cfg: Config, w: World, script: seq<Turn>, feeds: seq<Feed>)
    requires ScriptHeard(env, cfg, w, script, feeds) && script != []
    ensures var n := |script| - 1;
      && ScriptHeard(env, cfg, w, script[..n], feeds[..n + 1])
      && (Run(cfg, w, script[..n]).Running? ==>
            TurnHeard(env, cfg, Run(cfg, w, script[..n]).w, script[n], feeds[n], feeds[n + 1]))
  {
    hide Run, TurnHeard;
    var n := |script| - 1;
    assert forall k :: 0 <= k < n ==> script[..n][..k] == script[..k] && script[..n][k] == script[k];
  }

  lemma MovesOn(run: seq<State>, longer: seq<State>, longest: seq<State>, i: nat)
    requires OnlyMoves(run, longer, i) && OnlyMoves(longer, longest, i)
    ensures OnlyMoves(run, longest, i)
  {
  }

  /** Every session of the code, in any state of the cluster and against any script, is a run of the cluster. */
  lemma {:induction false} SessionIsARun(
    env: Env, cfg: Config, run: seq<State>, i: nat, w: World, d: set<RowRef>, script: seq<Turn>, feeds: seq<Feed>)
    returns (longer: seq<State>)
    requires FullRules(env.rules) && ScriptHeard(env, cfg, w, script, feeds) && At(env, run, i, feeds[0], w, d)
    ensures OnlyMoves(run, longer, i)
    ensures Run(cfg, w, script).Running? ==>
              At(env, longer, i, feeds[|script|], Run(cfg, w, script).w,
                  d + SessionDrops(env.wal, cfg, w, script, feeds))
    ensures Run(cfg, w, script).Stopped? ==>
              Ended(env, longer, i, Run(cfg, w, script).w, d + SessionDrops(env.wal, cfg, w, script, feeds))
    decreases |script|
  {
    StaysPut(env, run, i, feeds[0], w, d);
    hide RunTurn, At, Ended, Drops, OnlyMoves;
    longer := run;
    if script == [] {
      assert d + {} == d;
    } else {
      EarlierTurnsHeard(env, cfg, w, script, feeds);
      hide TurnHeard;
      var n := |script| - 1;
      var prior := script[..n];
      longer := SessionIsARun(env, cfg, run, i, w, d, prior, feeds[..n + 1]);
      var r, d' := Run(cfg, w, prior), d + SessionDrops(env.wal, cfg, w, prior, feeds[..n + 1]);
      if r.Running? {
        var longest := TurnIsSteps(env, cfg, longer, i, feeds[n], r.w, d', script[n], feeds[n + 1]);
        MovesOn(run, longer, longest, i);
        longer := longest;
        var dropped := Drops(env.wal, cfg, r.w.relations, script[n].receive, feeds[n], feeds[n + 1]);
        assert d' + dropped == d + SessionDrops(env.wal, cfg, w, script, feeds);
      } else {
        assert d' == d + SessionDrops(env.wal, cfg, w, script, feeds);
      }
    }
  }

  /** Every row the cursor has passed was accepted, is dead-lettered, or is one of the dropped ones. */
  ghost predicate Accounted(env: Env, db: Db, accepted: set<ParsedInsert>, dropped: set<RowRef>) {
    forall t: nat, k: nat | IsRef(env.wal, t, k) && env.wal[t].commit <= CursorOf(db) ::
      RowRef(t, k) in dropped || env.wal[t].rows[k] in accepted || Dead(db.dlq, env.wal[t].rows[k])
  }

  /** What is shared holds only what the drivers' guarantees allow. */
  ghost predicate Safe(env: Env, db: Db, confirmed: Lsn, accepted: set<ParsedInsert>, dropped: set<RowRef>) {
    Accounted(env, db, accepted, dropped) && confirmed <= Max(env.confirmed0, CursorOf(db))
  }

  lemma ReachableIsSafe(env: Env, run: seq<State>)
    requires ValidEnv(env) && FullRules(env.rules) && IsRun(env, run)
    ensures var s := run[|run| - 1]; Safe(env, s.db, s.confirmed, s.accepted, s.dropped)
  {
    AtLeastOnce(env, run);
    var s := run[|run| - 1];
    forall t: nat, k: nat | IsRef(env.wal, t, k) && env.wal[t].commit <= CursorOf(s.db) ensures Settled(env, s, t, k) {
    }
  }

  /** A session that begins in a reachable state loses no row but those it received and did not decode. */
  lemma CodeDeliversAtLeastOnce(
    env: Env, cfg: Config, run: seq<State>, i: nat, w: World, d: set<RowRef>, script: seq<Turn>, feeds: seq<Feed>)
    requires ValidEnv(env) && FullRules(env.rules)
    requires ScriptHeard(env, cfg, w, script, feeds) && At(env, run, i, feeds[0], w, d)
    ensures var end := Run(cfg, w, script).w;
      Safe(env, end.db, end.confirmed, end.accepted, d + SessionDrops(env.wal, cfg, w, script, feeds))
  {
    hide RunTurn, Safe;
    var longer := SessionIsARun(env, cfg, run, i, w, d, script, feeds);
    ReachableIsSafe(env, longer);
  }

  // ---- Session after session: the loop in Run -----------------------------------------------------------

  ghost predicate Reached(env: Env, run: seq<State>, i: nat, r: Code.Residue, d: set<RowRef>) {
    && run != [] && IsRun(env, run)
    && var s := run[|run| - 1];
      && i < |s.drivers| && s.drivers[i].isLeader == r.leads
      && s.db == r.db && s.confirmed == r.confirmed && s.accepted == r.accepted && s.dropped == d
  }

  /** The next session of driver i can be opened. */
  ghost predicate Rests(env: Env, run: seq<State>, i: nat, r: Code.Residue, d: set<RowRef>) {
    Reached(env, run, i, r, d) && run[|run| - 1].drivers[i].phase.Down?
  }

  ghost function SessionOf(cfg: Config, r: Code.Residue, opening: Code.Opening): World
    requires opening.Streams?
  {
    StartWorld(cfg, CursorOf(r.db), opening.startedAt, r.db, r.confirmed, r.accepted)
  }

  ghost predicate AttemptHeard(env: Env, cfg: Config, r: Code.Residue, a: Code.Attempt, feeds: seq<Feed>) {
    a.opening.Streams? ==>
      && ScriptHeard(env, cfg, SessionOf(cfg, r, a.opening), a.opening.script, feeds)
      && feeds[0] == Feed(FirstAfter(env.wal, Max(CursorOf(r.db), r.confirmed)), 0)
  }

  ghost function AttemptDrops(env: Env, cfg: Config, r: Code.Residue, a: Code.Attempt, feeds: seq<Feed>): set<RowRef>
    requires AttemptHeard(env, cfg, r, a, feeds)
  {
    if a.opening.Streams? then SessionDrops(env.wal, cfg, SessionOf(cfg, r, a.opening), a.opening.script, feeds) else {}
  }

  /** Losing the slot to another consumer, or being cancelled, ends leadership. */
  lemma StepDown(env: Env, run: seq<State>, i: nat, r: Code.Residue, d: set<RowRef>) returns (longer: seq<State>)
    requires Rests(env, run, i, r, d)
    ensures run <= longer && Rests(env, longer, i, r.(leads := false), d)
  {
    var s := run[|run| - 1];
    longer := Extend(env, run, s.(drivers := s.drivers[i := Cluster.Driver(Down, false)]), i, Crash);
  }

  lemma SessionIsRested(
    env: Env, cfg: Config, run: seq<State>, i: nat, r: Code.Residue, d: set<RowRef>, a: Code.Attempt,
    feeds: seq<Feed>)
    returns (longer: seq<State>)
    requires FullRules(env.rules) && !env.rules.exclusiveSlot && a.opening.Streams?
    requires Rests(env, run, i, r, d) && AttemptHeard(env, cfg, r, a, feeds)
    ensures var session := Run(cfg, SessionOf(cfg, r, a.opening), a.opening.script);
      var after :=
          Code.Residue(true, session.w.db, session.w.confirmed, session.w.accepted, r.batches + session.w.batches);
      && run <= longer && Reached(env, longer, i, after, d + AttemptDrops(env, cfg, r, a, feeds))
      && (session.Stopped? ==> Rests(env, longer, i, after, d + AttemptDrops(env, cfg, r, a, feeds)))
  {
    hide Run, IsRun, ScriptHeard, SessionDrops;
    longer := OpeningIsSteps(env, cfg, run, i, a.opening.startedAt);
    longer := SessionIsARun(env, cfg, longer, i, SessionOf(cfg, r, a.opening), d, a.opening.script, feeds);
  }

  lemma AttemptIsSteps(
    env: Env, cfg: Config, run: seq<State>, i: nat, r: Code.Residue, d: set<RowRef>, a: Code.Attempt,
    feeds: seq<Feed>)
    returns (longer: seq<State>)
    requires FullRules(env.rules) && !env.rules.exclusiveSlot
    requires Rests(env, run, i, r, d) && AttemptHeard(env, cfg, r, a, feeds)
    ensures run <= longer
    ensures Reached(env, longer, i, Code.AttemptOnce(cfg, r, a).r, d + AttemptDrops(env, cfg, r, a, feeds))
    ensures Code.AttemptOnce(cfg, r, a).Going? ==>
              Rests(env, longer, i, Code.AttemptOnce(cfg, r, a).r, d + AttemptDrops(env, cfg, r, a, feeds))
  {
    hide Run, IsRun, ScriptHeard, SessionDrops;
    if a.opening.Streams? {
      longer := SessionIsRested(env, cfg, run, i, r, d, a, feeds);
      var session := Run(cfg, SessionOf(cfg, r, a.opening), a.opening.script);
      if session.Stopped? && (a.cancelled || session.error == Cancelled) {
        var after :=
            Code.Residue(true, session.w.db, session.w.confirmed, session.w.accepted, r.batches + session.w.batches);
        longer := StepDown(env, longer, i, after, d + AttemptDrops(env, cfg, r, a, feeds));
      }
    } else {
      longer := run;
      assert d + {} == d;
      if a.cancelled || a.opening.SlotInUse? {
        longer := StepDown(env, run, i, r, d);
      }
    }
  }

  ghost predicate LoopHeard(env: Env, cfg: Config, r0: Code.Residue, attempts: seq<Code.Attempt>, heard: seq<seq<Feed>>)
  {
    && |heard| == |attempts|
    && forall k :: 0 <= k < |attempts| ==>
      match Code.Attempts(cfg, r0, attempts[..k])
      case Going(r) => AttemptHeard(env, cfg, r, attempts[k], heard[k])
      case Over(_) => true
  }

  lemma EarlierHeard(env: Env, cfg: Config, r0: Code.Residue, attempts: seq<Code.Attempt>, heard: seq<seq<Feed>>)
    requires LoopHeard(env, cfg, r0, attempts, heard) && attempts != []
    ensures LoopHeard(env, cfg, r0, attempts[..|attempts| - 1], heard[..|attempts| - 1])
  {
    hide AttemptHeard;
    var n := |attempts| - 1;
    var prior := attempts[..n];
    assert forall k :: 0 <= k < n ==> prior[..k] == attempts[..k] && prior[k] == attempts[k];
  }

  /** The rows that all sessions of a loop received and did not decode. */
  ghost function LoopDrops(
    env: Env, cfg: Config, r0: Code.Residue, attempts: seq<Code.Attempt>, heard: seq<seq<Feed>>): set<RowRef>
    requires LoopHeard(env, cfg, r0, attempts, heard)
    decreases |attempts|
  {
    if attempts == [] then {}
    else
      var n := |attempts| - 1;
      EarlierHeard(env, cfg, r0, attempts, heard);
      LoopDrops(env, cfg, r0, attempts[..n], heard[..n]) +
      match Code.Attempts(cfg, r0, attempts[..n])
      case Going(r) => AttemptDrops(env, cfg, r, attempts[n], heard[n])
      case Over(_) => {}
  }

  /** All sessions of one driver's life, with whatever ends each of them, form one run of the cluster. */
  lemma {:induction false} LoopIsARun(
    env: Env, cfg: Config, run: seq<State>, i: nat, r0: Code.Residue, d: set<RowRef>, attempts: seq<Code.Attempt>,
    heard: seq<seq<Feed>>)
    returns (longer: seq<State>)
    requires FullRules(env.rules) && !env.rules.exclusiveSlot
    requires Rests(env, run, i, r0, d) && LoopHeard(env, cfg, r0, attempts, heard)
    ensures var last := Code.Attempts(cfg, r0, attempts);
      var d' := d + LoopDrops(env, cfg, r0, attempts, heard);
      && run <= longer && Reached(env, longer, i, last.r, d')
      && (last.Going? ==> Rests(env, longer, i, last.r, d'))
    decreases |attempts|
  {
    hide Code.AttemptOnce, AttemptHeard, AttemptDrops, IsRun;
    longer := run;
    if attempts == [] {
      assert d + {} == d;
    } else {
      var n := |attempts| - 1;
      EarlierHeard(env, cfg, r0, attempts, heard);
      longer := LoopIsARun(env, cfg, run, i, r0, d, attempts[..n], heard[..n]);
      var d' := d + LoopDrops(env, cfg, r0, attempts[..n], heard[..n]);
      var r := Code.Attempts(cfg, r0, attempts[..n]);
      if r.Going? {
        longer := AttemptIsSteps(env, cfg, longer, i, r.r, d', attempts[n], heard[n]);
        assert d' + AttemptDrops(env, cfg, r.r, attempts[n], heard[n]) == d + LoopDrops(env, cfg, r0, attempts, heard);
      } else {
        assert d' == d + LoopDrops(env, cfg, r0, attempts, heard);
      }
    }
  }

  /** A driver's whole life over any number of reconnects loses no row but those it received and did not decode. */
  lemma LoopDeliversAtLeastOnce(
    env: Env, cfg: Config, run: seq<State>, i: nat, r0: Code.Residue, d: set<RowRef>, attempts: seq<Code.Attempt>,
    heard: seq<seq<Feed>>)
    requires ValidEnv(env) && FullRules(env.rules) && !env.rules.exclusiveSlot
    requires Rests(env, run, i, r0, d) && LoopHeard(env, cfg, r0, attempts, heard)
    ensures var r := Code.Attempts(cfg, r0, attempts).r;
      && CursorOf(r0.db) <= CursorOf(r.db)
      && Safe(env, r.db, r.confirmed, r.accepted, d + LoopDrops(env, cfg, r0, attempts, heard))
  {
    hide Code.AttemptOnce, Code.Attempts, LoopDrops, Safe;
    var longer := LoopIsARun(env, cfg, run, i, r0, d, attempts, heard);
    ReachableIsSafe(env, longer);
    NothingMovesBack(env, longer, |run| - 1, |longer| - 1);
  }

  // ---- Any number of drivers, stage by stage ------------------------------------------------------------

  /** What the code of one driver holds; the shared fields of w are as the driver saw them last. */
  datatype Live = Live(w: World, feed: Feed, at: Point)

  /** A driver between sessions, one that has read the cursor and not started yet, and one that streams. */
  datatype Local = Out | HasRead(start: Lsn) | In(live: Live)

  /** Drivers executing the code over one database and one slot, and the rows they failed to decode. */
  datatype Fleet = Fleet(
    db: Db, confirmed: Lsn, accepted: set<ParsedInsert>, dropped: set<RowRef>, sessions: seq<Local>)

  /**
   * Reading the cursor, starting at what was read, entering an iteration of the loop, going on to its next stage, and
   * dying or failing at any point.
   */
  datatype Act =
    | Read(driver: nat)
    | Begin(driver: nat, now: Time)
    | Iterate(driver: nat, turn: Turn)
    | Proceed(driver: nat, next: Feed)
    | Kill(driver: nat)

  /** The session of a driver, over what the others have meanwhile made of the database and the slot. */
  function Refreshed(f: Fleet, w: World): World {
    w.(db := f.db, confirmed := f.confirmed, accepted := f.accepted)
  }

  ghost predicate MayAct(env: Env, cfg: Config, f: Fleet, a: Act) {
    && a.driver < |f.sessions|
    && match a
      case Read(i) => f.sessions[i].Out?
      case Begin(i, _) => f.sessions[i].HasRead?
      case Iterate(i, _) => f.sessions[i].In? && f.sessions[i].live.at.Head?
      case Kill(i) => !f.sessions[i].Out?
      case Proceed(i, next) =>
        && f.sessions[i].In? && !f.sessions[i].live.at.Head?
        && var live := f.sessions[i].live;
          if live.at.Listening? then Says(env, cfg, Refreshed(f, live.w), live.feed, live.at.turn.receive, next)
          else next == live.feed
  }

  function Settle(f: Fleet, i: nat, r: Resumed, next: Feed, dropped: set<RowRef>): Fleet
    requires i < |f.sessions|
  {
    match r
    case Ends(w, _) => Fleet(w.db, w.confirmed, w.accepted, f.dropped + dropped, f.sessions[i := Out])
    case Goes(w, at) =>
      Fleet(w.db, w.confirmed, w.accepted, f.dropped + dropped, f.sessions[i := In(Live(w, next, at))])
  }

  function DropsAt(wal: seq<Tx>, cfg: Config, live: Live, next: Feed): set<RowRef> {
    if live.at.Listening? then Drops(wal, cfg, live.w.relations, live.at.turn.receive, live.feed, next) else {}
  }

  ghost function Perform(env: Env, cfg: Config, f: Fleet, a: Act): Fleet
    requires MayAct(env, cfg, f, a)
  {
    match a
    case Read(i) => f.(sessions := f.sessions[i := HasRead(CursorOf(f.db))])
    case Begin(i, now) =>
      var start := f.sessions[i].start;
      var w := StartWorld(cfg, start, now, f.db, f.confirmed, f.accepted);
      f.(sessions := f.sessions[i := In(Live(w, Feed(FirstAfter(env.wal, Max(start, f.confirmed)), 0), Head))])
    case Iterate(i, t) =>
      var live := f.sessions[i].live;
      Settle(f, i, Enter(Refreshed(f, live.w), t), live.feed, {})
    case Kill(i) => f.(sessions := f.sessions[i := Out])
    case Proceed(i, next) =>
      var live := f.sessions[i].live;
      Settle(f, i, Continue(cfg, Refreshed(f, live.w), live.at), next, DropsAt(env.wal, cfg, live, next))
  }

  ghost predicate IsHistory(env: Env, cfg: Config, history: seq<Fleet>, acts: seq<Act>) {
    && |history| == |acts| + 1
    && forall k :: 0 <= k < |acts| ==>
      MayAct(env, cfg, history[k], acts[k]) && history[k + 1] == Perform(env, cfg, history[k], acts[k])
  }

  ghost predicate Fresh(env: Env, f: Fleet) {
    && f.db == Db(None, []) && f.confirmed == env.confirmed0 && f.accepted == {} && f.dropped == {}
    && |f.sessions| == env.drivers && forall i :: 0 <= i < |f.sessions| ==> f.sessions[i] == Out
  }

  predicate Answers(at: Point) {
    at.BatchAnswered? || at.SizeAnswered?
  }

  ghost predicate MirrorsOne(d: Cluster.Driver, session: Local) {
    match session
    case Out => d.phase.Down?
    case HasRead(start) => d.phase == Ready(start)
    case In(live) =>
      && d.isLeader
      && (if Answers(live.at) then d.phase.Answered? && d.phase.letters == live.at.letters else d.phase.Streaming?)
      && d.phase.core == live.w.core && d.phase.feed == live.feed
  }

  ghost predicate Mirrors(env: Env, run: seq<State>, f: Fleet) {
    && run != [] && IsRun(env, run)
    && var s := run[|run| - 1];
      && s.db == f.db && s.confirmed == f.confirmed && s.accepted == f.accepted && s.dropped == f.dropped
      && |s.drivers| == |f.sessions|
      && forall i :: 0 <= i < |f.sessions| ==> MirrorsOne(s.drivers[i], f.sessions[i])
  }

  lemma FreshIsInitial(env: Env, f: Fleet) returns (run: seq<State>)
    requires Fresh(env, f)
    ensures Mirrors(env, run, f)
  {
    var s := State(f.db, f.confirmed, None, seq(env.drivers, _ => Cluster.Driver(Down, false)), {}, {}, []);
    run := [s];
  }

  /** What a stage of driver i leaves: the session at its next point, or its end. */
  ghost predicate Stands(env: Env, run: seq<State>, i: nat, feed: Feed, r: Resumed, d: set<RowRef>) {
    match r
    case Ends(w, _) => Ended(env, run, i, w, d)
    case Goes(w, at) =>
      if Answers(at) then Holding(env, run, i, feed, w, at.letters, d) else At(env, run, i, feed, w, d)
  }

  lemma EnterIsSteps(env: Env, run: seq<State>, i: nat, feed: Feed, w: World, d: set<RowRef>, t: Turn)
    returns (longer: seq<State>)
    requires At(env, run, i, feed, w, d)
    ensures OnlyMoves(run, longer, i) && Stands(env, longer, i, feed, Enter(w, t), d)
  {
    hide SubmitHalf, IsRun;
    longer := run;
    if t.cancelled {
      longer := Die(env, run, i, feed, w, d);
    } else if w.batchAt.Some? && t.now >= w.batchAt.value && w.core.pending != [] {
      longer := SubmitIsStep(env, run, i, feed, w, d, t.batchFlush.submission);
    }
  }

  lemma TakeInIsSteps(
    env: Env, cfg: Config, run: seq<State>, i: nat, feed: Feed, w: World, d: set<RowRef>, t: Turn, end: Lsn,
    m: Message, next: Feed)
    returns (longer: seq<State>)
    requires At(env, run, i, feed, w, d) && Says(env, cfg, w, feed, Data(end, m), next)
    ensures OnlyMoves(run, longer, i)
    ensures Stands(env, longer, i, next, TakeIn(cfg, w, t, end, m),
                   d + Drops(env.wal, cfg, w.relations, Data(end, m), feed, next))
  {
    hide SubmitHalf, IsRun, EventOf, Noted, Drops, Says;
    longer := Take(env, cfg, run, i, feed, w, d, t, end, m, next);
    var v := Noted(cfg, w.(core := OnPosition(w.core, end)), t, m);
    var d' := d + Drops(env.wal, cfg, w.relations, Data(end, m), feed, next);
    if EventOf(cfg, w.relations, m).Commit? && |v.core.pending| >= cfg.maxBatchSize && v.core.pending != [] {
      longer := SubmitIsStep(env, longer, i, next, v, d', t.sizeFlush.submission);
    }
  }

  /** The session of driver i, as the others have left what it shares with them. */
  ghost predicate Resumes(env: Env, run: seq<State>, i: nat, w: World, feed: Feed, at: Point, d: set<RowRef>) {
    if Answers(at) then Holding(env, run, i, feed, w, at.letters, d) else At(env, run, i, feed, w, d)
  }

  lemma ContinueIsSteps(
    env: Env, cfg: Config, run: seq<State>, i: nat, w: World, feed: Feed, at: Point, d: set<RowRef>, next: Feed)
    returns (longer: seq<State>)
    requires FullRules(env.rules) && !at.Head? && Resumes(env, run, i, w, feed, at, d)
    requires if at.Listening? then Says(env, cfg, w, feed, at.turn.receive, next) else next == feed
    ensures OnlyMoves(run, longer, i)
    ensures Stands(env, longer, i, next, Continue(cfg, w, at), d + DropsAt(env.wal, cfg, Live(w, feed, at), next))
  {
    hide At, Holding, Ended, Says, PersistHalf, StandbyStage, ReceiveStage, TakeIn;
    assert d + {} == d;
    match at {
      case BatchAnswered(t, letters) =>
        longer := PersistIsStep(env, run, i, feed, w, letters, d, t.batchFlush);
      case AtStandby(t, now) =>
        longer := StandbyDue(env, cfg, run, i, feed, w, d, t, now);
      case Listening(t) =>
        if t.receive.Data? {
          longer := TakeInIsSteps(env, cfg, run, i, feed, w, d, t, t.receive.end, t.receive.message, next);
        } else {
          longer := Heartbeat(env, cfg, run, i, feed, w, d, t, next);
        }
      case SizeAnswered(t, letters) =>
        longer := PersistIsStep(env, run, i, feed, w, letters, d, t.sizeFlush);
    }
  }

  /** The other drivers are mirrored as before. */
  lemma OthersMirrored(env: Env, run: seq<State>, longer: seq<State>, f: Fleet, g: Fleet, i: nat)
    requires Mirrors(env, run, f) && OnlyMoves(run, longer, i) && IsRun(env, longer)
    requires i < |f.sessions| == |g.sessions|
    requires forall j :: 0 <= j < |f.sessions| && j != i ==> g.sessions[j] == f.sessions[j]
    requires var s := longer[|longer| - 1];
      && s.db == g.db && s.confirmed == g.confirmed && s.accepted == g.accepted && s.dropped == g.dropped
      && MirrorsOne(s.drivers[i], g.sessions[i])
    ensures Mirrors(env, longer, g)
  {
    hide IsRun, MirrorsOne;
    var s, s' := run[|run| - 1], longer[|longer| - 1];
    forall j | 0 <= j < |g.sessions| ensures MirrorsOne(s'.drivers[j], g.sessions[j]) {
      assert MirrorsOne(s.drivers[j], f.sessions[j]);
    }
  }

  lemma StageIsMirrored(
    env: Env, run: seq<State>, longer: seq<State>, f: Fleet, i: nat, r: Resumed, next: Feed, dropped: set<RowRef>)
    requires Mirrors(env, run, f) && OnlyMoves(run, longer, i) && i < |f.sessions|
    requires Stands(env, longer, i, next, r, f.dropped + dropped)
    ensures Mirrors(env, longer, Settle(f, i, r, next, dropped))
  {
    hide IsRun;
    OthersMirrored(env, run, longer, f, Settle(f, i, r, next, dropped), i);
  }

  lemma ResumesFromMirror(env: Env, run: seq<State>, f: Fleet, i: nat)
    requires Mirrors(env, run, f) && !env.rules.exclusiveSlot && i < |f.sessions| && f.sessions[i].In?
    ensures var live := f.sessions[i].live; Resumes(env, run, i, Refreshed(f, live.w), live.feed, live.at, f.dropped)
  {
    hide IsRun;
    assert MirrorsOne(run[|run| - 1].drivers[i], f.sessions[i]);
  }

  lemma KillIsStep(env: Env, run: seq<State>, f: Fleet, i: nat) returns (longer: seq<State>)
    requires Mirrors(env, run, f) && i < |f.sessions|
    ensures Mirrors(env, longer, f.(sessions := f.sessions[i := Out]))
  {
    var s := run[|run| - 1];
    longer := Extend(env, run, s.(drivers := s.drivers[i := Cluster.Driver(Down, false)]), i, Crash);
    OthersMirrored(env, run, longer, f, f.(sessions := f.sessions[i := Out]), i);
  }

  lemma OpenIsStep(env: Env, cfg: Config, run: seq<State>, f: Fleet, a: Act) returns (longer: seq<State>)
    requires Mirrors(env, run, f) && !env.rules.exclusiveSlot && (a.Read? || a.Begin?) && MayAct(env, cfg, f, a)
    ensures Mirrors(env, longer, Perform(env, cfg, f, a))
  {
    hide IsRun;
    var i := a.driver;
    assert MirrorsOne(run[|run| - 1].drivers[i], f.sessions[i]);
    if a.Read? {
      longer := ReadIsStep(env, run, i);
    } else {
      longer := StartIsStep(env, cfg, run, i, f.sessions[i].start, a.now);
    }
    OthersMirrored(env, run, longer, f, Perform(env, cfg, f, a), i);
  }

  lemma ActIsSteps(env: Env, cfg: Config, run: seq<State>, f: Fleet, a: Act) returns (longer: seq<State>)
    requires FullRules(env.rules) && !env.rules.exclusiveSlot
    requires Mirrors(env, run, f) && MayAct(env, cfg, f, a)
    ensures Mirrors(env, longer, Perform(env, cfg, f, a))
  {
    hide Mirrors, Says, Resumes, Stands, Enter, Continue, Drops, OnlyMoves, At, Settle, StartWorld;
    if a.Read? || a.Begin? {
      longer := OpenIsStep(env, cfg, run, f, a);
    } else if a.Kill? {
      longer := KillIsStep(env, run, f, a.driver);
    } else {
      var i, live := a.driver, f.sessions[a.driver].live;
      var w := Refreshed(f, live.w);
      ResumesFromMirror(env, run, f, i);
      if a.Iterate? {
        AtHead(env, run, i, w, live.feed, live.at, f.dropped);
        longer := EnterIsSteps(env, run, i, live.feed, w, f.dropped, a.turn);
        assert f.dropped + {} == f.dropped;
        StageIsMirrored(env, run, longer, f, i, Enter(w, a.turn), live.feed, {});
      } else {
        longer := ContinueIsSteps(env, cfg, run, i, w, live.feed, live.at, f.dropped, a.next);
        StageIsMirrored(env, run, longer, f, i, Continue(cfg, w, live.at), a.next, DropsAt(env.wal, cfg, live, a.next));
      }
    }
  }

  lemma AtHead(env: Env, run: seq<State>, i: nat, w: World, feed: Feed, at: Point, d: set<RowRef>)
    requires Resumes(env, run, i, w, feed, at, d) && at.Head?
    ensures At(env, run, i, feed, w, d)
  {
  }

  /** However the stages of any number of drivers interleave, what their code does is a run of the cluster. */
  lemma {:induction false} FleetIsARun(env: Env, cfg: Config, history: seq<Fleet>, acts: seq<Act>)
    returns (run: seq<State>)
    requires FullRules(env.rules) && !env.rules.exclusiveSlot
    requires IsHistory(env, cfg, history, acts) && Fresh(env, history[0])
    ensures Mirrors(env, run, history[|acts|])
    decreases |acts|
  {
    if acts == [] {
      run := FreshIsInitial(env, history[0]);
    } else {
      hide Mirrors, MayAct, Perform;
      var n := |acts| - 1;
      run := FleetIsARun(env, cfg, history[..n + 1], acts[..n]);
      run := ActIsSteps(env, cfg, run, history[n], acts[n]);
    }
  }

  /**
   * At-least-once delivery of the code: in every interleaving, each row at or below the durable cursor was accepted,
   * is dead-lettered, or was received by some driver and not decoded; and the slot is not ahead of the cursor.
   */
  lemma FleetDeliversAtLeastOnce(env: Env, cfg: Config, history: seq<Fleet>, acts: seq<Act>)
    requires ValidEnv(env) && FullRules(env.rules) && !env.rules.exclusiveSlot
    requires IsHistory(env, cfg, history, acts) && Fresh(env, history[0])
    ensures var f := history[|acts|]; Safe(env, f.db, f.confirmed, f.accepted, f.dropped)
  {
    hide MayAct, Perform, Safe;
    var run := FleetIsARun(env, cfg, history, acts);
    ReachableIsSafe(env, run);
  }

  /** A single driver's code, without late commits and with unique ids, writes no row twice to the dead-letter table. */
  lemma FleetDeadLettersOnce(env: Env, cfg: Config, history: seq<Fleet>, acts: seq<Act>)
    requires ValidEnv(env) && FullRules(env.rules) && !env.rules.exclusiveSlot
    requires env.drivers == 1 && !env.rules.lateCommits && SingleDriver.UniqueIds(env.wal)
    requires IsHistory(env, cfg, history, acts) && Fresh(env, history[0])
    ensures DistinctLetters(history[|acts|].db.dlq)
  {
    hide MayAct, Perform;
    var run := FleetIsARun(env, cfg, history, acts);
    SingleDriver.DeadLetteredAtMostOnce(env, run);
  }
}
