/** What a session submits, as a fold over the messages it received: the reference for Stream.Run. */
module Fold {
  import opened Basics
  import opened Rows
  import opened Session
  import opened Server
  import opened Stream

  // ---- The reference: rows grouped by the decoded commits ---------------------------------------

  /** The rows each decoded commit completes, in commit order. */
  function Groups(events: seq<Event>): seq<seq<ParsedInsert>> {
    if events == [] then []
    else
      var prior, last := events[..|events| - 1], events[|events| - 1];
      if last.Commit? then Groups(prior) + [Open(prior)] else Groups(prior)
  }

  /** The decoded rows that no decoded commit has completed yet. */
  function Open(events: seq<Event>): seq<ParsedInsert> {
    if events == [] then []
    else
      OpenAfter(Open(events[..|events| - 1]), events[|events| - 1])
  }

  function OpenAfter(open: seq<ParsedInsert>, e: Event): seq<ParsedInsert> {
    match e
    case Insert(Some(row)) => open + [row]
    case Commit(_) => []
    case _ => open
  }

  /** Every decoded row, in the order received. */
  function DecodedRows(events: seq<Event>): seq<ParsedInsert> {
    if events == [] then []
    else
      var prior, last := events[..|events| - 1], events[|events| - 1];
      if last.Insert? && last.job.Some? then DecodedRows(prior) + [last.job.value] else DecodedRows(prior)
  }

  /** Lost messages lose no other row: what is decoded is grouped or open, whatever commits and begins were lost. */
  lemma {:induction false} NoDecodedRowIsLost(events: seq<Event>)
    ensures Concat(Groups(events)) + Open(events) == DecodedRows(events)
  {
    if events != [] {
      var prior := events[..|events| - 1];
      NoDecodedRowIsLost(prior);
      ConcatAppend(Groups(prior), [Open(prior)]);
      ConcatOne(Open(prior));
    }
  }

  lemma OneMore(events: seq<Event>, e: Event)
    ensures Groups(events + [e]) == if e.Commit? then Groups(events) + [Open(events)] else Groups(events)
    ensures Open(events + [e]) == OpenAfter(Open(events), e)
  {
    assert (events + [e])[..|events|] == events;
  }

  lemma {:induction false} OpenAppendRows(events: seq<Event>, rows: seq<ParsedInsert>)
    ensures Open(events + Inserts(rows)) == Open(events) + rows
    ensures Groups(events + Inserts(rows)) == Groups(events)
  {
    hide Groups, Open;
    if rows == [] {
      assert events + Inserts(rows) == events;
    } else {
      var prior, last := rows[..|rows| - 1], rows[|rows| - 1];
      OpenAppendRows(events, prior);
      OneMore(events + Inserts(prior), Insert(Some(last)));
      assert events + Inserts(rows) == events + Inserts(prior) + [Insert(Some(last))];
      assert rows == prior + [last];
    }
  }

  lemma GroupsOfTransaction(events: seq<Event>, tx: Tx)
    requires Open(events) == []
    ensures Groups(events + EventsOf(tx)) == Groups(events) + [tx.rows] && Open(events + EventsOf(tx)) == []
  {
    hide Groups, Open, Inserts;
    OneMore(events, Begin);
    OpenAppendRows(events + [Begin], tx.rows);
    var filled := events + [Begin] + Inserts(tx.rows);
    OneMore(filled, Commit(tx.commit));
    assert Open(filled) == tx.rows;
    assert events + EventsOf(tx) == filled + [Commit(tx.commit)];
  }

  function RowsOf(txs: seq<Tx>): seq<seq<ParsedInsert>> {
    seq(|txs|, i requires 0 <= i < |txs| => txs[i].rows)
  }

  lemma RowsOfLast(txs: seq<Tx>)
    requires txs != []
    ensures RowsOf(txs) == RowsOf(txs[..|txs| - 1]) + [txs[|txs| - 1].rows]
  {
  }

  /** When every message decodes, the groups are the transactions themselves. */
  lemma {:induction false} GroupsAreTransactions(txs: seq<Tx>)
    ensures Groups(AllEvents(txs)) == RowsOf(txs)
    ensures Open(AllEvents(txs)) == []
  {
    if txs != [] {
      hide Groups, Open, EventsOf, RowsOf;
      GroupsAreTransactions(txs[..|txs| - 1]);
      GroupsOfTransaction(AllEvents(txs[..|txs| - 1]), txs[|txs| - 1]);
      RowsOfLast(txs);
    }
  }

  // ---- Batches are made of whole groups -----------------------------------------------------------

  /** All groups but the last: what was pending before the commit that brought the last one. */
  function AllButLast(groups: seq<seq<ParsedInsert>>): seq<ParsedInsert> {
    if groups == [] then [] else Concat(groups[..|groups| - 1])
  }

  /**
   * The batches, in order, are exactly the first m groups, and no group is split between two of them; and
   * a batch without its last group is shorter than max.
   */
  ghost predicate WholeGroups(batches: seq<seq<ParsedInsert>>, groups: seq<seq<ParsedInsert>>, m: nat, max: nat)
    requires m <= |groups|
    decreases |batches|, 1
  {
    if batches == [] then m == 0
    else
      exists k: nat | k < m :: LastBatch(batches, groups, k, m, max)
  }

  ghost predicate LastBatch(batches: seq<seq<ParsedInsert>>, groups: seq<seq<ParsedInsert>>, k: nat, m: nat, max: nat)
    requires k < m <= |groups| && batches != []
    decreases |batches|, 0
  {
    && batches[|batches| - 1] == Concat(groups[k..m])
    && |AllButLast(groups[k..m])| < max
    && WholeGroups(batches[..|batches| - 1], groups, k, max)
  }

  lemma {:induction false} MoreGroups(
    batches: seq<seq<ParsedInsert>>, groups: seq<seq<ParsedInsert>>, more: seq<seq<ParsedInsert>>, m: nat, max: nat)
    requires m <= |groups| && WholeGroups(batches, groups, m, max)
    ensures WholeGroups(batches, groups + more, m, max)
  {
    if batches != [] {
      var k: nat :| k < m && LastBatch(batches, groups, k, m, max);
      MoreGroups(batches[..|batches| - 1], groups, more, k, max);
      assert (groups + more)[k..m] == groups[k..m];
      assert LastBatch(batches, groups + more, k, m, max);
    }
  }

  lemma ConcatOneMore(batches: seq<seq<ParsedInsert>>, groups: seq<seq<ParsedInsert>>, k: nat, m: nat)
    requires k <= m <= |groups| && batches != [] && batches[|batches| - 1] == Concat(groups[k..m])
    requires Concat(batches[..|batches| - 1]) == Concat(groups[..k])
    ensures Concat(batches) == Concat(groups[..m])
  {
    hide Concat;
    ConcatLast(batches);
    ConcatAppend(groups[..k], groups[k..m]);
    assert groups[..m] == groups[..k] + groups[k..m];
  }

  lemma {:induction false} WholeGroupsConcat(
    batches: seq<seq<ParsedInsert>>, groups: seq<seq<ParsedInsert>>, m: nat, max: nat)
    requires m <= |groups| && WholeGroups(batches, groups, m, max)
    ensures Concat(batches) == Concat(groups[..m])
  {
    if batches != [] {
      hide Concat, AllButLast;
      var k: nat :| k < m && LastBatch(batches, groups, k, m, max);
      WholeGroupsConcat(batches[..|batches| - 1], groups, k, max);
      ConcatOneMore(batches, groups, k, m);
    }
  }

  /** The first m groups were submitted and the others are pending. */
  ghost predicate FoldUpTo(w: World, m: nat, max: nat) {
    && m <= |Groups(w.seen)|
    && WholeGroups(w.batches, Groups(w.seen), m, max)
    && w.core.pending == Concat(Groups(w.seen)[m..])
    && |AllButLast(Groups(w.seen)[m..])| < max
    && w.core.buf == Open(w.seen)
  }

  ghost predicate IsFold(w: World, max: nat) {
    exists m: nat :: FoldUpTo(w, m, max)
  }

  lemma SubmitRest(w: World, v: World, max: nat)
    requires IsFold(w, max) && w.core.pending != []
    requires v.seen == w.seen && v.batches == w.batches + [w.core.pending]
    requires v.core.buf == w.core.buf && v.core.pending == []
    ensures IsFold(v, max)
  {
    hide Groups, Open;
    var m: nat :| FoldUpTo(w, m, max);
    var groups := Groups(w.seen);
    assert v.batches[..|w.batches|] == w.batches;
    assert groups[m..|groups|] == groups[m..] && groups[|groups|..] == [];
    assert m < |groups|;
    assert LastBatch(v.batches, groups, m, |groups|, max);
    assert FoldUpTo(v, |groups|, max);
  }

  lemma FlushKeepsFold(w: World, f: FlushScript, max: nat)
    requires IsFold(w, max) && w.core.pending != []
    ensures FlushBatch(w, f).Running? ==> IsFold(FlushBatch(w, f).w, max)
  {
    hide IsFold;
    if FlushBatch(w, f).Running? {
      SubmitRest(w, FlushBatch(w, f).w, max);
    }
  }

  /** A commit adds a group behind what was pending, which was below the trigger. */
  lemma GroupArrives(groups: seq<seq<ParsedInsert>>, m: nat, group: seq<ParsedInsert>)
    requires m <= |groups|
    ensures (groups + [group])[m..] == groups[m..] + [group]
    ensures Concat((groups + [group])[m..]) == Concat(groups[m..]) + group
    ensures AllButLast((groups + [group])[m..]) == Concat(groups[m..])
  {
    assert (groups[m..] + [group])[..|groups[m..]|] == groups[m..];
    ConcatAppend(groups[m..], [group]);
    ConcatOne(group);
  }

  lemma EventKeepsFold(w: World, v: World, e: Event, max: nat)
    requires IsFold(w, max) && |w.core.pending| < max
    requires v.seen == w.seen + [e] && v.batches == w.batches
    requires v.core.buf == OnEvent(w.core, e).buf && v.core.pending == OnEvent(w.core, e).pending
    ensures IsFold(v, max)
  {
    var m: nat :| FoldUpTo(w, m, max);
    var groups := Groups(w.seen);
    OneMore(w.seen, e);
    hide Groups, Open, WholeGroups, AllButLast;
    if e.Commit? {
      MoreGroups(w.batches, groups, [Open(w.seen)], m, max);
      GroupArrives(groups, m, Open(w.seen));
    }
    assert FoldUpTo(v, m, max);
  }

  lemma BatchStageKeepsFold(w: World, t: Turn, max: nat)
    requires IsFold(w, max)
    ensures BatchStage(w, t).Running? ==> IsFold(BatchStage(w, t).w, max)
  {
    hide FlushBatch, WholeGroups;
    if w.core.pending != [] {
      FlushKeepsFold(w, t.batchFlush, max);
    }
    var m: nat :| FoldUpTo(w, m, max);
    assert FoldUpTo(w.(batchAt := None), m, max);
  }

  lemma StandbyStageKeepsFold(cfg: Config, w: World, t: Turn, now: Time, max: nat)
    requires IsFold(w, max)
    ensures StandbyStage(cfg, w, t, now).Running? ==> IsFold(StandbyStage(cfg, w, t, now).w, max)
  {
    hide WholeGroups, Groups, Open;
    var m: nat :| FoldUpTo(w, m, max);
    var r := StandbyStage(cfg, w, t, now);
    if r.Running? {
      assert FoldUpTo(r.w, m, max);
    }
  }

  lemma MessageKeepsFold(cfg: Config, w: World, t: Turn, position: Lsn, m: Message, max: nat)
    requires IsFold(w, max) && |w.core.pending| < max
    ensures MessageStage(cfg, w, t, position, m).Running? ==> IsFold(MessageStage(cfg, w, t, position, m).w, max)
  {
    hide FlushBatch, WholeGroups, Groups, Open, EventOf, Learn;
    var e := EventOf(cfg, w.relations, m);
    var next := Noted(cfg, w.(core := OnPosition(w.core, position)), t, m);
    EventKeepsFold(w, next, e, max);
    var k: nat :| FoldUpTo(next, k, max);
    assert FoldUpTo(next.(batchAt := None), k, max);
    if next.core.pending != [] {
      FlushKeepsFold(next, t.sizeFlush, max);
    }
  }

  lemma ReceiveStageKeepsFold(cfg: Config, w: World, t: Turn, max: nat)
    requires IsFold(w, max) && |w.core.pending| < max
    ensures ReceiveStage(cfg, w, t).Running? ==> IsFold(ReceiveStage(cfg, w, t).w, max)
  {
    hide MessageStage, WholeGroups, Groups, Open;
    if t.receive.Data? {
      MessageKeepsFold(cfg, w, t, t.receive.end, t.receive.message, max);
    } else {
      var m: nat :| FoldUpTo(w, m, max);
      var r := ReceiveStage(cfg, w, t);
      if r.Running? {
        assert FoldUpTo(r.w, m, max);
      }
    }
  }

  lemma TurnKeepsFold(cfg: Config, w: World, t: Turn)
    requires Positive(cfg) && LoopHead(cfg, w) && IsFold(w, cfg.maxBatchSize)
    ensures RunTurn(cfg, w, t).Running? ==> IsFold(RunTurn(cfg, w, t).w, cfg.maxBatchSize)
  {
    hide BatchStage, StandbyStage, ReceiveStage, IsFold;
    BatchStageKeepsFold(w, t, cfg.maxBatchSize);
    BatchStageKeepsLoopHead(cfg, w, t);
    var r1, now := BatchStage(w, t), NowAfterBatch(w, t);
    if !t.cancelled && r1.Running? {
      StandbyStageKeepsFold(cfg, r1.w, t, now, cfg.maxBatchSize);
      StandbyStageKeepsLoopHead(cfg, r1.w, t, now);
      var r2 := StandbyStage(cfg, r1.w, t, now);
      if r2.Running? {
        ReceiveStageKeepsFold(cfg, r2.w, t, cfg.maxBatchSize);
      }
    }
  }

  lemma {:induction false} RunKeepsFold(cfg: Config, w: World, script: seq<Turn>)
    requires Positive(cfg) && LoopHead(cfg, w) && IsFold(w, cfg.maxBatchSize)
    ensures Run(cfg, w, script).Running? ==> IsFold(Run(cfg, w, script).w, cfg.maxBatchSize)
  {
    hide RunTurn, IsFold;
    if script != [] {
      RunKeepsFold(cfg, w, script[..|script| - 1]);
      DeadlinesAreArmed(cfg, w, script[..|script| - 1]);
      var prior := Run(cfg, w, script[..|script| - 1]);
      if prior.Running? {
        TurnKeepsFold(cfg, prior.w, script[|script| - 1]);
      }
    }
  }

  lemma StartIsFold(cfg: Config, start: Lsn, now: Time, db: Db, confirmed: Lsn, accepted: set<ParsedInsert>)
    requires Positive(cfg)
    ensures var w := StartWorld(cfg, start, now, db, confirmed, accepted);
      LoopHead(cfg, w) && FoldUpTo(w, 0, cfg.maxBatchSize)
  {
  }

  lemma FoldAddsUp(w: World, m: nat, max: nat)
    requires FoldUpTo(w, m, max)
    ensures Concat(w.batches) + w.core.pending == Concat(Groups(w.seen))
    ensures Concat(w.batches) + w.core.pending + w.core.buf == DecodedRows(w.seen)
  {
    hide Groups, Open, DecodedRows;
    var groups := Groups(w.seen);
    WholeGroupsConcat(w.batches, groups, m, max);
    ConcatAppend(groups[..m], groups[m..]);
    assert groups[..m] + groups[m..] == groups;
    NoDecodedRowIsLost(w.seen);
  }

  /**
   * Until its first error a session has submitted, in commit order and without splitting a transaction
   * or repeating a row, exactly the decoded rows of the commits it received, except those still pending;
   * rows whose commit was lost are still buffered, and while there are any the idle advance is blocked.
   */
  lemma SessionIsAFold(
    cfg: Config, start: Lsn, now: Time, db: Db, confirmed: Lsn, accepted: set<ParsedInsert>, script: seq<Turn>)
    requires Positive(cfg)
    requires Run(cfg, StartWorld(cfg, start, now, db, confirmed, accepted), script).Running?
    ensures var w := Run(cfg, StartWorld(cfg, start, now, db, confirmed, accepted), script).w;
      && IsFold(w, cfg.maxBatchSize)
      && Concat(w.batches) + w.core.pending == Concat(Groups(w.seen))
      && Concat(w.batches) + w.core.pending + w.core.buf == DecodedRows(w.seen)
      && (Open(w.seen) != [] ==> !IdleDue(w.core))
  {
    hide RunTurn, Run, WholeGroups, Groups, Open, DecodedRows;
    var w0 := StartWorld(cfg, start, now, db, confirmed, accepted);
    StartIsFold(cfg, start, now, db, confirmed, accepted);
    RunKeepsFold(cfg, w0, script);
    var w := Run(cfg, w0, script).w;
    var m: nat :| FoldUpTo(w, m, cfg.maxBatchSize);
    FoldAddsUp(w, m, cfg.maxBatchSize);
  }

  // ---- MaxBatchSize is a trigger and not a bound ------------------------------------------------------

  /** The batch holds the groups k to m, of which those before m stay below max. */
  ghost predicate Gathers(batch: seq<ParsedInsert>, groups: seq<seq<ParsedInsert>>, k: nat, m: nat, max: nat) {
    && k <= m < |groups|
    && batch == Concat(groups[k..m + 1]) == Concat(groups[k..m]) + groups[m]
    && |Concat(groups[k..m])| < max
  }

  lemma LastBatchGathers(batch: seq<ParsedInsert>, groups: seq<seq<ParsedInsert>>, k: nat, m: nat, max: nat)
    requires k <= m < |groups| && batch == Concat(groups[k..m + 1]) && |AllButLast(groups[k..m + 1])| < max
    ensures Gathers(batch, groups, k, m, max)
  {
    var gathered := groups[k..m + 1];
    assert gathered[..|gathered| - 1] == groups[k..m] && gathered[|gathered| - 1] == groups[m];
  }

  lemma {:induction false} EveryBatchGathers(
    batches: seq<seq<ParsedInsert>>, groups: seq<seq<ParsedInsert>>, m: nat, max: nat, b: nat)
    requires m <= |groups| && WholeGroups(batches, groups, m, max) && b < |batches|
    ensures exists j: nat, l: nat :: Gathers(batches[b], groups, j, l, max)
  {
    hide Gathers, AllButLast;
    var k: nat :| k < m && LastBatch(batches, groups, k, m, max);
    if b < |batches| - 1 {
      EveryBatchGathers(batches[..|batches| - 1], groups, k, max, b);
    } else {
      LastBatchGathers(batches[b], groups, k, m - 1, max);
    }
  }

  /**
   * A batch is some whole transactions that together stay below MaxBatchSize, and one more behind them, which is not
   * split: its own rows bound the excess.
   */
  lemma BatchOvershootsByItsLastTransaction(
    cfg: Config, start: Lsn, now: Time, db: Db, confirmed: Lsn, accepted: set<ParsedInsert>, script: seq<Turn>,
    b: nat)
    requires Positive(cfg)
    requires var r := Run(cfg, StartWorld(cfg, start, now, db, confirmed, accepted), script);
      r.Running? && b < |r.w.batches|
    ensures var w := Run(cfg, StartWorld(cfg, start, now, db, confirmed, accepted), script).w;
      exists k: nat, m: nat ::
        && Gathers(w.batches[b], Groups(w.seen), k, m, cfg.maxBatchSize)
        && |w.batches[b]| < cfg.maxBatchSize + |Groups(w.seen)[m]|
  {
    hide RunTurn, Run, WholeGroups, Groups, Open;
    var w := Run(cfg, StartWorld(cfg, start, now, db, confirmed, accepted), script).w;
    SessionIsAFold(cfg, start, now, db, confirmed, accepted, script);
    var n: nat :| FoldUpTo(w, n, cfg.maxBatchSize);
    EveryBatchGathers(w.batches, Groups(w.seen), n, cfg.maxBatchSize, b);
    var k: nat, m: nat :| Gathers(w.batches[b], Groups(w.seen), k, m, cfg.maxBatchSize);
    assert |w.batches[b]| < cfg.maxBatchSize + |Groups(w.seen)[m]|;
  }

  /** As long as no transaction brings more than one row, MaxBatchSize is a bound. */
  lemma SingleRowsNeverExceed(
    cfg: Config, start: Lsn, now: Time, db: Db, confirmed: Lsn, accepted: set<ParsedInsert>, script: seq<Turn>,
    b: nat)
    requires Positive(cfg)
    requires var r := Run(cfg, StartWorld(cfg, start, now, db, confirmed, accepted), script);
      r.Running? && b < |r.w.batches| && forall g :: 0 <= g < |Groups(r.w.seen)| ==> |Groups(r.w.seen)[g]| <= 1
    ensures |Run(cfg, StartWorld(cfg, start, now, db, confirmed, accepted), script).w.batches[b]| <= cfg.maxBatchSize
  {
    hide RunTurn, Run, Groups;
    BatchOvershootsByItsLastTransaction(cfg, start, now, db, confirmed, accepted, script, b);
  }
}
