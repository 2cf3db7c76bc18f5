/**
 * When a batch can exceed MaxBatchSize: exactly when the transactions of a stream, by their sizes alone, allow it.
 * One half is a bound on every session; for the other a session is built, turn by turn, over any sizes.
 */
module BatchSize {
  import opened Basics
  import opened Rows
  import opened DeadLetters
  import opened Session
  import opened Stream
  import opened Fold
  import Decimal

  // ---- Sizes of transactions ------------------------------------------------------------------------------

  function Sum(sizes: seq<nat>): nat {
    if sizes == [] then 0 else Sum(sizes[..|sizes| - 1]) + sizes[|sizes| - 1]
  }

  function Sizes(groups: seq<seq<ParsedInsert>>): seq<nat> {
    seq(|groups|, i requires 0 <= i < |groups| => |groups[i]|)
  }

  lemma {:induction false} ConcatSize(groups: seq<seq<ParsedInsert>>)
    ensures |Concat(groups)| == Sum(Sizes(groups))
  {
    if groups != [] {
      ConcatSize(groups[..|groups| - 1]);
      assert Sizes(groups)[..|groups| - 1] == Sizes(groups[..|groups| - 1]);
    }
  }

  lemma SumOfLast(sizes: seq<nat>, last: nat)
    ensures Sum(sizes + [last]) == Sum(sizes) + last
  {
    assert (sizes + [last])[..|sizes|] == sizes;
  }

  lemma SumOfMore(sizes: seq<nat>, k: nat, m: nat)
    requires k <= m < |sizes|
    ensures Sum(sizes[k..m + 1]) == Sum(sizes[k..m]) + sizes[m]
  {
    SumOfLast(sizes[k..m], sizes[m]);
    hide Sum;
    assert sizes[k..m] + [sizes[m]] == sizes[k..m + 1];
  }

  lemma {:induction false} SumSplits(sizes: seq<nat>, k: nat, m: nat)
    requires k <= m <= |sizes|
    ensures Sum(sizes[..m]) == Sum(sizes[..k]) + Sum(sizes[k..m])
    decreases m
  {
    if k < m {
      SumSplits(sizes, k, m - 1);
      SumOfMore(sizes, k, m - 1);
      SumOfMore(sizes, 0, m - 1);
      assert sizes[0..m - 1] == sizes[..m - 1] && sizes[0..m] == sizes[..m];
    }
  }

  /** The transactions k to m - 1 stay below max, and with transaction m they exceed it. */
  predicate Exceeds(sizes: seq<nat>, k: nat, m: nat, max: nat) {
    k <= m < |sizes| && Sum(sizes[k..m]) < max < Sum(sizes[k..m + 1])
  }

  // ---- A table of ids --------------------------------------------------------------------------------------

  const LIMIT := 0x7FFF_FFFF_FFFF_FFFF

  const JOBS := Relations(map[0 := RelationMeta("jobs", [Id])])

  function Row(n: nat): ParsedInsert
    requires n <= LIMIT
  {
    ZERO_ROW.(id := n)
  }

  /** Rows a + 1 to b. */
  function Ids(a: nat, b: nat): (rows: seq<ParsedInsert>)
    requires a <= b <= LIMIT
    ensures |rows| == b - a
  {
    seq(b - a, i requires 0 <= i < b - a => Row(a + 1 + i))
  }

  lemma IdsAreAccepted(a: nat, b: nat)
    requires a <= b <= LIMIT
    ensures Consistent(Ids(a, b), AcceptAll(Ids(a, b)))
  {
    hide Decimal.FormatInt;
    var rows := Ids(a, b);
    forall i, j | 0 <= i < j < b - a ensures Cid(rows[i]) != Cid(rows[j]) {
      assert rows[i] == Row(a + 1 + i) && rows[j] == Row(a + 1 + j);
      Decimal.FormatInjective(a + 1 + i, a + 1 + j);
    }
    AnswerableExactly(rows);
  }

  lemma RowIsRead(cfg: Config, n: nat)
    requires n <= LIMIT
    ensures JobOf(cfg, JOBS, 0, [Value(Decimal.FormatInt(n))]) == Some(Row(n))
  {
    Decimal.FormatThenParse(n);
    assert SetColumns([Id], [Value(Decimal.FormatInt(n))], 0, cfg.clock) == Ok(ZERO_ROW);
    assert SetColumn(ZERO_ROW, Id, Decimal.FormatInt(n), cfg.clock) == Ok(Row(n));
    assert ParseColumns([Id], [Value(Decimal.FormatInt(n))], cfg.clock) == Ok(Row(n));
  }

  // ---- Turns ------------------------------------------------------------------------------------------------

  function Accepting(rows: seq<ParsedInsert>): FlushScript {
    FlushScript(SubmitAnswered(AcceptAll(rows)), Committed, true)
  }

  /** A turn before any deadline that brings one message, and accepts these rows if its commit fills the batch. */
  function Brings(w: World, m: Message, rows: seq<ParsedInsert>): Turn {
    var now := (if w.batchAt.Some? && w.batchAt.value < w.standbyAt then w.batchAt.value else w.standbyAt) - 1;
    Turn(false, now, Accepting(rows), now, Committed, true, now, Data(0, m), now, Accepting(rows))
  }

  lemma QuietTurn(cfg: Config, w: World, m: Message, rows: seq<ParsedInsert>)
    ensures RunTurn(cfg, w, Brings(w, m, rows)) == MessageStage(cfg, w, Brings(w, m, rows), 0, m)
  {
    hide MessageStage;
  }

  /** A turn at the batch deadline that brings nothing. */
  function Flushes(w: World): Turn
    requires w.batchAt.Some?
  {
    var accepting := Accepting(w.core.pending);
    Turn(false, w.batchAt.value, accepting, w.standbyAt - 1, Committed, true, 0, TimedOut, 0, accepting)
  }

  lemma FlushTurn(cfg: Config, w: World)
    requires w.batchAt.Some? && w.core.pending != [] && Consistent(w.core.pending, AcceptAll(w.core.pending))
    ensures var r := RunTurn(cfg, w, Flushes(w));
      && r.Running? && r.w.core.pending == [] && r.w.core.buf == w.core.buf && r.w.batchAt == None
      && r.w.seen == w.seen && r.w.relations == w.relations && r.w.batches == w.batches + [w.core.pending]
  {
    AcceptedFlush(w);
    hide FlushBatch, Consistent, AcceptAll;
  }

  lemma Then(cfg: Config, w0: World, script: seq<Turn>, w: World, t: Turn)
    requires Run(cfg, w0, script) == Running(w)
    ensures Run(cfg, w0, script + [t]) == RunTurn(cfg, w, t)
  {
    hide RunTurn;
    assert (script + [t])[..|script|] == script;
  }

  // ---- A session over transactions of given sizes -------------------------------------------------------------

  /** Transactions of these sizes have come in, with the rows 1 to n; those from a + 1 on are pending. */
  ghost predicate Stands(cfg: Config, w: World, a: nat, n: nat, sizes: seq<nat>) {
    && a <= n <= LIMIT && n == Sum(sizes)
    && (w.core.pending != [] <==> w.batchAt.Some?)
    && w.core.pending == Ids(a, n) && w.core.buf == [] && w.relations == JOBS
    && Open(w.seen) == [] && Sizes(Groups(w.seen)) == sizes
  }

  /** v is w with the rows n + 1 to n + s in the buffer. */
  ghost predicate Filled(w: World, v: World, n: nat, s: nat) {
    && n + s <= LIMIT
    && v.core.pending == w.core.pending && v.core.buf == Ids(n, n + s) && v.batchAt == w.batchAt
    && v.relations == JOBS && v.batches == w.batches
    && Open(v.seen) == v.core.buf && Groups(v.seen) == Groups(w.seen)
  }

  lemma RowIsNoted(cfg: Config, v: World, t: Turn, n: nat)
    requires n <= LIMIT && v.relations == JOBS
    ensures MessageStage(cfg, v, t, 0, InsertMessage(0, [Value(Decimal.FormatInt(n))])) ==
            Running(v.(core := OnPosition(v.core, 0).(buf := v.core.buf + [Row(n)]),
                       seen := v.seen + [Insert(Some(Row(n)))]))
  {
    hide FlushBatch, JobOf, Decimal.FormatInt;
    RowIsRead(cfg, n);
  }

  lemma OneRow(cfg: Config, w: World, v: World, n: nat, s: nat) returns (t: Turn)
    requires Filled(w, v, n, s) && n + s < LIMIT
    ensures var r := RunTurn(cfg, v, t); r.Running? && Filled(w, r.w, n, s + 1)
  {
    hide RunTurn, Brings, MessageStage, Open, Groups, Decimal.FormatInt;
    var m := InsertMessage(0, [Value(Decimal.FormatInt(n + s + 1))]);
    t := Brings(v, m, []);
    QuietTurn(cfg, v, m, []);
    RowIsNoted(cfg, v, t, n + s + 1);
    OneMore(v.seen, Insert(Some(Row(n + s + 1))));
    assert Ids(n, n + s) + [Row(n + s + 1)] == Ids(n, n + s + 1);
  }

  lemma {:induction false} FillBuffer(cfg: Config, w0: World, script: seq<Turn>, w: World, n: nat, s: nat)
    returns (longer: seq<Turn>, v: World)
    requires Run(cfg, w0, script) == Running(w) && Filled(w, w, n, 0) && n + s <= LIMIT
    ensures Run(cfg, w0, longer) == Running(v) && Filled(w, v, n, s)
  {
    longer, v := script, w;
    if s > 0 {
      hide RunTurn, Filled;
      longer, v := FillBuffer(cfg, w0, script, w, n, s - 1);
      FilledWithin(w, v, n, s - 1);
      var t := OneRow(cfg, w, v, n, s - 1);
      Then(cfg, w0, longer, v, t);
      longer, v := longer + [t], RunTurn(cfg, v, t).w;
    }
  }

  lemma FilledWithin(w: World, v: World, n: nat, s: nat)
    requires Filled(w, v, n, s)
    ensures n + s <= LIMIT
  {
  }

  lemma AcceptedFlush(w: World)
    requires Consistent(w.core.pending, AcceptAll(w.core.pending))
    ensures var r := FlushBatch(w, Accepting(w.core.pending));
      && r.Running? && r.w.core.pending == [] && r.w.core.buf == w.core.buf && r.w.batchAt == None
      && r.w.seen == w.seen && r.w.relations == w.relations && r.w.batches == w.batches + [w.core.pending]
  {
    hide Letters, Accepted, AcceptAll;
  }

  /** v has taken in a commit whose rows are the last of these, and holds them behind what was pending. */
  ghost predicate Committing(w: World, v: World, rows: seq<ParsedInsert>, last: seq<ParsedInsert>) {
    && v.core.pending == rows && v.core.buf == [] && v.relations == JOBS && v.batches == w.batches
    && (rows != [] <==> v.batchAt.Some?)
    && Open(v.seen) == [] && Groups(v.seen) == Groups(w.seen) + [last]
  }

  lemma IdsTogether(a: nat, n: nat, m: nat)
    requires a <= n <= m <= LIMIT
    ensures Ids(a, n) + Ids(n, m) == Ids(a, m)
  {
  }

  lemma CommitTakesAlong(cfg: Config, v: World, t: Turn)
    ensures var next := Noted(cfg, v.(core := OnPosition(v.core, 0)), t, CommitMessage(1));
      && next.core.pending == v.core.pending + v.core.buf && next.core.buf == []
      && next.relations == v.relations && next.batches == v.batches && next.seen == v.seen + [Commit(1)]
      && next.batchAt ==
         if v.core.pending == [] && next.core.pending != [] then Some(t.nowAtCommit + cfg.batchTimeout) else v.batchAt
  {
  }

  lemma CommitNoted(cfg: Config, w: World, v: World, a: nat, n: nat, s: nat, sizes: seq<nat>, t: Turn)
    requires Stands(cfg, w, a, n, sizes) && Filled(w, v, n, s)
    ensures var next := Noted(cfg, v.(core := OnPosition(v.core, 0)), t, CommitMessage(1));
      Committing(w, next, Ids(a, n + s), Ids(n, n + s))
  {
    hide Noted, OnPosition, Open, Groups, Ids, Sizes, Sum;
    OneMore(v.seen, Commit(1));
    OpenClosed(Open(v.seen));
    IdsTogether(a, n, n + s);
    CommitTakesAlong(cfg, v, t);
  }

  lemma OpenClosed(open: seq<ParsedInsert>)
    ensures OpenAfter(open, Commit(1)) == []
  {
  }

  lemma CommitStage(cfg: Config, v: World, t: Turn)
    ensures var next := Noted(cfg, v.(core := OnPosition(v.core, 0)), t, CommitMessage(1));
      MessageStage(cfg, v, t, 0, CommitMessage(1)) ==
      if |next.core.pending| < cfg.maxBatchSize then Running(next)
      else if next.core.pending != [] then FlushBatch(next, t.sizeFlush)
      else Running(next.(batchAt := None))
  {
    hide Noted, FlushBatch;
  }

  lemma CommitRuns(cfg: Config, v: World, rows: seq<ParsedInsert>)
    requires cfg.maxBatchSize > 0 || rows != []
    ensures var t := Brings(v, CommitMessage(1), rows);
      var next := Noted(cfg, v.(core := OnPosition(v.core, 0)), t, CommitMessage(1));
      next.core.pending == rows ==>
        RunTurn(cfg, v, t) == if |rows| < cfg.maxBatchSize then Running(next) else FlushBatch(next, Accepting(rows))
  {
    var t := Brings(v, CommitMessage(1), rows);
    assert t.sizeFlush == Accepting(rows);
    hide Brings, Accepting, RunTurn, MessageStage, Noted, FlushBatch, OnPosition;
    QuietTurn(cfg, v, CommitMessage(1), rows);
    CommitStage(cfg, v, t);
  }

  /** Below the trigger the rows of a commit stay pending; from there on all that is pending is submitted. */
  ghost predicate Gathered(cfg: Config, w: World, r: Outcome, rows: seq<ParsedInsert>, last: seq<ParsedInsert>) {
    && r.Running? && r.w.relations == JOBS && r.w.core.buf == [] && (r.w.core.pending != [] <==> r.w.batchAt.Some?)
    && Open(r.w.seen) == [] && Groups(r.w.seen) == Groups(w.seen) + [last]
    && r.w.core.pending == (if |rows| < cfg.maxBatchSize then rows else [])
    && r.w.batches == if |rows| < cfg.maxBatchSize then w.batches else w.batches + [rows]
  }

  lemma CommitEnds(cfg: Config, w: World, next: World, r: Outcome, rows: seq<ParsedInsert>, last: seq<ParsedInsert>)
    requires Committing(w, next, rows, last) && Consistent(rows, AcceptAll(rows))
    requires r == if |rows| < cfg.maxBatchSize then Running(next) else FlushBatch(next, Accepting(rows))
    ensures Gathered(cfg, w, r, rows, last)
  {
    AcceptedFlush(next);
    hide FlushBatch, Consistent, AcceptAll, Accepting, Open, Groups;
  }

  lemma Bounds(cfg: Config, w: World, v: World, a: nat, n: nat, s: nat, sizes: seq<nat>)
    requires Stands(cfg, w, a, n, sizes) && Filled(w, v, n, s)
    ensures a <= n && n + s <= LIMIT
  {
  }

  lemma PendingIs(w: World, next: World, rows: seq<ParsedInsert>, last: seq<ParsedInsert>)
    requires Committing(w, next, rows, last)
    ensures next.core.pending == rows
  {
  }

  /** The commit of s rows. */
  lemma CommitTurn(cfg: Config, w: World, v: World, a: nat, n: nat, s: nat, sizes: seq<nat>)
    requires (cfg.maxBatchSize > 0 || s > 0) && Stands(cfg, w, a, n, sizes) && Filled(w, v, n, s)
    ensures Gathered(cfg, w, RunTurn(cfg, v, Brings(v, CommitMessage(1), Ids(a, n + s))), Ids(a, n + s), Ids(n, n + s))
  {
    hide *;
    Bounds(cfg, w, v, a, n, s, sizes);
    var rows := Ids(a, n + s);
    var t := Brings(v, CommitMessage(1), rows);
    var next := Noted(cfg, v.(core := OnPosition(v.core, 0)), t, CommitMessage(1));
    CommitNoted(cfg, w, v, a, n, s, sizes, t);
    PendingIs(w, next, rows, Ids(n, n + s));
    CommitRuns(cfg, v, rows);
    IdsAreAccepted(a, n + s);
    CommitEnds(cfg, w, next, RunTurn(cfg, v, t), rows, Ids(n, n + s));
  }

  lemma SizesOfMore(groups: seq<seq<ParsedInsert>>, group: seq<ParsedInsert>)
    ensures Sizes(groups + [group]) == Sizes(groups) + [|group|]
    ensures Sum(Sizes(groups) + [|group|]) == Sum(Sizes(groups)) + |group|
  {
    assert (Sizes(groups) + [|group|])[..|groups|] == Sizes(groups);
  }

  /** One more transaction of s rows. */
  lemma Deliver(cfg: Config, w0: World, script: seq<Turn>, w: World, a: nat, n: nat, s: nat, sizes: seq<nat>)
    returns (longer: seq<Turn>, v: World, a': nat)
    requires (cfg.maxBatchSize > 0 || s > 0) && n + s <= LIMIT
    requires Run(cfg, w0, script) == Running(w) && Stands(cfg, w, a, n, sizes)
    ensures Run(cfg, w0, longer) == Running(v) && Stands(cfg, v, a', n + s, sizes + [s])
    ensures a' == (if n + s - a < cfg.maxBatchSize then a else n + s)
    ensures v.batches == if n + s - a < cfg.maxBatchSize then w.batches else w.batches + [Ids(a, n + s)]
  {
    hide RunTurn, Run, Brings, Ids, Sum, Stands, Filled, Gathered;
    StandsEmpty(cfg, w, a, n, sizes);
    longer, v := FillBuffer(cfg, w0, script, w, n, s);
    CommitTurn(cfg, w, v, a, n, s, sizes);
    var t := Brings(v, CommitMessage(1), Ids(a, n + s));
    Then(cfg, w0, longer, v, t);
    a' := if n + s - a < cfg.maxBatchSize then a else n + s;
    StandsAgain(cfg, w, RunTurn(cfg, v, t), a, n, s, sizes, a');
    longer, v := longer + [t], RunTurn(cfg, v, t).w;
  }

  lemma StandsEmpty(cfg: Config, w: World, a: nat, n: nat, sizes: seq<nat>)
    requires Stands(cfg, w, a, n, sizes)
    ensures a <= n <= LIMIT && Filled(w, w, n, 0)
  {
    hide Groups, Open;
  }

  lemma StandsAgain(cfg: Config, w: World, r: Outcome, a: nat, n: nat, s: nat, sizes: seq<nat>, a': nat)
    requires Stands(cfg, w, a, n, sizes) && n + s <= LIMIT
    requires Gathered(cfg, w, r, Ids(a, n + s), Ids(n, n + s))
    requires a' == if n + s - a < cfg.maxBatchSize then a else n + s
    ensures r.Running? && Stands(cfg, r.w, a', n + s, sizes + [s])
    ensures r.w.batches == if n + s - a < cfg.maxBatchSize then w.batches else w.batches + [Ids(a, n + s)]
  {
    hide Groups, Open, Sum;
    SizesOfMore(Groups(w.seen), Ids(n, n + s));
    assert Ids(n + s, n + s) == [];
  }

  /** The batch deadline passes. */
  lemma FlushPending(cfg: Config, w0: World, script: seq<Turn>, w: World, a: nat, n: nat, sizes: seq<nat>)
    returns (longer: seq<Turn>, v: World)
    requires Run(cfg, w0, script) == Running(w) && Stands(cfg, w, a, n, sizes)
    ensures Run(cfg, w0, longer) == Running(v) && Stands(cfg, v, n, n, sizes) && w.batches <= v.batches
  {
    hide RunTurn, Groups, Open, Run;
    longer, v := script, w;
    if a < n {
      IdsAreAccepted(a, n);
      FlushTurn(cfg, w);
      Then(cfg, w0, script, w, Flushes(w));
      longer, v := script + [Flushes(w)], RunTurn(cfg, w, Flushes(w)).w;
    }
  }

  lemma TableIsLearned(cfg: Config, w: World, t: Turn)
    requires w.relations == Relations(map[])
    ensures MessageStage(cfg, w, t, 0, RelationMessage(0, "jobs", [Id])) ==
            Running(w.(core := OnPosition(w.core, 0), relations := JOBS, seen := w.seen + [Event.Nothing]))
  {
    hide FlushBatch;
  }

  /** A session that knows the table has received no transaction yet. */
  lemma StandsAtFirst(cfg: Config, w: World)
    requires w.core.pending == [] && w.core.buf == [] && w.batchAt == None
    requires w.seen == [Event.Nothing] && w.relations == JOBS
    ensures Stands(cfg, w, 0, 0, [])
  {
    OneMore([], Event.Nothing);
    assert [] + [Event.Nothing] == [Event.Nothing];
  }

  /** The table is known, and nothing has come in. */
  lemma Begin(cfg: Config, w0: World) returns (script: seq<Turn>, w: World)
    requires w0.core.pending == [] && w0.core.buf == [] && w0.batchAt == None
    requires w0.batches == [] && w0.seen == [] && w0.relations == Relations(map[])
    ensures Run(cfg, w0, script) == Running(w) && Stands(cfg, w, 0, 0, []) && w.batches == []
  {
    var m := RelationMessage(0, "jobs", [Id]);
    var t := Brings(w0, m, []);
    assert Run(cfg, w0, []) == Running(w0);
    Then(cfg, w0, [], w0, t);
    hide RunTurn, MessageStage, Run, Stands, Brings;
    QuietTurn(cfg, w0, m, []);
    TableIsLearned(cfg, w0, t);
    script, w := [] + [t], RunTurn(cfg, w0, t).w;
    assert [] + [Event.Nothing] == [Event.Nothing];
    StandsAtFirst(cfg, w);
  }

  lemma SumWithin(sizes: seq<nat>, k: nat)
    requires k <= |sizes|
    ensures Sum(sizes[..k]) <= Sum(sizes)
  {
    SumSplits(sizes, k, |sizes|);
    assert sizes[..|sizes|] == sizes;
  }

  /** The first k transactions, with everything submitted. */
  lemma {:induction false} SubmitEach(cfg: Config, w0: World, sizes: seq<nat>, k: nat)
    returns (script: seq<Turn>, w: World)
    requires Positive(cfg) && w0.core.pending == [] && w0.core.buf == [] && w0.batchAt == None
    requires w0.batches == [] && w0.seen == [] && w0.relations == Relations(map[])
    requires k <= |sizes| && Sum(sizes) <= LIMIT
    ensures Run(cfg, w0, script) == Running(w) && Stands(cfg, w, Sum(sizes[..k]), Sum(sizes[..k]), sizes[..k])
  {
    hide Run, Stands, Sum;
    if k == 0 {
      script, w := Begin(cfg, w0);
      NothingSummed(sizes);
    } else {
      script, w := SubmitEach(cfg, w0, sizes, k - 1);
      var n := Sum(sizes[..k - 1]);
      NextSum(sizes, k - 1);
      var a: nat;
      script, w, a := Deliver(cfg, w0, script, w, n, n, sizes[k - 1], sizes[..k - 1]);
      script, w := FlushPending(cfg, w0, script, w, a, n + sizes[k - 1], sizes[..k]);
    }
  }

  lemma NothingSummed(sizes: seq<nat>)
    ensures sizes[..0] == [] && Sum(sizes[..0]) == 0
  {
  }

  lemma NextSum(sizes: seq<nat>, k: nat)
    requires k < |sizes|
    ensures sizes[..k] + [sizes[k]] == sizes[..k + 1] && Sum(sizes[..k + 1]) == Sum(sizes[..k]) + sizes[k] <= Sum(sizes)
  {
    SumWithin(sizes, k + 1);
    SumOfLast(sizes[..k], sizes[k]);
    hide Sum;
    assert sizes[..k] + [sizes[k]] == sizes[..k + 1];
  }

  /** The transactions from k up to j, all pending as long as they stay below the trigger. */
  lemma {:induction false} Gather(cfg: Config, w0: World, sizes: seq<nat>, k: nat, j: nat)
    returns (script: seq<Turn>, w: World)
    requires Positive(cfg) && w0.core.pending == [] && w0.core.buf == [] && w0.batchAt == None
    requires w0.batches == [] && w0.seen == [] && w0.relations == Relations(map[])
    requires k <= j <= |sizes| && Sum(sizes) <= LIMIT && Sum(sizes[k..j]) < cfg.maxBatchSize
    ensures Run(cfg, w0, script) == Running(w) && Stands(cfg, w, Sum(sizes[..k]), Sum(sizes[..j]), sizes[..j])
    decreases j
  {
    hide Run, Stands, Sum;
    if j == k {
      script, w := SubmitEach(cfg, w0, sizes, k);
    } else {
      SumOfMore(sizes, k, j - 1);
      script, w := Gather(cfg, w0, sizes, k, j - 1);
      NextSum(sizes, j - 1);
      SumSplits(sizes, k, j);
      var a: nat;
      script, w, a := Deliver(cfg, w0, script, w, Sum(sizes[..k]), Sum(sizes[..j - 1]), sizes[j - 1], sizes[..j - 1]);
    }
  }

  ghost predicate HasBatch(w: World, rows: seq<ParsedInsert>) {
    rows in w.batches
  }

  /** The rest of the transactions change nothing about the batches there are. */
  lemma {:induction false} DeliverRest(
    cfg: Config, w0: World, script: seq<Turn>, w: World, a: nat, sizes: seq<nat>, j: nat, rows: seq<ParsedInsert>)
    returns (longer: seq<Turn>, v: World)
    requires Positive(cfg) && j <= |sizes| && Sum(sizes) <= LIMIT
    requires Run(cfg, w0, script) == Running(w) && Stands(cfg, w, a, Sum(sizes[..j]), sizes[..j]) && HasBatch(w, rows)
    ensures Run(cfg, w0, longer) == Running(v) && Sizes(Groups(v.seen)) == sizes && HasBatch(v, rows)
    decreases |sizes| - j
  {
    longer, v := script, w;
    if j == |sizes| {
      AllDelivered(cfg, w, a, sizes);
    } else {
      hide Run, Stands, Sum, Ids, Groups, Sizes, HasBatch;
      NextSum(sizes, j);
      var a': nat;
      longer, v, a' := Deliver(cfg, w0, script, w, a, Sum(sizes[..j]), sizes[j], sizes[..j]);
      BatchStays(w, v, rows);
      longer, v := DeliverRest(cfg, w0, longer, v, a', sizes, j + 1, rows);
    }
  }

  lemma AllDelivered(cfg: Config, w: World, a: nat, sizes: seq<nat>)
    requires Stands(cfg, w, a, Sum(sizes[..|sizes|]), sizes[..|sizes|])
    ensures Sizes(Groups(w.seen)) == sizes
  {
    hide Groups, Open, Sum;
    assert sizes[..|sizes|] == sizes;
  }

  lemma BatchStays(w: World, v: World, rows: seq<ParsedInsert>)
    requires HasBatch(w, rows) && w.batches <= v.batches
    ensures HasBatch(v, rows)
  {
  }

  // ---- The exact condition -------------------------------------------------------------------------------------

  /** A session that receives transactions of exactly these sizes and submits a batch of more than MaxBatchSize. */
  ghost predicate Overfills(cfg: Config, w0: World, script: seq<Turn>, sizes: seq<nat>) {
    var r := Run(cfg, w0, script);
    && r.Running? && Sizes(Groups(r.w.seen)) == sizes
    && exists batch :: HasBatch(r.w, batch) && |batch| > cfg.maxBatchSize
  }

  lemma OverfullScript(cfg: Config, w0: World, sizes: seq<nat>, k: nat, m: nat) returns (script: seq<Turn>)
    requires Positive(cfg) && w0.core.pending == [] && w0.core.buf == [] && w0.batchAt == None
    requires w0.batches == [] && w0.seen == [] && w0.relations == Relations(map[])
    requires Sum(sizes) <= LIMIT && Exceeds(sizes, k, m, cfg.maxBatchSize)
    ensures Overfills(cfg, w0, script, sizes)
  {
    hide Run, Stands, Sum;
    var w, a;
    script, w := Gather(cfg, w0, sizes, k, m);
    NextSum(sizes, m);
    SumSplits(sizes, k, m + 1);
    var from, n := Sum(sizes[..k]), Sum(sizes[..m]);
    SumSplits(sizes, k, m);
    SumOfMore(sizes, k, m);
    script, w, a := Deliver(cfg, w0, script, w, from, n, sizes[m], sizes[..m]);
    var rows := Ids(from, n + sizes[m]);
    assert rows in w.batches;
    script, w := DeliverRest(cfg, w0, script, w, a, sizes, m + 1, rows);
    assert HasBatch(w, rows) && |rows| > cfg.maxBatchSize;
  }

  lemma SlicedSizes(groups: seq<seq<ParsedInsert>>, k: nat, m: nat)
    requires k <= m <= |groups|
    ensures Sum(Sizes(groups)[k..m]) == |Concat(groups[k..m])|
  {
    ConcatSize(groups[k..m]);
    assert Sizes(groups)[k..m] == Sizes(groups[k..m]);
  }

  lemma OverfullIsExceeding(
    cfg: Config, start: Lsn, now: Time, db: Db, confirmed: Lsn, accepted: set<ParsedInsert>, script: seq<Turn>,
    sizes: seq<nat>)
    requires Positive(cfg) && Overfills(cfg, StartWorld(cfg, start, now, db, confirmed, accepted), script, sizes)
    ensures exists k: nat, m: nat :: Exceeds(sizes, k, m, cfg.maxBatchSize)
  {
    hide Run, RunTurn, Groups, Concat, Sum;
    var w := Run(cfg, StartWorld(cfg, start, now, db, confirmed, accepted), script).w;
    var batch :| HasBatch(w, batch) && |batch| > cfg.maxBatchSize;
    var b :| 0 <= b < |w.batches| && w.batches[b] == batch;
    BatchOvershootsByItsLastTransaction(cfg, start, now, db, confirmed, accepted, script, b);
    var k: nat, m: nat :| Gathers(w.batches[b], Groups(w.seen), k, m, cfg.maxBatchSize);
    SlicedSizes(Groups(w.seen), k, m);
    SlicedSizes(Groups(w.seen), k, m + 1);
    assert Exceeds(sizes, k, m, cfg.maxBatchSize);
  }

  /**
   * Some session over transactions of these sizes submits a batch of more than MaxBatchSize rows exactly when some
   * consecutive transactions stay below MaxBatchSize and exceed it with the next one. Reaching it is not enough.
   */
  lemma BatchExceedsExactly(
    cfg: Config, start: Lsn, now: Time, db: Db, confirmed: Lsn, accepted: set<ParsedInsert>, sizes: seq<nat>)
    requires Positive(cfg) && Sum(sizes) <= LIMIT
    ensures var w0 := StartWorld(cfg, start, now, db, confirmed, accepted);
      (exists script :: Overfills(cfg, w0, script, sizes))
      <==> (exists k: nat, m: nat :: Exceeds(sizes, k, m, cfg.maxBatchSize))
  {
    hide Overfills, Exceeds;
    var w0 := StartWorld(cfg, start, now, db, confirmed, accepted);
    forall script | Overfills(cfg, w0, script, sizes)
      ensures exists k: nat, m: nat :: Exceeds(sizes, k, m, cfg.maxBatchSize)
    {
      OverfullIsExceeding(cfg, start, now, db, confirmed, accepted, script, sizes);
    }
    if k: nat, m: nat :| Exceeds(sizes, k, m, cfg.maxBatchSize) {
      var script := OverfullScript(cfg, w0, sizes, k, m);
    }
  }

  /** Whatever MaxBatchSize is, a larger transaction is submitted as one batch, and its session goes on. */
  lemma ABatchCanExceedTheSize(cfg: Config, start: Lsn, now: Time, db: Db, confirmed: Lsn, accepted: set<ParsedInsert>)
    requires cfg.maxBatchSize < LIMIT
    ensures exists script: seq<Turn> ::
      var r := Run(cfg, StartWorld(cfg, start, now, db, confirmed, accepted), script);
      r.Running? && |r.w.batches| == 1 && |r.w.batches[0]| == cfg.maxBatchSize + 1
  {
    hide Run;
    var w0 := StartWorld(cfg, start, now, db, confirmed, accepted);
    var script, w := Begin(cfg, w0);
    var a: nat;
    script, w, a := Deliver(cfg, w0, script, w, 0, 0, cfg.maxBatchSize + 1, []);
    assert Run(cfg, w0, script) == Running(w);
  }
}
