/** Which job an INSERT yields: the relation it is read under, and exactly when it yields none. */
module Messages {
  import opened Basics
  import opened Rows
  import opened DeadLetters
  import opened Session
  import opened Stream

  // ---- The relation a row is read under ----------------------------------------------------------------

  /** The messages a session has received, decoded or not. */
  function MessagesOf(script: seq<Turn>): seq<Message> {
    if script == [] then []
    else
      MessagesOf(script[..|script| - 1]) + Heard(script[|script| - 1])
  }

  function LearnAll(relations: Relations, messages: seq<Message>): Relations {
    if messages == [] then relations
    else Learn(LearnAll(relations, messages[..|messages| - 1]), messages[|messages| - 1])
  }

  /** What the messages decode to, each under the relations known when it arrives. */
  function Decode(cfg: Config, relations: Relations, messages: seq<Message>): seq<Event> {
    if messages == [] then []
    else
      var prior, last := messages[..|messages| - 1], messages[|messages| - 1];
      Decode(cfg, relations, prior) + [EventOf(cfg, LearnAll(relations, prior), last)]
  }

  /** The message that a turn brings, if any. */
  function Heard(t: Turn): seq<Message> {
    if t.receive.Data? then [t.receive.message] else []
  }

  /** The last Relation message of this id that decoded. */
  function LastRelation(messages: seq<Message>, id: nat): Option<RelationMeta> {
    if messages == [] then None
    else
      var last := messages[|messages| - 1];
      if last.RelationMessage? && last.id == id then Some(RelationMeta(last.name, last.columns))
      else LastRelation(messages[..|messages| - 1], id)
  }

  lemma {:induction false} KnownIsLast(messages: seq<Message>, id: nat)
    ensures var learned := LearnAll(Relations(map[]), messages).known;
      && (id in learned <==> LastRelation(messages, id).Some?)
      && (id in learned ==> learned[id] == LastRelation(messages, id).value)
  {
    if messages != [] {
      KnownIsLast(messages[..|messages| - 1], id);
    }
  }

  lemma EarlierStagesLearnNothing(cfg: Config, w: World, t: Turn, now: Time)
    ensures BatchStage(w, t).w.relations == w.relations && StandbyStage(cfg, w, t, now).w.relations == w.relations
  {
  }

  lemma ReceiveStageLearns(cfg: Config, w: World, t: Turn)
    ensures var v := ReceiveStage(cfg, w, t).w;
      && v.relations == (if t.receive.Data? then Learn(w.relations, t.receive.message) else w.relations)
      && v.seen == w.seen + (if t.receive.Data? then [EventOf(cfg, w.relations, t.receive.message)] else [])
  {
    hide EventOf, Learn, OnEvent, Consistent, Letters, Accepted;
  }

  lemma EarlierStagesSeeNothing(cfg: Config, w: World, t: Turn, now: Time)
    ensures BatchStage(w, t).w.seen == w.seen && StandbyStage(cfg, w, t, now).w.seen == w.seen
  {
  }

  lemma TurnLearns(cfg: Config, w: World, t: Turn)
    requires RunTurn(cfg, w, t).Running?
    ensures var v := RunTurn(cfg, w, t).w;
      && v.relations == (if t.receive.Data? then Learn(w.relations, t.receive.message) else w.relations)
      && v.seen == w.seen + (if t.receive.Data? then [EventOf(cfg, w.relations, t.receive.message)] else [])
  {
    hide BatchStage, StandbyStage, ReceiveStage, Learn, EventOf;
    var w1, now := BatchStage(w, t).w, NowAfterBatch(w, t);
    EarlierStagesLearnNothing(cfg, w, t, now);
    EarlierStagesLearnNothing(cfg, w1, t, now);
    EarlierStagesSeeNothing(cfg, w, t, now);
    EarlierStagesSeeNothing(cfg, w1, t, now);
    ReceiveStageLearns(cfg, StandbyStage(cfg, w1, t, now).w, t);
  }

  lemma OneMoreHeard(cfg: Config, relations: Relations, messages: seq<Message>, t: Turn)
    ensures LearnAll(relations, messages + Heard(t)) ==
            if t.receive.Data? then Learn(LearnAll(relations, messages), t.receive.message)
            else LearnAll(relations, messages)
    ensures Decode(cfg, relations, messages + Heard(t)) ==
            Decode(cfg, relations, messages) +
            if t.receive.Data? then [EventOf(cfg, LearnAll(relations, messages), t.receive.message)] else []
  {
    hide EventOf, Learn;
    if t.receive.Data? {
      assert (messages + Heard(t))[..|messages|] == messages;
    } else {
      assert messages + Heard(t) == messages;
    }
  }

  /** What a session knows and what it has decoded follow from the messages it received. */
  lemma {:induction false} SessionLearns(cfg: Config, w: World, script: seq<Turn>)
    requires Run(cfg, w, script).Running?
    ensures var v := Run(cfg, w, script).w;
      && v.relations == LearnAll(w.relations, MessagesOf(script))
      && v.seen == w.seen + Decode(cfg, w.relations, MessagesOf(script))
  {
    if script != [] {
      hide RunTurn, Learn, EventOf, LearnAll, Decode, Heard;
      var prior, t := script[..|script| - 1], script[|script| - 1];
      SessionLearns(cfg, w, prior);
      TurnLearns(cfg, Run(cfg, w, prior).w, t);
      OneMoreHeard(cfg, w.relations, MessagesOf(prior), t);
      var relations := LearnAll(w.relations, MessagesOf(prior));
      Regroup(w.seen, Decode(cfg, w.relations, MessagesOf(prior)),
              if t.receive.Data? then [EventOf(cfg, relations, t.receive.message)] else []);
    }
  }

  /**
   * At any point of a session a row is read under the last Relation message of its id that decoded, however many
   * did not decode since; and it yields no job at all only when the session has decoded none.
   */
  lemma RowsFollowTheLastRelation(
    cfg: Config, start: Lsn, now: Time, db: Db, confirmed: Lsn, accepted: set<ParsedInsert>, script: seq<Turn>,
    id: nat, values: seq<ColumnValue>)
    requires Run(cfg, StartWorld(cfg, start, now, db, confirmed, accepted), script).Running?
    ensures var w := Run(cfg, StartWorld(cfg, start, now, db, confirmed, accepted), script).w;
      var last := LastRelation(MessagesOf(script), id);
      && (last.None? ==> ParseInsert(w.relations, id, values, cfg.clock) == Ok(None))
      && (last.Some? ==>
            var row := ParseColumns(last.value.columns, values, cfg.clock);
            && (row.Ok? ==> JobOf(cfg, w.relations, id, values) == Some(row.value))
            && (row.Err? ==> ParseInsert(w.relations, id, values, cfg.clock) == Err(row.error)))
  {
    hide Run, ParseColumns, LearnAll, LastRelation;
    SessionLearns(cfg, StartWorld(cfg, start, now, db, confirmed, accepted), script);
    KnownIsLast(MessagesOf(script), id);
  }

  // ---- When a row yields no job --------------------------------------------------------------------------

  /** The row has as many values as the relation has columns, and each non-null one decodes. */
  predicate RowDecodes(meta: RelationMeta, values: seq<ColumnValue>, clock: Clock) {
    && |meta.columns| == |values|
    && forall i :: 0 <= i < |values| && values[i].Value? ==> Decodes(meta.columns[i], values[i].data, clock)
  }

  /** A row is dropped exactly when its relation is unknown or the row itself does not decode. */
  lemma DroppedExactly(cfg: Config, relations: Relations, id: nat, values: seq<ColumnValue>)
    ensures JobOf(cfg, relations, id, values).None?
            <==> (id in relations.known ==> !RowDecodes(relations.known[id], values, cfg.clock))
  {
    if id in relations.known && |relations.known[id].columns| == |values| {
      ParseFailsExactly(relations.known[id].columns, values, |values|, cfg.clock);
    }
  }

  // ---- The comment on parseInsert --------------------------------------------------------------------------

  /**
   * What the comment says: a row of a table that is not the outbox yields no job. The outbox is a set of names: the
   * server reports a row of a partitioned table under the name of the leaf partition that holds it.
   */
  function Documented(cfg: Config, relations: Relations, id: nat, values: seq<ColumnValue>, isOutbox: string -> bool):
    Option<ParsedInsert>
  {
    if id in relations.known && !isOutbox(relations.known[id].name) then None else JobOf(cfg, relations, id, values)
  }

  /** The code meets its comment exactly when no decodable row comes from a known table outside the outbox. */
  lemma CommentHoldsExactly(
    cfg: Config, relations: Relations, id: nat, values: seq<ColumnValue>, isOutbox: string -> bool)
    ensures JobOf(cfg, relations, id, values) == Documented(cfg, relations, id, values, isOutbox)
            <==> !(id in relations.known && !isOutbox(relations.known[id].name)
                   && RowDecodes(relations.known[id], values, cfg.clock))
  {
    hide JobOf;
    DroppedExactly(cfg, relations, id, values);
  }

  /** Whatever names make up the outbox, a published table of any other name has rows that the driver takes for jobs. */
  lemma AnotherTableYieldsAJob(cfg: Config, isOutbox: string -> bool, name: string)
    requires !isOutbox(name)
    ensures exists relations: Relations, values: seq<ColumnValue> ::
      && 0 in relations.known && relations.known[0].name == name
      && JobOf(cfg, relations, 0, values).Some? && Documented(cfg, relations, 0, values, isOutbox).None?
  {
    var relations := Learn(Relations(map[]), RelationMessage(0, name, [OtherColumn("note")]));
    var values := [Value([])];
    DroppedExactly(cfg, relations, 0, values);
    assert JobOf(cfg, relations, 0, values).Some? && Documented(cfg, relations, 0, values, isOutbox).None?;
  }
}
