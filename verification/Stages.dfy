/**
 * One turn cut into the stretches between two accesses to what drivers share: a batch is submitted in one
 * stage and persisted in the next, so that another driver can come in between.
 */
module Stages {
  import opened Basics
  import opened Rows
  import opened DeadLetters
  import opened Session
  import opened Stream

  /** Where the code stands; an answered batch holds the dead letters it has still to write. */
  datatype Point =
    | Head
    | BatchAnswered(turn: Turn, letters: seq<DlqRow>)
    | AtStandby(turn: Turn, now: Time)
    | Listening(turn: Turn)
    | SizeAnswered(turn: Turn, letters: seq<DlqRow>)

  datatype Resumed = Goes(w: World, at: Point) | Ends(w: World, error: Error)

  datatype Answer = Mapped(w: World, letters: seq<DlqRow>) | Refused(w: World, error: Error)

  /** flushBatch up to its transaction. */
  ghost function SubmitHalf(w: World, submission: Submission): Answer {
    var sent := w.(batches := w.batches + [w.core.pending]);
    match submission
    case SubmitFailed => Refused(sent, SubmitError)
    case SubmitAnswered(results) =>
      if !Consistent(w.core.pending, results) then Refused(sent, InconsistentAnswer)
      else
        Mapped(sent.(accepted := sent.accepted + Accepted(w.core.pending, results)), Letters(w.core.pending, results))
  }

  /** flushBatch from its transaction on. */
  function PersistHalf(w: World, letters: seq<DlqRow>, f: FlushScript): Outcome {
    var durable := PersistIn(w, letters, w.core.pendingCommit, f.commit);
    if !f.commit.Committed? then Stopped(durable, PersistError)
    else Running(Report(durable.(core := Flushed(w.core), batchAt := None), f.statusSent))
  }

  function To(r: Outcome, at: Point): Resumed {
    match r
    case Running(w) => Goes(w, at)
    case Stopped(w, e) => Ends(w, e)
  }

  /** The head of the loop: a due batch is submitted. */
  ghost function Enter(w: World, t: Turn): Resumed {
    var due := w.batchAt.Some? && t.now >= w.batchAt.value;
    if t.cancelled then Ends(w, Cancelled)
    else if due && w.core.pending != [] then
      match SubmitHalf(w, t.batchFlush.submission)
      case Refused(v, e) => Ends(v, e)
      case Mapped(v, letters) => Goes(v, BatchAnswered(t, letters))
    else
      Goes(if due then w.(batchAt := None) else w, AtStandby(t, NowAfterBatch(w, t)))
  }

  /** A message, and the submission of the batch that its commit fills. */
  ghost function TakeIn(cfg: Config, w: World, t: Turn, position: Lsn, m: Message): Resumed {
    var next := Noted(cfg, w.(core := OnPosition(w.core, position)), t, m);
    if EventOf(cfg, w.relations, m).Commit? && |next.core.pending| >= cfg.maxBatchSize then
      if next.core.pending != [] then
        match SubmitHalf(next, t.sizeFlush.submission)
        case Refused(v, e) => Ends(v, e)
        case Mapped(v, letters) => Goes(v, SizeAnswered(t, letters))
      else Goes(next.(batchAt := None), Head)
    else Goes(next, Head)
  }

  ghost function Continue(cfg: Config, w: World, at: Point): Resumed
    requires !at.Head?
  {
    match at
    case BatchAnswered(t, letters) => To(PersistHalf(w, letters, t.batchFlush), AtStandby(t, t.nowAfterFlush))
    case AtStandby(t, now) => To(StandbyStage(cfg, w, t, now), Listening(t))
    case Listening(t) =>
      if t.receive.Data? then TakeIn(cfg, w, t, t.receive.end, t.receive.message)
      else To(ReceiveStage(cfg, w, t), Head)
    case SizeAnswered(t, letters) => To(PersistHalf(w, letters, t.sizeFlush), Head)
  }

  function StagesLeft(at: Point): nat {
    match at
    case Head => 0
    case BatchAnswered(_, _) => 4
    case AtStandby(_, _) => 3
    case Listening(_) => 2
    case SizeAnswered(_, _) => 1
  }

  /** The rest of a turn when nobody comes in between. */
  ghost function Finish(cfg: Config, r: Resumed): Outcome
    decreases if r.Goes? then StagesLeft(r.at) else 0
  {
    match r
    case Ends(w, e) => Stopped(w, e)
    case Goes(w, at) => if at.Head? then Running(w) else Finish(cfg, Continue(cfg, w, at))
  }

  lemma FlushIsHalves(w: World, f: FlushScript)
    ensures match SubmitHalf(w, f.submission)
      case Refused(v, e) => FlushBatch(w, f) == Stopped(v, e)
      case Mapped(v, letters) => FlushBatch(w, f) == PersistHalf(v, letters, f)
  {
  }

  lemma PersistingIsTheEnd(cfg: Config, w: World, t: Turn, letters: seq<DlqRow>)
    ensures Finish(cfg, Goes(w, SizeAnswered(t, letters))) == PersistHalf(w, letters, t.sizeFlush)
  {
    hide PersistHalf;
    var r := PersistHalf(w, letters, t.sizeFlush);
    assert Finish(cfg, To(r, Head)) == r;
  }

  lemma ListeningIsReceiving(cfg: Config, w: World, t: Turn)
    ensures Finish(cfg, Goes(w, Listening(t))) == ReceiveStage(cfg, w, t)
  {
    hide Noted, FlushBatch, SubmitHalf, PersistHalf, EventOf;
    if t.receive.Data? {
      var next := Noted(cfg, w.(core := OnPosition(w.core, t.receive.end)), t, t.receive.message);
      FlushIsHalves(next, t.sizeFlush);
      var answer := SubmitHalf(next, t.sizeFlush.submission);
      if answer.Mapped? {
        PersistingIsTheEnd(cfg, answer.w, t, answer.letters);
      }
    }
    assert Finish(cfg, Goes(w, Listening(t))) == Finish(cfg, Continue(cfg, w, Listening(t)));
  }

  lemma StandbyIsTheRest(cfg: Config, w: World, t: Turn, now: Time)
    ensures Finish(cfg, Goes(w, AtStandby(t, now))) ==
      var r := StandbyStage(cfg, w, t, now);
      if r.Stopped? then r else ReceiveStage(cfg, r.w, t)
  {
    hide StandbyStage, ReceiveStage;
    var r := StandbyStage(cfg, w, t, now);
    if r.Running? {
      ListeningIsReceiving(cfg, r.w, t);
    }
  }

  /** Stages that run without a break are the turn that the receive loop executes. */
  lemma UninterruptedIsTheTurn(cfg: Config, w: World, t: Turn)
    ensures Finish(cfg, Enter(w, t)) == RunTurn(cfg, w, t)
  {
    hide StandbyStage, ReceiveStage, FlushBatch;
    var r := BatchStage(w, t);
    FlushIsHalves(w, t.batchFlush);
    if r.Running? {
      StandbyIsTheRest(cfg, r.w, t, NowAfterBatch(w, t));
    }
  }
}
