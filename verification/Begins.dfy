/**
 * The position assumption from the server's side alone: it is enough that a position reaches a commit only once the
 * server has sent that transaction's Begin, in any run in which every Begin decodes.
 */
module Begins {
  import opened Basics
  import opened Session
  import opened Server
  import opened Stream
  import opened Cluster
  import opened Safety

  /** The same environment under the assumption that safety was proved with. */
  function Seen(env: Env): Env {
    env.(rules := env.rules.(positions := Visible))
  }

  ghost predicate LosesBegin(s: State, i: nat, step: Step)
    requires i < |s.drivers|
  {
    step.Deliver? && step.lost && s.drivers[i].phase.Streaming? && s.drivers[i].phase.feed.msg == 0
  }

  ghost predicate NextWithBegin(env: Env, s: State, s': State) {
    exists i: nat, step :: i < |s.drivers| && DriverStep(env, s, s', i, step) && !LosesBegin(s, i, step)
  }

  /** A run that loses no Begin. */
  ghost predicate IsRunWithBegins(env: Env, run: seq<State>) {
    && run != [] && Init(env, run[0])
    && forall k :: 0 < k < |run| ==> NextWithBegin(env, run[k - 1], run[k])
  }

  /** Whatever a session has been sent of a transaction, it has seen the transaction open. */
  ghost predicate BeginSeen(phase: Phase) {
    match phase
    case Streaming(core, feed, _) => feed.msg > 0 ==> core.inTx
    case Answered(core, feed, _, _) => feed.msg > 0 ==> core.inTx
    case _ => true
  }

  ghost predicate BeginsSeen(s: State) {
    forall i :: 0 <= i < |s.drivers| ==> BeginSeen(s.drivers[i].phase)
  }

  lemma DeliveryIsSeen(env: Env, core: Core, feed: Feed, position: Lsn, event: Event, lost: bool)
    requires env.rules.positions == Started && feed.tx < |env.wal| && Delivers(env.wal, feed, event, lost)
    requires (feed.msg > 0 ==> core.inTx) && !(lost && feed.msg == 0)
    ensures var next, after := OnEvent(OnPosition(core, position), event), Advance(env.wal, feed);
      && (after.msg > 0 ==> next.inTx)
      && (PositionsHold(env, next, after) ==> PositionsHold(Seen(env), next, after))
  {
  }

  lemma PositionIsSeen(env: Env, core: Core, feed: Feed)
    requires env.rules.positions == Started && (feed.msg > 0 ==> core.inTx) && PositionsHold(env, core, feed)
    ensures PositionsHold(Seen(env), core, feed)
  {
  }

  /** Every step that loses no Begin is a step under the stronger assumption. */
  lemma StepIsSeen(env: Env, s: State, s': State, i: nat, step: Step)
    requires env.rules.positions == Started && BeginsSeen(s)
    requires i < |s.drivers| && DriverStep(env, s, s', i, step) && !LosesBegin(s, i, step)
    ensures DriverStep(Seen(env), s, s', i, step) && BeginsSeen(s')
  {
    StepGrows(env, s, s', i, step);
    var phase := s.drivers[i].phase;
    assert BeginSeen(phase);
    hide PositionsHold, Delivers, Grows;
    if step.Deliver? {
      DeliveryIsSeen(env, phase.core, phase.feed, step.position, step.event, step.lost);
    } else if step.Hear? {
      PositionIsSeen(env, OnPosition(phase.core, step.position), phase.feed);
    }
  }

  lemma NextIsSeen(env: Env, s: State, s': State)
    requires env.rules.positions == Started && BeginsSeen(s) && NextWithBegin(env, s, s')
    ensures Next(Seen(env), s, s') && BeginsSeen(s')
  {
    hide DriverStep, BeginsSeen, LosesBegin;
    var i: nat, step :| i < |s.drivers| && DriverStep(env, s, s', i, step) && !LosesBegin(s, i, step);
    StepIsSeen(env, s, s', i, step);
  }

  lemma {:induction false} RunIsSeen(env: Env, run: seq<State>)
    requires env.rules.positions == Started && IsRunWithBegins(env, run)
    ensures IsRun(Seen(env), run) && BeginsSeen(run[|run| - 1])
  {
    if |run| > 1 {
      hide Next, NextWithBegin, BeginsSeen;
      var earlier := run[..|run| - 1];
      RunIsSeen(env, earlier);
      NextIsSeen(env, run[|run| - 2], run[|run| - 1]);
      forall k | 0 < k < |run| ensures Next(Seen(env), run[k - 1], run[k]) {
        if k < |earlier| {
          assert run[k - 1] == earlier[k - 1] && run[k] == earlier[k];
        }
      }
    }
  }

  /** As long as every Begin decodes, what the server knows of positions is enough for delivery and slot safety. */
  lemma DecodedBeginsSuffice(env: Env, run: seq<State>)
    requires ValidEnv(env) && env.rules.checksPending && env.rules.checksBuffer && env.rules.checksTx
    requires env.rules.positions == Started && IsRunWithBegins(env, run)
    ensures Delivered(env, run[|run| - 1]) && SlotBehindCursor(env, run[|run| - 1])
  {
    RunIsSeen(env, run);
    AtLeastOnce(Seen(env), run);
    var s := run[|run| - 1];
    forall t: nat, k: nat | IsRef(env.wal, t, k) && env.wal[t].commit <= CursorOf(s.db) ensures Settled(env, s, t, k) {
      assert Settled(Seen(env), s, t, k);
    }
  }
}
