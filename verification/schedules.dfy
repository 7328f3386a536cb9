/**
 The four waypoint scripts of the brain, as run-length plans.

 `CodedPlan` is what the branches of `getNextMove` implement; `CommentedPlan`
 is the pattern each stage's header comment announces. The two agree for
 stages 0 and 1 and disagree for stages 2 and 3; the model follows the code.
 */
module Schedules {
  import opened Commands
  import opened Plans

  /** Stages that have a script; every other stage index yields a no-op. */
  predicate KnownStage(stage: int) {
    0 <= stage <= 3
  }

  /** The scripts the if-chains of each stage implement. */
  function CodedPlan(stage: int): Plan {
    if stage == 0 then
      [Leg(DOWN, 5), Leg(RIGHT, 4), Leg(UP, 5), Leg(RIGHT, 2), Leg(DOWN, 7), Leg(RIGHT, 1)]
    else if stage == 1 then
      [Leg(RIGHT, 1), Leg(UP, 3), Leg(RIGHT, 1), Leg(UP, 3), Leg(RIGHT, 1), Leg(DOWN, 6), Leg(RIGHT, 2),
       Leg(UP, 7), Leg(RIGHT, 1), Leg(DOWN, 4), Leg(RIGHT, 1), Leg(UP, 1), Leg(DOWN, 4), Leg(RIGHT, 2)]
    else if stage == 2 then
      [Leg(RIGHT, 3), Leg(UP, 2), Leg(RIGHT, 2), Leg(DOWN, 2), Leg(RIGHT, 2), Leg(UP, 4), Leg(LEFT, 4),
       Leg(UP, 2), Leg(RIGHT, 5)]
    else if stage == 3 then
      [Leg(RIGHT, 1), Leg(DOWN, 1), Leg(RIGHT, 5), Leg(DOWN, 4), Leg(LEFT, 4), Leg(UP, 1), Leg(DOWN, 1),
       Leg(RIGHT, 4), Leg(UP, 5), Leg(LEFT, 2), Leg(RIGHT, 4), Leg(DOWN, 3), Leg(RIGHT, 1)]
    else
      []
  }

  /** The patterns announced by the comment above each stage's branch. */
  function CommentedPlan(stage: int): Plan {
    if stage == 0 then
      [Leg(DOWN, 5), Leg(RIGHT, 4), Leg(UP, 5), Leg(RIGHT, 2), Leg(DOWN, 7), Leg(RIGHT, 1)]
    else if stage == 1 then
      [Leg(RIGHT, 1), Leg(UP, 3), Leg(RIGHT, 1), Leg(UP, 3), Leg(RIGHT, 1), Leg(DOWN, 6), Leg(RIGHT, 2),
       Leg(UP, 7), Leg(RIGHT, 1), Leg(DOWN, 4), Leg(RIGHT, 1), Leg(UP, 1), Leg(DOWN, 4), Leg(RIGHT, 2)]
    else if stage == 2 then
      [Leg(RIGHT, 3), Leg(UP, 2), Leg(RIGHT, 2), Leg(DOWN, 2), Leg(RIGHT, 2), Leg(UP, 4), Leg(LEFT, 4),
       Leg(UP, 2), Leg(RIGHT, 6), Leg(DOWN, 6), Leg(RIGHT, 18), Leg(UP, 2), Leg(LEFT, 1), Leg(UP, 2), Leg(UP, 1)]
    else if stage == 3 then
      [Leg(RIGHT, 1), Leg(DOWN, 1), Leg(RIGHT, 5), Leg(DOWN, 4), Leg(LEFT, 4), Leg(UP, 1), Leg(DOWN, 1),
       Leg(RIGHT, 4), Leg(UP, 5), Leg(LEFT, 1), Leg(RIGHT, 4), Leg(DOWN, 3), Leg(RIGHT, 1)]
    else
      []
  }

  /** The command the brain emits on the `k`-th consecutive tick of `stage`. */
  function Schedule(stage: int, k: int): int {
    At(CodedPlan(stage), k)
  }

  /** The command the stage's comment says it should emit on its `k`-th tick. */
  function CommentedSchedule(stage: int, k: int): int {
    At(CommentedPlan(stage), k)
  }

  /** The tick on which the code's last branch of each stage fires. */
  function LastTick(stage: int): nat {
    if stage == 0 then 24
    else if stage == 1 then 37
    else if stage == 2 then 26
    else if stage == 3 then 36
    else 0
  }

  /** Stage 0 legs end on the ticks its branches compare the counter with: 5, 9, 14, 16, 23, 24. */
  lemma {:induction false} CodedBounds0()
    ensures var p := CodedPlan(0);
      && |p| == 6
      && Start(p, 1) == 5 && Start(p, 2) == 9 && Start(p, 3) == 14
      && Start(p, 4) == 16 && Start(p, 5) == 23 && Start(p, 6) == 24
  {
  }

  /** Stage 1 legs end on the ticks its branches compare the counter with: 1, 4, 5, 8, 9, 15, 17, 24, 25, 29, 30, 31, 35, 37. */
  lemma {:induction false} CodedBounds1()
    ensures var p := CodedPlan(1);
      && |p| == 14
      && Start(p, 1) == 1 && Start(p, 2) == 4 && Start(p, 3) == 5 && Start(p, 4) == 8
      && Start(p, 5) == 9 && Start(p, 6) == 15 && Start(p, 7) == 17 && Start(p, 8) == 24
      && Start(p, 9) == 25 && Start(p, 10) == 29 && Start(p, 11) == 30 && Start(p, 12) == 31
      && Start(p, 13) == 35 && Start(p, 14) == 37
  {
  }

  /** Stage 2 legs end on the ticks its branches compare the counter with: 3, 5, 7, 9, 11, 15, 19, 21, 26. */
  lemma {:induction false} CodedBounds2()
    ensures var p := CodedPlan(2);
      && |p| == 9
      && Start(p, 1) == 3 && Start(p, 2) == 5 && Start(p, 3) == 7 && Start(p, 4) == 9
      && Start(p, 5) == 11 && Start(p, 6) == 15 && Start(p, 7) == 19 && Start(p, 8) == 21
      && Start(p, 9) == 26
  {
  }

  /** Stage 3 legs end on the ticks its branches compare the counter with: 1, 2, 7, 11, 15, 16, 17, 21, 26, 28, 32, 35, 36. */
  lemma {:induction false} CodedBounds3()
    ensures var p := CodedPlan(3);
      && |p| == 13
      && Start(p, 1) == 1 && Start(p, 2) == 2 && Start(p, 3) == 7 && Start(p, 4) == 11
      && Start(p, 5) == 15 && Start(p, 6) == 16 && Start(p, 7) == 17 && Start(p, 8) == 21
      && Start(p, 9) == 26 && Start(p, 10) == 28 && Start(p, 11) == 32 && Start(p, 12) == 35
      && Start(p, 13) == 36
  {
  }

  /** The stage 2 comment's legs end on ticks 3, 5, 7, 9, 11, 15, 19, 21, 27, 33, 51, 53, 54, 56, 57. */
  lemma {:induction false} CommentedBounds2()
    ensures var q := CommentedPlan(2);
      && |q| == 15
      && Start(q, 1) == 3 && Start(q, 2) == 5 && Start(q, 3) == 7 && Start(q, 4) == 9
      && Start(q, 5) == 11 && Start(q, 6) == 15 && Start(q, 7) == 19 && Start(q, 8) == 21
      && Start(q, 9) == 27 && Start(q, 10) == 33 && Start(q, 11) == 51 && Start(q, 12) == 53
      && Start(q, 13) == 54 && Start(q, 14) == 56 && Start(q, 15) == 57
  {
  }

  /** The stage 3 comment's legs end on ticks 1, 2, 7, 11, 15, 16, 17, 21, 26, 27, 31, 34, 35. */
  lemma {:induction false} CommentedBounds3()
    ensures var q := CommentedPlan(3);
      && |q| == 13
      && Start(q, 1) == 1 && Start(q, 2) == 2 && Start(q, 3) == 7 && Start(q, 4) == 11
      && Start(q, 5) == 15 && Start(q, 6) == 16 && Start(q, 7) == 17 && Start(q, 8) == 21
      && Start(q, 9) == 26 && Start(q, 10) == 27 && Start(q, 11) == 31 && Start(q, 12) == 34
      && Start(q, 13) == 35
  {
  }

  /** How many ticks each stage's script lasts: exactly up to its last branch. */
  lemma {:induction false} CodedTotals(stage: int)
    ensures Total(CodedPlan(stage)) == LastTick(stage)
  {
    CodedBounds0();
    CodedBounds1();
    CodedBounds2();
    CodedBounds3();
  }

  /** No leg of any script is a no-op leg. */
  lemma {:induction false} CodedPlansMove(stage: int)
    ensures AllMoves(CodedPlan(stage))
  {
    var p := CodedPlan(stage);
    if stage == 0 {
      assert forall leg :: leg in p ==> leg.command in {DOWN, RIGHT, UP};
    } else if stage == 1 {
      assert forall leg :: leg in p ==> leg.command in {DOWN, RIGHT, UP};
    } else if stage == 2 {
      assert forall leg :: leg in p ==> leg.command in {DOWN, RIGHT, UP, LEFT};
    } else if stage == 3 {
      assert forall leg :: leg in p ==> leg.command in {DOWN, RIGHT, UP, LEFT};
    }
  }

  /** Every tick of every stage yields one of the five command codes. */
  lemma {:induction false} ScheduleIsCommand(stage: int, k: int)
    ensures IsCommand(Schedule(stage, k))
  {
    AtEmitted(CodedPlan(stage), k);
  }

  /** A stage is busy exactly on ticks 1 .. LastTick(stage) and emits no-ops forever after. */
  lemma {:induction false} PatternEnds(stage: int, k: int)
    ensures Schedule(stage, k) != NOOP <==> KnownStage(stage) && 1 <= k <= LastTick(stage)
  {
    CodedPlansMove(stage);
    CodedTotals(stage);
    AtMoveIff(CodedPlan(stage), k);
  }

  /** Stages 0 and 1 never ask to face or move left. */
  lemma {:induction false} NoLeftInEarlyStages(stage: int, k: int)
    requires stage == 0 || stage == 1
    ensures Schedule(stage, k) != LEFT
  {
    AtEmitted(CodedPlan(stage), k);
  }

  /** Stage 0: ticks 1-5 down, 6-9 right, 10-14 up, 15-16 right, 17-23 down, 24 right, then nothing. */
  lemma {:induction false} Stage0Ticks(k: int)
    ensures 1 <= k <= 5 ==> Schedule(0, k) == DOWN
    ensures 6 <= k <= 9 ==> Schedule(0, k) == RIGHT
    ensures 10 <= k <= 14 ==> Schedule(0, k) == UP
    ensures 15 <= k <= 16 ==> Schedule(0, k) == RIGHT
    ensures 17 <= k <= 23 ==> Schedule(0, k) == DOWN
    ensures k == 24 ==> Schedule(0, k) == RIGHT
    ensures k < 1 || k > 24 ==> Schedule(0, k) == NOOP
  {
  }

  /** A stage's script written out tick by tick: entry `k - 1` is what tick `k` emits. */
  function Script(stage: int): (w: seq<int>)
    ensures |w| == LastTick(stage)
    ensures forall k :: 1 <= k <= LastTick(stage) ==> w[k - 1] == Schedule(stage, k)
  {
    ExpandAgrees(CodedPlan(stage));
    CodedTotals(stage);
    Expand(CodedPlan(stage))
  }

  /** Past its last tick a stage emits 0. */
  lemma {:induction false} IdleAfterScript(stage: int, k: int)
    requires k > LastTick(stage)
    ensures Schedule(stage, k) == NOOP
  {
    PatternEnds(stage, k);
  }

  /** On tick `k` a known stage emits its written-out script while it lasts and 0 afterwards. */
  lemma {:induction false} ScriptOrIdle(stage: int, k: int)
    requires KnownStage(stage)
    requires k >= 1
    ensures Schedule(stage, k) == (if k <= LastTick(stage) then Script(stage)[k - 1] else NOOP)
  {
    if k > LastTick(stage) {
      PatternEnds(stage, k);
    }
  }

  /** The stage 0 script written out tick by tick. */
  lemma {:induction false} Stage0Script()
    ensures Script(0) == [3, 3, 3, 3, 3, 4, 4, 4, 4, 1, 1, 1, 1, 1, 4, 4, 3, 3, 3, 3, 3, 3, 3, 4]
  {
  }

  /**
   Stage 2 stops early: it agrees with its comment for 26 ticks, then idles on
   tick 27, where the comment still asks for a sixth step right; the comment's
   pattern lasts 57 ticks.
   */
  lemma {:induction false} Stage2Truncated(k: int)
    ensures k <= 26 ==> Schedule(2, k) == CommentedSchedule(2, k)
    ensures Schedule(2, 27) == NOOP && CommentedSchedule(2, 27) == RIGHT
    ensures LastTick(2) == 26 && Total(CommentedPlan(2)) == 57
  {
    var p, q := CodedPlan(2), CommentedPlan(2);
    CodedBounds2();
    CommentedBounds2();
    CodedTotals(2);
    AtPastEnd(p, 27);
    AtInLeg(q, 8, 27);
    if k <= 21 {
      AtShared(p, q, 8, k);
    } else if k <= 26 {
      AtInLeg(p, 8, k);
      AtInLeg(q, 8, k);
    }
  }

  /**
   Stage 3 steps left twice on ticks 27-28 where its comment steps left once;
   from tick 27 on the code runs one tick behind the comment and ends on tick
   36 instead of 35.
   */
  lemma {:induction false} Stage3ExtraLeft(k: int)
    ensures k <= 27 ==> Schedule(3, k) == CommentedSchedule(3, k)
    ensures k >= 27 ==> Schedule(3, k + 1) == CommentedSchedule(3, k)
    ensures Schedule(3, 28) == LEFT && CommentedSchedule(3, 28) == RIGHT
    ensures LastTick(3) == Total(CommentedPlan(3)) + 1
  {
    var p, q := CodedPlan(3), CommentedPlan(3);
    CodedBounds3();
    CommentedBounds3();
    CodedTotals(3);
    AtInLeg(p, 9, 28);
    AtInLeg(q, 10, 28);
    if k <= 26 {
      AtShared(p, q, 9, k);
    } else if k == 27 {
      AtInLeg(p, 9, 27);
      AtInLeg(q, 9, 27);
      AtInLeg(p, 9, 28);
    } else if k <= 31 {
      AtInLeg(p, 10, k + 1);
      AtInLeg(q, 10, k);
    } else if k <= 34 {
      AtInLeg(p, 11, k + 1);
      AtInLeg(q, 11, k);
    } else if k == 35 {
      AtInLeg(p, 12, k + 1);
      AtInLeg(q, 12, k);
    } else {
      AtPastEnd(p, k + 1);
      AtPastEnd(q, k);
    }
  }

  /** The comments of stages 0 and 1 describe exactly what their code does. */
  lemma {:induction false} EarlyCommentsMatch(k: int)
    ensures CommentedSchedule(0, k) == Schedule(0, k)
    ensures CommentedSchedule(1, k) == Schedule(1, k)
  {
  }
}
