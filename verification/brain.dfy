/**
 The hard-coded waypoint-replay brain: `Brain::getNextMove`.

 The brain keeps a tick counter and the stage it last saw. Every call reads
 the stage and the character the player shows in the top-left cell of its
 vision (its facing). A new stage resets the counter; stages 0 to 3 then
 advance the counter and answer from a fixed branch chain, and any other
 stage answers 0.
 */
module Brain {
  import opened Commands
  import opened Plans
  import opened Schedules

  /** The persistent part of the brain: `move_counter` and `current_stage`. */
  datatype BrainState = BrainState(moveCounter: nat, currentStage: int)

  /** The answer of one call: the state after it and the command it returns. */
  datatype Decision = Decision(next: BrainState, command: int)

  /** The state the constructor builds: no ticks yet, and stage -1, which no real stage uses. */
  const Initial: BrainState := BrainState(0, -1)

  /** The stage 0 branch chain, evaluated on the already incremented counter. */
  function Stage0Move(counter: int, facing: char): int {
    if counter <= 5 then DOWN
    else if counter <= 9 then (if facing != '>' then RIGHT else RIGHT)
    else if counter <= 14 then (if facing != '^' then UP else UP)
    else if counter <= 16 then (if facing != '>' then RIGHT else RIGHT)
    else if counter <= 23 then (if facing != 'v' then DOWN else DOWN)
    else if counter == 24 then (if facing != '>' then RIGHT else RIGHT)
    else NOOP
  }

  /** The stage 1 branch chain. */
  function Stage1Move(counter: int, facing: char): int {
    if counter == 1 then (if facing != '>' then RIGHT else RIGHT)
    else if counter <= 4 then (if facing != '^' then UP else UP)
    else if counter == 5 then (if facing != '>' then RIGHT else RIGHT)
    else if counter <= 8 then (if facing != '^' then UP else UP)
    else if counter == 9 then (if facing != '>' then RIGHT else RIGHT)
    else if counter <= 15 then (if facing != 'v' then DOWN else DOWN)
    else if counter <= 17 then (if facing != '>' then RIGHT else RIGHT)
    else if counter <= 24 then (if facing != '^' then UP else UP)
    else if counter == 25 then (if facing != '>' then RIGHT else RIGHT)
    else if counter <= 29 then (if facing != 'v' then DOWN else DOWN)
    else if counter == 30 then (if facing != '>' then RIGHT else RIGHT)
    else if counter == 31 then (if facing != '^' then UP else UP)
    else if counter <= 35 then (if facing != 'v' then DOWN else DOWN)
    else if counter <= 37 then (if facing != '>' then RIGHT else RIGHT)
    else NOOP
  }

  /** The stage 2 branch chain. */
  function Stage2Move(counter: int, facing: char): int {
    if counter <= 3 then (if facing != '>' then RIGHT else RIGHT)
    else if counter <= 5 then (if facing != '^' then UP else UP)
    else if counter <= 7 then (if facing != '>' then RIGHT else RIGHT)
    else if counter <= 9 then (if facing != 'v' then DOWN else DOWN)
    else if counter <= 11 then (if facing != '>' then RIGHT else RIGHT)
    else if counter <= 15 then (if facing != '^' then UP else UP)
    else if counter <= 19 then (if facing != '<' then LEFT else LEFT)
    else if counter <= 21 then (if facing != '^' then UP else UP)
    else if counter <= 26 then (if facing != '>' then RIGHT else RIGHT)
    else NOOP
  }

  /** The stage 3 branch chain. */
  function Stage3Move(counter: int, facing: char): int {
    if counter == 1 then (if facing != '>' then RIGHT else RIGHT)
    else if counter == 2 then (if facing != 'v' then DOWN else DOWN)
    else if counter <= 7 then (if facing != '>' then RIGHT else RIGHT)
    else if counter <= 11 then (if facing != 'v' then DOWN else DOWN)
    else if counter <= 15 then (if facing != '<' then LEFT else LEFT)
    else if counter == 16 then (if facing != '^' then UP else UP)
    else if counter == 17 then (if facing != 'v' then DOWN else DOWN)
    else if counter <= 21 then (if facing != '>' then RIGHT else RIGHT)
    else if counter <= 26 then (if facing != '^' then UP else UP)
    else if counter <= 28 then (if facing != '<' then LEFT else LEFT)
    else if counter <= 32 then (if facing != '>' then RIGHT else RIGHT)
    else if counter <= 35 then (if facing != 'v' then DOWN else DOWN)
    else if counter == 36 then (if facing != '>' then RIGHT else RIGHT)
    else NOOP
  }

  /** The branch chain of a known stage. */
  function StageMove(stage: int, counter: int, facing: char): int
    requires KnownStage(stage)
  {
    if stage == 0 then Stage0Move(counter, facing)
    else if stage == 1 then Stage1Move(counter, facing)
    else if stage == 2 then Stage2Move(counter, facing)
    else Stage3Move(counter, facing)
  }

  /** The stage 0 chain replays the stage 0 script. */
  lemma {:induction false} Stage0FollowsPlan(k: int, facing: char)
    requires k >= 1
    ensures Stage0Move(k, facing) == Schedule(0, k)
  {
    var p := CodedPlan(0);
    CodedBounds0();
    if k <= 5 { AtInLeg(p, 0, k); }
    else if k <= 9 { AtInLeg(p, 1, k); }
    else if k <= 14 { AtInLeg(p, 2, k); }
    else if k <= 16 { AtInLeg(p, 3, k); }
    else if k <= 23 { AtInLeg(p, 4, k); }
    else if k == 24 { AtInLeg(p, 5, k); }
    else { AtPastEnd(p, k); }
  }

  /** The stage 1 chain replays the stage 1 script. */
  lemma {:induction false} Stage1FollowsPlan(k: int, facing: char)
    requires k >= 1
    ensures Stage1Move(k, facing) == Schedule(1, k)
  {
    var p := CodedPlan(1);
    CodedBounds1();
    if k == 1 { AtInLeg(p, 0, k); }
    else if k <= 4 { AtInLeg(p, 1, k); }
    else if k == 5 { AtInLeg(p, 2, k); }
    else if k <= 8 { AtInLeg(p, 3, k); }
    else if k == 9 { AtInLeg(p, 4, k); }
    else if k <= 15 { AtInLeg(p, 5, k); }
    else if k <= 17 { AtInLeg(p, 6, k); }
    else if k <= 24 { AtInLeg(p, 7, k); }
    else if k == 25 { AtInLeg(p, 8, k); }
    else if k <= 29 { AtInLeg(p, 9, k); }
    else if k == 30 { AtInLeg(p, 10, k); }
    else if k == 31 { AtInLeg(p, 11, k); }
    else if k <= 35 { AtInLeg(p, 12, k); }
    else if k <= 37 { AtInLeg(p, 13, k); }
    else { AtPastEnd(p, k); }
  }

  /** The stage 2 chain replays the stage 2 script. */
  lemma {:induction false} Stage2FollowsPlan(k: int, facing: char)
    requires k >= 1
    ensures Stage2Move(k, facing) == Schedule(2, k)
  {
    var p := CodedPlan(2);
    CodedBounds2();
    if k <= 3 { AtInLeg(p, 0, k); }
    else if k <= 5 { AtInLeg(p, 1, k); }
    else if k <= 7 { AtInLeg(p, 2, k); }
    else if k <= 9 { AtInLeg(p, 3, k); }
    else if k <= 11 { AtInLeg(p, 4, k); }
    else if k <= 15 { AtInLeg(p, 5, k); }
    else if k <= 19 { AtInLeg(p, 6, k); }
    else if k <= 21 { AtInLeg(p, 7, k); }
    else if k <= 26 { AtInLeg(p, 8, k); }
    else { AtPastEnd(p, k); }
  }

  /** The stage 3 chain replays the stage 3 script. */
  lemma {:induction false} Stage3FollowsPlan(k: int, facing: char)
    requires k >= 1
    ensures Stage3Move(k, facing) == Schedule(3, k)
  {
    var p := CodedPlan(3);
    CodedBounds3();
    if k == 1 { AtInLeg(p, 0, k); }
    else if k == 2 { AtInLeg(p, 1, k); }
    else if k <= 7 { AtInLeg(p, 2, k); }
    else if k <= 11 { AtInLeg(p, 3, k); }
    else if k <= 15 { AtInLeg(p, 4, k); }
    else if k == 16 { AtInLeg(p, 5, k); }
    else if k == 17 { AtInLeg(p, 6, k); }
    else if k <= 21 { AtInLeg(p, 7, k); }
    else if k <= 26 { AtInLeg(p, 8, k); }
    else if k <= 28 { AtInLeg(p, 9, k); }
    else if k <= 32 { AtInLeg(p, 10, k); }
    else if k <= 35 { AtInLeg(p, 11, k); }
    else if k == 36 { AtInLeg(p, 12, k); }
    else { AtPastEnd(p, k); }
  }

  /** On every tick after the increment, a stage's chain answers exactly its script. */
  lemma {:induction false} StageFollowsPlan(stage: int, k: int, facing: char)
    requires KnownStage(stage)
    requires k >= 1
    ensures StageMove(stage, k, facing) == Schedule(stage, k)
  {
    if stage == 0 { Stage0FollowsPlan(k, facing); }
    else if stage == 1 { Stage1FollowsPlan(k, facing); }
    else if stage == 2 { Stage2FollowsPlan(k, facing); }
    else { Stage3FollowsPlan(k, facing); }
  }

  /** The counter the call dispatches from: reset to 0 when the stage changed. */
  function CounterAfterReset(s: BrainState, stage: int): nat {
    if stage != s.currentStage then 0 else s.moveCounter
  }

  /** One call of `getNextMove` with the given stage and facing character. */
  function GetNextMove(s: BrainState, stage: int, facing: char): (d: Decision)
    ensures IsCommand(d.command)
    ensures d.next.currentStage == stage
    ensures stage == s.currentStage && KnownStage(stage) ==> d.next.moveCounter == s.moveCounter + 1
    ensures stage != s.currentStage && KnownStage(stage) ==> d.next.moveCounter == 1
    ensures KnownStage(stage) ==> d.command == Schedule(stage, d.next.moveCounter)
    ensures !KnownStage(stage) ==> d.command == NOOP
    ensures !KnownStage(stage) ==> d.next.moveCounter == (if stage == s.currentStage then s.moveCounter else 0)
  {
    var counter := CounterAfterReset(s, stage);
    if KnownStage(stage) then
      StageFollowsPlan(stage, counter + 1, facing);
      ScheduleIsCommand(stage, counter + 1);
      Decision(BrainState(counter + 1, stage), StageMove(stage, counter + 1, facing))
    else
      Decision(BrainState(counter, stage), NOOP)
  }

  /** The facing character never changes the answer: every turn branch returns the same code as its move branch. */
  lemma {:induction false} FacingIrrelevant(s: BrainState, stage: int, f: char, g: char)
    ensures GetNextMove(s, stage, f) == GetNextMove(s, stage, g)
  {
  }

  /** The first call after construction dispatches from a zero counter, whatever the stage. */
  lemma {:induction false} FirstCallStartsFresh(stage: int, facing: char)
    ensures GetNextMove(Initial, stage, facing).next == BrainState(if KnownStage(stage) then 1 else 0, stage)
    ensures GetNextMove(Initial, stage, facing).command == (if KnownStage(stage) then Schedule(stage, 1) else NOOP)
  {
  }
}
