# Waypoint-replay brain of the grid-game agent

This project models `Brain::getNextMove` from the game agent. On every tick
the game asks the brain for one movement command: 0 = do nothing, 1 = up,
2 = left, 3 = down, 4 = right. The game reads a non-zero code as "turn that
way" when the player faces elsewhere and as "step that way" otherwise.

The brain keeps two integers. `move_counter` counts the ticks spent in the
current stage when that stage is one of 0-3 (for other stages it stays at its
post-reset value), and `current_stage` is the stage seen on the previous call.
The constructor sets them to 0 and -1. Each call does the following:

- it reads the stage index and the facing character in the top-left vision cell;
- it resets the counter to 0 when the stage differs from `current_stage`, and records the new stage;
- for stages 0 to 3 it increments the counter and answers from a fixed chain of counter ranges, one chain per stage;
- for any other stage it answers 0 and leaves the counter alone.

Each chain replays a hard-coded waypoint script such as "5 down, 4 right, 5 up, ...".

Layout (one module per file):

- `commands.dfy` (`Commands`): the five command codes.
- `plans.dfy` (`Plans`): run-length scripts. A `Leg` is one command repeated for a number of ticks. The module has the tick lookup `At`, the written-out form `Expand`, and the generic lemmas relating them.
- `schedules.dfy` (`Schedules`):
  - `CodedPlan`: the script each stage's chain implements;
  - `CommentedPlan`: the script the comment above each stage announces;
  - `Schedule(stage, k)`: the command on the k-th tick of a stage;
  - facts about these scripts: where they end, which commands they use, where code and comment disagree.
- `brain.dfy` (`Brain`): `BrainState`, the constructor's `Initial` state, the four branch chains written exactly as the code writes them (including the `facing != '>'` turn branches), and `GetNextMove`. The lemmas here prove that each chain replays its `CodedPlan`.
- `replay.dfy` (`Replay`): `Run` folds `GetNextMove` over a sequence of ticks. Its lemmas relate runs to schedule prefixes and cover the counter discipline.

Code versus comments: the model follows the code. Stages 0 and 1 do what
their comments say. Stage 2's comment announces 57 moves, but the code stops
after 26 ticks; its last leg is 5 steps right (ticks 22-26) where the comment
has 6, and the rest of the commented pattern is missing. Stage 3's code steps
left on both ticks 27 and 28, where the comment has one left. After that it
runs one tick behind the comment and ends on tick 36 rather than 35.
`Schedules.Stage2Truncated` and `Schedules.Stage3ExtraLeft` prove both
differences.

## Model

| member | source | states |
|---|---|---|
| Brain.GetNextMove | GameAI/brain.cpp:8-305 | Every call returns a code in 0..4 and records the stage it was given. A changed stage restarts the counter; a repeated stage continues it. A known stage then advances the counter by one and returns `Schedule(stage, counter)`. Any other stage returns 0 and keeps the post-reset counter. |
| Brain.FirstCallStartsFresh | GameAI/brain.cpp:3-17 | Because the constructor starts at stage -1, the first call with any stage dispatches from a zero counter. A known stage then emits its script's first tick. |
| Brain.FacingIrrelevant | GameAI/brain.cpp:20-301 | The facing character never changes the answer or the next state: each turn branch returns the same code as the move branch after it. |
| Brain.Stage0FollowsPlan | GameAI/brain.cpp:20-57 | The stage 0 chain, evaluated on the incremented counter, returns on every tick k >= 1 the command of the stage 0 script's leg covering k, and 0 past it. |
| Brain.Stage1FollowsPlan | GameAI/brain.cpp:62-150 | The stage 1 chain returns the stage 1 script's command on every tick k >= 1. |
| Brain.Stage2FollowsPlan | GameAI/brain.cpp:155-213 | The stage 2 chain returns the stage 2 script's command on every tick k >= 1. |
| Brain.Stage3FollowsPlan | GameAI/brain.cpp:218-300 | The stage 3 chain returns the stage 3 script's command on every tick k >= 1. |
| Brain.StageFollowsPlan | GameAI/brain.cpp:20-301 | For every known stage and every tick k >= 1, the code's branch chain answers `Schedule(stage, k)`. |
| Schedules.CodedBounds0 | GameAI/brain.cpp:23-50 | The legs 5 down, 4 right, 5 up, 2 right, 7 down, 1 right end on ticks 5, 9, 14, 16, 23, 24: exactly the bounds stage 0's branches compare the counter with. |
| Schedules.CodedBounds1 | GameAI/brain.cpp:65-143 | The 14 legs of stage 1 end on ticks 1, 4, 5, 8, 9, 15, 17, 24, 25, 29, 30, 31, 35, 37, the bounds its branches compare the counter with. |
| Schedules.CodedBounds2 | GameAI/brain.cpp:158-206 | The 9 legs of stage 2 end on ticks 3, 5, 7, 9, 11, 15, 19, 21, 26, the bounds its branches compare the counter with. |
| Schedules.CodedBounds3 | GameAI/brain.cpp:221-293 | The 13 legs of stage 3 end on ticks 1, 2, 7, 11, 15, 16, 17, 21, 26, 28, 32, 35, 36, the bounds its branches compare the counter with. |
| Schedules.CommentedBounds2 | GameAI/brain.cpp:154-157 | The pattern announced for stage 2 has 15 legs; its ninth leg (6 right) covers ticks 22-27, and the whole pattern lasts 57 ticks, matching the comment's total. |
| Schedules.CommentedBounds3 | GameAI/brain.cpp:217-220 | The pattern announced for stage 3 has 13 legs; its one-tick left leg (1 left) is tick 27, and it lasts 35 ticks, matching the comment's total. |
| Schedules.CodedTotals | GameAI/brain.cpp:50-300 | Each stage's script lasts exactly until the tick of its last branch: 24, 37, 26 and 36 ticks; unknown stages have an empty script. |
| Schedules.CodedPlansMove | GameAI/brain.cpp:20-301 | No leg of any stage's script is a no-op; every branch before the final `return 0` returns a direction. |
| Schedules.ScheduleIsCommand | GameAI/brain.cpp:8-305 | On every tick of every stage the answer is one of the codes 0..4. |
| Schedules.PatternEnds | GameAI/brain.cpp:57-300 | A stage's answer is non-zero exactly on ticks 1..24 (stage 0), 1..37 (stage 1), 1..26 (stage 2) or 1..36 (stage 3). It is 0 on every later tick and for every other stage. |
| Schedules.IdleAfterScript | GameAI/brain.cpp:57-300 | Past a stage's last tick the answer is 0. |
| Schedules.ScriptOrIdle | GameAI/brain.cpp:20-301 | On tick k >= 1 of a known stage the answer is entry k-1 of the written-out script while the script lasts, and 0 after it. |
| Schedules.Script | GameAI/brain.cpp:20-301 | The written-out script of a stage has one entry per tick up to the last branch, and entry k-1 is the answer on tick k. |
| Schedules.NoLeftInEarlyStages | GameAI/brain.cpp:20-151 | Stages 0 and 1 never return 2 (left). |
| Schedules.Stage0Ticks | GameAI/brain.cpp:23-57 | Stage 0 answers 3 on ticks 1-5, 4 on 6-9, 1 on 10-14, 4 on 15-16, 3 on 17-23, 4 on 24, and 0 on every other tick. |
| Schedules.Stage0Script | GameAI/brain.cpp:19-57 | Written out, the stage 0 script is 3,3,3,3,3,4,4,4,4,1,1,1,1,1,4,4,3,3,3,3,3,3,3,4. |
| Schedules.Stage2Truncated | GameAI/brain.cpp:153-213 | Stage 2 agrees with its comment up to tick 26 and then stops: on tick 27 the code returns 0 where the comment still asks for right. The code's script lasts 26 ticks against the comment's 57. |
| Schedules.Stage3ExtraLeft | GameAI/brain.cpp:216-300 | Stage 3 agrees with its comment up to tick 27. On tick 28 it returns left where the comment has right. From tick 27 on, the code's tick k+1 equals the comment's tick k, so the code ends one tick later. |
| Schedules.EarlyCommentsMatch | GameAI/brain.cpp:19-151 | For stages 0 and 1 the commented pattern and the code answer identically on every tick. |
| Replay.Run | GameAI/brain.cpp:8-305 | Successive calls return one command per tick, each in 0..4. The brain ends in the stage of the last tick, and an empty run leaves it untouched. |
| Replay.RunOneStage | GameAI/brain.cpp:14-219 | n consecutive calls with one known stage return the schedule of that stage from the dispatch counter on: ticks 1..n after a stage change, or continuing from the stored counter when the stage repeats. The counter ends n higher and is never reset in between. |
| Replay.RunUnknownStage | GameAI/brain.cpp:14-304 | Consecutive calls with a stage outside 0..3 return only 0 and leave the counter at its post-reset value. |
| Replay.RunFromInitial | GameAI/brain.cpp:3-21 | From the constructor's state, n calls with one known stage return that stage's schedule for ticks 1..n. |
| Replay.RunEmitsScript | GameAI/brain.cpp:14-301 | Entering a known stage and staying in it emits the stage's written-out script, then 0 forever. |
| Replay.RunEmitsScriptPrefix | GameAI/brain.cpp:14-301 | Entering a known stage for at most its script's length emits exactly that prefix of the script. |
| Replay.Stage0Prefix | GameAI/brain.cpp:19-57 | Up to 24 stage 0 calls on a fresh brain emit exactly the matching prefix of 3,3,3,3,3,4,4,4,4,1,1,1,1,1,4,4,3,3,3,3,3,3,3,4. |
| Replay.RunStaysIdle | GameAI/brain.cpp:57-300 | Once the counter has reached a stage's last tick, further calls in that stage return only 0 while the counter keeps rising by one per call. |
| Replay.RunIgnoresFacing | GameAI/brain.cpp:11-301 | Two tick sequences with the same stages produce the same commands and final state, whatever the facing characters. |
| Replay.ReturnRestartsScript | GameAI/brain.cpp:14-17 | Leaving a known stage for another and coming back restarts its script from the first tick; the counter is 1 after the return. |

## Left out

- `GameState` and `Game/game.h` are not part of this model. A call's input is the stage as an `int` and the facing character as a `char`. The source reads `vision[0][0]` unchecked, so the model assumes a non-empty vision.
- `move_counter` is modelled as an unbounded `nat`. In the source it is a 32-bit `int` (`brain.h`), and `move_counter++` overflows on the 2^31-th call in one stage, which is undefined behaviour in C++. The results saying that a finished stage stays at 0 forever (`Schedules.PatternEnds`, `Schedules.IdleAfterScript`, `Replay.RunStaysIdle`, `Replay.RunEmitsScript`) hold in the source only for the first 2^31 - 1 calls of a stage; on a build that wraps, the counter turns negative and the first `<=` branch of the stage would fire again (`brain.cpp` lines 23, 71, 158 and 233).
- `flag_picked` is set by the constructor but never read, so it is left out.
- `prev_move`, `prev_prev_move`, `right_blocked` and `down_blocked` are never initialised or used, so they are left out.
- `updateMoveHistory` is declared in `brain.h` but has no definition, so it is not modelled.
- The brain is modelled as an immutable `BrainState` threaded through pure functions, not as a C++ object mutated in place. Each call maps the old state to the new state and the command.
