/**
 Successive calls of the brain: the commands a sequence of ticks produces
 and the state it leaves behind.
 */
module Replay {
  import opened Commands
  import opened Schedules
  import opened Brain

  /** What one call reads from the game state: the stage and the facing character. */
  datatype Tick = Tick(stage: int, facing: char)

  /** The state after a sequence of calls and the commands they returned, in order. */
  datatype Trace = Trace(final: BrainState, commands: seq<int>)

  /** Calls the brain once per tick, starting from `s`. */
  function Run(s: BrainState, ticks: seq<Tick>): (t: Trace)
    ensures |t.commands| == |ticks|
    ensures forall i :: 0 <= i < |ticks| ==> IsCommand(t.commands[i])
    ensures |ticks| == 0 ==> t.final == s
    ensures |ticks| > 0 ==> t.final.currentStage == ticks[|ticks| - 1].stage
    decreases |ticks|
  {
    if |ticks| == 0 then
      Trace(s, [])
    else
      var d := GetNextMove(s, ticks[0].stage, ticks[0].facing);
      var rest := Run(d.next, ticks[1..]);
      Trace(rest.final, [d.command] + rest.commands)
  }

  /** Every tick reports the same stage. */
  predicate AllAt(ticks: seq<Tick>, stage: int) {
    forall i :: 0 <= i < |ticks| ==> ticks[i].stage == stage
  }

  /** The first call of a run, then the rest of the run from the state it leaves. */
  lemma {:induction false} RunCons(s: BrainState, ticks: seq<Tick>)
    requires |ticks| > 0
    ensures var d := GetNextMove(s, ticks[0].stage, ticks[0].facing);
      var rest := Run(d.next, ticks[1..]);
      Run(s, ticks) == Trace(rest.final, [d.command] + rest.commands)
  {
  }

  /** Commands that follow a stage's schedule from tick `c + 1` on. */
  predicate FollowsFrom(cs: seq<int>, stage: int, c: int) {
    forall i :: 0 <= i < |cs| ==> cs[i] == Schedule(stage, c + i + 1)
  }

  /** The schedule from tick `c + 1` is tick `c + 1`'s command followed by the schedule from tick `c + 2`. */
  lemma {:induction false} FollowsCons(x: int, rest: seq<int>, stage: int, c: int)
    requires x == Schedule(stage, c + 1)
    requires FollowsFrom(rest, stage, c + 1)
    ensures FollowsFrom([x] + rest, stage, c)
  {
    var cs := [x] + rest;
    forall i | 0 <= i < |cs|
      ensures cs[i] == Schedule(stage, c + i + 1)
    {
      if i > 0 {
        assert cs[i] == rest[i - 1];
      }
    }
  }

  /** Once past the script, following the schedule means emitting nothing but 0. */
  lemma {:induction false} FollowsIdle(cs: seq<int>, stage: int, c: int)
    requires c >= LastTick(stage)
    requires FollowsFrom(cs, stage, c)
    ensures forall i :: 0 <= i < |cs| ==> cs[i] == NOOP
  {
    forall i | 0 <= i < |cs|
      ensures cs[i] == NOOP
    {
      IdleAfterScript(stage, c + i + 1);
    }
  }

  /** Following a known stage's schedule from its first tick means emitting its written-out script, then 0. */
  lemma {:induction false} FollowsScript(cs: seq<int>, stage: int)
    requires KnownStage(stage)
    requires FollowsFrom(cs, stage, 0)
    ensures forall i :: 0 <= i < |cs| ==> cs[i] == (if i < LastTick(stage) then Script(stage)[i] else NOOP)
  {
    forall i | 0 <= i < |cs|
      ensures cs[i] == (if i < LastTick(stage) then Script(stage)[i] else NOOP)
    {
      ScriptOrIdle(stage, i + 1);
    }
  }

  /**
   Consecutive calls with one known stage replay that stage's script from the
   counter the first call dispatches from, one tick per call.
   */
  lemma {:induction false} RunOneStage(s: BrainState, stage: int, ticks: seq<Tick>)
    requires KnownStage(stage)
    requires AllAt(ticks, stage)
    ensures FollowsFrom(Run(s, ticks).commands, stage, CounterAfterReset(s, stage))
    ensures |ticks| > 0 ==> Run(s, ticks).final == BrainState(CounterAfterReset(s, stage) + |ticks|, stage)
    decreases |ticks|
  {
    if |ticks| > 0 {
      var c0 := CounterAfterReset(s, stage);
      var d := GetNextMove(s, stage, ticks[0].facing);
      assert d.next == BrainState(c0 + 1, stage) && d.command == Schedule(stage, c0 + 1);
      var rest := Run(d.next, ticks[1..]);
      RunOneStage(d.next, stage, ticks[1..]);
      RunCons(s, ticks);
      FollowsCons(d.command, rest.commands, stage, c0);
    }
  }

  /** Calls with an unknown stage always answer 0 and never advance the counter. */
  lemma {:induction false} RunUnknownStage(s: BrainState, stage: int, ticks: seq<Tick>)
    requires !KnownStage(stage)
    requires AllAt(ticks, stage)
    ensures forall i :: 0 <= i < |ticks| ==> Run(s, ticks).commands[i] == NOOP
    ensures |ticks| > 0 ==> Run(s, ticks).final == BrainState(CounterAfterReset(s, stage), stage)
    decreases |ticks|
  {
    if |ticks| > 0 {
      var d := GetNextMove(s, stage, ticks[0].facing);
      RunUnknownStage(d.next, stage, ticks[1..]);
      RunCons(s, ticks);
      var rest := Run(d.next, ticks[1..]).commands;
      var cs := [d.command] + rest;
      forall i | 0 <= i < |cs|
        ensures cs[i] == NOOP
      {
        if i > 0 {
          assert cs[i] == rest[i - 1];
        }
      }
    }
  }

  /** A freshly built brain replays any known stage's script from its first tick. */
  lemma {:induction false} RunFromInitial(stage: int, ticks: seq<Tick>)
    requires KnownStage(stage)
    requires AllAt(ticks, stage)
    ensures forall i :: 0 <= i < |ticks| ==> Run(Initial, ticks).commands[i] == Schedule(stage, i + 1)
  {
    RunOneStage(Initial, stage, ticks);
  }

  /**
   Entering a stage and staying in it emits the stage's written-out script,
   followed by no-ops once the script is exhausted.
   */
  lemma {:induction false} RunEmitsScript(s: BrainState, stage: int, ticks: seq<Tick>)
    requires KnownStage(stage)
    requires s.currentStage != stage
    requires AllAt(ticks, stage)
    ensures forall i :: 0 <= i < |ticks| ==>
      Run(s, ticks).commands[i] == (if i < LastTick(stage) then Script(stage)[i] else NOOP)
  {
    RunOneStage(s, stage, ticks);
    FollowsScript(Run(s, ticks).commands, stage);
  }

  /** Entering a stage and staying in it for at most the script's length emits exactly a prefix of the script. */
  lemma {:induction false} RunEmitsScriptPrefix(s: BrainState, stage: int, ticks: seq<Tick>)
    requires KnownStage(stage)
    requires s.currentStage != stage
    requires AllAt(ticks, stage)
    requires |ticks| <= LastTick(stage)
    ensures Run(s, ticks).commands == Script(stage)[..|ticks|]
  {
    RunEmitsScript(s, stage, ticks);
  }

  /**
   Up to 24 consecutive stage 0 calls on a fresh brain emit 5 downs, 4 rights,
   5 ups, 2 rights, 7 downs and 1 right, cut at the number of calls.
   */
  lemma {:induction false} Stage0Prefix(ticks: seq<Tick>)
    requires AllAt(ticks, 0)
    requires |ticks| <= 24
    ensures Run(Initial, ticks).commands == [3, 3, 3, 3, 3, 4, 4, 4, 4, 1, 1, 1, 1, 1, 4, 4, 3, 3, 3, 3, 3, 3, 3, 4][..|ticks|]
  {
    RunEmitsScriptPrefix(Initial, 0, ticks);
    Stage0Script();
  }

  /** Once a stage's script is exhausted, staying in that stage only ever emits 0 while the counter keeps rising. */
  lemma {:induction false} RunStaysIdle(s: BrainState, ticks: seq<Tick>)
    requires KnownStage(s.currentStage)
    requires s.moveCounter >= LastTick(s.currentStage)
    requires AllAt(ticks, s.currentStage)
    ensures forall i :: 0 <= i < |ticks| ==> Run(s, ticks).commands[i] == NOOP
    ensures Run(s, ticks).final == BrainState(s.moveCounter + |ticks|, s.currentStage)
  {
    RunOneStage(s, s.currentStage, ticks);
    FollowsIdle(Run(s, ticks).commands, s.currentStage, s.moveCounter);
  }

  /** Only the stages matter: two tick sequences with the same stages produce the same trace, whatever the facings. */
  lemma {:induction false} RunIgnoresFacing(s: BrainState, a: seq<Tick>, b: seq<Tick>)
    requires |a| == |b|
    requires forall i :: 0 <= i < |a| ==> a[i].stage == b[i].stage
    ensures Run(s, a) == Run(s, b)
    decreases |a|
  {
    if |a| > 0 {
      FacingIrrelevant(s, a[0].stage, a[0].facing, b[0].facing);
      var d := GetNextMove(s, a[0].stage, a[0].facing);
      RunIgnoresFacing(d.next, a[1..], b[1..]);
    }
  }

  /** Leaving a known stage for another and coming back restarts its script from the first tick. */
  lemma {:induction false} ReturnRestartsScript(s: BrainState, stage: int, other: int, f: char, g: char, h: char)
    requires KnownStage(stage)
    requires other != stage
    ensures var back := Run(s, [Tick(stage, f), Tick(other, g), Tick(stage, h)]);
      back.final == BrainState(1, stage) && back.commands[2] == Schedule(stage, 1)
  {
    var ticks := [Tick(stage, f), Tick(other, g), Tick(stage, h)];
    var d1 := GetNextMove(s, stage, f);
    var d2 := GetNextMove(d1.next, other, g);
    var d3 := GetNextMove(d2.next, stage, h);
    assert ticks[1..] == [Tick(other, g), Tick(stage, h)];
    assert ticks[1..][1..] == [Tick(stage, h)];
    assert Run(d2.next, [Tick(stage, h)]) == Trace(d3.next, [d3.command]);
    assert Run(d1.next, ticks[1..]) == Trace(d3.next, [d2.command, d3.command]);
    assert Run(s, ticks) == Trace(d3.next, [d1.command, d2.command, d3.command]);
  }
}
