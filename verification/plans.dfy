/**
 Run-length waypoint scripts.

 Every stage of the brain replays a fixed script such as "5 down, 4 right,
 5 up": a sequence of legs, each emitting one command for a number of
 consecutive ticks. Ticks are counted from 1; outside the script the brain
 does nothing.
 */
module Plans {
  import opened Commands

  /** `count` consecutive ticks that all emit `command`. */
  datatype Leg = Leg(command: int, count: nat)

  type Plan = seq<Leg>

  /** Number of ticks covered by the first `i` legs. */
  function Start(plan: Plan, i: nat): nat
    requires i <= |plan|
  {
    if i == 0 then 0 else Start(plan, i - 1) + plan[i - 1].count
  }

  /** Number of ticks covered by the whole script. */
  function Total(plan: Plan): nat {
    Start(plan, |plan|)
  }

  /** The command at tick `k` of the script made of the legs from `i` on. */
  function AtFrom(plan: Plan, i: nat, k: int): int
    requires i <= |plan|
    decreases |plan| - i
  {
    if i == |plan| || k < 1 then NOOP
    else if k <= plan[i].count then plan[i].command
    else AtFrom(plan, i + 1, k - plan[i].count)
  }

  /** The command the script emits at the 1-based tick `k`. */
  function At(plan: Plan, k: int): int {
    AtFrom(plan, 0, k)
  }

  /** `n` copies of `c`. */
  function Repeat(c: int, n: nat): (s: seq<int>)
    ensures |s| == n
    ensures forall j :: 0 <= j < n ==> s[j] == c
  {
    if n == 0 then [] else [c] + Repeat(c, n - 1)
  }

  /** The script written out tick by tick, from leg `i` on. */
  function ExpandFrom(plan: Plan, i: nat): seq<int>
    requires i <= |plan|
    decreases |plan| - i
  {
    if i == |plan| then [] else Repeat(plan[i].command, plan[i].count) + ExpandFrom(plan, i + 1)
  }

  /** The script written out tick by tick: entry `k - 1` is the command at tick `k`. */
  function Expand(plan: Plan): seq<int> {
    ExpandFrom(plan, 0)
  }

  /** Every leg emits a real move (none of them is a no-op leg). */
  predicate AllMoves(plan: Plan) {
    forall leg :: leg in plan ==> IsMove(leg.command)
  }

  lemma {:induction false} StartMonotone(plan: Plan, i: nat, j: nat)
    requires i <= j <= |plan|
    ensures Start(plan, i) <= Start(plan, j)
    decreases j - i
  {
    if i < j {
      StartMonotone(plan, i, j - 1);
    }
  }

  /** Inside leg `j`, the scan started at leg `i` returns that leg's command. */
  lemma {:induction false} AtFromInLeg(plan: Plan, i: nat, j: nat, k: int)
    requires i <= j < |plan|
    requires Start(plan, j) - Start(plan, i) < k <= Start(plan, j) - Start(plan, i) + plan[j].count
    ensures AtFrom(plan, i, k) == plan[j].command
    decreases j - i
  {
    StartMonotone(plan, i, j);
    if i < j {
      StartMonotone(plan, i + 1, j);
      AtFromInLeg(plan, i + 1, j, k - plan[i].count);
    }
  }

  /** Ticks `Start(plan, j) + 1 .. Start(plan, j + 1)` all emit the command of leg `j`. */
  lemma {:induction false} AtInLeg(plan: Plan, j: nat, k: int)
    requires j < |plan|
    requires Start(plan, j) < k <= Start(plan, j) + plan[j].count
    ensures At(plan, k) == plan[j].command
  {
    AtFromInLeg(plan, 0, j, k);
  }

  /** Past the last leg the scan from leg `i` finds nothing. */
  lemma {:induction false} AtFromPastEnd(plan: Plan, i: nat, k: int)
    requires i <= |plan|
    requires k > Total(plan) - Start(plan, i)
    ensures AtFrom(plan, i, k) == NOOP
    decreases |plan| - i
  {
    if i < |plan| {
      StartMonotone(plan, i + 1, |plan|);
      AtFromPastEnd(plan, i + 1, k - plan[i].count);
    }
  }

  /** A script emits nothing once it has run out of legs. */
  lemma {:induction false} AtPastEnd(plan: Plan, k: int)
    requires k > Total(plan)
    ensures At(plan, k) == NOOP
  {
    AtFromPastEnd(plan, 0, k);
  }

  lemma {:induction false} AtFromMoveIff(plan: Plan, i: nat, k: int)
    requires i <= |plan|
    requires AllMoves(plan)
    ensures AtFrom(plan, i, k) != NOOP <==> 1 <= k <= Total(plan) - Start(plan, i)
    decreases |plan| - i
  {
    StartMonotone(plan, i, |plan|);
    if i < |plan| {
      StartMonotone(plan, i + 1, |plan|);
      AtFromMoveIff(plan, i + 1, k - plan[i].count);
    }
  }

  /** When every leg moves, the script is busy exactly on ticks 1 .. Total(plan). */
  lemma {:induction false} AtMoveIff(plan: Plan, k: int)
    requires AllMoves(plan)
    ensures At(plan, k) != NOOP <==> 1 <= k <= Total(plan)
  {
    AtFromMoveIff(plan, 0, k);
  }

  lemma {:induction false} AtFromEmitted(plan: Plan, i: nat, k: int)
    requires i <= |plan|
    ensures AtFrom(plan, i, k) == NOOP || exists j :: i <= j < |plan| && plan[j].command == AtFrom(plan, i, k)
    decreases |plan| - i
  {
    if i < |plan| && k >= 1 && k > plan[i].count {
      AtFromEmitted(plan, i + 1, k - plan[i].count);
    }
  }

  /** A script emits only no-ops and the commands of its own legs. */
  lemma {:induction false} AtEmitted(plan: Plan, k: int)
    ensures At(plan, k) == NOOP || exists leg :: leg in plan && leg.command == At(plan, k)
  {
    AtFromEmitted(plan, 0, k);
  }

  lemma {:induction false} ExpandFromAgrees(plan: Plan, i: nat)
    requires i <= |plan|
    ensures Start(plan, i) <= Total(plan)
    ensures |ExpandFrom(plan, i)| == Total(plan) - Start(plan, i)
    ensures forall k :: 1 <= k <= |ExpandFrom(plan, i)| ==> ExpandFrom(plan, i)[k - 1] == AtFrom(plan, i, k)
    decreases |plan| - i
  {
    StartMonotone(plan, i, |plan|);
    if i < |plan| {
      ExpandFromAgrees(plan, i + 1);
      var head := Repeat(plan[i].command, plan[i].count);
      var e := ExpandFrom(plan, i);
      forall k | 1 <= k <= |e|
        ensures e[k - 1] == AtFrom(plan, i, k)
      {
        if k > plan[i].count {
          assert e[k - 1] == ExpandFrom(plan, i + 1)[k - plan[i].count - 1];
        }
      }
    }
  }

  /** The written-out script has one entry per tick, and entry `k - 1` is the command at tick `k`. */
  lemma {:induction false} ExpandAgrees(plan: Plan)
    ensures |Expand(plan)| == Total(plan)
    ensures forall k :: 1 <= k <= Total(plan) ==> Expand(plan)[k - 1] == At(plan, k)
  {
    ExpandFromAgrees(plan, 0);
  }

  /** Two scripts whose first `n` legs coincide also agree on the ticks those legs cover. */
  lemma {:induction false} AtFromShared(p: Plan, q: Plan, n: nat, i: nat, k: int)
    requires i <= n <= |p| && n <= |q| && p[..n] == q[..n]
    requires k <= Start(p, n) - Start(p, i)
    ensures AtFrom(p, i, k) == AtFrom(q, i, k)
    decreases n - i
  {
    if i < n && k >= 1 {
      assert p[i] == p[..n][i] == q[i];
      if k > p[i].count {
        AtFromShared(p, q, n, i + 1, k - p[i].count);
      }
    }
  }

  /** Scripts that share their first `n` legs emit the same commands on ticks up to Start(p, n). */
  lemma {:induction false} AtShared(p: Plan, q: Plan, n: nat, k: int)
    requires n <= |p| && n <= |q| && p[..n] == q[..n]
    requires k <= Start(p, n)
    ensures At(p, k) == At(q, k)
  {
    AtFromShared(p, q, n, 0, k);
  }
}
