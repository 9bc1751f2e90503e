/** WoLF-PHC ("win or learn fast" policy hill climbing): a PHC player whose
    step size depends on whether its current strategy earns more against its
    action values than its running average strategy does, small when winning
    and twice as large when losing. */
module WolfPhc {
  import opened Vectors
  import opened Learner
  import Phc

  /** `delta_win` as `get_delta()` sets it: 1/(1000 + turns). */
  function DeltaWin(turns: nat): (d: real)
    ensures 0.0 < d <= 0.001
  {
    1.0 / (1000.0 + turns as real)
  }

  /** The step `get_delta()` returns: `delta_win` when the strategy earns more
      against q than the average strategy does, `delta_lose` = 2 `delta_win`
      otherwise. */
  function StepSize(st: seq<real>, eq: seq<real>, q: seq<real>, turns: nat): (d: real)
    requires |st| == |q| == |eq|
    ensures 0.0 < d <= 2.0 * DeltaWin(turns)
    ensures d == DeltaWin(turns) <==> Dot(st, q) > Dot(eq, q)
    ensures d == 2.0 * DeltaWin(turns) <==> Dot(st, q) <= Dot(eq, q)
  {
    if Dot(st, q) > Dot(eq, q) then DeltaWin(turns) else 2.0 * DeltaWin(turns)
  }

  /** The first k passes of the loop in `update_strategy()`: the partly
      updated strategy and the mass s withdrawn so far. Each non-best action
      gives up min(its probability, d/(n-1)), where d is the step size
      evaluated on the strategy as the earlier passes left it. */
  function Sweep(st: seq<real>, eq: seq<real>, q: seq<real>, best: nat, turns: nat, k: nat): (r: (seq<real>, real))
    requires |st| == |q| == |eq| && best < |st| && k <= |st|
    ensures |r.0| == |st|
    decreases k
  {
    if k == 0 then (st, 0.0)
    else
      var prev := Sweep(st, eq, q, best, turns, k - 1);
      var c, i := prev.0, k - 1;
      if i == best then prev
      else
        var a := Take(c[i], StepSize(c, eq, q, turns), |st|);
        (c[i := c[i] - a], prev.1 + a)
  }

  /** One more pass of the loop, from the partly updated strategy c and the
      mass s withdrawn so far: the best action is skipped, any other action
      gives up min(its probability, d/(n-1)) with d taken on c. */
  lemma SweepNext(st: seq<real>, eq: seq<real>, q: seq<real>, best: nat, turns: nat, k: nat, c: seq<real>, s: real)
    requires |st| == |q| == |eq| && best < |st| && k < |st|
    requires Sweep(st, eq, q, best, turns, k) == (c, s)
    ensures k == best ==> Sweep(st, eq, q, best, turns, k + 1) == (c, s)
    ensures k != best ==> var a := Take(c[k], StepSize(c, eq, q, turns), |st|);
      Sweep(st, eq, q, best, turns, k + 1) == (c[k := c[k] - a], s + a)
  {
  }

  /** `update_strategy()` on values: the whole sweep, then everything
      withdrawn is added to the best action. */
  function WolfClimbed(st: seq<real>, eq: seq<real>, q: seq<real>, best: nat, turns: nat): (c: seq<real>)
    requires |st| == |q| == |eq| && best < |st|
    ensures |c| == |st|
  {
    var r := Sweep(st, eq, q, best, turns, |st|);
    r.0[best := r.0[best] + r.1]
  }

  /** d/m never exceeds D/m when d <= D and m is positive. */
  lemma DivideMonotone(d: real, bound: real, m: real)
    requires d <= bound && 0.0 < m
    ensures d / m <= bound / m
  {
    assert bound / m - d / m == (bound - d) / m;
    assert 0.0 <= (bound - d) / m;
  }

  /** The most a non-best action can lose in one projection: the losing
      step 2 delta_win shared over the n - 1 other actions. */
  function MaxLoss(turns: nat, n: nat): real
    requires n >= 2
  {
    2.0 * DeltaWin(turns) / ((n - 1) as real)
  }

  /** What the first k passes keep: the strategy stays non-negative, mass is
      conserved between the strategy and s, and the best action is untouched. */
  lemma {:induction false} SweepConserves(st: seq<real>, eq: seq<real>, q: seq<real>, best: nat, turns: nat, k: nat)
    requires |st| == |q| == |eq| && best < |st| && k <= |st| && NonNegative(st)
    ensures var r := Sweep(st, eq, q, best, turns, k);
      && NonNegative(r.0) && 0.0 <= r.1
      && Sum(r.0) + r.1 == Sum(st)
      && r.0[best] == st[best]
    decreases k
  {
    if k > 0 {
      SweepConserves(st, eq, q, best, turns, k - 1);
      var prev := Sweep(st, eq, q, best, turns, k - 1);
      var c, i := prev.0, k - 1;
      if i != best {
        var a := Take(c[i], StepSize(c, eq, q, turns), |st|);
        SumUpdate(c, i, c[i] - a);
      }
    }
  }

  /** A visited non-best action has lost at most MaxLoss and never gained. */
  lemma SweepEntryLoss(st: seq<real>, eq: seq<real>, q: seq<real>, best: nat, turns: nat, k: nat, j: nat)
    requires |st| == |q| == |eq| && best < |st| && k <= |st| && NonNegative(st)
    requires j < k && j != best
    ensures var r := Sweep(st, eq, q, best, turns, k);
      r.0[j] <= st[j] && st[j] - r.0[j] <= MaxLoss(turns, |st|)
  {
    var n := |st|;
    SweepSettled(st, eq, q, best, turns, j, k);
    SweepUntouched(st, eq, q, best, turns, j, j);
    var c := Sweep(st, eq, q, best, turns, j).0;
    var d := StepSize(c, eq, q, turns);
    DivideMonotone(d, 2.0 * DeltaWin(turns), (n - 1) as real);
    assert Sweep(st, eq, q, best, turns, j + 1).0[j] == st[j] - Take(st[j], d, n);
  }

  /** The mass s withdrawn by the first k passes is at most MaxLoss per
      visited non-best action. */
  lemma {:induction false} SweepWithdrawn(st: seq<real>, eq: seq<real>, q: seq<real>, best: nat, turns: nat, k: nat)
    requires |st| == |q| == |eq| && best < |st| && k <= |st| && |st| >= 2
    ensures Sweep(st, eq, q, best, turns, k).1 <= Shares(Visited(best, k), MaxLoss(turns, |st|))
    decreases k
  {
    if k > 0 {
      SweepWithdrawn(st, eq, q, best, turns, k - 1);
      var prev := Sweep(st, eq, q, best, turns, k - 1);
      var c, i := prev.0, k - 1;
      SweepNext(st, eq, q, best, turns, i, c, prev.1);
      if i != best {
        var n := |st|;
        var d := StepSize(c, eq, q, turns);
        DivideMonotone(d, 2.0 * DeltaWin(turns), (n - 1) as real);
        var a := Take(c[i], d, n);
        var loss := MaxLoss(turns, n);
        assert a <= loss;
        assert Sweep(st, eq, q, best, turns, k).1 == prev.1 + a;
        assert Shares(Visited(best, k), loss) == Shares(Visited(best, k - 1), loss) + loss;
      } else {
        assert Sweep(st, eq, q, best, turns, k) == prev;
        assert Visited(best, k) == Visited(best, k - 1);
      }
    }
  }

  /** Visiting later indices leaves an already visited entry alone. */
  lemma {:induction false} SweepSettled(st: seq<real>, eq: seq<real>, q: seq<real>, best: nat, turns: nat, j: nat, k: nat)
    requires |st| == |q| == |eq| && best < |st| && j < k <= |st|
    ensures Sweep(st, eq, q, best, turns, k).0[j] == Sweep(st, eq, q, best, turns, j + 1).0[j]
    decreases k
  {
    if k > j + 1 {
      SweepSettled(st, eq, q, best, turns, j, k - 1);
    }
  }

  /** Every non-best action loses exactly min(p, d/(n-1)), with d the step
      size `get_delta()` returns on the strategy as the earlier passes left it. */
  lemma WolfClimbedEntry(st: seq<real>, eq: seq<real>, q: seq<real>, best: nat, turns: nat, j: nat)
    requires |st| == |q| == |eq| && best < |st| && j < |st| && j != best
    ensures var partial := Sweep(st, eq, q, best, turns, j).0;
      WolfClimbed(st, eq, q, best, turns)[j] == st[j] - Take(st[j], StepSize(partial, eq, q, turns), |st|)
  {
    SweepSettled(st, eq, q, best, turns, j, |st|);
    SweepUntouched(st, eq, q, best, turns, j, j);
  }

  /** Entries at or beyond k have not been visited by the first k passes. */
  lemma {:induction false} SweepUntouched(st: seq<real>, eq: seq<real>, q: seq<real>, best: nat, turns: nat, k: nat, j: nat)
    requires |st| == |q| == |eq| && best < |st| && k <= j < |st|
    ensures Sweep(st, eq, q, best, turns, k).0[j] == st[j]
    decreases k
  {
    if k > 0 {
      SweepUntouched(st, eq, q, best, turns, k - 1, j);
    }
  }

  /** The WoLF projection keeps a mixed strategy on the simplex, never lowers
      the best action, raises it by at most 2 delta_win, and takes at most
      2 delta_win/(n-1) from every other action. */
  lemma WolfClimbedMoves(st: seq<real>, eq: seq<real>, q: seq<real>, best: nat, turns: nat)
    requires |st| == |q| == |eq| && best < |st| && IsDistribution(st)
    ensures var c := WolfClimbed(st, eq, q, best, turns);
      && IsDistribution(c)
      && st[best] <= c[best]
      && (|st| >= 2 ==> c[best] <= st[best] + 2.0 * DeltaWin(turns))
      && forall j :: 0 <= j < |st| && j != best ==> c[j] <= st[j] && st[j] - c[j] <= MaxLoss(turns, |st|)
  {
    var n := |st|;
    SweepConserves(st, eq, q, best, turns, n);
    var r := Sweep(st, eq, q, best, turns, n);
    SumUpdate(r.0, best, r.0[best] + r.1);
    if n >= 2 {
      SweepWithdrawn(st, eq, q, best, turns, n);
      assert Visited(best, n) == n - 1;
      SharesOfQuotient(n - 1, 2.0 * DeltaWin(turns));
    }
    forall j | 0 <= j < n && j != best
      ensures r.0[j] <= st[j] && st[j] - r.0[j] <= MaxLoss(turns, n)
    {
      SweepEntryLoss(st, eq, q, best, turns, n, j);
    }
  }

  /** The mass s withdrawn so far never shrinks as the sweep goes on. */
  lemma {:induction false} SweepMonotone(st: seq<real>, eq: seq<real>, q: seq<real>, best: nat, turns: nat, j: nat, k: nat)
    requires |st| == |q| == |eq| && best < |st| && j <= k <= |st| && NonNegative(st)
    ensures Sweep(st, eq, q, best, turns, j).1 <= Sweep(st, eq, q, best, turns, k).1
    decreases k
  {
    if j < k {
      SweepMonotone(st, eq, q, best, turns, j, k - 1);
      SweepUntouched(st, eq, q, best, turns, k - 1, k - 1);
      var prev := Sweep(st, eq, q, best, turns, k - 1);
      SweepNext(st, eq, q, best, turns, k - 1, prev.0, prev.1);
      if k - 1 != best {
        var p, d := prev.0[k - 1], StepSize(prev.0, eq, q, turns);
        assert p == st[k - 1] && 0.0 <= p && 0.0 < d;
        var a := Take(p, d, |st|);
        assert Sweep(st, eq, q, best, turns, k).1 == prev.1 + a;
      }
    }
  }

  /** A best action holding less than all the mass strictly gains: some
      other action holds positive mass, and the positive step takes a
      positive amount from it. */
  lemma WolfClimbedStrictlyRaisesBest(st: seq<real>, eq: seq<real>, q: seq<real>, best: nat, turns: nat)
    requires |st| == |q| == |eq| && best < |st| && IsDistribution(st) && st[best] < 1.0
    ensures WolfClimbed(st, eq, q, best, turns)[best] > st[best]
  {
    var n := |st|;
    assert st[..n] == st;
    var j := Phc.PositiveElsewhere(st, best, n);
    SweepUntouched(st, eq, q, best, turns, j, j);
    var prev := Sweep(st, eq, q, best, turns, j);
    SweepNext(st, eq, q, best, turns, j, prev.0, prev.1);
    var d := StepSize(prev.0, eq, q, turns);
    assert 0.0 < d / ((n - 1) as real);
    SweepConserves(st, eq, q, best, turns, j);
    var a := Take(prev.0[j], d, n);
    assert 0.0 < a;
    SweepMonotone(st, eq, q, best, turns, j + 1, n);
    SweepConserves(st, eq, q, best, turns, n);
  }

  /** `udpate_equilibrium_strategy()` on values: entry a of the average
      strategy moves 1/(turns+1) of the way toward the updated strategy's
      entry a. */
  function Averaged(eq: seq<real>, st: seq<real>, a: nat, turns: nat): (e: seq<real>)
    requires |eq| == |st| && a < |eq|
    ensures |e| == |eq|
  {
    eq[a := eq[a] + 1.0 / ((turns + 1) as real) * (st[a] - eq[a])]
  }

  /** Only entry a changes, it lands between its old value and the strategy's
      entry, and on the first turn it becomes that entry. */
  lemma AveragedMoves(eq: seq<real>, st: seq<real>, a: nat, turns: nat)
    requires |eq| == |st| && a < |eq|
    ensures var e := Averaged(eq, st, a, turns);
      && (forall j :: 0 <= j < |eq| && j != a ==> e[j] == eq[j])
      && Min(eq[a], st[a]) <= e[a] <= (if eq[a] < st[a] then st[a] else eq[a])
      && (turns == 0 ==> e[a] == st[a])
  {
    var w := 1.0 / ((turns + 1) as real);
    var g := st[a] - eq[a];
    var e := Averaged(eq, st, a, turns);
    assert e[a] == eq[a] + w * g;
    assert 0.0 < w <= 1.0;
    if turns == 0 {
      assert w == 1.0;
    }
    if g >= 0.0 {
      NonNegativeProduct(w, g);
      NonNegativeProduct(1.0 - w, g);
      assert w * g <= g;
    } else {
      NonNegativeProduct(w, -g);
      NonNegativeProduct(1.0 - w, -g);
      assert w * g == -(w * (-g));
      assert g <= w * g;
    }
  }

  /** One update can take the average strategy off the simplex: from the
      uniform [0.5, 0.5] toward [0.2, 0.8] at action 0 on the first turn, the
      average becomes [0.2, 0.5], which sums to 0.7. */
  lemma AveragedLeavesSimplex()
    ensures IsDistribution([0.5, 0.5]) && IsDistribution([0.2, 0.8])
    ensures Averaged([0.5, 0.5], [0.2, 0.8], 0, 0) == [0.2, 0.5]
    ensures Sum(Averaged([0.5, 0.5], [0.2, 0.8], 0, 0)) == 0.7
  {
    assert [0.5, 0.5][..1] == [0.5] && [0.5][..0] == [];
    assert [0.2, 0.8][..1] == [0.2] && [0.2][..0] == [];
    assert [0.2, 0.5][..1] == [0.2];
  }

  /** The part of a WoLF player's state that `update` reads and writes. */
  datatype Agent = Agent(q: seq<real>, strategy: seq<real>, equilibrium: seq<real>, turns: nat, learn: bool)

  ghost predicate WellFormed(ag: Agent)
  {
    |ag.q| == |ag.strategy| == |ag.equilibrium| >= 1
  }

  /** `update(reward)` after action a: nothing for a fixed player; for a
      learner the value update, the WoLF projection toward the new first
      argmax of q, the average-strategy update on the new strategy, and one
      more turn. */
  function Learned(ag: Agent, a: nat, reward: real): (r: Agent)
    requires WellFormed(ag) && a < |ag.q|
    ensures WellFormed(r) && r.learn == ag.learn
    ensures !ag.learn ==> r == ag
    ensures ag.learn ==> r.turns == ag.turns + 1
  {
    if !ag.learn then ag
    else
      var q := Revalued(ag.q, a, reward, ag.turns);
      var st := WolfClimbed(ag.strategy, ag.equilibrium, q, ArgMax(q), ag.turns);
      Agent(q, st, Averaged(ag.equilibrium, st, a, ag.turns), ag.turns + 1, ag.learn)
  }

  /** A learning update keeps the strategy a distribution, never lowers the
      probability of the action that is best after the value update, and on
      the first turn makes the average agree with the strategy at a. */
  lemma LearnedKeepsDistribution(ag: Agent, a: nat, reward: real)
    requires WellFormed(ag) && a < |ag.q| && IsDistribution(ag.strategy)
    ensures IsDistribution(Learned(ag, a, reward).strategy)
    ensures ag.learn ==> var r := Learned(ag, a, reward);
      && r.strategy[ArgMax(r.q)] >= ag.strategy[ArgMax(r.q)]
      && (ag.turns == 0 ==> r.equilibrium[a] == r.strategy[a])
  {
    if ag.learn {
      var q := Revalued(ag.q, a, reward, ag.turns);
      var st := WolfClimbed(ag.strategy, ag.equilibrium, q, ArgMax(q), ag.turns);
      WolfClimbedMoves(ag.strategy, ag.equilibrium, q, ArgMax(q), ag.turns);
      AveragedMoves(ag.equilibrium, st, a, ag.turns);
    }
  }

  /** A player can act on draw d: a fixed player samples its strategy, so that
      strategy must be a distribution and the uniform draw below 1. */
  ghost predicate Ready(ag: Agent, d: Draw)
  {
    WellFormed(ag) && (!ag.learn ==> IsDistribution(ag.strategy) && d.r < 1.0)
  }

  ghost predicate Feasible(ag: Agent, ds: seq<Draw>)
  {
    WellFormed(ag) && forall i :: 0 <= i < |ds| ==> Ready(ag, ds[i])
  }

  /** One round of `run()` on values: both players act on their draws, the
      matching-pennies rewards are paid, and both players update. */
  function Round(a1: Agent, a2: Agent, d1: Draw, d2: Draw): (r: (Agent, Agent))
    requires Ready(a1, d1) && Ready(a2, d2)
    ensures WellFormed(r.0) && r.0.learn == a1.learn && (!a1.learn ==> r.0 == a1)
    ensures WellFormed(r.1) && r.1.learn == a2.learn && (!a2.learn ==> r.1 == a2)
  {
    var x1 := Choice(a1.learn, a1.q, a1.strategy, d1);
    var x2 := Choice(a2.learn, a2.q, a2.strategy, d2);
    var g := Reward(x1, x2);
    (Learned(a1, x1, g.0 as real), Learned(a2, x2, g.1 as real))
  }

  /** Where both players end and, per round, their probabilities of action 0
      taken before they act. */
  datatype Record = Record(first: Agent, second: Agent, trace1: seq<real>, trace2: seq<real>)

  /** `PHC.run()` of the WoLF program on values: one round per pair of draws,
      the last round played on the states the earlier rounds leave. A fixed
      player ends as it started. */
  function Play(a1: Agent, a2: Agent, ds1: seq<Draw>, ds2: seq<Draw>): (rec: Record)
    requires |ds1| == |ds2| && Feasible(a1, ds1) && Feasible(a2, ds2)
    ensures |rec.trace1| == |ds1| && |rec.trace2| == |ds2|
    ensures WellFormed(rec.first) && rec.first.learn == a1.learn && (!a1.learn ==> rec.first == a1)
    ensures WellFormed(rec.second) && rec.second.learn == a2.learn && (!a2.learn ==> rec.second == a2)
    decreases |ds1|
  {
    if |ds1| == 0 then Record(a1, a2, [], [])
    else
      var n := |ds1| - 1;
      var prev := Play(a1, a2, ds1[..n], ds2[..n]);
      var next := Round(prev.first, prev.second, ds1[n], ds2[n]);
      Record(next.0, next.1, prev.trace1 + [prev.first.strategy[0]], prev.trace2 + [prev.second.strategy[0]])
  }

  /** The round as the driver performs it: the actions first, then the updates. */
  lemma RoundOf(a1: Agent, a2: Agent, d1: Draw, d2: Draw, x1: nat, x2: nat)
    requires Ready(a1, d1) && Ready(a2, d2)
    requires x1 == Choice(a1.learn, a1.q, a1.strategy, d1) && x2 == Choice(a2.learn, a2.q, a2.strategy, d2)
    ensures Round(a1, a2, d1, d2) == (Learned(a1, x1, Reward(x1, x2).0 as real), Learned(a2, x2, Reward(x1, x2).1 as real))
  {
  }

  /** A learner gains one turn per round, and every probability recorded for
      a fixed player is its initial one. */
  lemma {:induction false} PlayTurnsAndFixedTrace(a1: Agent, a2: Agent, ds1: seq<Draw>, ds2: seq<Draw>)
    requires |ds1| == |ds2| && Feasible(a1, ds1) && Feasible(a2, ds2)
    ensures var rec := Play(a1, a2, ds1, ds2);
      && rec.first.turns == a1.turns + (if a1.learn then |ds1| else 0)
      && rec.second.turns == a2.turns + (if a2.learn then |ds2| else 0)
      && (!a1.learn ==> forall i :: 0 <= i < |ds1| ==> rec.trace1[i] == a1.strategy[0])
      && (!a2.learn ==> forall i :: 0 <= i < |ds2| ==> rec.trace2[i] == a2.strategy[0])
    decreases |ds1|
  {
    if |ds1| > 0 {
      var n := |ds1| - 1;
      PlayTurnsAndFixedTrace(a1, a2, ds1[..n], ds2[..n]);
    }
  }

  /** Players that start on the simplex stay on it. */
  lemma {:induction false} PlayStaysOnSimplex(a1: Agent, a2: Agent, ds1: seq<Draw>, ds2: seq<Draw>)
    requires |ds1| == |ds2| && Feasible(a1, ds1) && Feasible(a2, ds2)
    requires IsDistribution(a1.strategy) && IsDistribution(a2.strategy)
    ensures var rec := Play(a1, a2, ds1, ds2);
      IsDistribution(rec.first.strategy) && IsDistribution(rec.second.strategy)
    decreases |ds1|
  {
    if |ds1| > 0 {
      var n := |ds1| - 1;
      PlayStaysOnSimplex(a1, a2, ds1[..n], ds2[..n]);
      var prev := Play(a1, a2, ds1[..n], ds2[..n]);
      var x1 := Choice(prev.first.learn, prev.first.q, prev.first.strategy, ds1[n]);
      var x2 := Choice(prev.second.learn, prev.second.q, prev.second.strategy, ds2[n]);
      var g := Reward(x1, x2);
      LearnedKeepsDistribution(prev.first, x1, g.0 as real);
      LearnedKeepsDistribution(prev.second, x2, g.1 as real);
    }
  }

  /** For players that start on the simplex every recorded value is a
      probability. */
  lemma {:induction false} PlayTraceIsProbability(a1: Agent, a2: Agent, ds1: seq<Draw>, ds2: seq<Draw>)
    requires |ds1| == |ds2| && Feasible(a1, ds1) && Feasible(a2, ds2)
    requires IsDistribution(a1.strategy) && IsDistribution(a2.strategy)
    ensures var rec := Play(a1, a2, ds1, ds2);
      && (forall i :: 0 <= i < |ds1| ==> 0.0 <= rec.trace1[i] <= 1.0)
      && (forall i :: 0 <= i < |ds2| ==> 0.0 <= rec.trace2[i] <= 1.0)
    decreases |ds1|
  {
    if |ds1| > 0 {
      var n := |ds1| - 1;
      PlayTraceIsProbability(a1, a2, ds1[..n], ds2[..n]);
      PlayStaysOnSimplex(a1, a2, ds1[..n], ds2[..n]);
      var prev := Play(a1, a2, ds1[..n], ds2[..n]);
      EntryIsProbability(prev.first.strategy, 0);
      EntryIsProbability(prev.second.strategy, 0);
    }
  }

  /** A WoLF-PHC player. `q`, `strategy` and `equilibrium_strategy` are lists
      the methods change in place; `get_delta()` also records the two step
      sizes in `delta_win` and `delta_lose`. */
  class Player {
    var q: seq<real>
    var strategy: seq<real>
    var equilibrium: seq<real>
    var turns: nat
    var deltaWin: real
    var deltaLose: real
    const learn: bool
    var currentAction: Option<nat>

    ghost predicate Valid()
      reads this
    {
      WellFormed(State()) && (currentAction.Some? ==> currentAction.value < |q|)
    }

    function State(): Agent
      reads this
    {
      Agent(q, strategy, equilibrium, turns, learn)
    }

    /** `delta_win` and `delta_lose` as last recorded. */
    function Steps(): (real, real)
      reads this
    {
      (deltaWin, deltaLose)
    }

    /** After a learner's update with at least two actions, the recorded step
        sizes are those of the turn just completed. */
    ghost predicate StepsRecorded()
      reads this
    {
      learn && |strategy| >= 2 ==> turns >= 1 && deltaWin == DeltaWin(turns - 1) && deltaLose == 2.0 * deltaWin
    }

    /** The initial values passed as `q` are ignored: q starts at zero. The
        average strategy starts uniform and both step sizes at zero. */
    constructor(q0: seq<real>, strategy0: seq<real>, learn0: bool)
      requires |strategy0| >= 1
      ensures Valid()
      ensures q == Zeros(|strategy0|) && strategy == strategy0 && turns == 0
      ensures equilibrium == Uniform(|strategy0|) && IsDistribution(equilibrium)
      ensures deltaWin == 0.0 && deltaLose == 0.0
      ensures learn == learn0 && currentAction == None
    {
      q := Zeros(|strategy0|);
      strategy := strategy0;
      equilibrium := Uniform(|strategy0|);
      turns := 0;
      deltaWin := 0.0;
      deltaLose := 2.0 * 0.0;
      learn := learn0;
      currentAction := None;
    }

    /** `get_strategy(i)`: the probability of action i. */
    function GetStrategy(i: nat): (p: real)
      reads this
      requires i < |strategy|
      ensures IsDistribution(strategy) ==> 0.0 <= p <= 1.0
    {
      EntryIsProbability(strategy, i);
      strategy[i]
    }

    method Action(d: Draw) returns (a: nat)
      requires Valid()
      requires !learn ==> IsDistribution(strategy) && d.r < 1.0
      modifies this`currentAction
      ensures Valid()
      ensures a == Choice(learn, q, strategy, d) && currentAction == Some(a)
    {
      if !learn {
        a := PolicyAction(strategy, d.r);
        currentAction := Some(a);
        return;
      }
      var j := 0;
      if !d.explore {
        j := ArgMax(q);
      }
      // on the exploration coin a random index is drawn and thrown away
      currentAction := Some(j);
      a := j;
    }

    method Update(reward: real)
      requires Valid() && (learn ==> currentAction.Some?)
      modifies this`q, this`strategy, this`equilibrium, this`turns, this`deltaWin, this`deltaLose
      ensures Valid()
      ensures !learn ==> State() == old(State()) && deltaWin == old(deltaWin) && deltaLose == old(deltaLose)
      ensures learn ==> State() == Learned(old(State()), currentAction.value, reward)
      ensures learn && |strategy| >= 2 ==> deltaWin == DeltaWin(old(turns)) && deltaLose == 2.0 * deltaWin
      ensures learn ==> StepsRecorded()
    {
      if learn {
        UpdateValue(reward);
        UpdateStrategy();
        UpdateEquilibriumStrategy();
        turns := turns + 1;
      }
    }

    method UpdateValue(reward: real)
      requires Valid() && currentAction.Some?
      modifies this`q
      ensures Valid()
      ensures q == Revalued(old(q), currentAction.value, reward, turns)
    {
      var a := currentAction.value;
      var lr := LearningRate(turns);
      ghost var q0 := q;
      q := q[a := (1.0 - lr) * q[a] + lr * (reward + Gamma * Max(q))];
      assert a < |q0|;
      assert |q| == |Revalued(q0, a, reward, turns)|;
      assert q[a] == Revalued(q0, a, reward, turns)[a];
      assert q == Revalued(q0, a, reward, turns);
    }

    /** `get_delta()`: record both step sizes and return the one that applies. */
    method GetDelta() returns (d: real)
      requires |strategy| == |q| == |equilibrium|
      modifies this`deltaWin, this`deltaLose
      ensures deltaWin == DeltaWin(turns) && deltaLose == 2.0 * deltaWin
      ensures d == StepSize(strategy, equilibrium, q, turns)
    {
      deltaWin := 1.0 / (1000.0 + turns as real);
      deltaLose := 2.0 * deltaWin;
      if Dot(strategy, q) > Dot(equilibrium, q) {
        return deltaWin;
      }
      return deltaLose;
    }

    /** The in-place WoLF projection: one pass that withdraws from every
        non-best action, asking `get_delta()` afresh each time, then one
        addition to the best action. */
    method UpdateStrategy()
      requires Valid()
      modifies this`strategy, this`deltaWin, this`deltaLose
      ensures Valid()
      ensures strategy == WolfClimbed(old(strategy), equilibrium, q, ArgMax(q), turns)
      ensures |strategy| >= 2 ==> deltaWin == DeltaWin(turns) && deltaLose == 2.0 * deltaWin
      ensures |strategy| < 2 ==> deltaWin == old(deltaWin) && deltaLose == old(deltaLose)
    {
      var best := ArgMax(q);
      ghost var st0 := strategy;
      var s := 0.0;
      var idx := 0;
      for i := 0 to |strategy|
        invariant strategy == Sweep(st0, equilibrium, q, best, turns, i).0
        invariant s == Sweep(st0, equilibrium, q, best, turns, i).1
        invariant idx == if best < i then best else 0
        invariant Visited(best, i) > 0 ==> deltaWin == DeltaWin(turns) && deltaLose == 2.0 * deltaWin
        invariant Visited(best, i) == 0 ==> deltaWin == old(deltaWin) && deltaLose == old(deltaLose)
      {
        SweepNext(st0, equilibrium, q, best, turns, i, strategy, s);
        if i != best {
          var d := GetDelta();
          var a := Take(strategy[i], d, |strategy|);
          strategy := strategy[i := strategy[i] - a];
          s := s + a;
        } else {
          idx := i;
        }
      }
      assert idx == best && Visited(best, |st0|) == |st0| - 1;
      strategy := strategy[idx := strategy[idx] + s];
    }

    /** `udpate_equilibrium_strategy()`: runs after the strategy update and
        before `turns` is incremented. */
    method UpdateEquilibriumStrategy()
      requires Valid() && currentAction.Some?
      modifies this`equilibrium
      ensures Valid()
      ensures equilibrium == Averaged(old(equilibrium), strategy, currentAction.value, turns)
    {
      var a := currentAction.value;
      ghost var e0 := equilibrium;
      equilibrium := equilibrium[a := equilibrium[a] + 1.0 / ((turns + 1) as real) * (strategy[a] - equilibrium[a])];
      assert a < |e0| && |e0| == |strategy|;
      assert |equilibrium| == |Averaged(e0, strategy, a, turns)|;
      assert equilibrium[a] == Averaged(e0, strategy, a, turns)[a];
      assert equilibrium == Averaged(e0, strategy, a, turns);
    }
  }

  /** The game driver: two players and a round count. */
  class Game {
    const name: string
    const p1: Player
    const p2: Player
    const iteration: nat

    constructor(name: string, p1: Player, p2: Player, count: nat)
      ensures this.name == name && this.p1 == p1 && this.p2 == p2 && iteration == count
    {
      this.name := name;
      this.p1 := p1;
      this.p2 := p2;
      iteration := count;
    }

    /** One pass of the loop in `run()`: record both probabilities of action
        0, let both players act, pay the matching-pennies rewards and update
        both players. */
    method PlayRound(d1: Draw, d2: Draw) returns (v1: real, v2: real)
      requires p1 != p2 && p1.Valid() && p2.Valid()
      requires Ready(p1.State(), d1) && Ready(p2.State(), d2)
      modifies p1, p2
      ensures p1.Valid() && p2.Valid()
      ensures v1 == old(p1.strategy[0]) && v2 == old(p2.strategy[0])
      ensures (p1.State(), p2.State()) == Round(old(p1.State()), old(p2.State()), d1, d2)
      ensures p1.currentAction == Some(Choice(p1.learn, old(p1.q), old(p1.strategy), d1))
      ensures p2.currentAction == Some(Choice(p2.learn, old(p2.q), old(p2.strategy), d2))
      ensures p1.StepsRecorded() && p2.StepsRecorded()
      ensures !p1.learn ==> p1.Steps() == old(p1.Steps())
      ensures !p2.learn ==> p2.Steps() == old(p2.Steps())
      ensures p1.learn && |p1.strategy| >= 2 ==> p1.turns >= 1 && p1.deltaWin == DeltaWin(p1.turns - 1) && p1.deltaLose == 2.0 * p1.deltaWin
      ensures p2.learn && |p2.strategy| >= 2 ==> p2.turns >= 1 && p2.deltaWin == DeltaWin(p2.turns - 1) && p2.deltaLose == 2.0 * p2.deltaWin
    {
      ghost var s1, s2 := p1.State(), p2.State();
      v1, v2 := p1.GetStrategy(0), p2.GetStrategy(0);
      var a1 := p1.Action(d1);
      var a2 := p2.Action(d2);
      var g := Reward(a1, a2);
      p1.Update(g.0 as real);
      p2.Update(g.1 as real);
      RoundOf(s1, s2, d1, d2, a1, a2);
    }

    /** `run()`: `iteration` rounds; the round numbers and the two recorded
        sequences are what the plot shows. */
    method Run(ds1: seq<Draw>, ds2: seq<Draw>) returns (xs: seq<int>, y1: seq<real>, y2: seq<real>)
      requires p1 != p2 && p1.Valid() && p2.Valid()
      requires |ds1| == iteration && |ds2| == iteration
      requires Feasible(p1.State(), ds1) && Feasible(p2.State(), ds2)
      modifies p1, p2
      ensures p1.Valid() && p2.Valid()
      ensures |xs| == iteration && forall i :: 0 <= i < iteration ==> xs[i] == i
      ensures Play(old(p1.State()), old(p2.State()), ds1, ds2) == Record(p1.State(), p2.State(), y1, y2)
      ensures iteration > 0 ==> p1.currentAction.Some? && p2.currentAction.Some?
      ensures iteration > 0 ==> p1.StepsRecorded() && p2.StepsRecorded()
      ensures !p1.learn ==> p1.Steps() == old(p1.Steps())
      ensures !p2.learn ==> p2.Steps() == old(p2.Steps())
    {
      ghost var s1, s2 := p1.State(), p2.State();
      xs, y1, y2 := [], [], [];
      for i := 0 to iteration
        invariant p1.Valid() && p2.Valid()
        invariant |xs| == i && forall j :: 0 <= j < i ==> xs[j] == j
        invariant Play(s1, s2, ds1[..i], ds2[..i]) == Record(p1.State(), p2.State(), y1, y2)
        invariant i > 0 ==> p1.currentAction.Some? && p2.currentAction.Some?
        invariant i > 0 ==> p1.StepsRecorded() && p2.StepsRecorded()
        invariant !p1.learn ==> p1.Steps() == old(p1.Steps())
        invariant !p2.learn ==> p2.Steps() == old(p2.Steps())
      {
        PrefixOfPrefix(ds1, i);
        PrefixOfPrefix(ds2, i);
        var v1, v2 := PlayRound(ds1[i], ds2[i]);
        xs, y1, y2 := xs + [i], y1 + [v1], y2 + [v2];
      }
      assert ds1[..iteration] == ds1 && ds2[..iteration] == ds2;
    }
  }
}
