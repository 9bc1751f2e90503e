/** Policy hill climbing (PHC): a player that learns action values for the
    repeated stage game and moves a fixed step `delta` of probability from the
    other actions onto the currently best one, and the driver that plays two
    such players against each other for a fixed number of rounds. */
module Phc {
  import opened Vectors
  import opened Learner

  /** The fixed step size `delta`. */
  const Delta: real := 0.01

  /** The mass withdrawn from the non-best entries among the first k. */
  function Withdrawn(st: seq<real>, best: nat, delta: real, k: nat): real
    requires best < |st| && k <= |st|
  {
    if k == 0 then 0.0
    else Withdrawn(st, best, delta, k - 1) + (if k - 1 == best then 0.0 else Take(st[k - 1], delta, |st|))
  }

  /** The policy-hill-climbing projection in closed form: every action other
      than `best` gives up min(its probability, delta/(n-1)), and `best`
      receives everything given up. */
  function Climbed(st: seq<real>, best: nat, delta: real): (c: seq<real>)
    requires best < |st|
    ensures |c| == |st|
  {
    seq(|st|, i requires 0 <= i < |st| =>
      if i == best then st[i] + Withdrawn(st, best, delta, |st|)
      else st[i] - Take(st[i], delta, |st|))
  }

  lemma {:induction false} WithdrawnBounds(st: seq<real>, best: nat, delta: real, k: nat)
    requires best < |st| && k <= |st| && NonNegative(st) && 0.0 <= delta
    ensures 0.0 <= Withdrawn(st, best, delta, k)
    ensures |st| >= 2 ==>
      Withdrawn(st, best, delta, k) <= Shares(Visited(best, k), delta / ((|st| - 1) as real))
  {
    if k > 0 {
      WithdrawnBounds(st, best, delta, k - 1);
      if k - 1 == best {
        assert Visited(best, k) == Visited(best, k - 1);
      } else {
        assert Visited(best, k) == Visited(best, k - 1) + 1;
      }
    }
  }

  lemma {:induction false} ClimbedPrefixSum(st: seq<real>, best: nat, delta: real, k: nat)
    requires best < |st| && k <= |st|
    ensures Sum(Climbed(st, best, delta)[..k])
         == Sum(st[..k]) - Withdrawn(st, best, delta, k) + (if best < k then Withdrawn(st, best, delta, |st|) else 0.0)
  {
    if k > 0 {
      ClimbedPrefixSum(st, best, delta, k - 1);
      var c := Climbed(st, best, delta);
      assert c[..k][..k - 1] == c[..k - 1];
      assert st[..k][..k - 1] == st[..k - 1];
    }
  }

  /** The projection moves probability without creating or destroying any. */
  lemma ClimbedSum(st: seq<real>, best: nat, delta: real)
    requires best < |st|
    ensures Sum(Climbed(st, best, delta)) == Sum(st)
  {
    ClimbedPrefixSum(st, best, delta, |st|);
    assert Climbed(st, best, delta)[..|st|] == Climbed(st, best, delta);
    assert st[..|st|] == st;
  }

  /** What one projection does to each entry: the best action gains between 0
      and delta, every other action loses exactly min(p, delta/(n-1)), and no
      entry becomes negative. */
  lemma ClimbedMoves(st: seq<real>, best: nat, delta: real)
    requires best < |st| && NonNegative(st) && 0.0 <= delta
    ensures var c := Climbed(st, best, delta);
      && NonNegative(c)
      && st[best] <= c[best] <= st[best] + delta
      && forall i :: 0 <= i < |st| && i != best ==>
           c[i] <= st[i] && st[i] - c[i] == Min(st[i], delta / ((|st| - 1) as real))
  {
    var n := |st|;
    WithdrawnBounds(st, best, delta, n);
    if n >= 2 {
      assert Visited(best, n) == n - 1;
      SharesOfQuotient(n - 1, delta);
    }
  }

  /** Projection keeps a mixed strategy on the probability simplex. */
  lemma ClimbedIsDistribution(st: seq<real>, best: nat, delta: real)
    requires best < |st| && IsDistribution(st) && 0.0 <= delta
    ensures IsDistribution(Climbed(st, best, delta))
  {
    ClimbedSum(st, best, delta);
    ClimbedMoves(st, best, delta);
  }

  lemma {:induction false} WithdrawnPositive(st: seq<real>, best: nat, delta: real, k: nat, j: nat)
    requires best < |st| && k <= |st| && NonNegative(st) && 0.0 < delta
    requires j < k && j != best && 0.0 < st[j]
    ensures 0.0 < Withdrawn(st, best, delta, k)
  {
    WithdrawnBounds(st, best, delta, k - 1);
    if j < k - 1 {
      WithdrawnPositive(st, best, delta, k - 1, j);
    } else {
      assert 0.0 < delta / ((|st| - 1) as real);
    }
  }

  /** Mass beyond what `best` holds sits on some other action. */
  lemma {:induction false} PositiveElsewhere(st: seq<real>, best: nat, k: nat) returns (j: nat)
    requires best < |st| && k <= |st|
    requires Sum(st[..k]) > (if best < k then st[best] else 0.0)
    ensures j < k && j != best && 0.0 < st[j]
  {
    assert st[..k][..k - 1] == st[..k - 1];
    if k - 1 != best && 0.0 < st[k - 1] {
      j := k - 1;
    } else {
      j := PositiveElsewhere(st, best, k - 1);
    }
  }

  /** With a positive step, a best action holding less than all the mass
      strictly gains probability. */
  lemma ClimbedStrictlyRaisesBest(st: seq<real>, best: nat, delta: real)
    requires best < |st| && IsDistribution(st) && 0.0 < delta && st[best] < 1.0
    ensures Climbed(st, best, delta)[best] > st[best]
  {
    assert st[..|st|] == st;
    var j := PositiveElsewhere(st, best, |st|);
    WithdrawnPositive(st, best, delta, |st|, j);
  }

  /** The part of a player's state that `update` reads and writes. */
  datatype Agent = Agent(q: seq<real>, strategy: seq<real>, turns: nat, learn: bool)

  ghost predicate WellFormed(ag: Agent)
  {
    |ag.q| == |ag.strategy| >= 1
  }

  /** `update(reward)` after action a: nothing for a fixed player; for a
      learner the value update, then the projection toward the new first
      argmax of q, then one more turn. */
  function Learned(ag: Agent, a: nat, reward: real): (r: Agent)
    requires WellFormed(ag) && a < |ag.q|
    ensures WellFormed(r) && r.learn == ag.learn
    ensures !ag.learn ==> r == ag
    ensures ag.learn ==> r.turns == ag.turns + 1
  {
    if !ag.learn then ag
    else
      var q := Revalued(ag.q, a, reward, ag.turns);
      Agent(q, Climbed(ag.strategy, ArgMax(q), Delta), ag.turns + 1, ag.learn)
  }

  /** A learning update keeps the strategy a distribution and never lowers the
      probability of the action that is best after the value update. */
  lemma LearnedKeepsDistribution(ag: Agent, a: nat, reward: real)
    requires WellFormed(ag) && a < |ag.q| && IsDistribution(ag.strategy)
    ensures IsDistribution(Learned(ag, a, reward).strategy)
    ensures ag.learn ==> var best := ArgMax(Learned(ag, a, reward).q);
      Learned(ag, a, reward).strategy[best] >= ag.strategy[best]
  {
    if ag.learn {
      var q := Revalued(ag.q, a, reward, ag.turns);
      ClimbedIsDistribution(ag.strategy, ArgMax(q), Delta);
      ClimbedMoves(ag.strategy, ArgMax(q), Delta);
    }
  }

  /** A player can act on draw d: a fixed player samples its strategy, so that
      strategy must be a distribution and the uniform draw below 1. */
  ghost predicate Ready(ag: Agent, d: Draw)
  {
    WellFormed(ag) && (!ag.learn ==> IsDistribution(ag.strategy) && d.r < 1.0)
  }

  ghost predicate Feasible(ag: Agent, ds: seq<Draw>)
  {
    WellFormed(ag) && forall i :: 0 <= i < |ds| ==> Ready(ag, ds[i])
  }

  /** One round of `run()` on values: both players act on their draws, the
      matching-pennies rewards are paid, and both players update. */
  function Round(a1: Agent, a2: Agent, d1: Draw, d2: Draw): (r: (Agent, Agent))
    requires Ready(a1, d1) && Ready(a2, d2)
    ensures WellFormed(r.0) && r.0.learn == a1.learn && (!a1.learn ==> r.0 == a1)
    ensures WellFormed(r.1) && r.1.learn == a2.learn && (!a2.learn ==> r.1 == a2)
  {
    var x1 := Choice(a1.learn, a1.q, a1.strategy, d1);
    var x2 := Choice(a2.learn, a2.q, a2.strategy, d2);
    var g := Reward(x1, x2);
    (Learned(a1, x1, g.0 as real), Learned(a2, x2, g.1 as real))
  }

  /** Where both players end and, per round, their probabilities of action 0
      taken before they act. */
  datatype Record = Record(first: Agent, second: Agent, trace1: seq<real>, trace2: seq<real>)

  /** `PHC.run()` on values: one round per pair of draws, the last round
      played on the states the earlier rounds leave. A fixed player ends as
      it started. */
  function Play(a1: Agent, a2: Agent, ds1: seq<Draw>, ds2: seq<Draw>): (rec: Record)
    requires |ds1| == |ds2| && Feasible(a1, ds1) && Feasible(a2, ds2)
    ensures |rec.trace1| == |ds1| && |rec.trace2| == |ds2|
    ensures WellFormed(rec.first) && rec.first.learn == a1.learn && (!a1.learn ==> rec.first == a1)
    ensures WellFormed(rec.second) && rec.second.learn == a2.learn && (!a2.learn ==> rec.second == a2)
    decreases |ds1|
  {
    if |ds1| == 0 then Record(a1, a2, [], [])
    else
      var n := |ds1| - 1;
      var prev := Play(a1, a2, ds1[..n], ds2[..n]);
      var next := Round(prev.first, prev.second, ds1[n], ds2[n]);
      Record(next.0, next.1, prev.trace1 + [prev.first.strategy[0]], prev.trace2 + [prev.second.strategy[0]])
  }

  /** The round as the driver performs it: the actions first, then the updates. */
  lemma RoundOf(a1: Agent, a2: Agent, d1: Draw, d2: Draw, x1: nat, x2: nat)
    requires Ready(a1, d1) && Ready(a2, d2)
    requires x1 == Choice(a1.learn, a1.q, a1.strategy, d1) && x2 == Choice(a2.learn, a2.q, a2.strategy, d2)
    ensures Round(a1, a2, d1, d2) == (Learned(a1, x1, Reward(x1, x2).0 as real), Learned(a2, x2, Reward(x1, x2).1 as real))
  {
  }

  /** A learner gains one turn per round, and every probability recorded for
      a fixed player is its initial one. */
  lemma {:induction false} PlayTurnsAndFixedTrace(a1: Agent, a2: Agent, ds1: seq<Draw>, ds2: seq<Draw>)
    requires |ds1| == |ds2| && Feasible(a1, ds1) && Feasible(a2, ds2)
    ensures var rec := Play(a1, a2, ds1, ds2);
      && rec.first.turns == a1.turns + (if a1.learn then |ds1| else 0)
      && rec.second.turns == a2.turns + (if a2.learn then |ds2| else 0)
      && (!a1.learn ==> forall i :: 0 <= i < |ds1| ==> rec.trace1[i] == a1.strategy[0])
      && (!a2.learn ==> forall i :: 0 <= i < |ds2| ==> rec.trace2[i] == a2.strategy[0])
    decreases |ds1|
  {
    if |ds1| > 0 {
      var n := |ds1| - 1;
      PlayTurnsAndFixedTrace(a1, a2, ds1[..n], ds2[..n]);
    }
  }

  /** Players that start on the simplex stay on it, so every recorded value is
      a probability. */
  lemma {:induction false} PlayStaysOnSimplex(a1: Agent, a2: Agent, ds1: seq<Draw>, ds2: seq<Draw>)
    requires |ds1| == |ds2| && Feasible(a1, ds1) && Feasible(a2, ds2)
    requires IsDistribution(a1.strategy) && IsDistribution(a2.strategy)
    ensures var rec := Play(a1, a2, ds1, ds2);
      && IsDistribution(rec.first.strategy) && IsDistribution(rec.second.strategy)
      && (forall i :: 0 <= i < |ds1| ==> 0.0 <= rec.trace1[i] <= 1.0)
      && (forall i :: 0 <= i < |ds2| ==> 0.0 <= rec.trace2[i] <= 1.0)
    decreases |ds1|
  {
    if |ds1| > 0 {
      var n := |ds1| - 1;
      PlayStaysOnSimplex(a1, a2, ds1[..n], ds2[..n]);
      var prev := Play(a1, a2, ds1[..n], ds2[..n]);
      var x1 := Choice(prev.first.learn, prev.first.q, prev.first.strategy, ds1[n]);
      var x2 := Choice(prev.second.learn, prev.second.q, prev.second.strategy, ds2[n]);
      var g := Reward(x1, x2);
      LearnedKeepsDistribution(prev.first, x1, g.0 as real);
      LearnedKeepsDistribution(prev.second, x2, g.1 as real);
      EntryIsProbability(prev.first.strategy, 0);
      EntryIsProbability(prev.second.strategy, 0);
    }
  }

  /** A PHC player. `q` and `strategy` are lists the methods change in place;
      `current_action` is latched by `action()` for the next `update()`. */
  class Player {
    var q: seq<real>
    var strategy: seq<real>
    var turns: nat
    const learn: bool
    var currentAction: Option<nat>

    ghost predicate Valid()
      reads this
    {
      WellFormed(State()) && (currentAction.Some? ==> currentAction.value < |q|)
    }

    function State(): Agent
      reads this
    {
      Agent(q, strategy, turns, learn)
    }

    /** The initial values passed as `q` are ignored: q starts at zero. */
    constructor(q0: seq<real>, strategy0: seq<real>, learn0: bool)
      requires |strategy0| >= 1
      ensures Valid()
      ensures q == Zeros(|strategy0|) && strategy == strategy0 && turns == 0
      ensures learn == learn0 && currentAction == None
    {
      q := Zeros(|strategy0|);
      strategy := strategy0;
      turns := 0;
      learn := learn0;
      currentAction := None;
    }

    /** `get_strategy(i)`: the probability of action i. */
    function GetStrategy(i: nat): (p: real)
      reads this
      requires i < |strategy|
      ensures IsDistribution(strategy) ==> 0.0 <= p <= 1.0
    {
      EntryIsProbability(strategy, i);
      strategy[i]
    }

    method Action(d: Draw) returns (a: nat)
      requires Valid()
      requires !learn ==> IsDistribution(strategy) && d.r < 1.0
      modifies this`currentAction
      ensures Valid()
      ensures a == Choice(learn, q, strategy, d) && currentAction == Some(a)
    {
      if !learn {
        a := PolicyAction(strategy, d.r);
        currentAction := Some(a);
        return;
      }
      var j := 0;
      if !d.explore {
        j := ArgMax(q);
      }
      // on the exploration coin a random index is drawn and thrown away
      currentAction := Some(j);
      a := j;
    }

    method Update(reward: real)
      requires Valid() && (learn ==> currentAction.Some?)
      modifies this`q, this`strategy, this`turns
      ensures Valid()
      ensures !learn ==> q == old(q) && strategy == old(strategy) && turns == old(turns)
      ensures learn ==> State() == Learned(old(State()), currentAction.value, reward)
    {
      if learn {
        UpdateValue(reward);
        UpdateStrategy();
        turns := turns + 1;
      }
    }

    method UpdateValue(reward: real)
      requires Valid() && currentAction.Some?
      modifies this`q
      ensures Valid()
      ensures q == Revalued(old(q), currentAction.value, reward, turns)
    {
      var a := currentAction.value;
      var lr := LearningRate(turns);
      ghost var q0 := q;
      q := q[a := (1.0 - lr) * q[a] + lr * (reward + Gamma * Max(q))];
      assert a < |q0|;
      assert |q| == |Revalued(q0, a, reward, turns)|;
      assert q[a] == Revalued(q0, a, reward, turns)[a];
      assert q == Revalued(q0, a, reward, turns);
    }

    /** The in-place projection: one pass over the strategy that withdraws from
        every non-best action and accumulates the total in s, then one
        addition to the best action. */
    method UpdateStrategy()
      requires Valid()
      modifies this`strategy
      ensures Valid()
      ensures strategy == Climbed(old(strategy), ArgMax(q), Delta)
    {
      var best := ArgMax(q);
      ghost var st0 := strategy;
      var s := 0.0;
      var idx := 0;
      for i := 0 to |strategy|
        invariant |strategy| == |st0|
        invariant forall j :: 0 <= j < |st0| ==>
          strategy[j] == if j < i && j != best then st0[j] - Take(st0[j], Delta, |st0|) else st0[j]
        invariant s == Withdrawn(st0, best, Delta, i)
        invariant idx == if best < i then best else 0
      {
        if i != best {
          var a := Min(strategy[i], Delta / ((|strategy| - 1) as real));
          strategy := strategy[i := strategy[i] - a];
          s := s + a;
        } else {
          idx := i;
        }
      }
      strategy := strategy[idx := strategy[idx] + s];
    }
  }

  /** The game driver: two players and a round count. */
  class Game {
    const name: string
    const p1: Player
    const p2: Player
    const iteration: nat

    constructor(name: string, p1: Player, p2: Player, count: nat)
      ensures this.name == name && this.p1 == p1 && this.p2 == p2 && iteration == count
    {
      this.name := name;
      this.p1 := p1;
      this.p2 := p2;
      iteration := count;
    }

    /** One pass of the loop in `run()`: record both probabilities of action
        0, let both players act, pay the matching-pennies rewards and update
        both players. */
    method PlayRound(d1: Draw, d2: Draw) returns (v1: real, v2: real)
      requires p1 != p2 && p1.Valid() && p2.Valid()
      requires Ready(p1.State(), d1) && Ready(p2.State(), d2)
      modifies p1, p2
      ensures p1.Valid() && p2.Valid()
      ensures v1 == old(p1.strategy[0]) && v2 == old(p2.strategy[0])
      ensures (p1.State(), p2.State()) == Round(old(p1.State()), old(p2.State()), d1, d2)
      ensures p1.currentAction == Some(Choice(p1.learn, old(p1.q), old(p1.strategy), d1))
      ensures p2.currentAction == Some(Choice(p2.learn, old(p2.q), old(p2.strategy), d2))
    {
      ghost var s1, s2 := p1.State(), p2.State();
      v1, v2 := p1.GetStrategy(0), p2.GetStrategy(0);
      var a1 := p1.Action(d1);
      var a2 := p2.Action(d2);
      var g := Reward(a1, a2);
      p1.Update(g.0 as real);
      p2.Update(g.1 as real);
      RoundOf(s1, s2, d1, d2, a1, a2);
    }

    /** `run()`: `iteration` rounds; the round numbers and the two recorded
        sequences are what the plot shows. */
    method Run(ds1: seq<Draw>, ds2: seq<Draw>) returns (xs: seq<int>, y1: seq<real>, y2: seq<real>)
      requires p1 != p2 && p1.Valid() && p2.Valid()
      requires |ds1| == iteration && |ds2| == iteration
      requires Feasible(p1.State(), ds1) && Feasible(p2.State(), ds2)
      modifies p1, p2
      ensures p1.Valid() && p2.Valid()
      ensures |xs| == iteration && forall i :: 0 <= i < iteration ==> xs[i] == i
      ensures Play(old(p1.State()), old(p2.State()), ds1, ds2) == Record(p1.State(), p2.State(), y1, y2)
      ensures iteration > 0 ==> p1.currentAction.Some? && p2.currentAction.Some?
    {
      ghost var s1, s2 := p1.State(), p2.State();
      xs, y1, y2 := [], [], [];
      for i := 0 to iteration
        invariant p1.Valid() && p2.Valid()
        invariant |xs| == i && forall j :: 0 <= j < i ==> xs[j] == j
        invariant Play(s1, s2, ds1[..i], ds2[..i]) == Record(p1.State(), p2.State(), y1, y2)
        invariant i > 0 ==> p1.currentAction.Some? && p2.currentAction.Some?
      {
        PrefixOfPrefix(ds1, i);
        PrefixOfPrefix(ds2, i);
        var v1, v2 := PlayRound(ds1[i], ds2[i]);
        xs, y1, y2 := xs + [i], y1 + [v1], y2 + [v2];
      }
      assert ds1[..iteration] == ds1 && ds2[..iteration] == ds2;
    }
  }
}
