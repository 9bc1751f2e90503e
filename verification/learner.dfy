/** What the PHC and WoLF-PHC players have in common, word for word in both
    programs: the random draws of `action()`, the decaying learning rate and
    exploration rate, inverse-CDF sampling for fixed players, the greedy choice
    for learners, the single-state Q-value update and the matching-pennies
    reward rule of the game driver. */
module Learner {
  import opened Vectors

  datatype Option<T> = None | Some(value: T)

  /** The random draws one call of `action()` makes: the exploration coin
      (`np.random.binomial(1, epsilon()) == 1`) and the uniform number
      `random.random()` used by inverse-CDF sampling. The exploratory index
      `np.random.randint` is drawn and then discarded, so it is not a draw here. */
  datatype Draw = Draw(explore: bool, r: real)

  /** The discount factor `gamma`. */
  const Gamma: real := 0.9

  /** `learning_rate()`: 1/(10 + 0.00001 turns). */
  function LearningRate(turns: nat): (lr: real)
    ensures 0.0 < lr <= 0.1
  {
    1.0 / (10.0 + 0.00001 * (turns as real))
  }

  /** `epsilon()`: 0.5/(1 + 0.0001 turns), the probability of the exploration coin. */
  function Epsilon(turns: nat): (e: real)
    ensures 0.0 < e <= 0.5
  {
    0.5 / (1.0 + 0.0001 * (turns as real))
  }

  /** The exploration rate strictly decreases as the player learns. */
  lemma EpsilonDecreasing(t1: nat, t2: nat)
    requires t1 < t2
    ensures Epsilon(t2) < Epsilon(t1)
  {
    var d1, d2 := 1.0 + 0.0001 * (t1 as real), 1.0 + 0.0001 * (t2 as real);
    ReciprocalDecreasing(0.5, d1, d2);
  }

  /** The learning rate strictly decreases as turns grow. */
  lemma LearningRateDecreasing(t1: nat, t2: nat)
    requires t1 < t2
    ensures LearningRate(t2) < LearningRate(t1)
  {
    var d1, d2 := 10.0 + 0.00001 * (t1 as real), 10.0 + 0.00001 * (t2 as real);
    ReciprocalDecreasing(1.0, d1, d2);
  }

  lemma ReciprocalDecreasing(c: real, d1: real, d2: real)
    requires 0.0 < c && 0.0 < d1 < d2
    ensures c / d2 < c / d1
  {
    var x, y := c / d1, c / d2;
    assert x * d1 == c && y * d2 == c;
    assert 0.0 < x;
    assert (y - x) * d2 == x * (d1 - d2);
    assert x * (d1 - d2) < 0.0;
  }

  /** i is where inverse-CDF sampling stops for the uniform draw r: the first
      index whose running sum strategy[0] + ... + strategy[i] reaches r. */
  ghost predicate IsFirstCrossing(strategy: seq<real>, r: real, i: nat)
  {
    && i < |strategy|
    && Cumulative(strategy, i + 1) >= r
    && forall k :: 1 <= k <= i ==> Cumulative(strategy, k) < r
  }

  lemma FirstCrossingUnique(strategy: seq<real>, r: real, i: nat, j: nat)
    requires IsFirstCrossing(strategy, r, i) && IsFirstCrossing(strategy, r, j)
    ensures i == j
  {
    assert Cumulative(strategy, i + 1) >= r && Cumulative(strategy, j + 1) >= r;
  }

  function CrossingFrom(strategy: seq<real>, r: real, i: nat): (k: nat)
    requires IsDistribution(strategy) && r < 1.0
    requires i < |strategy|
    requires forall k :: 1 <= k <= i ==> Cumulative(strategy, k) < r
    ensures IsFirstCrossing(strategy, r, k)
    decreases |strategy| - i
  {
    if Cumulative(strategy, i + 1) >= r then i
    else
      CumulativeWhole(strategy);
      CrossingFrom(strategy, r, i + 1)
  }

  /** The action a fixed player samples from its strategy for the uniform draw r. */
  function InverseCdf(strategy: seq<real>, r: real): (i: nat)
    requires IsDistribution(strategy) && r < 1.0
    ensures IsFirstCrossing(strategy, r, i)
  {
    CrossingFrom(strategy, r, 0)
  }

  /** `policy_action()`: walk the strategy, accumulating probability, until the
      running sum reaches the draw r. With a distribution and r < 1 the walk
      stops inside the strategy. */
  method PolicyAction(strategy: seq<real>, r: real) returns (i: nat)
    requires IsDistribution(strategy) && r < 1.0
    ensures IsFirstCrossing(strategy, r, i)
    ensures i == InverseCdf(strategy, r)
  {
    CumulativeWhole(strategy);
    var s := 0.0;
    i := 0;
    while true
      invariant i < |strategy|
      invariant s == Cumulative(strategy, i)
      invariant forall k :: 1 <= k <= i ==> Cumulative(strategy, k) < r
      decreases |strategy| - i
    {
      CumulativeNext(strategy, i);
      s := s + strategy[i];
      if s >= r {
        break;
      }
      i := i + 1;
    }
    FirstCrossingUnique(strategy, r, i, InverseCdf(strategy, r));
  }

  /** The action `action()` returns. A fixed player samples its strategy; a
      learner plays the first argmax of q, except that when the exploration
      coin comes up the random index it draws is discarded and action 0 is
      played. */
  function Choice(learn: bool, q: seq<real>, strategy: seq<real>, d: Draw): (a: nat)
    requires |q| == |strategy| >= 1
    requires !learn ==> IsDistribution(strategy) && d.r < 1.0
    ensures a < |strategy|
    ensures !learn ==> IsFirstCrossing(strategy, d.r, a)
    ensures learn && !d.explore ==> IsFirstMax(q, a)
    ensures learn && d.explore ==> a == 0
  {
    if !learn then InverseCdf(strategy, d.r)
    else if d.explore then 0
    else ArgMax(q)
  }

  /** `update_value(reward)`: q[a] moves toward reward + gamma max(q), with max
      taken over the values before the update. */
  function Revalued(q: seq<real>, a: nat, reward: real, turns: nat): (q': seq<real>)
    requires a < |q|
    ensures |q'| == |q|
    ensures forall j :: 0 <= j < |q| && j != a ==> q'[j] == q[j]
  {
    var lr := LearningRate(turns);
    q[a := (1.0 - lr) * q[a] + lr * (reward + Gamma * Max(q))]
  }

  /** The target of the value update. */
  function Target(q: seq<real>, reward: real): real
    requires |q| > 0
  {
    reward + Gamma * Max(q)
  }

  /** The updated value is a convex combination of the old value and the
      target: it lands between the two, at a tenth of the way or less. */
  lemma RevaluedBetween(q: seq<real>, a: nat, reward: real, turns: nat)
    requires a < |q|
    ensures var v, t := Revalued(q, a, reward, turns)[a], Target(q, reward);
      Min(q[a], t) <= v <= (if q[a] < t then t else q[a])
    ensures Abs(Revalued(q, a, reward, turns)[a] - q[a]) <= 0.1 * Abs(Target(q, reward) - q[a])
  {
    var lr, t := LearningRate(turns), Target(q, reward);
    var v := Revalued(q, a, reward, turns)[a];
    assert v == (1.0 - lr) * q[a] + lr * t;
    Blend(q[a], t, lr, v);
  }

  lemma Blend(x: real, t: real, lr: real, v: real)
    requires 0.0 < lr <= 0.1 && v == (1.0 - lr) * x + lr * t
    ensures Min(x, t) <= v <= (if x < t then t else x) && Abs(v - x) <= 0.1 * Abs(t - x)
  {
    var e, w := t - x, 0.1 - lr;
    assert v - x == lr * e;
    assert 0.1 * e - lr * e == w * e;
    if e >= 0.0 {
      NonNegativeProduct(lr, e);
      NonNegativeProduct(w, e);
    } else {
      NonNegativeProduct(lr, -e);
      NonNegativeProduct(w, -e);
      assert lr * e == -(lr * (-e)) && w * e == -(w * (-e));
    }
  }

  lemma NonNegativeProduct(a: real, b: real)
    requires 0.0 <= a && 0.0 <= b
    ensures 0.0 <= a * b
  {
  }

  /** `PHC.reward(a1, a2)`: the first player wins the matching-pennies round
      when the actions sum to 0 or 2. */
  function Reward(a1: nat, a2: nat): (r: (int, int))
    ensures r.0 + r.1 == 0
    ensures r.0 == 1 || r.0 == -1
  {
    if a1 + a2 == 0 || a1 + a2 == 2 then (1, -1) else (-1, 1)
  }

  /** For two actions the rule is matching pennies: the first player wins
      exactly when the actions match. */
  lemma RewardMatchingPennies(a1: nat, a2: nat)
    requires a1 <= 1 && a2 <= 1
    ensures Reward(a1, a2) == (if a1 == a2 then (1, -1) else (-1, 1))
  {
  }

  /** With more than two actions, the sum test also pays the first player for
      the unequal pair (0, 2). */
  lemma RewardSumTestBeyondTwoActions()
    ensures Reward(0, 2) == (1, -1)
  {
  }

  /** The number of non-best actions among the first k. */
  function Visited(best: nat, k: nat): nat
  {
    if best < k then k - 1 else k
  }

  /** The probability mass withdrawn from one non-best action:
      `min(strategy[i], delta/(n-1))`. */
  function Take(p: real, delta: real, n: nat): (a: real)
    requires n >= 2
    ensures 0.0 <= p && 0.0 <= delta ==> 0.0 <= a <= p
    ensures a <= delta / ((n - 1) as real)
  {
    Min(p, delta / ((n - 1) as real))
  }
}
