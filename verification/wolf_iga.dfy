/** WoLF-IGA on matching pennies: two players hold the probabilities alpha
    and beta of their first action and follow the gradient of their own
    expected payoff, with a small learning factor while winning (doing better
    than at the known equilibrium) and a large one while losing. */
module WolfIga {
  import opened Vectors

  /** A player's 2x2 payoff matrix | m11, m12 | m21, m22 |, rows indexed by
      the first player's action, columns by the second player's. */
  datatype Payoff = Payoff(m11: real, m12: real, m21: real, m22: real)

  /** `u1` (or `u2`): m11 - m12 - m21 + m22, the coefficient of alpha beta. */
  function Diagonal(p: Payoff): real
  {
    p.m11 - p.m12 - p.m21 + p.m22
  }

  /** The expected payoff when the first player plays its first action with
      probability alpha and the second player with probability beta. */
  function Expectation(p: Payoff, alpha: real, beta: real): real
  {
    alpha * beta * p.m11 + alpha * (1.0 - beta) * p.m12
    + (1.0 - alpha) * beta * p.m21 + (1.0 - alpha) * (1.0 - beta) * p.m22
  }

  /** `v1()`, `v2()`, `v1_best()`, `v2_best()`: the compact form the program
      evaluates, which is the expected payoff. */
  function Value(p: Payoff, alpha: real, beta: real): real
  {
    Diagonal(p) * alpha * beta + alpha * (p.m12 - p.m22) + beta * (p.m21 - p.m22) + p.m22
  }

  /** The compact form equals the expanded bilinear expectation. */
  lemma ValueIsExpectation(p: Payoff, alpha: real, beta: real)
    ensures Value(p, alpha, beta) == Expectation(p, alpha, beta)
  {
    var a, b := alpha, beta;
    assert a * (1.0 - b) == a - a * b;
    assert (1.0 - a) * b == b - a * b;
    assert (1.0 - a) * (1.0 - b) == 1.0 - a - b + a * b;
    assert Diagonal(p) * a * b == (a * b) * p.m11 - (a * b) * p.m12 - (a * b) * p.m21 + (a * b) * p.m22;
  }

  /** dV/dalpha = beta u + (m12 - m22), the slope the first player climbs. */
  function GradAlpha(p: Payoff, beta: real): real
  {
    beta * Diagonal(p) + (p.m12 - p.m22)
  }

  /** dV/dbeta = alpha u + (m21 - m22), the slope the second player climbs. */
  function GradBeta(p: Payoff, alpha: real): real
  {
    alpha * Diagonal(p) + (p.m21 - p.m22)
  }

  /** The value is linear in alpha, with slope the gradient used in the alpha step. */
  lemma ValueLinearInAlpha(p: Payoff, alpha: real, beta: real, h: real)
    ensures Value(p, alpha + h, beta) == Value(p, alpha, beta) + h * GradAlpha(p, beta)
  {
    var u := Diagonal(p);
    assert u * (alpha + h) * beta == u * alpha * beta + h * (beta * u);
    assert (alpha + h) * (p.m12 - p.m22) == alpha * (p.m12 - p.m22) + h * (p.m12 - p.m22);
  }

  /** The value is linear in beta, with slope the gradient used in the beta step. */
  lemma ValueLinearInBeta(p: Payoff, alpha: real, beta: real, h: real)
    ensures Value(p, alpha, beta + h) == Value(p, alpha, beta) + h * GradBeta(p, alpha)
  {
    var u := Diagonal(p);
    assert u * alpha * (beta + h) == u * alpha * beta + h * (alpha * u);
    assert (beta + h) * (p.m21 - p.m22) == beta * (p.m21 - p.m22) + h * (p.m21 - p.m22);
  }

  function Negated(p: Payoff): Payoff
  {
    Payoff(-p.m11, -p.m12, -p.m21, -p.m22)
  }

  /** Paying the opponent's loss gives the negated value everywhere. */
  lemma NegatedValue(p: Payoff, alpha: real, beta: real)
    ensures Value(Negated(p), alpha, beta) == -Value(p, alpha, beta)
  {
    var u := Diagonal(p);
    assert Diagonal(Negated(p)) == -u;
    assert -u * alpha * beta == -(u * alpha * beta);
  }

  /** `init_p1()`: r11 = 3, r12 = -2, r21 = -2, r22 = 1. */
  const R: Payoff := Payoff(3.0, -2.0, -2.0, 1.0)
  /** `init_p2()`: c11 = -3, c12 = 2, c21 = 2, c22 = -1. */
  const C: Payoff := Payoff(-3.0, 2.0, 2.0, -1.0)
  const Eta: real := 0.1
  const FactorMax: real := 0.8
  const FactorMin: real := 0.2
  /** `alpha_best` and `beta_best`: the mixed equilibrium of the game. */
  const AlphaBest: real := 3.0 / 8.0
  const BetaBest: real := 3.0 / 8.0
  /** The `epsilon` of `update()`. */
  const StopBound: real := 0.000001

  /** The shipped game is zero-sum: v2 = -v1 for every alpha and beta. */
  lemma ShippedGameZeroSum(alpha: real, beta: real)
    ensures Value(C, alpha, beta) == -Value(R, alpha, beta)
  {
    assert C == Negated(R);
    NegatedValue(R, alpha, beta);
  }

  /** At the equilibrium both gradients vanish, and only there. */
  lemma GradientsVanishAtBest(alpha: real, beta: real)
    ensures GradAlpha(R, beta) == 0.0 <==> beta == BetaBest
    ensures GradBeta(C, alpha) == 0.0 <==> alpha == AlphaBest
  {
    assert Diagonal(R) == 8.0 && Diagonal(C) == -8.0;
  }

  /** `match()`: each player's learning factor, small when its value beats
      its value at the equilibrium point and large otherwise. */
  function Match(alpha: real, beta: real): (f: (real, real))
    ensures f.0 in {FactorMin, FactorMax} && f.1 in {FactorMin, FactorMax}
  {
    var f1 := if Value(R, alpha, beta) > Value(R, AlphaBest, BetaBest) then FactorMin else FactorMax;
    var f2 := if Value(C, alpha, beta) > Value(C, AlphaBest, BetaBest) then FactorMin else FactorMax;
    (f1, f2)
  }

  /** A player uses the small factor exactly when its expected payoff beats
      its expected payoff at the equilibrium. */
  lemma MatchWinning(alpha: real, beta: real)
    ensures Match(alpha, beta).0 == FactorMin <==> Expectation(R, alpha, beta) > Expectation(R, AlphaBest, BetaBest)
    ensures Match(alpha, beta).0 == FactorMax <==> Expectation(R, alpha, beta) <= Expectation(R, AlphaBest, BetaBest)
    ensures Match(alpha, beta).1 == FactorMin <==> Expectation(C, alpha, beta) > Expectation(C, AlphaBest, BetaBest)
    ensures Match(alpha, beta).1 == FactorMax <==> Expectation(C, alpha, beta) <= Expectation(C, AlphaBest, BetaBest)
  {
    ValueIsExpectation(R, alpha, beta);
    ValueIsExpectation(R, AlphaBest, BetaBest);
    ValueIsExpectation(C, alpha, beta);
    ValueIsExpectation(C, AlphaBest, BetaBest);
  }

  /** In a zero-sum game the two players never win at once: when one uses the
      small factor the other uses the large one. */
  lemma NeverBothWinning(alpha: real, beta: real)
    ensures Match(alpha, beta).0 == FactorMax || Match(alpha, beta).1 == FactorMax
  {
    ShippedGameZeroSum(alpha, beta);
    ShippedGameZeroSum(AlphaBest, BetaBest);
  }

  /** One pass of the loop in `update()`: both steps are computed from the
      same alpha and beta, a simultaneous update. */
  function Step(alpha: real, beta: real): (real, real)
  {
    var f := Match(alpha, beta);
    (Eta * f.0 * GradAlpha(R, beta), Eta * f.1 * GradBeta(C, alpha))
  }

  /** Each step is an ascent step on the mover's own value with the other
      player's probability held, and a step is zero exactly at the
      equilibrium coordinate it depends on. */
  lemma StepAscends(alpha: real, beta: real)
    ensures var v := Step(alpha, beta);
      && (v.0 == 0.0 <==> beta == BetaBest)
      && (v.1 == 0.0 <==> alpha == AlphaBest)
      && Value(R, alpha + v.0, beta) >= Value(R, alpha, beta)
      && Value(C, alpha, beta + v.1) >= Value(C, alpha, beta)
  {
    var f := Match(alpha, beta);
    var v := Step(alpha, beta);
    GradientsVanishAtBest(alpha, beta);
    AscentGain(Eta * f.0, GradAlpha(R, beta), v.0);
    AscentGain(Eta * f.1, GradBeta(C, alpha), v.1);
    ValueLinearInAlpha(R, alpha, beta, v.0);
    ValueLinearInBeta(C, alpha, beta, v.1);
  }

  /** A step of k times the slope g gains k g^2 >= 0, and is zero only when g is. */
  lemma AscentGain(k: real, g: real, v: real)
    requires 0.0 < k && v == k * g
    ensures 0.0 <= v * g
    ensures v == 0.0 <==> g == 0.0
  {
    if g < 0.0 {
      assert v < 0.0;
    } else if g > 0.0 {
      assert v > 0.0;
    }
  }

  /** A step with factor at least 0.02 on a slope of plus or minus 8 d has
      size at least 0.16 |d|. */
  lemma StepAtLeast(k: real, g: real, d: real, v: real)
    requires 0.02 <= k && (g == 8.0 * d || g == -8.0 * d) && v == k * g
    ensures 0.16 * Abs(d) <= Abs(v)
  {
    assert Abs(v) == k * Abs(g);
    assert Abs(g) == 8.0 * Abs(d);
    assert (k - 0.02) * Abs(g) >= 0.0;
  }

  /** `v = abs(va) + abs(vb)` has fallen to `epsilon`: the loop stops. */
  ghost predicate Stops(alpha: real, beta: real)
  {
    var v := Step(alpha, beta);
    Abs(v.0) + Abs(v.1) <= StopBound
  }

  /** The stopping test is met only within 6.25e-6 of the equilibrium in
      each coordinate: the smaller factor still multiplies a slope of 8. */
  lemma StopsNearBest(alpha: real, beta: real)
    requires Stops(alpha, beta)
    ensures Abs(alpha - AlphaBest) <= 0.00000625 && Abs(beta - BetaBest) <= 0.00000625
  {
    var f := Match(alpha, beta);
    var v := Step(alpha, beta);
    StepAtLeast(Eta * f.0, GradAlpha(R, beta), beta - BetaBest, v.0);
    StepAtLeast(Eta * f.1, GradBeta(C, alpha), alpha - AlphaBest, v.1);
  }

  /** The `while True` loop of `update()`, cut off after at most fuel passes:
      the final alpha and beta, and whether the stopping test was met. */
  function Iterate(alpha: real, beta: real, fuel: nat): (r: (real, real, bool))
    ensures r.2 ==> Stops(r.0, r.1)
    decreases fuel
  {
    if fuel == 0 then (alpha, beta, false)
    else
      var v := Step(alpha, beta);
      if Abs(v.0) + Abs(v.1) <= StopBound then (alpha, beta, true)
      else Iterate(alpha + v.0, beta + v.1, fuel - 1)
  }

  /** The pass that meets the stopping test leaves alpha and beta as they were;
      a pass that does not moves both by the step computed from the old pair. */
  lemma {:induction false} IteratePass(alpha: real, beta: real, fuel: nat)
    requires fuel > 0
    ensures Stops(alpha, beta) ==> Iterate(alpha, beta, fuel) == (alpha, beta, true)
    ensures !Stops(alpha, beta) ==>
      Iterate(alpha, beta, fuel) == Iterate(alpha + Step(alpha, beta).0, beta + Step(alpha, beta).1, fuel - 1)
  {
  }

  /** The pair after k passes that all move: each pass adds both steps
      computed from the pair it starts from. */
  function Trajectory(alpha: real, beta: real, k: nat): (real, real)
    decreases k
  {
    if k == 0 then (alpha, beta)
    else
      var v := Step(alpha, beta);
      Trajectory(alpha + v.0, beta + v.1, k - 1)
  }

  /** The k-th point of the trajectory meets the stopping test. */
  ghost predicate StopsAt(alpha: real, beta: real, k: nat)
  {
    var p := Trajectory(alpha, beta, k);
    Stops(p.0, p.1)
  }

  /** When the first pass to meet the stopping test is pass k, the loop ends
      at the k-th point of the trajectory, unmoved by that pass, and reports
      stopping. */
  lemma {:induction false} IterateStopsAtFirst(alpha: real, beta: real, fuel: nat, k: nat)
    requires k < fuel && StopsAt(alpha, beta, k)
    requires forall j :: 0 <= j < k ==> !StopsAt(alpha, beta, j)
    ensures Iterate(alpha, beta, fuel) == (Trajectory(alpha, beta, k).0, Trajectory(alpha, beta, k).1, true)
    decreases k
  {
    IteratePass(alpha, beta, fuel);
    if k > 0 {
      var v := Step(alpha, beta);
      var a1, b1 := alpha + v.0, beta + v.1;
      assert !StopsAt(alpha, beta, 0);
      forall j | 0 <= j < k - 1
        ensures !StopsAt(a1, b1, j)
      {
        assert StopsAt(alpha, beta, j + 1) == StopsAt(a1, b1, j);
      }
      IterateStopsAtFirst(a1, b1, fuel - 1, k - 1);
    }
  }

  /** The loop reports running out exactly when none of the first fuel
      points of the trajectory meets the stopping test, and it then ends at
      point fuel. */
  lemma {:induction false} IterateRunsOut(alpha: real, beta: real, fuel: nat)
    ensures !Iterate(alpha, beta, fuel).2 <==> forall j :: 0 <= j < fuel ==> !StopsAt(alpha, beta, j)
    ensures !Iterate(alpha, beta, fuel).2 ==>
      Iterate(alpha, beta, fuel) == (Trajectory(alpha, beta, fuel).0, Trajectory(alpha, beta, fuel).1, false)
    decreases fuel
  {
    if fuel > 0 {
      var v := Step(alpha, beta);
      var a1, b1 := alpha + v.0, beta + v.1;
      IteratePass(alpha, beta, fuel);
      IterateRunsOut(a1, b1, fuel - 1);
      assert StopsAt(alpha, beta, 0) == Stops(alpha, beta);
      if Stops(alpha, beta) {
        assert StopsAt(alpha, beta, 0);
      } else {
        assert Trajectory(alpha, beta, fuel) == Trajectory(a1, b1, fuel - 1);
        var none := forall j :: 0 <= j < fuel ==> !StopsAt(alpha, beta, j);
        var none1 := forall j :: 0 <= j < fuel - 1 ==> !StopsAt(a1, b1, j);
        if none {
          forall j | 0 <= j < fuel - 1
            ensures !StopsAt(a1, b1, j)
          {
            assert Trajectory(alpha, beta, j + 1) == Trajectory(a1, b1, j);
            assert !StopsAt(alpha, beta, j + 1);
          }
        }
        if none1 {
          forall j | 0 <= j < fuel
            ensures !StopsAt(alpha, beta, j)
          {
            if j > 0 {
              assert Trajectory(alpha, beta, j) == Trajectory(a1, b1, j - 1);
              assert !StopsAt(a1, b1, j - 1);
            }
          }
        }
        assert none == none1;
      }
    }
  }

  /** The equilibrium is a fixed point: started there, the loop stops on its
      first pass without moving. */
  lemma FixedPointAtBest(fuel: nat)
    requires fuel > 0
    ensures Step(AlphaBest, BetaBest) == (0.0, 0.0)
    ensures Iterate(AlphaBest, BetaBest, fuel) == (AlphaBest, BetaBest, true)
  {
    var v := Step(AlphaBest, BetaBest);
    assert v.0 == 0.0 && v.1 == 0.0;
  }

  /** alpha and beta are not clamped to [0, 1]: from (1, 1) the first pass
      moves alpha to 1.1. */
  lemma UnclampedStep()
    ensures Step(1.0, 1.0) == (0.1, -0.4)
    ensures Iterate(1.0, 1.0, 2) == Iterate(1.1, 0.6, 1)
  {
    assert Value(R, 1.0, 1.0) == 3.0 && Value(R, AlphaBest, BetaBest) == -0.125;
    assert Value(C, 1.0, 1.0) == -3.0 && Value(C, AlphaBest, BetaBest) == 0.125;
    assert Match(1.0, 1.0) == (FactorMin, FactorMax);
    assert GradAlpha(R, 1.0) == 5.0 && GradBeta(C, 1.0) == -5.0;
  }

  /** The matching-pennies learner: only alpha and beta change. */
  class MatchingPennies {
    var alpha: real
    var beta: real

    /** The initial alpha and beta are the two `random.random()` draws. */
    constructor(alpha0: real, beta0: real)
      ensures alpha == alpha0 && beta == beta0
    {
      alpha := alpha0;
      beta := beta0;
    }

    /** `v1()`: the first player's expected payoff. */
    function V1(): (v: real)
      reads this
      ensures v == Expectation(R, alpha, beta)
    {
      ValueIsExpectation(R, alpha, beta);
      Value(R, alpha, beta)
    }

    /** `v2()`: the second player's expected payoff, the negation of v1. */
    function V2(): (v: real)
      reads this
      ensures v == Expectation(C, alpha, beta) && v == -V1()
    {
      ShippedGameZeroSum(alpha, beta);
      ValueIsExpectation(C, alpha, beta);
      Value(C, alpha, beta)
    }

    /** `v1_best()`: the first player's payoff at the equilibrium, -1/8. */
    function V1Best(): (v: real)
      ensures v == Expectation(R, AlphaBest, BetaBest) && v == -0.125
    {
      ValueIsExpectation(R, AlphaBest, BetaBest);
      Value(R, AlphaBest, BetaBest)
    }

    /** `v2_best()`: the second player's payoff at the equilibrium, 1/8. */
    function V2Best(): (v: real)
      ensures v == Expectation(C, AlphaBest, BetaBest) && v == 0.125
    {
      ValueIsExpectation(C, AlphaBest, BetaBest);
      Value(C, AlphaBest, BetaBest)
    }

    /** `update()`: repeat the simultaneous gradient step until the stopping
        test holds, for at most fuel passes. */
    method Update(fuel: nat) returns (converged: bool)
      modifies this
      ensures (alpha, beta, converged) == Iterate(old(alpha), old(beta), fuel)
    {
      var n := fuel;
      converged := false;
      while n > 0
        invariant Iterate(old(alpha), old(beta), fuel) == Iterate(alpha, beta, n)
        invariant !converged
        decreases n
      {
        // both steps come from the alpha and beta of this pass
        var v := Step(alpha, beta);
        var va, vb := v.0, v.1;
        IteratePass(alpha, beta, n);
        if Abs(va) + Abs(vb) <= StopBound {
          converged := true;
          break;
        }
        alpha := alpha + va;
        beta := beta + vb;
        n := n - 1;
      }
    }
  }
}
