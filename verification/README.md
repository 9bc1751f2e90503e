# MARL learning dynamics in Dafny

A model of three small learning-dynamics programs for two-player zero-sum
games, with proofs about the model:

- **PHC** (`PHC/main.py`). Policy hill climbing. A `Player` keeps action
  values `q`, a mixed `strategy`, a turn counter and the action it last chose.
  A learner picks the first argmax of `q` (action 0 on the exploration coin),
  updates `q[a]` toward `reward + 0.9·max(q)` and then moves up to
  `delta = 0.01` of probability from the other actions onto the best one,
  in place. A fixed player samples its strategy by inverse CDF. The `PHC`
  driver plays a fixed number of matching-pennies rounds and records each
  player's probability of action 0 before it acts.
- **WoLF-PHC** (`WoLF-PHC/main.py`). The same player with a "win or learn
  fast" step size: `1/(1000+turns)` while the strategy earns more against `q`
  than the running average strategy does, twice that otherwise. The average
  (`equilibrium_strategy`) is moved one entry at a time.
- **WoLF-IGA** (`WoLF-IGA/main.py`). Two probabilities `alpha` and `beta`
  follow the gradients of the players' bilinear expected payoffs on matching
  pennies. Each player's factor is 0.2 when its payoff beats its payoff at the
  equilibrium (3/8, 3/8) and 0.8 otherwise. Steps repeat until `|va|+|vb| <= 1e-6`.

Files:

- `vectors.dfy` (module `Vectors`): sums, dot products, `max`, first
  `argmax` and the probability simplex.
- `learner.dfy` (module `Learner`): what both PHC programs share word for word.
  That is the learning and exploration rates, inverse-CDF sampling, action
  choice, the value update and the reward rule.
- `phc.dfy` (module `Phc`): the PHC player and driver.
- `wolf_phc.dfy` (module `WolfPhc`): the WoLF-PHC player and driver.
- `wolf_iga.dfy` (module `WolfIga`): the WoLF-IGA learner.

The players and drivers are classes whose methods update their fields in
place. The `strategy` and `q` lists are `seq<real>` fields that the methods
reassign. Each method is proved against a pure definition:

- `Learned` is one `update` on values.
- `Round` is one pass of the driver loop, and `Play` is the whole loop.
- `Climbed` (PHC) and `Sweep`/`WolfClimbed` (WoLF-PHC) are the strategy
  projection.
- `Iterate` is the WoLF-IGA loop.

The properties are then proved about those definitions.

Random draws are parameters. A `Draw(explore, r)` holds the exploration coin
and the uniform number one call of `action()` uses. The WoLF-IGA starting
point is a constructor argument. Floats are modelled as exact reals.

On the exploration coin the program draws a random index, discards it and
plays action 0 (`PHC/main.py:24-30`, `WoLF-PHC/main.py:26-32`);
`Learner.Choice` states this.

## Model

| member | source | states |
|---|---|---|
| Vectors.Min | PHC/main.py:72 | `min` is at most both arguments and equals one of them |
| Vectors.Abs | WoLF-IGA/main.py:130 | `abs` is non-negative and is x or -x |
| Vectors.CumulativeNext | PHC/main.py:36-39 | adding entry k to the running sum gives the mass of the first k+1 entries |
| Vectors.Cumulative | PHC/main.py:34-39 | the running sum `s` after k passes: `strategy[0] + ... + strategy[k-1]` |
| Vectors.SumUpdate | PHC/main.py:73 | writing one entry changes the sum by exactly the difference |
| Vectors.EntryIsProbability | PHC/main.py:51-52 | every entry of a mixed strategy lies in [0, 1] |
| Vectors.Dot | WoLF-PHC/main.py:70 | `np.dot(a, b)`: the sum of `a[i]·b[i]` over all i |
| Vectors.Max | PHC/main.py:64 | `np.max` is an entry of q and no entry exceeds it |
| Vectors.ArgMax | PHC/main.py:67 | `np.argmax` is the lowest index holding the largest entry |
| Vectors.FirstMaxUnique | PHC/main.py:67 | only one index is the first maximum |
| Vectors.MaxAtArgMax | PHC/main.py:64-67 | `np.max(q)` is `q[np.argmax(q)]` |
| Vectors.Zeros | PHC/main.py:10 | the initial q has one zero per action |
| Vectors.Uniform | WoLF-PHC/main.py:12 | `[1/n]*n` has n entries and is a distribution |
| Learner.LearningRate | PHC/main.py:43-44 | the learning rate lies in (0, 0.1] |
| Learner.LearningRateDecreasing | PHC/main.py:43-44 | the learning rate strictly falls as turns grow |
| Learner.Epsilon | PHC/main.py:47-48 | the exploration probability lies in (0, 0.5] |
| Learner.EpsilonDecreasing | PHC/main.py:47-48 | the exploration probability strictly falls as turns grow |
| Learner.FirstCrossingUnique | PHC/main.py:32-41 | at most one index is the first where the running sum reaches r |
| Learner.CrossingFrom | PHC/main.py:36-41 | the sampling walk from index i stops at the first crossing |
| Learner.InverseCdf | PHC/main.py:32-41 | for a distribution and r < 1 there is a first crossing inside the strategy |
| Learner.PolicyAction | PHC/main.py:32-41 | `policy_action` returns the smallest index whose prefix sum reaches r |
| Learner.Choice | PHC/main.py:17-30 | fixed player: first crossing; learner: first argmax of q, or action 0 on the exploration coin |
| Learner.Revalued | PHC/main.py:63-64 | the value update changes only `q[a]` and keeps the length |
| Learner.RevaluedBetween | PHC/main.py:63-64 | the new `q[a]` lies between the old value and the target `reward + 0.9·max(q)`, and moves at most a tenth of the gap |
| Learner.Reward | PHC/main.py:104-107 | the two rewards sum to zero and are ±1 |
| Learner.RewardMatchingPennies | PHC/main.py:104-107 | with actions in {0, 1} the first player wins exactly when the actions match |
| Learner.RewardSumTestBeyondTwoActions | PHC/main.py:105 | with three actions the sum test also pays the first player for (0, 2) |
| Learner.Take | PHC/main.py:72 | the amount taken from an action is between 0 and its probability, and at most delta/(n-1) |
| Phc.Withdrawn | PHC/main.py:68-76 | the accumulator `s` after k passes: the sum of `min(strategy[i], delta/(n-1))` over the non-best i < k |
| Phc.Climbed | PHC/main.py:66-77 | the projection in closed form: every non-best entry minus `min(p, delta/(n-1))`, the best entry plus all that was withdrawn; same length |
| Phc.WithdrawnBounds | PHC/main.py:70-74 | the withdrawn mass is non-negative and at most delta/(n-1) per visited non-best action |
| Phc.ClimbedPrefixSum | PHC/main.py:66-77 | the prefix sums of the projected strategy, in terms of the mass withdrawn so far |
| Phc.ClimbedSum | PHC/main.py:66-77 | the projection conserves total probability |
| Phc.ClimbedMoves | PHC/main.py:66-77 | no entry goes negative; the best gains between 0 and delta; every other action loses exactly `min(p, delta/(n-1))` |
| Phc.ClimbedIsDistribution | PHC/main.py:66-77 | the projection keeps a mixed strategy on the simplex |
| Phc.WithdrawnPositive | PHC/main.py:70-74 | one positive non-best entry makes the withdrawn mass positive |
| Phc.PositiveElsewhere | PHC/main.py:70-74 | mass beyond the best action's sits on some other action |
| Phc.ClimbedStrictlyRaisesBest | PHC/main.py:66-77 | a best action holding less than all the mass strictly gains |
| Phc.Learned | PHC/main.py:54-61 | `update` leaves a fixed player unchanged and adds exactly one turn for a learner |
| Phc.LearnedKeepsDistribution | PHC/main.py:54-77 | an update keeps the strategy a distribution and never lowers the new best action |
| Phc.Round | PHC/main.py:97-100 | one round leaves a fixed player unchanged |
| Phc.Play | PHC/main.py:88-100 | `run` records one value per round for each player and leaves a fixed player unchanged |
| Phc.PlayTurnsAndFixedTrace | PHC/main.py:88-100 | a learner gains exactly one turn per round; every value recorded for a fixed player is its initial `strategy[0]` |
| Phc.PlayStaysOnSimplex | PHC/main.py:88-100 | players that start on the simplex stay on it, and every recorded value is a probability |
| Phc.Player.constructor | PHC/main.py:9-15 | q starts at zeros whatever is passed, with turn 0 and the given strategy |
| Phc.Player.GetStrategy | PHC/main.py:51-52 | `get_strategy(i)` is a probability when the strategy is a distribution |
| Phc.Player.Action | PHC/main.py:17-30 | the action is `Choice` of the draw and it is latched in `current_action` |
| Phc.Player.Update | PHC/main.py:54-61 | nothing changes for a fixed player; a learner's new state is `Learned` of the old one |
| Phc.Player.UpdateValue | PHC/main.py:63-64 | the in-place value update produces `Revalued` of the old q |
| Phc.Player.UpdateStrategy | PHC/main.py:66-77 | the in-place loop leaves exactly the closed-form projection `Climbed` |
| Phc.Game.constructor | PHC/main.py:82-86 | the driver holds the two players and the round count |
| Phc.Game.PlayRound | PHC/main.py:92-100 | one loop pass records both `strategy[0]` before acting and performs `Round`; each player's latched action is its `Choice` for the round |
| Phc.Game.Run | PHC/main.py:88-102 | `run` performs `iteration` rounds, numbers them 0.., and ends as `Play` says; after at least one round both players have a latched action |
| WolfPhc.DeltaWin | WoLF-PHC/main.py:68 | `delta_win = 1/(1000+turns)` lies in (0, 0.001] |
| WolfPhc.StepSize | WoLF-PHC/main.py:67-72 | the step is `delta_win` exactly when `strategy·q > equilibrium·q`, else `2·delta_win` |
| WolfPhc.Sweep | WoLF-PHC/main.py:76-84 | the strategy and `s` after k passes, each non-best pass taking `min(p, d/(n-1))` with d the step on the strategy as it stands; the length is kept |
| WolfPhc.WolfClimbed | WoLF-PHC/main.py:74-85 | the whole sweep, then `s` added to the best action; the length is kept |
| WolfPhc.SweepConserves | WoLF-PHC/main.py:78-82 | during the loop no entry goes negative, strategy plus s keeps the total mass, and the best entry is untouched |
| WolfPhc.SweepEntryLoss | WoLF-PHC/main.py:78-82 | a visited non-best action loses at most `2/((1000+turns)(n-1))` and never gains |
| WolfPhc.SweepWithdrawn | WoLF-PHC/main.py:78-82 | s is at most `2·delta_win/(n-1)` per visited non-best action |
| WolfPhc.SweepSettled | WoLF-PHC/main.py:78-82 | later passes do not touch an entry already visited |
| WolfPhc.SweepUntouched | WoLF-PHC/main.py:78-82 | entries not yet visited keep their values |
| WolfPhc.WolfClimbedEntry | WoLF-PHC/main.py:78-82 | every non-best action loses exactly `min(p, d/(n-1))`, with d re-evaluated on the partly updated strategy |
| WolfPhc.WolfClimbedMoves | WoLF-PHC/main.py:74-85 | the projection keeps the simplex, never lowers the best action, raises it by at most `2·delta_win`, and takes at most `2·delta_win/(n-1)` from any other action |
| WolfPhc.SweepMonotone | WoLF-PHC/main.py:78-83 | the accumulator `s` never decreases from one pass to a later one |
| WolfPhc.WolfClimbedStrictlyRaisesBest | WoLF-PHC/main.py:74-85 | a best action holding less than all the mass strictly gains, since the WoLF step is always positive |
| WolfPhc.Averaged | WoLF-PHC/main.py:87-88 | entry a of the average plus `1/(turns+1)·(strategy[a] − average[a])`, the rest as before; the length is kept |
| WolfPhc.AveragedMoves | WoLF-PHC/main.py:87-88 | only entry a of the average changes; it lands between its old value and `strategy[a]`, and equals `strategy[a]` at turn 0 |
| WolfPhc.AveragedLeavesSimplex | WoLF-PHC/main.py:87-88 | one update takes the average from [0.5, 0.5] to [0.2, 0.5]: it need not sum to 1 |
| WolfPhc.Learned | WoLF-PHC/main.py:54-62 | `update` leaves a fixed player unchanged and adds exactly one turn for a learner |
| WolfPhc.LearnedKeepsDistribution | WoLF-PHC/main.py:54-88 | an update keeps the strategy a distribution, never lowers the new best action, and at turn 0 makes the average agree with the strategy at a |
| WolfPhc.Round | WoLF-PHC/main.py:108-111 | one round leaves a fixed player unchanged |
| WolfPhc.Play | WoLF-PHC/main.py:99-111 | `run` records one value per round for each player and leaves a fixed player unchanged |
| WolfPhc.PlayTurnsAndFixedTrace | WoLF-PHC/main.py:99-111 | a learner gains exactly one turn per round; every value recorded for a fixed player is its initial `strategy[0]` |
| WolfPhc.PlayStaysOnSimplex | WoLF-PHC/main.py:99-111 | players that start on the simplex stay on it |
| WolfPhc.PlayTraceIsProbability | WoLF-PHC/main.py:103-106 | every recorded value is a probability |
| WolfPhc.Player.constructor | WoLF-PHC/main.py:9-17 | q starts at zeros, the average strategy is uniform and both step sizes are 0 |
| WolfPhc.Player.GetStrategy | WoLF-PHC/main.py:51-52 | `get_strategy(i)` is a probability when the strategy is a distribution |
| WolfPhc.Player.Action | WoLF-PHC/main.py:19-32 | the action is `Choice` of the draw and it is latched in `current_action` |
| WolfPhc.Player.Update | WoLF-PHC/main.py:54-62 | nothing changes for a fixed player; a learner's new state is `Learned` of the old one, with the step sizes of its last turn recorded |
| WolfPhc.Player.UpdateValue | WoLF-PHC/main.py:64-65 | the in-place value update produces `Revalued` of the old q |
| WolfPhc.Player.GetDelta | WoLF-PHC/main.py:67-72 | `get_delta` records `delta_win = 1/(1000+turns)` and `delta_lose = 2·delta_win` and returns `StepSize` |
| WolfPhc.Player.UpdateStrategy | WoLF-PHC/main.py:74-85 | the in-place loop leaves exactly `WolfClimbed` of the old strategy and records the step sizes whenever it asked for one |
| WolfPhc.Player.UpdateEquilibriumStrategy | WoLF-PHC/main.py:87-88 | the in-place update produces `Averaged` with the pre-increment turn count |
| WolfPhc.Game.constructor | WoLF-PHC/main.py:93-97 | the driver holds the two players and the round count |
| WolfPhc.Game.PlayRound | WoLF-PHC/main.py:103-111 | one loop pass records both `strategy[0]` before acting and performs `Round`; each latched action is the round's `Choice`; a learner with two or more actions holds the step sizes of the turn just played, a fixed player keeps its own |
| WolfPhc.Game.Run | WoLF-PHC/main.py:99-113 | `run` performs `iteration` rounds, numbers them 0.., and ends as `Play` says; after at least one round both players have a latched action and a learner with two or more actions holds the step sizes of its last turn; a fixed player keeps its own |
| WolfIga.ValueIsExpectation | WoLF-IGA/main.py:17-23 | the compact `u·α·β + α(m12−m22) + β(m21−m22) + m22` equals the bilinear expectation |
| WolfIga.Diagonal | WoLF-IGA/main.py:68 | `u = m11 − m12 − m21 + m22` (`u1` at line 68, `u2` at line 77) |
| WolfIga.Value | WoLF-IGA/main.py:88-98 | the compact form `u·α·β + α(m12−m22) + β(m21−m22) + m22` that `v1`, `v2`, `v1_best` and `v2_best` evaluate |
| WolfIga.GradAlpha | WoLF-IGA/main.py:128 | the α slope `β·u1 + (r12 − r22)` |
| WolfIga.GradBeta | WoLF-IGA/main.py:129 | the β slope `α·u2 + (c21 − c22)` |
| WolfIga.ValueLinearInAlpha | WoLF-IGA/main.py:24 | v is linear in α with slope `β·u + (m12−m22)` |
| WolfIga.ValueLinearInBeta | WoLF-IGA/main.py:40 | v is linear in β with slope `α·u + (m21−m22)` |
| WolfIga.NegatedValue | WoLF-IGA/main.py:33-39 | negating the payoffs negates the value |
| WolfIga.ShippedGameZeroSum | WoLF-IGA/main.py:63-79 | with the shipped payoffs `v2 = −v1` for all α, β |
| WolfIga.GradientsVanishAtBest | WoLF-IGA/main.py:128-129 | the α slope is 0 exactly when β = 3/8, and the β slope exactly when α = 3/8 |
| WolfIga.Match | WoLF-IGA/main.py:115-121 | each factor is 0.2 or 0.8 |
| WolfIga.MatchWinning | WoLF-IGA/main.py:115-121 | a factor is 0.2 exactly when that player's expected payoff beats its payoff at the equilibrium, and 0.8 otherwise |
| WolfIga.NeverBothWinning | WoLF-IGA/main.py:115-121 | the two players never both use the small factor |
| WolfIga.StepAscends | WoLF-IGA/main.py:128-129 | each step is zero exactly at the equilibrium coordinate it depends on, and never lowers the mover's own value |
| WolfIga.Step | WoLF-IGA/main.py:127-129 | `(va, vb) = (0.1·factor1·GradAlpha(β), 0.1·factor2·GradBeta(α))`, both from the same α and β with the factors of `Match` |
| WolfIga.StopsNearBest | WoLF-IGA/main.py:124-132 | the stopping test holds only within 6.25e-6 of (3/8, 3/8) in each coordinate |
| WolfIga.Iterate | WoLF-IGA/main.py:123-134 | a loop that reports stopping stops where `|va|+|vb| <= 1e-6` |
| WolfIga.Trajectory | WoLF-IGA/main.py:127-134 | the pair after k passes that all move, each adding both steps computed from the pair it starts from |
| WolfIga.IterateStopsAtFirst | WoLF-IGA/main.py:123-134 | if pass k is the first whose point meets `|va|+|vb| <= 1e-6`, the loop ends at that point, unmoved by the exiting pass, and reports stopping |
| WolfIga.IterateRunsOut | WoLF-IGA/main.py:123-134 | the loop runs out of passes exactly when no point before the last meets the stopping test, and then ends at the last point |
| WolfIga.FixedPointAtBest | WoLF-IGA/main.py:123-134 | (3/8, 3/8) has zero step and the loop stops there on its first pass |
| WolfIga.UnclampedStep | WoLF-IGA/main.py:133-134 | α and β are not clamped: from (1, 1) one pass moves α to 1.1 |
| WolfIga.MatchingPennies.constructor | WoLF-IGA/main.py:63-79 | the learner starts at the given α and β |
| WolfIga.MatchingPennies.V1 | WoLF-IGA/main.py:91-92 | `v1()` is the first player's expected payoff |
| WolfIga.MatchingPennies.V2 | WoLF-IGA/main.py:97-98 | `v2()` is the second player's expected payoff and equals `−v1()` |
| WolfIga.MatchingPennies.V1Best | WoLF-IGA/main.py:88-89 | `v1_best()` is the expected payoff at the equilibrium, −1/8 |
| WolfIga.MatchingPennies.V2Best | WoLF-IGA/main.py:94-95 | `v2_best()` is the expected payoff at the equilibrium, 1/8 |
| WolfIga.MatchingPennies.Update | WoLF-IGA/main.py:123-134 | the in-place loop ends in the state and with the stop flag `Iterate` gives |

## Left out

- Plotting and output are not modelled: `draw`, `close`, the matplotlib calls, `output_strategy` and `print`. Neither are the scenario drivers and `__main__` blocks, which only pick constants.
- Random sources (`random.random`, `np.random.binomial`, `np.random.randint`) are parameters. The index `np.random.randint` draws is thrown away by the program, so it does not appear at all.
- Floats are exact reals, so no rounding is modelled. With floats the `policy_action` walk can run off the end of the strategy when the sum falls short of r. The model requires the strategy to be a distribution and r < 1, which is why `Learner.PolicyAction` and `Ready` require it of fixed players.
- Division is Python 3 true division: `3/8` (`WoLF-IGA/main.py:70, 79`), `1/len(self.strategy)` (`WoLF-PHC/main.py:12`) and `1/(self.turns+1)` (`WoLF-PHC/main.py:88`) are the real quotients. Python 2 integer division, which would make `3/8` and `1/len(self.strategy)` (for two or more actions) zero, and `1/(self.turns+1)` zero from the second turn on, is not modelled.
- `WolfIga.MatchingPennies.Update`: the `while True` loop of `update()` has no bound, so it is modelled with a fuel bound. A run that does not stop within the fuel returns `converged == false`. Termination and convergence toward the equilibrium are not claimed.
- `Phc.Player` and `WolfPhc.Player` hold `strategy` as a value. In the program the list is shared with the caller, and the default `[0.5, 0.5]` is one list shared by every player built without a strategy. Aliasing between two players' strategies is not modelled. The drivers only require the two players to be distinct objects.
- `Phc.Player.Update` and `WolfPhc.Player.Update` require an action to have been chosen before a learner updates. In the program an `update` before any `action` raises an attribute error.
- The constructors require a non-empty strategy. The program builds players with an empty strategy but fails on their first action. Strategies that are not distributions are accepted as in the program; the simplex lemmas assume a distribution.
- `Phc.Game.Run` and `WolfPhc.Game.Run` return the recorded sequences instead of plotting them.
- `WolfPhc.Player.UpdateStrategy` states the recorded step sizes only when it asked `get_delta` at least once. With a single action it leaves them as they were, as the program does.
