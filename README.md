# Q-learning framework: a verified model of the training engine

This project models the tabular Q-learning engine of `QlearningFramwork.cs` in Dafny, and proves
properties of that model.

The engine owns a list of states (`States`) and a name index over them (`StateLookup`). Each state
holds actions. Each action holds probabilistic outcomes (`ActionsResult`), and each outcome carries a
Q value, a probability, a reward and the name of its target state.

- **Validation.** `RunTraining` first validates every action of every listed state. An action must have
  at least one outcome, and its probabilities must sum to within 0.1 of 1.
- **Training.** It then runs `Episodes` episodes, each from a drawn start state. A pass of an
  episode works as follows:
  - It stops at the step cap, or in a state without actions.
  - Otherwise it draws an action and samples one of its outcomes: the first outcome whose running
    probability sum reaches a unit draw, else the last one.
  - It writes `q + alpha * (reward + gamma * MaxQ(target) - q)` into that outcome, where `q` is the
    outcome's estimate `QValue * Probability`.
  - It then stops at an end state, or moves to the target state. A target missing from
    `StateLookup` ends training with an error.
- **MaxQ.** `MaxQ` is the running maximum of the estimates of a state's outcomes. It is 0 for an
  unknown name and for a state without outcomes.
- **ShowPolicy.** `ShowPolicy` reports, per listed state, the action owning the first outcome with the
  largest estimate, or "nothing".

## How the model is built

- **Modules.**
  - `QMethod`: the action-name helpers and `ValidateRange`.
  - `Probability`: probability sums, and the sampling walk of `PickActionByProbability`.
  - `Estimates`: the running maximum and the first-wins argmax over a list of reals.
  - `Flatten`: the order in which the nested loops visit the outcomes.
  - `Scans`: the MaxQ and policy loops as folds over estimate lists, connected to `Estimates`.
  - `QLearningFramework`: the entities and the engine.
- **Classes.** `QLearning`, `QState`, `QAction` and `QActionResult` are classes. The engine changes
  them in place, and one state object is shared by `States` and `StateLookup`.
- **The specification side.** Training writes only `qValue` fields. The specifications therefore
  read two values:
  - The structure comes from an `EngineView`, which copies the lists and settings.
  - The Q values come from a table that maps each outcome object to its value.
- **Connecting the two.** `QLearning.Mirrors(sh)` states that the heap holds view `sh`.
  `TableHolds(sh, q)` states that the `qValue` fields hold table `q`. The engine's methods take the
  view and the table as ghost parameters. They change the `qValue` fields exactly as the pure
  specification (`TrainingSpec`, `EpisodeFrom`, `Step`) changes the table.
- **Random numbers.** They are a `Draws` value supplied by the caller, keyed by episode and step.
  `rand.Next(n)` becomes a draw reduced modulo `n`.

### Registration and validation

- **Registration.** `AddState` does not check for a duplicate name. Only the `QState` constructor
  rejects one, through `StateLookup.Add` (QlearningFramwork.cs:200). `QState.New` and
  `QLearning.AddState` model that split.
- **Index and list can diverge.** A state can be registered but never added to `States`.
  Validation covers only the states of `States`, so an episode can still reach an unvalidated
  state. `EpisodeNeverFailsToPick` therefore asks for outcomes on every action of every state held
  by the view, not only on validated ones.

## Model

| member | source | states |
|---|---|---|
| QMethod.ActionNameFromTo | QlearningFramwork.cs:353-356 | the composed name is exactly 9 characters longer than its two parts together |
| QMethod.ActionNameFromToParts | QlearningFramwork.cs:353-356 | the composed name reads "from_", then a, then "_to_", then b |
| QMethod.ActionNameFromToInjective | QlearningFramwork.cs:353-356 | once the length of the first part is known, the composed name determines both parts |
| QMethod.ActionNameFromToAmbiguous | QlearningFramwork.cs:353-356 | without that length the name is ambiguous: ("a_to_b", "c") and ("a", "b_to_c") print alike |
| QMethod.QActionName.GetActionName | QlearningFramwork.cs:327-332 | the display name is `From` when `To` is absent (null); otherwise it is 9 characters longer than both parts, starts with "from_" and ends with `To` |
| QMethod.GetActionNameFormats | QlearningFramwork.cs:327-332 | the display name is `From` itself when `To` is absent, and otherwise "from_" + From + "_to_" + To, part by part |
| QMethod.PlainNameCanMimicPair | QlearningFramwork.cs:327-332 | the plain name "from_a_to_b" displays exactly like the pair (a, b) |
| QMethod.ValidateRange | QlearningFramwork.cs:363-370 | passes if and only if 0 <= d <= 1; a failure carries d |
| Probability.RunningStep | QlearningFramwork.cs:261 | each outcome adds its probability to the running sum |
| Probability.PickIndex | QlearningFramwork.cs:255-272 | no outcome is picked exactly when the list is empty; a pick is an index of the list |
| Probability.PickFromCharacterized | QlearningFramwork.cs:258-269 | when no earlier running sum reaches d, the walk from outcome i returns the first outcome whose running sum reaches d, or the last outcome when none does |
| Probability.PickIndexCharacterized | QlearningFramwork.cs:255-272 | no outcome is picked exactly when the list is empty; a pick is an index of the list; it is the first outcome whose running sum reaches d when any does, else the last outcome |
| Probability.FirstReachingUnique | QlearningFramwork.cs:259-264 | at most one outcome is the first whose running sum reaches d, so the characterization fixes the pick |
| Estimates.MaxOfCharacterized | QlearningFramwork.cs:129-137 | the running maximum, when present, is one of the estimates and at least every estimate |
| Estimates.FirstMaxCharacterized | QlearningFramwork.cs:168-179 | the policy scan's index holds an estimate no other exceeds, and every earlier estimate is strictly smaller |
| Estimates.FirstMaxHoldsMaxOf | QlearningFramwork.cs:174-176 | the estimate at the policy scan's index is the running maximum MaxQ computes |
| Scans.ScanMaxInner | QlearningFramwork.cs:132-137 | MaxQ's inner loop over one action's outcomes carries the running maximum of the scanned prefix to the end of that action |
| Scans.MaxScanIsMaxOf | QlearningFramwork.cs:129-138 | MaxQ's two nested loops, starting from no value, compute the running maximum of all estimates in visiting order |
| Scans.MaxOfLists | QlearningFramwork.cs:129-145 | the maximum is absent exactly when every action has no outcomes; otherwise it is some outcome's estimate and bounds every outcome's estimate |
| Scans.LeaderStep | QlearningFramwork.cs:174-178 | one outcome of the policy scan takes the lead, with its action's name, exactly when no leader exists yet or its estimate is strictly larger |
| Scans.PolicyScanIsPolicy | QlearningFramwork.cs:168-180 | ShowPolicy's two nested loops, from "nothing" and no value, end on the first-wins argmax leader over the visiting order |
| Scans.FirstMaxScanned | QlearningFramwork.cs:170-179 | the argmax position in visiting order is outcome j of action i, where no estimate is larger and every outcome visited earlier has a smaller one |
| Scans.PolicyNothing | QlearningFramwork.cs:168-169 | without any outcome the policy is "nothing" with no value |
| Scans.PolicyCharacterized | QlearningFramwork.cs:170-180 | with some outcome, the policy names the action owning the first-wins maximum outcome and reports that outcome's estimate |
| Scans.PolicyHoldsMaxOf | QlearningFramwork.cs:174-176 | the value the policy reports is the running maximum MaxQ computes |
| QLearningFramework.QActionResult.QEstimated | QlearningFramwork.cs:290-293 | with a probability in [0, 1] and a non-negative Q value, the estimate lies between 0 and the Q value; with probability 1 it is the Q value itself |
| QLearningFramework.HoldsFor | QlearningFramwork.cs:290-293 | when a table holds the Q values, every outcome's QEstimated is its Q value times its probability |
| QLearningFramework.MaxQSpec | QlearningFramwork.cs:120-146 | the value MaxQ returns, defined on the view and the table: 0 outside StateLookup, otherwise the running maximum of the state's estimates in visiting order, or 0 when there is none; it has no contract of its own, and MaxQSpecCharacterized states what it is |
| QLearningFramework.MaxQSpecCharacterized | QlearningFramwork.cs:120-146 | MaxQ is 0 for a name absent from StateLookup and for a state whose actions have no outcomes; otherwise it is the estimate of one of the state's outcomes and at least the estimate of every one |
| QLearningFramework.QLearning.MaxQ | QlearningFramwork.cs:120-146 | the method returns MaxQSpec for the view and table the heap holds, and changes nothing |
| QLearningFramework.MaxOverActions | QlearningFramwork.cs:128-138 | the outer loop over the actions computes the fold of the inner scan over every action's outcomes |
| QLearningFramework.MaxOverOutcomes | QlearningFramwork.cs:132-137 | the inner loop continues the running maximum over one action's outcome estimates |
| QLearningFramework.StatePolicy | QlearningFramwork.cs:166-183 | the line ShowPolicy prints for one state, defined as the state's name with the first-wins leader of its estimate lists; it has no contract of its own, and StatePolicyNothing and StatePolicyCharacterized state what it is |
| QLearningFramework.StatePolicyNothing | QlearningFramwork.cs:168-169 | the policy line of a state without outcomes is "nothing" with no value |
| QLearningFramework.StatePolicyCharacterized | QlearningFramwork.cs:166-183 | the policy line of a state with outcomes names the display name of the action i owning the first-wins maximum outcome j, and reports that outcome's estimate |
| QLearningFramework.PolicyAgreesWithMaxQ | QlearningFramwork.cs:174-176 | for a registered state, the value its policy line reports is its MaxQ |
| QLearningFramework.PoliciesCharacterized | QlearningFramwork.cs:166-184 | the report holds one line per listed state, in list order |
| QLearningFramework.QLearning.ShowPolicy | QlearningFramwork.cs:163-185 | returns one line per state of States, in order, each the StatePolicy of that state, and modifies nothing |
| QLearningFramework.PolicyLines | QlearningFramwork.cs:166-184 | the loop over the states produces exactly the StatePolicy line of each state, in order |
| QLearningFramework.PolicyOverActions | QlearningFramwork.cs:170-180 | the loop over the actions computes the fold of the policy scan over every action's outcomes, carrying each action's display name |
| QLearningFramework.PolicyOverOutcomes | QlearningFramwork.cs:172-179 | the inner loop replaces the leader only by a strictly larger estimate, as the fold does |
| QLearningFramework.ValidateActionsResultProbability | QlearningFramwork.cs:240-253 | fails with "no action results" exactly for an empty list; passes exactly when the list is non-empty and the probability sum is within 0.1 of 1; any other failure reports the sum |
| QLearningFramework.ValidateActionsPass | QlearningFramwork.cs:376-379 | validation of a state's actions passes exactly when every action passes its check |
| QLearningFramework.ValidateActionsFirstFailure | QlearningFramwork.cs:376-379 | a failing validation of a state's actions reports the first failing action, and every action before it passes |
| QLearningFramework.ValidateStates | QlearningFramwork.cs:372-381 | the only error validation reports is an action whose outcomes fail the probability check |
| QLearningFramework.ValidateStatesCharacterized | QlearningFramwork.cs:372-381 | validation passes exactly when every action of every listed state passes the probability check; a failure reports the first failing action, states then actions in order: every action of an earlier state passes, and so does every earlier action of the same state |
| QLearningFramework.ValidatedActionsHaveOutcomes | QlearningFramwork.cs:372-381 | after a passing validation, every action of every listed state has at least one outcome |
| QLearningFramework.Validate | QlearningFramwork.cs:372-381 | the nested loops return exactly the validation outcome of the listed states, checked state by state and action by action |
| QLearningFramework.QUpdate | QlearningFramwork.cs:105 | the update rule: rate 0 keeps the estimate, rate 1 replaces it by reward + gamma * maxQ |
| QLearningFramework.QUpdateMovesToward | QlearningFramwork.cs:104-105 | the update leaves (1 - alpha) of the distance to the target reward + gamma * maxQ; with a rate in [0, 1] the new value lies between the estimate and the target; rate 0 keeps the estimate, rate 1 reaches the target |
| QLearningFramework.Step | QlearningFramwork.cs:74-106 | a pass stops at the cap exactly when the cap is reached, and for lack of actions exactly when the state has none; otherwise it picks an outcome of the drawn action and computes its updated value from its estimate, its reward and the MaxQ of its target; sampling fails only for an action without outcomes |
| QLearningFramework.EpisodeFrom | QlearningFramwork.cs:72-115 | an episode aborts only on an unknown target or a failed pick; an episode that reaches an end state ends on an update whose target is an end state; one aborted on an unknown target ends on an update whose target is neither an end state nor registered |
| QLearningFramework.EpisodeBounded | QlearningFramwork.cs:74-85 | an episode makes at most as many updates as the step cap allows, and exactly that many when the cap ends it |
| QLearningFramework.EpisodeFrame | QlearningFramwork.cs:97-106 | an episode writes only outcomes of the engine, and leaves every outcome it does not update unchanged |
| QLearningFramework.EpisodeStops | QlearningFramwork.cs:87-97 | an episode that stops for lack of actions ends in a state without actions; an abort is an unknown target or a failed pick; a failed pick names an action of the last state that has no outcomes |
| QLearningFramework.EpisodeGoesOn | QlearningFramwork.cs:108-113 | every update of an episode except the last targets a registered state that is not an end state |
| QLearningFramework.EpisodeNeverFailsToPick | QlearningFramwork.cs:268-271 | when every action of every held state has an outcome, an episode never aborts on a failed pick |
| QLearningFramework.EpisodesFrame | QlearningFramwork.cs:65-116 | the episodes of a run write no outcome outside the engine |
| QLearningFramework.EpisodesFrom | QlearningFramwork.cs:65-116 | the episodes fail only for an empty States list, an unknown target or a failed pick |
| QLearningFramework.TrainingSpec | QlearningFramwork.cs:47-117 | RunTraining's outcome and table: a failure for invalid outcomes is validation's report and writes nothing; every other failure is an empty States list, an unknown target or a failed pick, never a duplicate name |
| QLearningFramework.TrainingSpecCharacterized | QlearningFramwork.cs:47-117 | a failed validation is the run's outcome, and no Q value is written; with no states and at least one episode the run fails; with no episodes a validated run passes and writes nothing; no outcome outside the engine is written |
| QLearningFramework.QLearning.RunTraining | QlearningFramwork.cs:47-117 | returns the outcome of TrainingSpec, leaves the Q values as TrainingSpec's table, and keeps the structure unchanged |
| QLearningFramework.QLearning.RunEpisode | QlearningFramwork.cs:72-115 | the do-while loop ends the way EpisodeFrom says, with the Q values EpisodeFrom computes |
| QLearningFramework.QLearning.EpisodePass | QlearningFramwork.cs:74-113 | one pass either ends the episode, with EpisodeFrom's outcome and table, or continues from the target state with the same rest of the episode |
| QLearningFramework.QLearning.UpdateStep | QlearningFramwork.cs:92-106 | the pass fails with the step's error and writes nothing, or writes the step's value into the picked outcome only and returns that outcome |
| QLearningFramework.QLearning.constructor | QlearningFramwork.cs:28-40 | a new engine has no states, an empty index, no end states, 1000 steps per episode, 1000 episodes, alpha 0.1 and gamma 0.9 |
| QLearningFramework.QLearning.AddState | QlearningFramwork.cs:42-45 | appends the state to States and changes nothing else |
| QLearningFramework.QState.New | QlearningFramwork.cs:198-203 | fails exactly when the name is already registered, leaving StateLookup unchanged; otherwise it adds a fresh state with that name and no actions under that name, and changes nothing else |
| QLearningFramework.QState.Create | QlearningFramwork.cs:198-203 | a new state object has the given name and no actions |
| QLearningFramework.QState.AddAction | QlearningFramwork.cs:193-196 | appends the action to the state's actions |
| QLearningFramework.QAction.constructor | QlearningFramwork.cs:232-237 | a new action has the given state and name and no outcomes |
| QLearningFramework.QAction.AddActionResult | QlearningFramwork.cs:218-221 | appends the outcome to the action's outcomes |
| QLearningFramework.QAction.PickActionByProbability | QlearningFramwork.cs:255-272 | returns the outcome at PickIndex for draw d, or fails with NoPickActionResult when the action has no outcomes |
| QLearningFramework.QActionResult.constructor | QlearningFramwork.cs:295-302 | a new outcome has the given target, the action's state as its previous state, the given probability and reward, and Q value 0 |

## Left out

- `Player.cs` is the game character. It allocates a `QLearning` that it never uses, and keeps its
  own Q table with an inlined update, so it calls nothing modelled here.
- **Randomness.** `rand.Next` and `Rand.NextDouble` come from a caller-supplied `Draws` value. The
  unit draw is not constrained to [0, 1). The model proves its properties for every draw.
- **Printing.** Logging, `ShowWarning`, `maxloopEventCount`, `PrintQLearningStructure`,
  `GetActionResults`, the `ToString` overrides, `Pretty`, `ToStringEnUs`, `EnumToString` and the
  exception messages are left out. They only print or format text.
- **Floating point.** `double` is modelled as `real`, with no rounding, NaN or infinities.
- **Null references.** Null names, a null `ActionName` and a null target name are not modelled:
  the corresponding parameters are required values. A null target would make the source's
  `StateLookup` lookup throw.
- **Exceptions.** Exceptions are `Result`/`Outcome` values, which end the operation at the point
  where the source throws:
  - `ArgumentOutOfRangeException` from `States[rand.Next(0)]` on an empty list is `NoStates`.
  - `KeyNotFoundException` from `StateLookup[name]` is `UnknownState`.
- **Property setters.** The internal setters of `StateName`, `PrevStateName`, `Probability`,
  `Reward` and `ActionName` are not modelled, because the modelled code never calls them after
  construction. Those properties are constants of the objects.
- **Integer widths.** The `long` counters of the source are modelled as unbounded integers. They
  cannot overflow within an `int` number of episodes or steps.
- **Ghost parameters.** The engine's methods take a ghost view and a ghost table, with
  `Mirrors`/`TableHolds` preconditions. `QLearning.ViewMirrors` shows that the engine's own
  `View()` and `QValues()` meet them. These parameters are not part of the source's signatures.
- QLearningFramework.QLearning.ShowPolicy returns the policy lines instead of printing them. Two
  things are not modelled:
  - rounding the value to two decimals;
  - the `Double.MinValue` starting value. It is modelled as "no value yet", which differs only for
    an estimate at or below `Double.MinValue`: the source never lets such an estimate take the lead.
- QLearningFramework.PolicyOverActions computes an action's display name once per action. The
  source calls `ActionName.ToString()` on each improvement. Both give the same name, because
  `GetActionName` is pure.
- QLearningFramework.QState.New returns the registration failure instead of throwing from a
  constructor. The object the source allocates before the throw is unreachable afterwards.
- QMethod.ValidateRange does not model the `origin` text of its message. It reports only the
  failing value.
