/**
 * The tabular Q-learning engine: QLearning owns QStates, a QState owns QActions, a QAction owns
 * QActionResults (its probabilistic outcomes). States refer to each other only by name, through the
 * engine's StateLookup dictionary, so the state graph may contain cycles.
 *
 * Training only writes Q values; it never changes the lists. The specification therefore reads the
 * structure from an EngineView, a value copy of the lists and settings, and the Q values from a table
 * keyed by outcome object. QLearning.Mirrors ties a view to the heap, TableHolds ties a table to the
 * objects' qValue fields.
 */
module QLearningFramework {
  import opened Wrappers
  import opened QMethod
  import opened Probability
  import opened Estimates
  import opened Flatten
  import opened Scans

  /** The exceptions the engine throws. */
  datatype Error =
    | DuplicateStateName(name: string)                                 // StateLookup.Add on a present key
    | InvalidActionResults(action: QActionName, problem: ProbabilityError)
    | NoPickActionResult(action: QActionName)                          // sampling an action without outcomes
    | NoStates                                                         // States[rand.Next(0)]
    | UnknownState(name: string)                                       // StateLookup[name] on a missing key

  /**
   * The random draws of a training run, supplied from outside: `start(e)` picks the initial state of
   * episode e, `action(e, k)` the action at step k of it (both reduced modulo the list length, as
   * rand.Next(n) yields an index below n), and `unit(e, k)` is the unit-interval draw of the sampling walk.
   */
  datatype Draws = Draws(start: nat -> nat, action: (nat, nat) -> nat, unit: (nat, nat) -> real)

  /** Why an episode ended. */
  datatype EpisodeStop = StepCap | NoActions | ReachedEndState | Aborted(error: Error)

  /** What one pass of the episode loop does: end the episode, or write `value` into `picked`'s Q value. */
  datatype StepResult = Stopped(stop: EpisodeStop) | Updated(picked: QActionResult, value: real)

  /** An episode's effect: the new Q values, the outcomes written in order, why it ended and where. */
  datatype EpisodeRun = EpisodeRun(q: map<QActionResult, real>, updates: seq<QActionResult>, stop: EpisodeStop, last: QState)

  /** A training run's effect: the new Q values and whether it completed. */
  datatype TrainingRun = TrainingRun(q: map<QActionResult, real>, outcome: Outcome<Error>)

  /** One line of the policy report: the state, the chosen action's name and its estimated value. */
  datatype PolicyLine = PolicyLine(stateName: string, actionName: string, maxEstimated: Option<real>)

  /**
   * The engine as a value: the States list, the StateLookup dictionary, each state's Actions list,
   * each action's ActionsResult list, and the settings.
   */
  datatype EngineView = EngineView(
    states: seq<QState>,
    lookup: map<string, QState>,
    actions: map<QState, seq<QAction>>,
    outcomes: map<QAction, seq<QActionResult>>,
    alpha: real,
    gamma: real,
    endStates: set<string>,
    maxSteps: int,
    episodes: int)
  {
    /** The actions of state s (none for a state the view does not hold). */
    function ActionsOf(s: QState): seq<QAction>
    {
      if s in actions then actions[s] else []
    }

    /** The outcomes of action a (none for an action the view does not hold). */
    function OutcomesOf(a: QAction): seq<QActionResult>
    {
      if a in outcomes then outcomes[a] else []
    }

    /** The outcome lists of s's actions, in action order: what the nested scans of s walk through. */
    function OutcomeLists(s: QState): (xss: seq<seq<QActionResult>>)
      ensures |xss| == |ActionsOf(s)|
      ensures forall i :: 0 <= i < |xss| ==> xss[i] == OutcomesOf(ActionsOf(s)[i])
    {
      seq(|ActionsOf(s)|, i requires 0 <= i < |ActionsOf(s)| => OutcomesOf(ActionsOf(s)[i]))
    }

    /** Every outcome of every action of the view. */
    ghost function Results(): set<QActionResult>
    {
      set a, r | a in outcomes && r in outcomes[a] :: r
    }

    /** Every state the lists or the dictionary name, and every action of those states, is held. */
    ghost predicate Closed()
    {
      && (forall s | s in states :: s in actions)
      && (forall n | n in lookup :: lookup[n] in actions)
      && (forall s, a | s in actions && a in actions[s] :: a in outcomes)
    }
  }

  lemma InViewResults(sh: EngineView, a: QAction, r: QActionResult)
    requires a in sh.outcomes && r in sh.outcomes[a]
    ensures r in sh.Results()
  {
  }

  /** The Q value of an outcome in a value table. */
  function QOf(q: map<QActionResult, real>, r: QActionResult): real
  {
    if r in q then q[r] else 0.0
  }

  /** The estimated value (QEstimated) of an outcome under table q. */
  function Estimate(q: map<QActionResult, real>, r: QActionResult): real
  {
    QOf(q, r) * r.probability
  }

  /** The estimated values of a list of outcomes under table q. */
  function EstimatesOf(q: map<QActionResult, real>, rs: seq<QActionResult>): (es: seq<real>)
    ensures |es| == |rs|
    ensures forall k :: 0 <= k < |rs| ==> es[k] == Estimate(q, rs[k])
  {
    seq(|rs|, k requires 0 <= k < |rs| => Estimate(q, rs[k]))
  }

  /** Table q holds the current Q value of every outcome of the view. */
  ghost predicate TableHolds(sh: EngineView, q: map<QActionResult, real>)
    reads sh.Results()
  {
    forall r | r in sh.Results() :: r.qValue == QOf(q, r)
  }

  /** Under a holding table, the outcomes of a held action have QEstimated equal to their estimate. */
  lemma HoldsFor(sh: EngineView, q: map<QActionResult, real>, a: QAction)
    requires TableHolds(sh, q) && a in sh.outcomes
    ensures forall r | r in sh.outcomes[a] :: r.QEstimated() == Estimate(q, r)
  {
    forall r | r in sh.outcomes[a]
      ensures r.QEstimated() == Estimate(q, r)
    {
      InViewResults(sh, a, r);
    }
  }

  /** Writing `value` into r keeps a holding table holding once the table is updated alike. */
  lemma HoldsAfterWrite(sh: EngineView, q: map<QActionResult, real>, r: QActionResult, value: real)
    requires r.qValue == value
    requires forall o | o in sh.Results() && o != r :: o.qValue == QOf(q, o)
    ensures TableHolds(sh, q[r := value])
  {
  }

  // ---------------------------------------------------------------------------------------------
  // MaxQ and the policy, against a view and a table
  // ---------------------------------------------------------------------------------------------

  /** The estimates of a state's outcome lists under table q, list by list. */
  function EstimateLists(q: map<QActionResult, real>, xss: seq<seq<QActionResult>>): (ess: seq<seq<real>>)
    ensures |ess| == |xss|
    ensures forall i :: 0 <= i < |xss| ==> ess[i] == EstimatesOf(q, xss[i])
  {
    seq(|xss|, i requires 0 <= i < |xss| => EstimatesOf(q, xss[i]))
  }

  /** The estimates of the outcome lists of state s. */
  function StateEstimates(sh: EngineView, q: map<QActionResult, real>, s: QState): seq<seq<real>>
  {
    EstimateLists(q, sh.OutcomeLists(s))
  }

  /** MaxQ against view sh and table q: 0 for an unknown name or a state without outcomes, else the maximum. */
  function MaxQSpec(sh: EngineView, q: map<QActionResult, real>, stateName: string): real
  {
    if stateName !in sh.lookup then 0.0
    else
      match MaxOf(Flat(StateEstimates(sh, q, sh.lookup[stateName])))
      case None => 0.0
      case Some(m) => m
  }

  /**
   * MaxQ is 0 for a name that is not registered and for a state without outcomes; otherwise it is
   * the estimate of one of the state's outcomes and at least the estimate of every one of them.
   */
  lemma MaxQSpecCharacterized(sh: EngineView, q: map<QActionResult, real>, stateName: string)
    ensures stateName !in sh.lookup ==> MaxQSpec(sh, q, stateName) == 0.0
    ensures stateName in sh.lookup ==>
      var acts := sh.ActionsOf(sh.lookup[stateName]);
      (forall i :: 0 <= i < |acts| ==> |sh.OutcomesOf(acts[i])| == 0) ==> MaxQSpec(sh, q, stateName) == 0.0
    ensures stateName in sh.lookup ==>
      var acts := sh.ActionsOf(sh.lookup[stateName]);
      (exists i :: 0 <= i < |acts| && |sh.OutcomesOf(acts[i])| > 0) ==>
        && (exists i, j :: 0 <= i < |acts| && 0 <= j < |sh.OutcomesOf(acts[i])|
              && MaxQSpec(sh, q, stateName) == Estimate(q, sh.OutcomesOf(acts[i])[j]))
        && (forall i, j :: 0 <= i < |acts| && 0 <= j < |sh.OutcomesOf(acts[i])|
              ==> Estimate(q, sh.OutcomesOf(acts[i])[j]) <= MaxQSpec(sh, q, stateName))
  {
    if stateName in sh.lookup {
      var s := sh.lookup[stateName];
      var ess := StateEstimates(sh, q, s);
      StateEstimatesAt(sh, q, s);
      MaxOfLists(ess);
      if MaxOf(Flat(ess)).Some? {
        var i, j :| 0 <= i < |ess| && 0 <= j < |ess[i]| && MaxOf(Flat(ess)).value == ess[i][j];
        assert MaxQSpec(sh, q, stateName) == ess[i][j];
      }
    }
  }

  /** Entry j of list i of a state's estimate lists is the estimate of outcome j of action i. */
  lemma StateEstimatesAt(sh: EngineView, q: map<QActionResult, real>, s: QState)
    ensures var acts := sh.ActionsOf(s); var ess := StateEstimates(sh, q, s);
      && |ess| == |acts|
      && forall i :: 0 <= i < |acts| ==>
        && |ess[i]| == |sh.OutcomesOf(acts[i])|
        && forall j :: 0 <= j < |ess[i]| ==> ess[i][j] == Estimate(q, sh.OutcomesOf(acts[i])[j])
  {
  }


  /**
   * The policy line of state s: the action owning the first outcome, in scan order, with the largest
   * estimate, and that estimate; "nothing" and no value when s has no outcomes.
   */
  function StatePolicy(sh: EngineView, q: map<QActionResult, real>, s: QState): PolicyLine
  {
    var b := Policy(StateEstimates(sh, q, s), ActionNames(sh.ActionsOf(s)));
    PolicyLine(s.stateName, b.name, b.max)
  }

  /** The display names of a list of actions, in order. */
  function ActionNames(acts: seq<QAction>): (names: seq<string>)
    ensures |names| == |acts|
    ensures forall i :: 0 <= i < |acts| ==> names[i] == acts[i].actionName.GetActionName()
  {
    seq(|acts|, i requires 0 <= i < |acts| => acts[i].actionName.GetActionName())
  }

  /** The policy of a state without outcomes is "nothing" with no value. */
  lemma StatePolicyNothing(sh: EngineView, q: map<QActionResult, real>, s: QState)
    requires forall i :: 0 <= i < |sh.OutcomeLists(s)| ==> |sh.OutcomeLists(s)[i]| == 0
    ensures StatePolicy(sh, q, s) == PolicyLine(s.stateName, "nothing", None)
  {
    PolicyNothing(StateEstimates(sh, q, s), ActionNames(sh.ActionsOf(s)));
  }

  /**
   * The policy of a state with outcomes names the action i owning the first-wins maximum outcome j
   * (no outcome has a larger estimate, every outcome scanned before it a smaller one), and reports
   * that outcome's estimate.
   */
  lemma StatePolicyCharacterized(sh: EngineView, q: map<QActionResult, real>, s: QState)
    requires exists i :: 0 <= i < |sh.OutcomeLists(s)| && |sh.OutcomeLists(s)[i]| > 0
    ensures var xss := sh.OutcomeLists(s);
      exists i, j ::
        && 0 <= i < |xss| && 0 <= j < |xss[i]| && IsFirstMax(StateEstimates(sh, q, s), i, j)
        && StateEstimates(sh, q, s)[i][j] == Estimate(q, xss[i][j])
        && StatePolicy(sh, q, s)
           == PolicyLine(s.stateName, sh.ActionsOf(s)[i].actionName.GetActionName(), Some(Estimate(q, xss[i][j])))
  {
    var xss := sh.OutcomeLists(s);
    var ess := StateEstimates(sh, q, s);
    var names := ActionNames(sh.ActionsOf(s));
    var i0 :| 0 <= i0 < |xss| && |xss[i0]| > 0;
    assert |ess[i0]| > 0;
    PolicyCharacterized(ess, names);
    var i, j :| 0 <= i < |ess| && 0 <= j < |ess[i]| && IsFirstMax(ess, i, j)
      && Policy(ess, names) == Leader(Some(ess[i][j]), names[i]);
    assert ess[i][j] == EstimatesOf(q, xss[i])[j];
  }

  /** The policy lines `line` gives for a list of states, in order. */
  function Policies(line: QState -> PolicyLine, ss: seq<QState>): seq<PolicyLine>
  {
    if |ss| == 0 then [] else Policies(line, ss[..|ss| - 1]) + [line(ss[|ss| - 1])]
  }

  /** Policies holds one line per state, the line `line` gives for it. */
  lemma {:induction false} PoliciesCharacterized(line: QState -> PolicyLine, ss: seq<QState>)
    ensures |Policies(line, ss)| == |ss|
    ensures forall k :: 0 <= k < |ss| ==> Policies(line, ss)[k] == line(ss[k])
  {
    if |ss| > 0 {
      var n := |ss| - 1;
      PoliciesCharacterized(line, ss[..n]);
      forall k | 0 <= k < n
        ensures ss[..n][k] == ss[k]
      {
      }
    }
  }

  /** The value the policy reports for a registered state is the MaxQ of its name. */
  lemma PolicyAgreesWithMaxQ(sh: EngineView, q: map<QActionResult, real>, s: QState)
    requires s.stateName in sh.lookup && sh.lookup[s.stateName] == s
    requires StatePolicy(sh, q, s).maxEstimated.Some?
    ensures StatePolicy(sh, q, s).maxEstimated.value == MaxQSpec(sh, q, s.stateName)
  {
    PolicyHoldsMaxOf(StateEstimates(sh, q, s), ActionNames(sh.ActionsOf(s)));
  }

  // ---------------------------------------------------------------------------------------------
  // Validation
  // ---------------------------------------------------------------------------------------------

  /** The probabilities of a list of outcomes, in list order. */
  function Probabilities(rs: seq<QActionResult>): (ps: seq<real>)
    ensures |ps| == |rs|
    ensures forall k :: 0 <= k < |ps| ==> ps[k] == rs[k].probability
  {
    seq(|rs|, k requires 0 <= k < |rs| => rs[k].probability)
  }

  /**
   * QAction.ValidateActionsResultProbability on the action's outcome list: it passes exactly when
   * there is at least one outcome and the probabilities sum to within Epsilon of 1.
   */
  function ValidateActionsResultProbability(rs: seq<QActionResult>): (o: Outcome<ProbabilityError>)
    ensures o == Fail(NoActionResults) <==> |rs| == 0
    ensures o.Pass? <==> |rs| > 0 && 1.0 - Epsilon <= Sum(Probabilities(rs)) <= 1.0 + Epsilon
    ensures o.Fail? && |rs| > 0 ==> o.error == SumOutOfTolerance(Sum(Probabilities(rs)))
  {
    if |rs| == 0 then Fail(NoActionResults)
    else
      var sum := Sum(Probabilities(rs));
      if Abs(1.0 - sum) > Epsilon then Fail(SumOutOfTolerance(sum)) else Pass
  }

  /** The check of one action, as the error Validate raises for it. */
  function ActionCheck(sh: EngineView, a: QAction): Outcome<Error>
  {
    match ValidateActionsResultProbability(sh.OutcomesOf(a))
    case Pass => Pass
    case Fail(problem) => Fail(InvalidActionResults(a.actionName, problem))
  }

  /** Validation of a list of actions: the first one whose outcomes fail the check. */
  function ValidateActions(sh: EngineView, acts: seq<QAction>): (o: Outcome<Error>)
    ensures o.Fail? ==> o.error.InvalidActionResults?
  {
    if |acts| == 0 then Pass
    else if ActionCheck(sh, acts[0]).Fail? then ActionCheck(sh, acts[0])
    else ValidateActions(sh, acts[1..])
  }

  /** Validation of the states in order: the first failing action of the first state that has one. */
  function ValidateStates(sh: EngineView, ss: seq<QState>): (o: Outcome<Error>)
    ensures o.Fail? ==> o.error.InvalidActionResults?
  {
    if |ss| == 0 then Pass
    else if ValidateActions(sh, sh.ActionsOf(ss[0])).Fail? then ValidateActions(sh, sh.ActionsOf(ss[0]))
    else ValidateStates(sh, ss[1..])
  }

  /** Validation of a list of actions passes exactly when every action passes its check. */
  lemma {:induction false} ValidateActionsPass(sh: EngineView, acts: seq<QAction>)
    ensures ValidateActions(sh, acts).Pass? <==> forall j :: 0 <= j < |acts| ==> ActionCheck(sh, acts[j]).Pass?
  {
    if |acts| > 0 {
      ValidateActionsPass(sh, acts[1..]);
      forall j | 0 < j < |acts|
        ensures acts[j] == acts[1..][j - 1]
      {
      }
    }
  }

  /** Action j is the first of acts whose check fails, and validation reports its failure. */
  ghost predicate ReportsFirstFailure(sh: EngineView, acts: seq<QAction>, j: nat)
  {
    && j < |acts| && ValidateActions(sh, acts) == ActionCheck(sh, acts[j])
    && (forall j' :: 0 <= j' < j ==> ActionCheck(sh, acts[j']).Pass?)
  }

  /** A failing validation of a list of actions reports the first action whose check fails. */
  lemma {:induction false} ValidateActionsFirstFailure(sh: EngineView, acts: seq<QAction>)
    requires ValidateActions(sh, acts).Fail?
    ensures exists j :: ReportsFirstFailure(sh, acts, j)
  {
    if ActionCheck(sh, acts[0]).Pass? {
      ValidateActionsFirstFailure(sh, acts[1..]);
      var j: nat :| ReportsFirstFailure(sh, acts[1..], j);
      forall j' | 0 < j' <= j
        ensures acts[j'] == acts[1..][j' - 1]
      {
      }
      assert ReportsFirstFailure(sh, acts, j + 1);
    } else {
      assert ReportsFirstFailure(sh, acts, 0);
    }
  }

  /**
   * Action j of state i is the first failing action of ss, states then actions in order, and
   * validation reports its failure: every action of an earlier state passes, and so does every earlier
   * action of state i.
   */
  ghost predicate ReportsFirstFailureOf(sh: EngineView, ss: seq<QState>, i: nat, j: nat)
  {
    && i < |ss| && ReportsFirstFailure(sh, sh.ActionsOf(ss[i]), j)
    && ValidateStates(sh, ss) == ActionCheck(sh, sh.ActionsOf(ss[i])[j])
    && ActionCheck(sh, sh.ActionsOf(ss[i])[j]).Fail?
    && (forall i', j' :: 0 <= i' < i && 0 <= j' < |sh.ActionsOf(ss[i'])| ==>
          ActionCheck(sh, sh.ActionsOf(ss[i'])[j']).Pass?)
  }

  /**
   * Validation passes exactly when every action of every listed state has outcomes whose probabilities
   * sum to within Epsilon of 1; a failure reports the first failing action, states then actions in order.
   */
  lemma {:induction false} ValidateStatesCharacterized(sh: EngineView, ss: seq<QState>)
    ensures ValidateStates(sh, ss).Pass? <==>
      forall i, j :: 0 <= i < |ss| && 0 <= j < |sh.ActionsOf(ss[i])| ==>
        ValidateActionsResultProbability(sh.OutcomesOf(sh.ActionsOf(ss[i])[j])).Pass?
    ensures ValidateStates(sh, ss).Fail? ==> exists i, j :: ReportsFirstFailureOf(sh, ss, i, j)
  {
    if |ss| > 0 {
      ValidateActionsPass(sh, sh.ActionsOf(ss[0]));
      if ValidateActions(sh, sh.ActionsOf(ss[0])).Fail? {
        ValidateActionsFirstFailure(sh, sh.ActionsOf(ss[0]));
        var j: nat :| ReportsFirstFailure(sh, sh.ActionsOf(ss[0]), j);
        assert ReportsFirstFailureOf(sh, ss, 0, j);
      }
      ValidateStatesCharacterized(sh, ss[1..]);
      forall i | 0 < i < |ss|
        ensures ss[i] == ss[1..][i - 1]
      {
      }
      if ValidateActions(sh, sh.ActionsOf(ss[0])).Pass? && ValidateStates(sh, ss[1..]).Fail? {
        var i: nat, j: nat :| ReportsFirstFailureOf(sh, ss[1..], i, j);
        assert ss[1..][i] == ss[i + 1];
        assert ReportsFirstFailureOf(sh, ss, i + 1, j);
      }
    }
  }

  /** After a passing validation every action of every listed state has at least one outcome. */
  lemma ValidatedActionsHaveOutcomes(sh: EngineView)
    requires ValidateStates(sh, sh.states).Pass?
    ensures forall i, j :: 0 <= i < |sh.states| && 0 <= j < |sh.ActionsOf(sh.states[i])| ==>
      |sh.OutcomesOf(sh.ActionsOf(sh.states[i])[j])| > 0
  {
    ValidateStatesCharacterized(sh, sh.states);
  }

  // ---------------------------------------------------------------------------------------------
  // Training, against a view and a table
  // ---------------------------------------------------------------------------------------------

  /** How many more passes of the episode loop may update a Q value after `taken` of them. */
  function StepsLeft(sh: EngineView, taken: nat): nat
  {
    if taken < sh.maxSteps then sh.maxSteps - taken else 0
  }

  /** The Q-learning update: the estimate q moved by the rate alpha toward the reward plus the discounted maxQ. */
  function QUpdate(q: real, alpha: real, reward: real, gamma: real, maxQ: real): (v: real)
    ensures alpha == 0.0 ==> v == q
    ensures alpha == 1.0 ==> v == reward + gamma * maxQ
  {
    q + alpha * (reward + gamma * maxQ - q)
  }

  /**
   * The update moves the estimate toward the target reward + gamma * maxQ: the remaining distance is
   * scaled by 1 - alpha, so for a rate in [0, 1] the new value lies between the estimate and the target;
   * rate 0 keeps the estimate, rate 1 replaces it by the target.
   */
  lemma QUpdateMovesToward(q: real, alpha: real, reward: real, gamma: real, maxQ: real)
    requires 0.0 <= alpha <= 1.0
    ensures var target := reward + gamma * maxQ;
      var v := QUpdate(q, alpha, reward, gamma, maxQ);
      && v - target == (1.0 - alpha) * (q - target)
      && (q <= target ==> q <= v <= target)
      && (target <= q ==> target <= v <= q)
      && (alpha == 0.0 ==> v == q)
      && (alpha == 1.0 ==> v == target)
  {
    var t := reward + gamma * maxQ;
    var v := QUpdate(q, alpha, reward, gamma, maxQ);
    var d := alpha * (t - q);
    assert v == q + d;
    assert d == alpha * t - alpha * q;
    assert (1.0 - alpha) * (q - t) == q - t - alpha * q + alpha * t;
    if q <= t {
      NonNegativeProduct(alpha, t - q);
      NonNegativeProduct(1.0 - alpha, t - q);
      assert (1.0 - alpha) * (t - q) == t - q - alpha * t + alpha * q;
    } else {
      NonNegativeProduct(alpha, q - t);
      NonNegativeProduct(1.0 - alpha, q - t);
      assert alpha * (q - t) == alpha * q - alpha * t;
    }
  }

  /** A non-negative value weighted by a probability lies between 0 and the value itself. */
  lemma WeightedWithin(v: real, p: real)
    ensures 0.0 <= p <= 1.0 && 0.0 <= v ==> 0.0 <= v * p <= v
    ensures p == 1.0 ==> v * p == v
  {
    if 0.0 <= p <= 1.0 && 0.0 <= v {
      NonNegativeProduct(v, p);
      NonNegativeProduct(v, 1.0 - p);
      assert v * (1.0 - p) == v - v * p;
    }
  }

  /** A product of non-negative reals is non-negative. */
  lemma NonNegativeProduct(a: real, b: real)
    requires 0.0 <= a && 0.0 <= b
    ensures 0.0 <= a * b
  {
  }

  /**
   * One pass of the episode loop in `state`, after `taken` passes, against table q: stop at the step
   * cap or in a state without actions; otherwise draw an action, sample its outcome (failing when it
   * has none) and compute the outcome's new Q value from its estimate, its reward and the MaxQ of its
   * target state.
   */
  function Step(sh: EngineView, q: map<QActionResult, real>, state: QState, taken: nat, e: nat, draws: Draws): (r: StepResult)
    ensures r == Stopped(StepCap) <==> taken >= sh.maxSteps
    ensures r == Stopped(NoActions) <==> taken < sh.maxSteps && |sh.ActionsOf(state)| == 0
    ensures r.Updated? ==>
      var acts := sh.ActionsOf(state);
      && taken < sh.maxSteps && |acts| > 0
      && r.picked in sh.OutcomesOf(acts[draws.action(e, taken) % |acts|])
      && r.picked in sh.Results()
      && r.value == QUpdate(Estimate(q, r.picked), sh.alpha, r.picked.reward, sh.gamma, MaxQSpec(sh, q, r.picked.stateName))
    ensures r.Stopped? && r.stop.Aborted? ==>
      var acts := sh.ActionsOf(state);
      taken < sh.maxSteps && |acts| > 0 && |sh.OutcomesOf(acts[draws.action(e, taken) % |acts|])| == 0
      && r.stop.error == NoPickActionResult(acts[draws.action(e, taken) % |acts|].actionName)
  {
    var acts := sh.ActionsOf(state);
    if taken + 1 > sh.maxSteps then Stopped(StepCap)
    else if |acts| == 0 then Stopped(NoActions)
    else
      var action := acts[draws.action(e, taken) % |acts|];
      var rs := sh.OutcomesOf(action);
      match PickIndex(Probabilities(rs), draws.unit(e, taken))
      case None => Stopped(Aborted(NoPickActionResult(action.actionName)))
      case Some(k) =>
        var picked := rs[k];
        assert picked in sh.Results() by {
          InViewResults(sh, action, picked);
        }
        Updated(picked, QUpdate(Estimate(q, picked), sh.alpha, picked.reward, sh.gamma, MaxQSpec(sh, q, picked.stateName)))
  }

  /**
   * The rest of an episode from `state` after `taken` passes: the passes repeat until one stops,
   * the written outcome's target is an end state, or the target is not registered in StateLookup.
   */
  function EpisodeFrom(sh: EngineView, q: map<QActionResult, real>, state: QState, taken: nat, e: nat, draws: Draws): (run: EpisodeRun)
    ensures run.stop == ReachedEndState ==> |run.updates| > 0 && run.updates[|run.updates| - 1].stateName in sh.endStates
    ensures run.stop.Aborted? ==> run.stop.error.UnknownState? || run.stop.error.NoPickActionResult?
    ensures run.stop.Aborted? && run.stop.error.UnknownState? ==>
        && |run.updates| > 0 && run.stop.error.name == run.updates[|run.updates| - 1].stateName
        && run.stop.error.name !in sh.endStates && run.stop.error.name !in sh.lookup
    decreases StepsLeft(sh, taken)
  {
    match Step(sh, q, state, taken, e, draws)
    case Stopped(stop) => EpisodeRun(q, [], stop, state)
    case Updated(picked, value) =>
      var q' := q[picked := value];
      var next := picked.stateName;
      if next in sh.endStates then EpisodeRun(q', [picked], ReachedEndState, state)
      else if next !in sh.lookup then EpisodeRun(q', [picked], Aborted(UnknownState(next)), state)
      else
        var rest := EpisodeFrom(sh, q', sh.lookup[next], taken + 1, e, draws);
        EpisodeRun(rest.q, [picked] + rest.updates, rest.stop, rest.last)
  }

  /** Episodes i, i+1, ... of a training run; an aborted episode aborts the run. */
  function EpisodesFrom(sh: EngineView, q: map<QActionResult, real>, draws: Draws, i: nat): (run: TrainingRun)
    ensures run.outcome.Fail? ==>
      run.outcome.error.NoStates? || run.outcome.error.UnknownState? || run.outcome.error.NoPickActionResult?
    decreases if i < sh.episodes then sh.episodes - i else 0
  {
    if i >= sh.episodes then TrainingRun(q, Pass)
    else if |sh.states| == 0 then TrainingRun(q, Fail(NoStates))
    else
      var run := EpisodeFrom(sh, q, sh.states[draws.start(i) % |sh.states|], 0, i, draws);
      if run.stop.Aborted? then TrainingRun(run.q, Fail(run.stop.error))
      else EpisodesFrom(sh, run.q, draws, i + 1)
  }

  /** RunTraining against view sh and table q: validation first, then the episodes. */
  function TrainingSpec(sh: EngineView, q: map<QActionResult, real>, draws: Draws): (run: TrainingRun)
    ensures run.outcome.Fail? && run.outcome.error.InvalidActionResults? ==>
      run.outcome == ValidateStates(sh, sh.states) && run.q == q
    ensures run.outcome.Fail? ==>
      || run.outcome.error.InvalidActionResults? || run.outcome.error.NoStates?
      || run.outcome.error.UnknownState? || run.outcome.error.NoPickActionResult?
  {
    if ValidateStates(sh, sh.states).Fail? then TrainingRun(q, ValidateStates(sh, sh.states))
    else EpisodesFrom(sh, q, draws, 0)
  }

  /**
   * An episode writes at most one Q value per pass, and passes stop at the step cap: at most StepsLeft
   * updates, exactly that many when the cap ended it.
   */
  lemma {:induction false} EpisodeBounded(sh: EngineView, q: map<QActionResult, real>, state: QState, taken: nat, e: nat, draws: Draws)
    ensures var run := EpisodeFrom(sh, q, state, taken, e, draws);
      |run.updates| <= StepsLeft(sh, taken) && (run.stop == StepCap ==> |run.updates| == StepsLeft(sh, taken))
    decreases StepsLeft(sh, taken)
  {
    var step := Step(sh, q, state, taken, e, draws);
    if step.Updated? {
      var next := step.picked.stateName;
      if next !in sh.endStates && next in sh.lookup {
        EpisodeBounded(sh, q[step.picked := step.value], sh.lookup[next], taken + 1, e, draws);
      }
    }
  }

  /** An episode writes only outcomes of the view, and leaves every outcome it does not write alone. */
  lemma {:induction false} EpisodeFrame(sh: EngineView, q: map<QActionResult, real>, state: QState, taken: nat, e: nat, draws: Draws)
    ensures var run := EpisodeFrom(sh, q, state, taken, e, draws);
      && (forall r | r in run.updates :: r in sh.Results())
      && (forall r | r !in run.updates :: QOf(run.q, r) == QOf(q, r))
    decreases StepsLeft(sh, taken)
  {
    var step := Step(sh, q, state, taken, e, draws);
    if step.Updated? {
      var next := step.picked.stateName;
      if next !in sh.endStates && next in sh.lookup {
        EpisodeFrame(sh, q[step.picked := step.value], sh.lookup[next], taken + 1, e, draws);
      }
    }
  }

  /**
   * Why an episode ends, seen from the state it ends in: a state without actions, or an action without
   * outcomes (the pick fails); any other abort is a failed lookup.
   */
  lemma {:induction false} EpisodeStops(sh: EngineView, q: map<QActionResult, real>, state: QState, taken: nat, e: nat, draws: Draws)
    ensures var run := EpisodeFrom(sh, q, state, taken, e, draws);
      && (run.stop == NoActions ==> |sh.ActionsOf(run.last)| == 0)
      && (run.stop.Aborted? ==> run.stop.error.UnknownState? || run.stop.error.NoPickActionResult?)
      && (run.stop.Aborted? && run.stop.error.NoPickActionResult? ==>
            exists a | a in sh.ActionsOf(run.last) :: |sh.OutcomesOf(a)| == 0 && a.actionName == run.stop.error.action)
    decreases StepsLeft(sh, taken)
  {
    var step := Step(sh, q, state, taken, e, draws);
    if step.Updated? {
      var next := step.picked.stateName;
      if next !in sh.endStates && next in sh.lookup {
        EpisodeStops(sh, q[step.picked := step.value], sh.lookup[next], taken + 1, e, draws);
      }
    } else if step.stop.Aborted? {
      var acts := sh.ActionsOf(state);
      assert acts[draws.action(e, taken) % |acts|] in acts;
    }
  }

  /** The first pass of an episode: how its end and its table follow from the step the pass takes. */
  lemma EpisodeUnfold(sh: EngineView, q: map<QActionResult, real>, state: QState, taken: nat, e: nat, draws: Draws)
    ensures var run := EpisodeFrom(sh, q, state, taken, e, draws);
      match Step(sh, q, state, taken, e, draws)
      case Stopped(stop) => run.stop == stop && run.q == q
      case Updated(picked, value) =>
        var next := picked.stateName;
        if next in sh.endStates then run.stop == ReachedEndState && run.q == q[picked := value]
        else if next !in sh.lookup then run.stop == Aborted(UnknownState(next)) && run.q == q[picked := value]
        else
          var rest := EpisodeFrom(sh, q[picked := value], sh.lookup[next], taken + 1, e, draws);
          run.stop == rest.stop && run.q == rest.q
  {
  }

  /** Every update of a list but the last targets a registered state that is not an end state. */
  ghost predicate GoesOn(sh: EngineView, updates: seq<QActionResult>)
  {
    forall k | 0 <= k < |updates| - 1 :: updates[k].stateName !in sh.endStates && updates[k].stateName in sh.lookup
  }

  /** Every update of an episode but the last targets a registered state that is not an end state. */
  lemma {:induction false} EpisodeGoesOn(sh: EngineView, q: map<QActionResult, real>, state: QState, taken: nat, e: nat, draws: Draws)
    ensures GoesOn(sh, EpisodeFrom(sh, q, state, taken, e, draws).updates)
    decreases StepsLeft(sh, taken)
  {
    var run := EpisodeFrom(sh, q, state, taken, e, draws);
    var step := Step(sh, q, state, taken, e, draws);
    if step.Updated? {
      var next := step.picked.stateName;
      if next !in sh.endStates && next in sh.lookup {
        var rest := EpisodeFrom(sh, q[step.picked := step.value], sh.lookup[next], taken + 1, e, draws);
        EpisodeGoesOn(sh, q[step.picked := step.value], sh.lookup[next], taken + 1, e, draws);
        assert run.updates == [step.picked] + rest.updates;
        forall k | 0 <= k < |run.updates| - 1
          ensures run.updates[k].stateName !in sh.endStates && run.updates[k].stateName in sh.lookup
        {
          if k > 0 {
            assert run.updates[k] == rest.updates[k - 1];
          }
        }
      }
    }
  }

  /**
   * When every action of every state the view holds has an outcome (which validation guarantees for
   * the states of the States list), sampling never fails: an episode aborts only on a failed lookup.
   */
  lemma {:induction false} EpisodeNeverFailsToPick(sh: EngineView, q: map<QActionResult, real>, state: QState, taken: nat, e: nat, draws: Draws)
    requires sh.Closed() && state in sh.actions
    requires forall s, a | s in sh.actions && a in sh.actions[s] :: |sh.OutcomesOf(a)| > 0
    ensures var run := EpisodeFrom(sh, q, state, taken, e, draws);
      run.stop.Aborted? ==> run.stop.error.UnknownState?
    decreases StepsLeft(sh, taken)
  {
    var step := Step(sh, q, state, taken, e, draws);
    if step.Updated? {
      var next := step.picked.stateName;
      if next !in sh.endStates && next in sh.lookup {
        EpisodeNeverFailsToPick(sh, q[step.picked := step.value], sh.lookup[next], taken + 1, e, draws);
      }
    }
  }

  /** A training run writes only outcomes of the view. */
  lemma {:induction false} EpisodesFrame(sh: EngineView, q: map<QActionResult, real>, draws: Draws, i: nat)
    ensures forall r | r !in sh.Results() :: QOf(EpisodesFrom(sh, q, draws, i).q, r) == QOf(q, r)
    decreases if i < sh.episodes then sh.episodes - i else 0
  {
    if i < sh.episodes && |sh.states| > 0 {
      var start := sh.states[draws.start(i) % |sh.states|];
      EpisodeFrame(sh, q, start, 0, i, draws);
      var run := EpisodeFrom(sh, q, start, 0, i, draws);
      if !run.stop.Aborted? {
        EpisodesFrame(sh, run.q, draws, i + 1);
      }
    }
  }

  /**
   * RunTraining validates before it trains: a failed validation reports the failure and writes no
   * Q value; with no states and at least one episode the run fails on the empty list; with no
   * episodes nothing is written; and at no point is an outcome outside the view written.
   */
  lemma TrainingSpecCharacterized(sh: EngineView, q: map<QActionResult, real>, draws: Draws)
    ensures var run := TrainingSpec(sh, q, draws);
      ValidateStates(sh, sh.states).Fail? ==> run.q == q && run.outcome == ValidateStates(sh, sh.states)
    ensures |sh.states| == 0 && sh.episodes > 0 ==> TrainingSpec(sh, q, draws) == TrainingRun(q, Fail(NoStates))
    ensures ValidateStates(sh, sh.states).Pass? && sh.episodes <= 0 ==> TrainingSpec(sh, q, draws) == TrainingRun(q, Pass)
    ensures forall r | r !in sh.Results() :: QOf(TrainingSpec(sh, q, draws).q, r) == QOf(q, r)
  {
    EpisodesFrame(sh, q, draws, 0);
  }

  /**
   * What the scans of a state need from the heap: its actions in the view's order, each with the
   * view's outcome list and display name, and every outcome's QEstimated equal to its listed estimate.
   */
  ghost predicate ScanReady(actions: seq<QAction>, xss: seq<seq<QActionResult>>, ess: seq<seq<real>>, names: seq<string>)
    reads actions, set i, r | 0 <= i < |xss| && r in xss[i] :: r
  {
    && |actions| == |xss| == |ess| == |names|
    && (forall i :: 0 <= i < |actions| ==> actions[i].actionsResult == xss[i] && actions[i].actionName.GetActionName() == names[i])
    && (forall i :: 0 <= i < |xss| ==> OutcomesReady(xss[i], ess[i]))
  }

  /** Every outcome of rs has QEstimated equal to the estimate listed for it. */
  ghost predicate OutcomesReady(rs: seq<QActionResult>, es: seq<real>)
    reads set r | r in rs
  {
    |rs| == |es| && forall j :: 0 <= j < |rs| ==> rs[j].QEstimated() == es[j]
  }

  /** MaxQ's two loops over a state's actions and their outcomes: the outer loop as ScanMaxLists describes it. */
  method MaxOverActions(actions: seq<QAction>, ghost xss: seq<seq<QActionResult>>, ghost ess: seq<seq<real>>, ghost names: seq<string>)
    returns (m: Option<real>)
    requires ScanReady(actions, xss, ess, names)
    ensures m == ScanMaxLists(ess, 0, None)
  {
    m := None;
    var i := 0;
    while i < |actions|
      invariant 0 <= i <= |ess|
      invariant ScanMaxLists(ess, 0, None) == ScanMaxLists(ess, i, m)
    {
      m := MaxOverOutcomes(actions[i].actionsResult, ess[i], m);
      i := i + 1;
    }
  }

  /** MaxQ's inner loop over the outcomes of one action, continuing the running maximum m0. */
  method MaxOverOutcomes(rs: seq<QActionResult>, ghost es: seq<real>, m0: Option<real>) returns (m: Option<real>)
    requires OutcomesReady(rs, es)
    ensures m == ScanMax(es, 0, m0)
  {
    m := m0;
    var j := 0;
    while j < |rs|
      invariant 0 <= j <= |rs|
      invariant ScanMax(es, 0, m0) == ScanMax(es, j, m)
    {
      var value := rs[j].QEstimated();
      if m.None? || value > m.value {
        m := Some(value);
      }
      j := j + 1;
    }
  }

  /** ShowPolicy's two loops over a state's actions and their outcomes: the outer loop as ScanPolicyLists describes it. */
  method PolicyOverActions(actions: seq<QAction>, ghost xss: seq<seq<QActionResult>>, ghost ess: seq<seq<real>>, ghost names: seq<string>)
    returns (max: Option<real>, actionName: string)
    requires ScanReady(actions, xss, ess, names)
    ensures Leader(max, actionName) == ScanPolicyLists(ess, names, 0, Leader(None, "nothing"))
  {
    max, actionName := None, "nothing";
    var i := 0;
    while i < |actions|
      invariant 0 <= i <= |ess|
      invariant ScanPolicyLists(ess, names, 0, Leader(None, "nothing")) == ScanPolicyLists(ess, names, i, Leader(max, actionName))
    {
      var action := actions[i];
      max, actionName := PolicyOverOutcomes(action.actionsResult, ess[i], action.actionName.GetActionName(), max, actionName);
      i := i + 1;
    }
  }

  /** ShowPolicy's loop over the states: one policy line per state, in order, for view sh and table q. */
  method PolicyLines(states: seq<QState>, ghost sh: EngineView, ghost q: map<QActionResult, real>) returns (policy: seq<PolicyLine>)
    requires forall k :: 0 <= k < |states| ==>
      ScanReady(states[k].actions, sh.OutcomeLists(states[k]), StateEstimates(sh, q, states[k]), ActionNames(sh.ActionsOf(states[k])))
    ensures |policy| == |states|
    ensures forall k :: 0 <= k < |policy| ==> policy[k] == StatePolicy(sh, q, states[k])
  {
    ghost var f := (state: QState) => StatePolicy(sh, q, state);
    policy := [];
    var s := 0;
    while s < |states|
      invariant 0 <= s <= |states|
      invariant policy == Policies(f, states[..s])
    {
      var state := states[s];
      ghost var ess, names := StateEstimates(sh, q, state), ActionNames(sh.ActionsOf(state));
      var max, actionName := PolicyOverActions(state.actions, sh.OutcomeLists(state), ess, names);
      PolicyScanIsPolicy(ess, names);
      policy := policy + [PolicyLine(state.stateName, actionName, max)];
      assert states[..s + 1][..s] == states[..s];
      s := s + 1;
    }
    assert states[..s] == states;
    PoliciesCharacterized(f, states);
  }

  /**
   * ShowPolicy's inner loop over the outcomes of one action displayed as `name`, continuing the
   * running leader (max0, name0): a strictly larger estimate takes the lead.
   */
  method PolicyOverOutcomes(rs: seq<QActionResult>, ghost es: seq<real>, name: string, max0: Option<real>, name0: string)
    returns (max: Option<real>, actionName: string)
    requires OutcomesReady(rs, es)
    ensures Leader(max, actionName) == ScanPolicy(es, 0, name, Leader(max0, name0))
  {
    max, actionName := max0, name0;
    var j := 0;
    while j < |rs|
      invariant 0 <= j <= |rs|
      invariant ScanPolicy(es, 0, name, Leader(max0, name0)) == ScanPolicy(es, j, name, Leader(max, actionName))
    {
      var actionResult := rs[j];
      if max.None? || actionResult.QEstimated() > max.value {
        max := Some(actionResult.QEstimated());
        actionName := name;
      }
      j := j + 1;
    }
  }

  // ---------------------------------------------------------------------------------------------
  // The objects
  // ---------------------------------------------------------------------------------------------

  class QActionResult {
    const stateName: string
    const prevStateName: string
    var qValue: real
    const probability: real
    const reward: real

    /** The estimated value compared by MaxQ and the policy and used as the update baseline. */
    function QEstimated(): (r: real)
      reads this
      ensures 0.0 <= probability <= 1.0 && 0.0 <= qValue ==> 0.0 <= r <= qValue
      ensures probability == 1.0 ==> r == qValue
    {
      var v, p := qValue, probability;
      WeightedWithin(v, p);
      v * p
    }

    constructor (action: QAction, stateNameNext: string, probability: real := 1.0, reward: real := 0.0)
      ensures stateName == stateNameNext && prevStateName == action.currentState
      ensures this.probability == probability && this.reward == reward && qValue == 0.0
    {
      prevStateName := action.currentState;
      stateName := stateNameNext;
      this.probability := probability;
      this.reward := reward;
      qValue := 0.0;
    }
  }

  class QAction {
    const actionName: QActionName
    const currentState: string
    var actionsResult: seq<QActionResult>

    constructor (currentState: string, actionName: QActionName)
      ensures this.currentState == currentState && this.actionName == actionName
      ensures actionsResult == []
    {
      this.currentState := currentState;
      actionsResult := [];
      this.actionName := actionName;
    }

    method AddActionResult(actionResult: QActionResult)
      modifies this
      ensures actionsResult == old(actionsResult) + [actionResult]
    {
      actionsResult := actionsResult + [actionResult];
    }

    /** Samples an outcome for draw d: the outcome at PickIndex, or the failure for an empty list. */
    method PickActionByProbability(d: real) returns (r: Result<QActionResult, Error>)
      ensures PickIndex(Probabilities(actionsResult), d).None? ==> r == Failure(NoPickActionResult(actionName))
      ensures PickIndex(Probabilities(actionsResult), d).Some? ==>
        r == Success(actionsResult[PickIndex(Probabilities(actionsResult), d).value])
    {
      ghost var ps := Probabilities(actionsResult);
      var sum := 0.0;
      var i := 0;
      while i < |actionsResult|
        invariant 0 <= i <= |actionsResult|
        invariant i < |ps| ==> PickIndex(ps, d) == Some(PickFrom(ps, d, i, sum))
        invariant i == |ps| > 0 ==> PickIndex(ps, d) == Some(|ps| - 1)
      {
        sum := sum + actionsResult[i].probability;
        if d <= sum {
          return Success(actionsResult[i]);
        }
        i := i + 1;
      }
      // the probabilities may sum to slightly less than the draw
      if |actionsResult| > 0 {
        return Success(actionsResult[|actionsResult| - 1]);
      }
      return Failure(NoPickActionResult(actionName));
    }
  }

  class QState {
    const stateName: string
    var actions: seq<QAction>

    /** Allocation of the state object; registration is done by New. */
    constructor Create(stateName: string)
      ensures this.stateName == stateName && actions == []
    {
      this.stateName := stateName;
      actions := [];
    }

    /**
     * The QState constructor: registers the new state under its name in q's StateLookup, failing
     * (and registering nothing) when the name is already present. It does not touch q's States list.
     */
    static method New(stateName: string, q: QLearning) returns (r: Result<QState, Error>)
      modifies q`stateLookup
      ensures r.Failure? <==> stateName in old(q.stateLookup)
      ensures r.Failure? ==> r.error == DuplicateStateName(stateName) && q.stateLookup == old(q.stateLookup)
      ensures r.Success? ==> fresh(r.value) && r.value.stateName == stateName && r.value.actions == []
      ensures r.Success? ==> q.stateLookup == old(q.stateLookup)[stateName := r.value]
    {
      if stateName in q.stateLookup {
        return Failure(DuplicateStateName(stateName));
      }
      var state := new QState.Create(stateName);
      q.stateLookup := q.stateLookup[stateName := state];
      return Success(state);
    }

    method AddAction(action: QAction)
      modifies this
      ensures actions == old(actions) + [action]
    {
      actions := actions + [action];
    }
  }

  /**
   * QMethod.Validate: checks the actions of the states of the States list in order and reports the
   * first failure.
   */
  method Validate(q: QLearning, ghost sh: EngineView) returns (o: Outcome<Error>)
    requires q.Mirrors(sh)
    ensures o == ValidateStates(sh, sh.states)
  {
    var i := 0;
    while i < |q.states|
      invariant 0 <= i <= |q.states|
      invariant ValidateStates(sh, sh.states) == ValidateStates(sh, sh.states[i..])
    {
      var state := q.states[i];
      ghost var acts := sh.ActionsOf(state);
      assert sh.states[i..][1..] == sh.states[i + 1..];
      var j := 0;
      while j < |state.actions|
        invariant 0 <= j <= |state.actions|
        invariant ValidateActions(sh, acts) == ValidateActions(sh, acts[j..])
      {
        var action := state.actions[j];
        assert acts[j..][1..] == acts[j + 1..];
        var check := ValidateActionsResultProbability(action.actionsResult);
        if check.Fail? {
          assert ValidateActions(sh, acts[j..]) == ActionCheck(sh, acts[j]);
          assert ValidateStates(sh, sh.states[i..]) == ValidateActions(sh, acts);
          return Fail(InvalidActionResults(action.actionName, check.error));
        }
        j := j + 1;
      }
      assert ValidateActions(sh, acts) == Pass;
      i := i + 1;
    }
    return Pass;
  }

  class QLearning {
    var states: seq<QState>
    var stateLookup: map<string, QState>
    var alpha: real
    var gamma: real
    var endStates: set<string>
    var maxExploreStepsWithinOneEpisode: int
    var episodes: int

    constructor ()
      ensures states == [] && stateLookup == map[] && endStates == {}
      ensures maxExploreStepsWithinOneEpisode == 1000 && episodes == 1000
      ensures alpha == 0.1 && gamma == 0.9
    {
      states := [];
      stateLookup := map[];
      endStates := {};
      maxExploreStepsWithinOneEpisode := 1000;
      episodes := 1000;
      alpha := 0.1;
      gamma := 0.9;
    }

    /** Appends to States; StateLookup is left alone (registration happens in QState.New). */
    method AddState(state: QState)
      modifies this`states
      ensures states == old(states) + [state]
    {
      states := states + [state];
    }

    /** Every state the engine can reach: those in States and those registered in StateLookup. */
    ghost function StateObjects(): set<QState>
      reads this
    {
      (set s | s in states) + stateLookup.Values
    }

    ghost function ActionObjects(): set<QAction>
      reads this, StateObjects()
    {
      set s, a | s in StateObjects() && a in s.actions :: a
    }

    /** Every outcome of the engine; training writes Q values of these objects only. */
    ghost function Results(): set<QActionResult>
      reads this, StateObjects(), ActionObjects()
    {
      set a, r | a in ActionObjects() && r in a.actionsResult :: r
    }

    /** The Q value table: the current Q value of every outcome of the engine. */
    ghost function QValues(): map<QActionResult, real>
      reads this, StateObjects(), ActionObjects(), Results()
    {
      map r | r in Results() :: r.qValue
    }

    /** The engine's current structure and settings as a value. */
    ghost function View(): EngineView
      reads this, StateObjects(), ActionObjects()
    {
      EngineView(states, stateLookup,
        map s | s in StateObjects() :: s.actions,
        map a | a in ActionObjects() :: a.actionsResult,
        alpha, gamma, endStates, maxExploreStepsWithinOneEpisode, episodes)
    }

    /** The heap holds exactly the lists and settings of view sh, and sh is closed. */
    ghost predicate Mirrors(sh: EngineView)
      reads this, sh.actions.Keys, sh.outcomes.Keys
    {
      && sh.Closed()
      && states == sh.states && stateLookup == sh.lookup
      && alpha == sh.alpha && gamma == sh.gamma && endStates == sh.endStates
      && maxExploreStepsWithinOneEpisode == sh.maxSteps && episodes == sh.episodes
      && (forall s | s in sh.actions :: s.actions == sh.actions[s])
      && (forall a | a in sh.outcomes :: a.actionsResult == sh.outcomes[a])
    }

    /** The current view mirrors the heap, holds the same outcomes, and the Q value table holds for it. */
    lemma ViewMirrors()
      ensures Mirrors(View()) && View().Results() == Results() && TableHolds(View(), QValues())
    {
      var sh := View();
      forall s, a | s in sh.actions && a in sh.actions[s]
        ensures a in sh.outcomes
      {
        assert a in s.actions;
      }
      forall r | r in Results()
        ensures r in sh.Results()
      {
        var a :| a in ActionObjects() && r in a.actionsResult;
        InViewResults(sh, a, r);
      }
    }

    /** MaxQ: the running maximum of the estimates of a state's outcomes, for view sh and table q. */
    method MaxQ(stateName: string, ghost sh: EngineView, ghost q: map<QActionResult, real>) returns (v: real)
      requires Mirrors(sh) && TableHolds(sh, q)
      ensures v == MaxQSpec(sh, q, stateName)
    {
      if stateName !in stateLookup {
        return 0.0;
      }
      var state := stateLookup[stateName];
      ReadyToScan(sh, q, state);
      ghost var ess := StateEstimates(sh, q, state);
      var maxValue := MaxOverActions(state.actions, sh.OutcomeLists(state), ess, ActionNames(sh.ActionsOf(state)));
      MaxScanIsMaxOf(ess);
      v := if maxValue.Some? then maxValue.value else 0.0;
    }

    /**
     * ShowPolicy without the printing: for each state of States in order, the action of the first
     * outcome with the largest estimate, and that estimate.
     */
    method ShowPolicy(ghost sh: EngineView, ghost q: map<QActionResult, real>) returns (policy: seq<PolicyLine>)
      requires Mirrors(sh) && TableHolds(sh, q)
      ensures |policy| == |sh.states|
      ensures forall k :: 0 <= k < |policy| ==> policy[k] == StatePolicy(sh, q, sh.states[k])
    {
      PoliciesReady(sh, q);
      policy := PolicyLines(states, sh, q);
    }

    /** Every state of States is ready for the policy scan. */
    lemma PoliciesReady(sh: EngineView, q: map<QActionResult, real>)
      requires Mirrors(sh) && TableHolds(sh, q)
      ensures states == sh.states
      ensures forall k :: 0 <= k < |sh.states| ==>
        var s := sh.states[k];
        ScanReady(s.actions, sh.OutcomeLists(s), StateEstimates(sh, q, s), ActionNames(sh.ActionsOf(s)))
    {
      forall k | 0 <= k < |sh.states|
        ensures var s := sh.states[k];
          ScanReady(s.actions, sh.OutcomeLists(s), StateEstimates(sh, q, s), ActionNames(sh.ActionsOf(s)))
      {
        ReadyToScan(sh, q, sh.states[k]);
      }
    }

    /** What a scan of state s needs from the heap: the view's lists, and the table's estimates. */
    lemma ReadyToScan(sh: EngineView, q: map<QActionResult, real>, s: QState)
      requires Mirrors(sh) && TableHolds(sh, q) && s in sh.actions
      ensures ScanReady(s.actions, sh.OutcomeLists(s), StateEstimates(sh, q, s), ActionNames(sh.ActionsOf(s)))
    {
      var xss := sh.OutcomeLists(s);
      var ess := StateEstimates(sh, q, s);
      forall i | 0 <= i < |s.actions|
        ensures s.actions[i].actionsResult == xss[i]
      {
        assert s.actions[i] in sh.outcomes;
      }
      forall i | 0 <= i < |xss|
        ensures OutcomesReady(xss[i], ess[i])
      {
        HoldsFor(sh, q, s.actions[i]);
        assert forall j :: 0 <= j < |xss[i]| ==> xss[i][j] in sh.outcomes[s.actions[i]];
      }
    }

    /**
     * One episode of RunTraining (the do-while loop) from `start`, for view sh and current table q:
     * it writes the Q values of the episode's specification and returns why the episode ended.
     */
    method RunEpisode(start: QState, e: nat, draws: Draws, ghost sh: EngineView, ghost q: map<QActionResult, real>)
      returns (stop: EpisodeStop)
      requires Mirrors(sh) && TableHolds(sh, q) && start in sh.actions
      modifies sh.Results()`qValue
      ensures Mirrors(sh)
      ensures var run := EpisodeFrom(sh, q, start, 0, e, draws);
        stop == run.stop && TableHolds(sh, run.q)
    {
      ghost var qc: map<QActionResult, real> := q;
      var maxloop: nat := 0;
      var state := start;
      while true
        invariant Mirrors(sh) && TableHolds(sh, qc) && state in sh.actions
        invariant EpisodeFrom(sh, qc, state, maxloop, e, draws).stop == EpisodeFrom(sh, q, start, 0, e, draws).stop
        invariant EpisodeFrom(sh, qc, state, maxloop, e, draws).q == EpisodeFrom(sh, q, start, 0, e, draws).q
        decreases StepsLeft(sh, maxloop)
      {
        var stopped, next, q' := EpisodePass(state, maxloop, e, draws, sh, qc);
        if stopped.Some? {
          return stopped.value;
        }
        state, qc, maxloop := next, q', maxloop + 1;
      }
    }

    /**
     * One pass of the episode loop after `taken` earlier passes: the step cap, the empty action list,
     * the update, then the end-state test and the StateLookup lookup of the written outcome's target.
     * Either the episode ends here as EpisodeFrom says, or it goes on from `next` with table q'.
     */
    method EpisodePass(state: QState, taken: nat, e: nat, draws: Draws, ghost sh: EngineView, ghost q: map<QActionResult, real>)
      returns (stop: Option<EpisodeStop>, next: QState, ghost q': map<QActionResult, real>)
      requires Mirrors(sh) && TableHolds(sh, q) && state in sh.actions
      modifies sh.Results()`qValue
      ensures Mirrors(sh)
      ensures var run := EpisodeFrom(sh, q, state, taken, e, draws);
        stop.Some? ==> stop.value == run.stop && TableHolds(sh, run.q)
      ensures var run := EpisodeFrom(sh, q, state, taken, e, draws);
        stop.None? ==>
          && taken < sh.maxSteps && next in sh.actions && TableHolds(sh, q')
          && EpisodeFrom(sh, q', next, taken + 1, e, draws).stop == run.stop
          && EpisodeFrom(sh, q', next, taken + 1, e, draws).q == run.q
    {
      ghost var step := Step(sh, q, state, taken, e, draws);
      EpisodeUnfold(sh, q, state, taken, e, draws);
      next, q' := state, q;
      if taken + 1 > maxExploreStepsWithinOneEpisode {
        return Some(StepCap), next, q';
      }
      if |state.actions| == 0 {
        return Some(NoActions), next, q';
      }
      var picked := UpdateStep(state, taken, e, draws, sh, q);
      if picked.Failure? {
        return Some(Aborted(picked.error)), next, q';
      }
      q' := q[step.picked := step.value];
      var nextStateResult := picked.value;
      if nextStateResult.stateName in endStates {
        return Some(ReachedEndState), next, q';
      }
      if nextStateResult.stateName !in stateLookup {
        return Some(Aborted(UnknownState(nextStateResult.stateName))), next, q';
      }
      next := stateLookup[nextStateResult.stateName];
      stop := None;
    }

    /**
     * The body of the episode loop once the step cap and the empty action list are ruled out: draw an
     * action, sample its outcome and write the outcome's new Q value, as Step describes.
     */
    method UpdateStep(state: QState, taken: nat, e: nat, draws: Draws, ghost sh: EngineView, ghost q: map<QActionResult, real>)
      returns (r: Result<QActionResult, Error>)
      requires Mirrors(sh) && TableHolds(sh, q) && state in sh.actions
      requires taken < sh.maxSteps && |sh.ActionsOf(state)| > 0
      modifies sh.Results()`qValue
      ensures Mirrors(sh)
      ensures var step := Step(sh, q, state, taken, e, draws);
        && (step.Stopped? ==> r.Failure? && step.stop == Aborted(r.error) && TableHolds(sh, q))
        && (step.Updated? ==> r == Success(step.picked) && TableHolds(sh, q[step.picked := step.value]))
    {
      var index := draws.action(e, taken) % |state.actions|;
      var action := state.actions[index];
      ghost var rs := sh.OutcomesOf(action);
      ghost var step := Step(sh, q, state, taken, e, draws);
      assert action in sh.outcomes && action.actionsResult == rs;
      HoldsFor(sh, q, action);
      var a := alpha;
      var g := gamma;
      var picked := action.PickActionByProbability(draws.unit(e, taken));
      assert action.actionsResult == rs;
      if picked.Failure? {
        assert step.Stopped?;
        return picked;
      }
      var nextStateResult := picked.value;
      assert step.Updated? && nextStateResult == step.picked;
      assert nextStateResult in sh.outcomes[action];
      var estimated := nextStateResult.QEstimated();
      assert estimated == Estimate(q, step.picked);
      var reward := nextStateResult.reward;
      var maxQ := MaxQ(nextStateResult.stateName, sh, q);
      var value := QUpdate(estimated, a, reward, g, maxQ);
      InViewResults(sh, action, nextStateResult);
      nextStateResult.qValue := value;
      HoldsAfterWrite(sh, q, nextStateResult, value);
      return Success(nextStateResult);
    }

    /**
     * RunTraining for view sh and current table q: validates, then runs the episodes, each from the
     * drawn start state of States; an exception ends the run with the Q values written so far.
     */
    method RunTraining(draws: Draws, ghost sh: EngineView, ghost q: map<QActionResult, real>) returns (o: Outcome<Error>)
      requires Mirrors(sh) && TableHolds(sh, q)
      modifies sh.Results()`qValue
      ensures Mirrors(sh)
      ensures var run := TrainingSpec(sh, q, draws);
        o == run.outcome && TableHolds(sh, run.q)
    {
      var valid := Validate(this, sh);
      if valid.Fail? {
        return valid;
      }
      ghost var qc: map<QActionResult, real> := q;
      var i: nat := 0;
      while i < episodes
        invariant Mirrors(sh) && TableHolds(sh, qc)
        invariant EpisodesFrom(sh, qc, draws, i) == TrainingSpec(sh, q, draws)
        decreases episodes - i
      {
        if |states| == 0 {
          return Fail(NoStates);
        }
        var state := states[draws.start(i) % |states|];
        var stop := RunEpisode(state, i, draws, sh, qc);
        qc := EpisodeFrom(sh, qc, state, 0, i, draws).q;
        if stop.Aborted? {
          return Fail(stop.error);
        }
        i := i + 1;
      }
      return Pass;
    }
  }
}
