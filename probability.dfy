/** Probability sums and the cumulative walk used to sample an action outcome. */
module Probability {
  import opened Wrappers

  /** The largest tolerated distance between an action's probability sum and 1. */
  const Epsilon: real := 0.1

  function Abs(x: real): real
  {
    if x < 0.0 then -x else x
  }

  /** Sum of probabilities, accumulated from the front as the sampling walk does. */
  function Sum(ps: seq<real>): real
  {
    if |ps| == 0 then 0.0 else Sum(ps[..|ps| - 1]) + ps[|ps| - 1]
  }

  /** Why an action's outcomes fail validation. */
  datatype ProbabilityError = NoActionResults | SumOutOfTolerance(sum: real)

  /** The running sum after the first k+1 outcomes. */
  function Running(ps: seq<real>, k: nat): real
    requires k < |ps|
  {
    Sum(ps[..k + 1])
  }

  lemma RunningStep(ps: seq<real>, k: nat)
    requires k + 1 < |ps|
    ensures Running(ps, k + 1) == Running(ps, k) + ps[k + 1]
  {
    assert ps[..k + 2][..k + 1] == ps[..k + 1];
  }

  /** The walk from outcome i with running sum `sum` over the outcomes before i. */
  function PickFrom(ps: seq<real>, d: real, i: nat, sum: real): (k: nat)
    requires i < |ps|
    ensures i <= k < |ps|
    decreases |ps| - i
  {
    var s := sum + ps[i];
    if d <= s || i == |ps| - 1 then i else PickFrom(ps, d, i + 1, s)
  }

  /** The index PickActionByProbability returns for draw d; None when there are no outcomes. */
  function PickIndex(ps: seq<real>, d: real): (r: Option<nat>)
    ensures r.None? <==> |ps| == 0
    ensures r.Some? ==> r.value < |ps|
  {
    if |ps| == 0 then None else Some(PickFrom(ps, d, 0, 0.0))
  }

  /** k is the first outcome whose running sum reaches the draw. */
  ghost predicate FirstReaching(ps: seq<real>, d: real, k: nat)
  {
    k < |ps| && d <= Running(ps, k) && forall j :: 0 <= j < k ==> Running(ps, j) < d
  }

  /** No running sum reaches the draw (the probabilities fall short of it). */
  ghost predicate NoneReaching(ps: seq<real>, d: real)
  {
    forall j :: 0 <= j < |ps| ==> Running(ps, j) < d
  }

  lemma {:induction false} PickFromCharacterized(ps: seq<real>, d: real, i: nat)
    requires i < |ps|
    requires forall j :: 0 <= j < i ==> Running(ps, j) < d
    ensures var k := PickFrom(ps, d, i, if i == 0 then 0.0 else Running(ps, i - 1));
      FirstReaching(ps, d, k) || (NoneReaching(ps, d) && k == |ps| - 1)
    decreases |ps| - i
  {
    var sum := if i == 0 then 0.0 else Running(ps, i - 1);
    if i == 0 {
      assert ps[..1][..0] == [];
      assert Running(ps, 0) == Sum(ps[..1][..0]) + ps[0];
    } else {
      RunningStep(ps, i - 1);
    }
    assert sum + ps[i] == Running(ps, i);
    if d <= sum + ps[i] {
    } else if i == |ps| - 1 {
    } else {
      PickFromCharacterized(ps, d, i + 1);
    }
  }

  /**
   * PickActionByProbability's choice: with no outcomes nothing is picked; otherwise the pick is the
   * first outcome whose running sum reaches the draw, or the last outcome when none does.
   */
  lemma PickIndexCharacterized(ps: seq<real>, d: real)
    ensures PickIndex(ps, d).None? <==> |ps| == 0
    ensures PickIndex(ps, d).Some? ==> PickIndex(ps, d).value < |ps|
    ensures (exists j :: 0 <= j < |ps| && d <= Running(ps, j)) ==> FirstReaching(ps, d, PickIndex(ps, d).value)
    ensures |ps| > 0 && NoneReaching(ps, d) ==> PickIndex(ps, d) == Some(|ps| - 1)
  {
    if |ps| > 0 {
      PickFromCharacterized(ps, d, 0);
    }
  }

  /** The first reaching outcome is unique, so the characterization above determines the pick. */
  lemma FirstReachingUnique(ps: seq<real>, d: real, k: nat, k': nat)
    requires FirstReaching(ps, d, k) && FirstReaching(ps, d, k')
    ensures k == k'
  {
  }
}
