/**
 * The two nested scans MaxQ and ShowPolicy run over a state's estimates, action by action and each
 * action's outcomes in list order, stated over the lists of estimates: `ess[i][j]` is the estimate of
 * outcome j of action i. The loops are described by folds (ScanMax, ScanPolicy); the folds are shown
 * to compute MaxOf and FirstMax over the flattened estimates, which are characterized in turn.
 */
module Scans {
  import opened Wrappers
  import opened Estimates
  import opened Flatten

  /** A leader of the policy scan: the largest estimate seen so far and the name of its action. */
  datatype Leader = Leader(max: Option<real>, name: string)

  /** MaxQ's inner loop as a fold: the running maximum m carried over estimates j, j + 1, ... of es. */
  function ScanMax(es: seq<real>, j: nat, m: Option<real>): Option<real>
    decreases |es| - j
  {
    if j >= |es| then m
    else ScanMax(es, j + 1, if m.None? || es[j] > m.value then Some(es[j]) else m)
  }

  /** MaxQ's outer loop as a fold: the inner loop over estimate lists i, i + 1, ... in turn. */
  function ScanMaxLists(ess: seq<seq<real>>, i: nat, m: Option<real>): Option<real>
    decreases |ess| - i
  {
    if i >= |ess| then m
    else ScanMaxLists(ess, i + 1, ScanMax(ess[i], 0, m))
  }

  /** ShowPolicy's inner loop as a fold, for an action displayed as `name`: a strictly larger estimate takes the lead. */
  function ScanPolicy(es: seq<real>, j: nat, name: string, b: Leader): Leader
    decreases |es| - j
  {
    if j >= |es| then b
    else ScanPolicy(es, j + 1, name, if b.max.None? || es[j] > b.max.value then Leader(Some(es[j]), name) else b)
  }

  /** ShowPolicy's outer loop as a fold, over the estimate lists of actions displayed as `names`. */
  function ScanPolicyLists(ess: seq<seq<real>>, names: seq<string>, i: nat, b: Leader): Leader
    requires |names| == |ess|
    decreases |ess| - i
  {
    if i >= |ess| then b
    else ScanPolicyLists(ess, names, i + 1, ScanPolicy(ess[i], 0, names[i], b))
  }

  lemma Snoc<T>(xs: seq<T>, p: nat)
    requires p < |xs|
    ensures xs[..p + 1] == xs[..p] + [xs[p]]
  {
  }

  // ---------------------------------------------------------------------------------------------
  // MaxQ's scan
  // ---------------------------------------------------------------------------------------------

  /** The inner scan of list i continues the running maximum of the flattened estimates to its end. */
  lemma {:induction false} ScanMaxInner(ess: seq<seq<real>>, i: nat, j: nat)
    requires i < |ess| && j <= |ess[i]|
    ensures Offset(ess, i) + |ess[i]| <= |Flat(ess)|
    ensures ScanMax(ess[i], j, MaxOf(Flat(ess)[..Offset(ess, i) + j])) == MaxOf(Flat(ess)[..Offset(ess, i) + |ess[i]|])
    decreases |ess[i]| - j
  {
    OffsetBound(ess, i);
    if j < |ess[i]| {
      var es := Flat(ess);
      var p := Offset(ess, i) + j;
      FlatPosition(ess, i, j);
      Snoc(es, p);
      MaxOfAppend(es[..p], es[p]);
      ScanMaxInner(ess, i, j + 1);
    }
  }

  /** MaxQ's outer scan from list i continues the running maximum to the end of the scan. */
  lemma {:induction false} ScanMaxListsIsMaxOf(ess: seq<seq<real>>, i: nat)
    requires i <= |ess|
    ensures Offset(ess, i) <= |Flat(ess)| && ScanMaxLists(ess, i, MaxOf(Flat(ess)[..Offset(ess, i)])) == MaxOf(Flat(ess))
    decreases |ess| - i
  {
    if i < |ess| {
      OffsetBound(ess, i);
      FlatPrefix(ess, i);
      ScanMaxInner(ess, i, 0);
      ScanMaxListsIsMaxOf(ess, i + 1);
    } else {
      FlatWhole(ess);
      assert Flat(ess)[..Offset(ess, i)] == Flat(ess);
    }
  }

  /** MaxQ's two loops, from no maximum, compute the running maximum of the estimates in scan order. */
  lemma MaxScanIsMaxOf(ess: seq<seq<real>>)
    ensures ScanMaxLists(ess, 0, None) == MaxOf(Flat(ess))
  {
    ScanMaxListsIsMaxOf(ess, 0);
    assert ess[..0] == [];
    assert Flat(ess)[..0] == [];
  }

  /**
   * The running maximum over the lists: absent exactly when every list is empty, otherwise one of
   * the estimates and at least every estimate.
   */
  lemma MaxOfLists(ess: seq<seq<real>>)
    ensures MaxOf(Flat(ess)).None? <==> forall i :: 0 <= i < |ess| ==> |ess[i]| == 0
    ensures MaxOf(Flat(ess)).Some? ==>
      exists i, j :: 0 <= i < |ess| && 0 <= j < |ess[i]| && MaxOf(Flat(ess)).value == ess[i][j]
    ensures MaxOf(Flat(ess)).Some? ==>
      forall i, j :: 0 <= i < |ess| && 0 <= j < |ess[i]| ==> ess[i][j] <= MaxOf(Flat(ess)).value
  {
    var es := Flat(ess);
    FlatEmpty(ess);
    MaxOfCharacterized(es);
    if MaxOf(es).Some? {
      var k :| 0 <= k < |es| && es[k] == MaxOf(es).value;
      FlatLocate(ess, k);
      forall i, j | 0 <= i < |ess| && 0 <= j < |ess[i]|
        ensures ess[i][j] <= MaxOf(es).value
      {
        FlatPosition(ess, i, j);
      }
    }
  }

  // ---------------------------------------------------------------------------------------------
  // ShowPolicy's scan
  // ---------------------------------------------------------------------------------------------

  /** The leader of the policy scan after the first p estimates, described by FirstMax. */
  function LeaderAt(ess: seq<seq<real>>, names: seq<string>, p: nat): Leader
    requires |names| == |ess| && p <= |Flat(ess)|
  {
    match FirstMax(Flat(ess)[..p])
    case None => Leader(None, "nothing")
    case Some(k) => Leader(Some(Flat(ess)[k]), names[Owners(ess)[k]])
  }

  /**
   * The outcome of the whole policy scan: the name of the action owning the first estimate, in
   * scan order, that no estimate exceeds, and that estimate; "nothing" and no value when there are none.
   */
  function Policy(ess: seq<seq<real>>, names: seq<string>): Leader
    requires |names| == |ess|
  {
    LeaderAt(ess, names, |Flat(ess)|)
  }

  /** One step of the policy scan: estimate j of list i takes the lead exactly when it is strictly larger. */
  lemma LeaderStep(ess: seq<seq<real>>, names: seq<string>, i: nat, j: nat)
    requires |names| == |ess| && i < |ess| && j < |ess[i]|
    ensures Offset(ess, i) + j < |Flat(ess)|
    ensures var p := Offset(ess, i) + j;
      var b := LeaderAt(ess, names, p);
      LeaderAt(ess, names, p + 1) == if b.max.None? || ess[i][j] > b.max.value then Leader(Some(ess[i][j]), names[i]) else b
  {
    var es := Flat(ess);
    var p := Offset(ess, i) + j;
    FlatPosition(ess, i, j);
    Snoc(es, p);
    FirstMaxAppend(es[..p], es[p]);
  }

  /** The inner policy scan of list i carries the FirstMax leader to the end of the list. */
  lemma {:induction false} ScanPolicyInner(ess: seq<seq<real>>, names: seq<string>, i: nat, j: nat)
    requires |names| == |ess| && i < |ess| && j <= |ess[i]|
    ensures Offset(ess, i) + j <= Offset(ess, i + 1) <= |Flat(ess)|
    ensures ScanPolicy(ess[i], j, names[i], LeaderAt(ess, names, Offset(ess, i) + j))
            == LeaderAt(ess, names, Offset(ess, i + 1))
    decreases |ess[i]| - j
  {
    OffsetBound(ess, i);
    FlatPrefix(ess, i);
    if j < |ess[i]| {
      LeaderStep(ess, names, i, j);
      ScanPolicyInner(ess, names, i, j + 1);
    }
  }

  /** The outer policy scan from list i carries the FirstMax leader to the end of the scan. */
  lemma {:induction false} ScanPolicyListsIsLeader(ess: seq<seq<real>>, names: seq<string>, i: nat)
    requires |names| == |ess| && i <= |ess|
    ensures Offset(ess, i) <= |Flat(ess)|
    ensures ScanPolicyLists(ess, names, i, LeaderAt(ess, names, Offset(ess, i))) == Policy(ess, names)
    decreases |ess| - i
  {
    if i < |ess| {
      ScanPolicyInner(ess, names, i, 0);
      var b := LeaderAt(ess, names, Offset(ess, i));
      assert ScanPolicy(ess[i], 0, names[i], b) == LeaderAt(ess, names, Offset(ess, i + 1));
      ScanPolicyListsIsLeader(ess, names, i + 1);
    } else {
      FlatWhole(ess);
    }
  }

  /** ShowPolicy's two loops, from no leader, end on the leader Policy describes. */
  lemma PolicyScanIsPolicy(ess: seq<seq<real>>, names: seq<string>)
    requires |names| == |ess|
    ensures ScanPolicyLists(ess, names, 0, Leader(None, "nothing")) == Policy(ess, names)
  {
    ScanPolicyListsIsLeader(ess, names, 0);
    assert ess[..0] == [];
    assert Flat(ess)[..0] == [];
  }

  /**
   * Estimate j of list i is the first-wins maximum of the scan: no estimate is larger, and every
   * estimate scanned before it (in an earlier list, or earlier in list i) is smaller.
   */
  ghost predicate IsFirstMax(ess: seq<seq<real>>, i: nat, j: nat)
    requires i < |ess| && j < |ess[i]|
  {
    && (forall i', j' :: 0 <= i' < |ess| && 0 <= j' < |ess[i']| ==> ess[i'][j'] <= ess[i][j])
    && (forall i', j' :: 0 <= i' < |ess| && 0 <= j' < |ess[i']| && (i' < i || (i' == i && j' < j))
          ==> ess[i'][j'] < ess[i][j])
  }

  /** One instance of FirstMaxCharacterized: the estimate at position p against the first-wins maximum. */
  lemma FirstMaxAt(es: seq<real>, p: nat)
    requires FirstMax(es).Some? && p < |es|
    ensures es[p] <= es[FirstMax(es).value]
    ensures p < FirstMax(es).value ==> es[p] < es[FirstMax(es).value]
  {
    FirstMaxCharacterized(es);
  }

  /** The first-wins maximum of the flattened estimates is the first-wins maximum of the lists. */
  lemma FirstMaxScanned(ess: seq<seq<real>>, k: nat)
    requires FirstMax(Flat(ess)) == Some(k)
    ensures var i := Owners(ess)[k];
      && Offset(ess, i) <= k < Offset(ess, i) + |ess[i]|
      && Flat(ess)[k] == ess[i][k - Offset(ess, i)]
      && IsFirstMax(ess, i, k - Offset(ess, i))
  {
    var es := Flat(ess);
    FlatLocate(ess, k);
    var i := Owners(ess)[k];
    var j := k - Offset(ess, i);
    forall i', j' | 0 <= i' < |ess| && 0 <= j' < |ess[i']|
      ensures ess[i'][j'] <= ess[i][j]
      ensures (i' < i || (i' == i && j' < j)) ==> ess[i'][j'] < ess[i][j]
    {
      FlatPosition(ess, i', j');
      FirstMaxAt(es, Offset(ess, i') + j');
      if i' < i {
        OffsetMonotone(ess, i', i);
      }
    }
  }

  /** Without estimates the policy is "nothing" with no value. */
  lemma PolicyNothing(ess: seq<seq<real>>, names: seq<string>)
    requires |names| == |ess|
    requires forall i :: 0 <= i < |ess| ==> |ess[i]| == 0
    ensures Policy(ess, names) == Leader(None, "nothing")
  {
    FlatEmpty(ess);
    assert Flat(ess)[..|Flat(ess)|] == [];
  }

  /**
   * With some estimate, the policy names the list i holding the first-wins maximum j, and reports
   * that estimate.
   */
  lemma PolicyCharacterized(ess: seq<seq<real>>, names: seq<string>)
    requires |names| == |ess|
    requires exists i :: 0 <= i < |ess| && |ess[i]| > 0
    ensures exists i, j ::
      && 0 <= i < |ess| && 0 <= j < |ess[i]| && IsFirstMax(ess, i, j)
      && Policy(ess, names) == Leader(Some(ess[i][j]), names[i])
  {
    var es := Flat(ess);
    var i0 :| 0 <= i0 < |ess| && |ess[i0]| > 0;
    FlatPosition(ess, i0, 0);
    assert es[..|es|] == es;
    var k := FirstMax(es).value;
    FirstMaxScanned(ess, k);
    assert IsFirstMax(ess, Owners(ess)[k], k - Offset(ess, Owners(ess)[k]));
  }

  /** The value the policy reports is the running maximum MaxQ computes. */
  lemma PolicyHoldsMaxOf(ess: seq<seq<real>>, names: seq<string>)
    requires |names| == |ess|
    ensures Policy(ess, names).max == MaxOf(Flat(ess))
  {
    var es := Flat(ess);
    assert es[..|es|] == es;
    if |es| > 0 {
      FirstMaxHoldsMaxOf(es);
    }
  }
}
