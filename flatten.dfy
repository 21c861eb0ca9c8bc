/**
 * The scan order of the nested loops over a state's actions and their outcomes: action by action,
 * each action's outcomes in list order. Flat lists the scanned items, Owners the action each belongs to.
 */
module Flatten {
  function Flat<T>(xss: seq<seq<T>>): seq<T>
  {
    if |xss| == 0 then [] else Flat(xss[..|xss| - 1]) + xss[|xss| - 1]
  }

  /** For each position of the scan, the index of the inner list it comes from. */
  function Owners<T>(xss: seq<seq<T>>): (o: seq<nat>)
    ensures |o| == |Flat(xss)|
    ensures forall k :: 0 <= k < |o| ==> o[k] < |xss|
  {
    if |xss| == 0 then []
    else Owners(xss[..|xss| - 1]) + seq(|xss[|xss| - 1]|, _ => |xss| - 1)
  }

  /** Where the items of inner list i start in the scan. */
  function Offset<T>(xss: seq<seq<T>>, i: nat): nat
    requires i <= |xss|
  {
    |Flat(xss[..i])|
  }

  lemma FlatPrefix<T>(xss: seq<seq<T>>, i: nat)
    requires i < |xss|
    ensures Flat(xss[..i + 1]) == Flat(xss[..i]) + xss[i]
    ensures Offset(xss, i + 1) == Offset(xss, i) + |xss[i]|
  {
    assert xss[..i + 1][..i] == xss[..i];
  }

  lemma FlatWhole<T>(xss: seq<seq<T>>)
    ensures Offset(xss, |xss|) == |Flat(xss)|
  {
    assert xss[..|xss|] == xss;
  }

  /** Item j of inner list i sits at position Offset(xss, i) + j of the scan, owned by list i. */
  lemma {:induction false} FlatPosition<T>(xss: seq<seq<T>>, i: nat, j: nat)
    requires i < |xss| && j < |xss[i]|
    ensures Offset(xss, i) + j < |Flat(xss)|
    ensures Flat(xss)[Offset(xss, i) + j] == xss[i][j]
    ensures Owners(xss)[Offset(xss, i) + j] == i
    decreases |xss|
  {
    var n := |xss| - 1;
    var init := xss[..n];
    if i == n {
      assert xss[..i] == init;
    } else {
      assert init[..i] == xss[..i];
      FlatPosition(init, i, j);
    }
  }

  /** Every position of the scan is some item of the inner list owning it. */
  lemma {:induction false} FlatLocate<T>(xss: seq<seq<T>>, k: nat)
    requires k < |Flat(xss)|
    ensures var i := Owners(xss)[k];
      Offset(xss, i) <= k && k - Offset(xss, i) < |xss[i]| && Flat(xss)[k] == xss[i][k - Offset(xss, i)]
    decreases |xss|
  {
    var n := |xss| - 1;
    var init := xss[..n];
    if k < |Flat(init)| {
      FlatLocate(init, k);
      var i := Owners(init)[k];
      assert init[..i] == xss[..i];
    } else {
      assert xss[..n] == init;
    }
  }

  /** Inner list i is scanned entirely before any later list starts. */
  lemma {:induction false} OffsetMonotone<T>(xss: seq<seq<T>>, i: nat, i': nat)
    requires i < i' <= |xss|
    ensures Offset(xss, i) + |xss[i]| <= Offset(xss, i')
    decreases i' - i
  {
    FlatPrefix(xss, i);
    if i + 1 < i' {
      OffsetMonotone(xss, i + 1, i');
    }
  }

  /** Inner list i ends within the scan. */
  lemma OffsetBound<T>(xss: seq<seq<T>>, i: nat)
    requires i < |xss|
    ensures Offset(xss, i) + |xss[i]| <= |Flat(xss)|
  {
    FlatWhole(xss);
    if i + 1 < |xss| {
      OffsetMonotone(xss, i, |xss|);
    } else {
      FlatPrefix(xss, i);
    }
  }

  /** The scan is empty exactly when every inner list is. */
  lemma FlatEmpty<T>(xss: seq<seq<T>>)
    ensures Flat(xss) == [] <==> forall i :: 0 <= i < |xss| ==> |xss[i]| == 0
  {
    if Flat(xss) != [] {
      FlatLocate(xss, 0);
    }
    if exists i :: 0 <= i < |xss| && |xss[i]| > 0 {
      var i :| 0 <= i < |xss| && |xss[i]| > 0;
      FlatPosition(xss, i, 0);
    }
  }
}
