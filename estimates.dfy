/** The two scans over a state's outcome estimates: MaxQ's running maximum and the policy's argmax. */
module Estimates {
  import opened Wrappers

  /** MaxQ's nullable running maximum over the estimates in scan order; empty when there are none. */
  function MaxOf(xs: seq<real>): (m: Option<real>)
    ensures m.None? <==> |xs| == 0
  {
    if |xs| == 0 then None
    else
      var last := xs[|xs| - 1];
      match MaxOf(xs[..|xs| - 1])
      case None => Some(last)
      case Some(p) => if last > p then Some(last) else Some(p)
  }

  /** The running maximum is one of the estimates and at least as large as every one. */
  lemma {:induction false} MaxOfCharacterized(xs: seq<real>)
    ensures MaxOf(xs).Some? ==> (exists k :: 0 <= k < |xs| && xs[k] == MaxOf(xs).value)
    ensures MaxOf(xs).Some? ==> forall k :: 0 <= k < |xs| ==> xs[k] <= MaxOf(xs).value
  {
    if |xs| > 0 {
      var n := |xs| - 1;
      MaxOfCharacterized(xs[..n]);
      if MaxOf(xs[..n]).Some? {
        var k :| 0 <= k < n && xs[..n][k] == MaxOf(xs[..n]).value;
        assert xs[k] == xs[..n][k];
        forall j | 0 <= j < n
          ensures xs[j] <= MaxOf(xs[..n]).value
        {
          assert xs[j] == xs[..n][j];
        }
      }
    }
  }

  lemma MaxOfAppend(xs: seq<real>, x: real)
    ensures MaxOf(xs + [x]) == match MaxOf(xs) case None => Some(x) case Some(p) => if x > p then Some(x) else Some(p)
  {
    assert (xs + [x])[..|xs|] == xs;
  }

  /**
   * The policy scan: the index a running maximum that is replaced only by a strictly greater
   * estimate ends on; empty when there are no estimates.
   */
  function FirstMax(xs: seq<real>): (k: Option<nat>)
    ensures k.None? <==> |xs| == 0
    ensures k.Some? ==> k.value < |xs|
  {
    if |xs| == 0 then None
    else
      var n := |xs| - 1;
      match FirstMax(xs[..n])
      case None => Some(n)
      case Some(p) => if xs[n] > xs[p] then Some(n) else Some(p)
  }

  /** The policy's index is the earliest holding the maximum: nothing exceeds it, everything before is smaller. */
  lemma {:induction false} FirstMaxCharacterized(xs: seq<real>)
    ensures FirstMax(xs).Some? ==> forall j :: 0 <= j < |xs| ==> xs[j] <= xs[FirstMax(xs).value]
    ensures FirstMax(xs).Some? ==> forall j :: 0 <= j < FirstMax(xs).value ==> xs[j] < xs[FirstMax(xs).value]
  {
    if |xs| > 0 {
      var n := |xs| - 1;
      FirstMaxCharacterized(xs[..n]);
      forall j | 0 <= j < n
        ensures xs[j] == xs[..n][j]
      {
      }
    }
  }

  lemma FirstMaxAppend(xs: seq<real>, x: real)
    ensures FirstMax(xs + [x]) == match FirstMax(xs) case None => Some(|xs|) case Some(p) => if x > xs[p] then Some(|xs|) else Some(p)
  {
    assert (xs + [x])[..|xs|] == xs;
  }

  /** The policy's argmax holds the value MaxQ reports. */
  lemma FirstMaxHoldsMaxOf(xs: seq<real>)
    requires |xs| > 0
    ensures MaxOf(xs) == Some(xs[FirstMax(xs).value])
  {
    MaxOfCharacterized(xs);
    FirstMaxCharacterized(xs);
  }
}
