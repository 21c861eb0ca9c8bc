/**
 * The static helpers of the framework (class QMethod) and the action-name value (class QActionName).
 * QActionName is a value that the engine's classes hold, so it lives here, below them in the import
 * order; QMethod.Validate walks the engine's objects, so it lives with them in QLearningFramework.
 */
module QMethod {
  import opened Wrappers

  /** The composed name "from_<a>_to_<b>" of a transition action. */
  function ActionNameFromTo(a: string, b: string): (r: string)
    ensures |r| == |a| + |b| + 9
  {
    "from_" + a + "_to_" + b
  }

  /** The composed name reads "from_", then a, then "_to_", then b, so both parts can be read back. */
  lemma ActionNameFromToParts(a: string, b: string)
    ensures var r := ActionNameFromTo(a, b);
      r[..5] == "from_" && r[5..5 + |a|] == a && r[5 + |a|..9 + |a|] == "_to_" && r[9 + |a|..] == b
  {
  }

  /** Given the length of the first part, the composed name determines both parts. */
  lemma ActionNameFromToInjective(a: string, b: string, a': string, b': string)
    requires |a| == |a'|
    requires ActionNameFromTo(a, b) == ActionNameFromTo(a', b')
    ensures a == a' && b == b'
  {
    var r := ActionNameFromTo(a, b);
    ActionNameFromToParts(a, b);
    ActionNameFromToParts(a', b');
    assert a == r[5..5 + |a|] == a';
    assert b == r[9 + |a|..] == b';
  }

  /** Without that length the composed name is ambiguous: two different pairs print alike. */
  lemma ActionNameFromToAmbiguous()
    ensures ActionNameFromTo("a_to_b", "c") == ActionNameFromTo("a", "b_to_c")
  {
  }

  /** The name of an action: a plain name, or a from/to pair whose `to` part may be absent (null). */
  datatype QActionName = QActionName(from: string, to: Option<string>) {

    /** The display name: `from` alone when `to` is absent (null), the composed name otherwise. */
    function GetActionName(): (r: string)
      ensures to.None? ==> r == from
      ensures to.Some? ==> |r| == |from| + |to.value| + 9 && r[..5] == "from_" && r[9 + |from|..] == to.value
    {
      if to.None? then from else ActionNameFromTo(from, to.value)
    }
  }

  /**
   * The two display formats: a plain name is shown as it is; a pair is shown as "from_", its `from`
   * part, "_to_" and its `to` part.
   */
  lemma GetActionNameFormats(n: QActionName)
    ensures n.to.None? ==> n.GetActionName() == n.from
    ensures n.to.Some? ==>
      var r := n.GetActionName();
      && |r| == |n.from| + |n.to.value| + 9
      && r[..5] == "from_" && r[5..5 + |n.from|] == n.from
      && r[5 + |n.from|..9 + |n.from|] == "_to_" && r[9 + |n.from|..] == n.to.value
  {
    if n.to.Some? {
      ActionNameFromToParts(n.from, n.to.value);
    }
  }

  /** A plain name can coincide with the display name of a from/to pair. */
  lemma PlainNameCanMimicPair()
    ensures QActionName("from_a_to_b", None).GetActionName() == QActionName("a", Some("b")).GetActionName()
  {
  }

  /** ValidateRange: a value passes exactly when it lies in the closed unit interval. */
  function ValidateRange(d: real): (o: Outcome<real>)
    ensures o.Pass? <==> 0.0 <= d <= 1.0
    ensures o.Fail? ==> o.error == d
  {
    if d < 0.0 || d > 1.0 then Fail(d) else Pass
  }
}
