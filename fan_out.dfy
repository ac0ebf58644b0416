/**
 * Fan-out with error aggregation, as the two concurrent handlers do it: every
 * target runs on its own and reports at most one error on a shared channel;
 * a collector appends each error it receives, in arrival order, until all
 * targets are done, and then reports the list joined with newlines after a
 * fixed prefix, or nothing when the list is empty.
 *
 * Targets are modelled by their outcomes, run one after the other; arrival
 * order is not fixed, so contracts state the collected errors up to order.
 */
module FanOut {
  import opened Wrappers
  import opened Text

  /** The errors among the outcomes, in target order. */
  function Failures(outcomes: seq<Option<string>>): (es: seq<string>)
    ensures |es| <= |outcomes|
    decreases |outcomes|
  {
    if outcomes == [] then []
    else Failures(outcomes[..|outcomes| - 1]) + Reported(outcomes[|outcomes| - 1])
  }

  /** What one outcome adds to the error list. */
  function Reported(o: Option<string>): seq<string>
  {
    if o.Some? then [o.value] else []
  }

  lemma FailuresSnoc(outcomes: seq<Option<string>>, o: Option<string>)
    ensures Failures(outcomes + [o]) == Failures(outcomes) + Reported(o)
  {
    assert (outcomes + [o])[..|outcomes|] == outcomes;
  }

  /** No error is listed exactly when every target succeeded. */
  lemma {:induction false} FailuresEmptyIff(outcomes: seq<Option<string>>)
    ensures Failures(outcomes) == [] <==> forall i :: 0 <= i < |outcomes| ==> outcomes[i].None?
    decreases |outcomes|
  {
    if outcomes != [] {
      var init := outcomes[..|outcomes| - 1];
      FailuresEmptyIff(init);
      assert forall i :: 0 <= i < |init| ==> init[i] == outcomes[i];
    }
  }

  /** Each failing target contributes exactly one entry, and nothing else is listed. */
  lemma {:induction false} FailuresCount(outcomes: seq<Option<string>>, e: string)
    ensures multiset(Failures(outcomes))[e] == multiset(outcomes)[Some(e)]
    decreases |outcomes|
  {
    if outcomes != [] {
      var init := outcomes[..|outcomes| - 1];
      var o := outcomes[|outcomes| - 1];
      assert outcomes == init + [o];
      FailuresCount(init, e);
      FailuresSnoc(init, o);
      assert multiset(outcomes) == multiset(init) + multiset{o};
      assert multiset(Failures(outcomes)) == multiset(Failures(init)) + multiset(Reported(o));
    }
  }

  /** Targets are independent: the errors of two groups of targets are those of each group. */
  lemma {:induction false} FailuresSplit(a: seq<Option<string>>, b: seq<Option<string>>)
    ensures Failures(a + b) == Failures(a) + Failures(b)
    decreases |b|
  {
    if b == [] {
      assert a + b == a;
    } else {
      var init := b[..|b| - 1];
      var o := b[|b| - 1];
      assert (a + b)[..|a + b| - 1] == a + init && (a + b)[|a + b| - 1] == o;
      FailuresSplit(a, init);
      var fa, fi, r := Failures(a), Failures(init), Reported(o);
      assert (fa + fi) + r == fa + (fi + r);
    }
  }

  /**
   * The collector: it appends every error it receives and then reports them
   * all after `prefix`, or nothing when none arrived. The errors arrive in
   * some order; this one receives them in target order.
   */
  method Collect(prefix: string, outcomes: seq<Option<string>>) returns (err: Option<string>)
    ensures err.None? <==> forall i :: 0 <= i < |outcomes| ==> outcomes[i].None?
    ensures err.Some? ==>
              exists arrival: seq<string> ::
                multiset(arrival) == multiset(Failures(outcomes)) && err.value == prefix + Join(arrival, "\n")
  {
    var errors: seq<string> := [];
    var i := 0;
    while i < |outcomes|
      invariant 0 <= i <= |outcomes|
      invariant errors == Failures(outcomes[..i])
    {
      FailuresSnoc(outcomes[..i], outcomes[i]);
      assert outcomes[..i + 1] == outcomes[..i] + [outcomes[i]];
      if outcomes[i].Some? {
        errors := errors + [outcomes[i].value];
      }
      i := i + 1;
    }
    assert outcomes[..i] == outcomes;
    FailuresEmptyIff(outcomes);
    if |errors| > 0 {
      err := Some(prefix + Join(errors, "\n"));
      assert multiset(errors) == multiset(Failures(outcomes));
    } else {
      err := None;
    }
  }
}
