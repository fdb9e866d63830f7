/**
 * An ordered chain of checks, each of which either passes (None) or names the
 * failure it throws. Both actions run such a chain before they call the
 * signing backend: the first check that fails decides the response.
 */
module Guards {
  import opened Wrappers
  import opened HttpErrors

  type Check = Option<Failure>

  /** A check that passes when `condition` holds and throws `failure` otherwise. */
  function Require(condition: bool, failure: Failure): (c: Check)
    ensures c.None? <==> condition
    ensures c.Some? ==> c.value == failure
  {
    if condition then None else Some(failure)
  }

  /** The failure of the first failing check, or None when every check passes. */
  function FirstFailure(checks: seq<Check>): (r: Option<Failure>)
    ensures r.None? <==> forall i :: 0 <= i < |checks| ==> checks[i].None?
    ensures r.Some? ==> r in checks
  {
    if checks == [] then None
    else if checks[0].Some? then checks[0]
    else FirstFailure(checks[1..])
  }

  /** The check at index `i` decides the outcome exactly when it fails and every earlier one passes. */
  lemma {:induction false} FirstFailureIsFirst(checks: seq<Check>, i: nat)
    requires i < |checks| && checks[i].Some?
    requires forall j :: 0 <= j < i ==> checks[j].None?
    ensures FirstFailure(checks) == checks[i]
  {
    if i > 0 {
      FirstFailureIsFirst(checks[1..], i - 1);
    }
  }

  /** Every failure FirstFailure reports comes from a failing check preceded only by passing ones. */
  lemma {:induction false} FirstFailureHasIndex(checks: seq<Check>)
    requires FirstFailure(checks).Some?
    ensures exists i :: 0 <= i < |checks| && checks[i] == FirstFailure(checks) &&
                        forall j :: 0 <= j < i ==> checks[j].None?
  {
    if checks[0].None? {
      FirstFailureHasIndex(checks[1..]);
      var i :| 0 <= i < |checks[1..]| && checks[1..][i] == FirstFailure(checks[1..]) &&
               forall j :: 0 <= j < i ==> checks[1..][j].None?;
      assert checks[i + 1] == FirstFailure(checks);
      assert forall j :: 0 <= j < i + 1 ==> checks[j].None? by {
        forall j | 0 <= j < i + 1 ensures checks[j].None? {
          if j > 0 { assert checks[j] == checks[1..][j - 1]; }
        }
      }
    } else {
      assert checks[0] == FirstFailure(checks);
    }
  }

  /** A chain made of two parts: the second part is consulted only when the first passes entirely. */
  lemma {:induction false} FirstFailureAppend(first: seq<Check>, second: seq<Check>)
    ensures FirstFailure(first + second) ==
            if FirstFailure(first).Some? then FirstFailure(first) else FirstFailure(second)
  {
    if first != [] {
      assert (first + second)[1..] == first[1..] + second;
      FirstFailureAppend(first[1..], second);
    } else {
      assert first + second == second;
    }
  }
}
