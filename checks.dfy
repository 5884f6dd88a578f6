/**
 * Ordered validation chains. Every validator of the model is a sequence of
 * checks tried in a fixed order; a guard chain reports the first failing
 * check's message, a zod schema collects the messages of all failing checks.
 */
module Checks {
  import opened Wrappers

  /** One check of a chain: whether it passes, and the message it reports when it does not. */
  datatype Check = Check(ok: bool, message: string)

  predicate AllPass(checks: seq<Check>) {
    forall i :: 0 <= i < |checks| ==> checks[i].ok
  }

  /** The message of the first failing check, as a chain of early returns reports it. */
  function FirstFailure(checks: seq<Check>): (r: Option<string>)
    ensures r.None? <==> AllPass(checks)
    ensures r.Some? ==>
      exists i :: 0 <= i < |checks| && !checks[i].ok && checks[i].message == r.value
        && forall j :: 0 <= j < i ==> checks[j].ok
  {
    if checks == [] then None
    else if !checks[0].ok then Some(checks[0].message)
    else
      var r := FirstFailure(checks[1..]);
      assert forall j :: 1 <= j < |checks| ==> checks[j] == checks[1..][j - 1];
      r
  }

  /** The messages of all failing checks, in order. */
  function FailedMessages(checks: seq<Check>): (msgs: seq<string>)
    ensures |msgs| <= |checks|
    ensures msgs == [] <==> AllPass(checks)
  {
    if checks == [] then []
    else
      var rest := FailedMessages(checks[1..]);
      assert forall j :: 1 <= j < |checks| ==> checks[j] == checks[1..][j - 1];
      (if checks[0].ok then [] else [checks[0].message]) + rest
  }

  /** The first of all failing messages is the one a chain of early returns would report. */
  lemma {:induction false} FirstFailedMessage(checks: seq<Check>)
    requires !AllPass(checks)
    ensures FailedMessages(checks) != [] && FailedMessages(checks)[0] == FirstFailure(checks).value
  {
    if checks[0].ok {
      assert !AllPass(checks[1..]) by {
        var i :| 0 <= i < |checks| && !checks[i].ok;
        assert checks[1..][i - 1] == checks[i];
      }
      FirstFailedMessage(checks[1..]);
    }
  }

  /** When check `k` is the first to fail, the chain reports its message. */
  lemma {:induction false} FirstFailureAt(checks: seq<Check>, k: nat)
    requires k < |checks| && !checks[k].ok
    requires forall j :: 0 <= j < k ==> checks[j].ok
    ensures FirstFailure(checks) == Some(checks[k].message)
  {
    if k > 0 {
      assert checks[0].ok;
      forall j | 0 <= j < k - 1 ensures checks[1..][j].ok {
        assert checks[1..][j] == checks[j + 1];
      }
      assert checks[1..][k - 1] == checks[k];
      FirstFailureAt(checks[1..], k - 1);
    }
  }

  /** What a `create` guard chain returns: an error message, or a DTO. */
  datatype Created<T> = Created(error: Option<string>, dto: Option<T>)

  /** The index of the first failing check. */
  function FirstFailingIndex(checks: seq<Check>): (k: nat)
    requires !AllPass(checks)
    ensures k < |checks| && !checks[k].ok
    ensures forall j :: 0 <= j < k ==> checks[j].ok
  {
    if !checks[0].ok then 0
    else
      assert !AllPass(checks[1..]) by {
        var i :| 0 <= i < |checks| && !checks[i].ok;
        assert checks[1..][i - 1] == checks[i];
      }
      var k := FirstFailingIndex(checks[1..]);
      assert forall j :: 1 <= j <= k ==> checks[j] == checks[1..][j - 1];
      k + 1
  }
}
