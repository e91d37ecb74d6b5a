/** Ordered pipelines with early exit.

    Both upload handlers are a fixed sequence of guards, each of which either
    lets the request through or throws, followed by a fixed sequence of effects,
    each of which either completes or throws.  In both halves the first step
    that fails decides what happens, and nothing after it runs.  This module
    states that rule once, for any list of steps.
 */
module Steps {
  import opened Wrappers

  /** One guard: whether the request passes it, and the error thrown if not. */
  datatype Check<+E> = Check(passes: bool, error: E)

  /** Index of the first `false` in `ok`, or `|ok|` when every entry holds. */
  function FirstFailing(ok: seq<bool>): (k: nat)
    ensures k <= |ok|
    ensures forall i :: 0 <= i < k ==> ok[i]
    ensures k < |ok| ==> !ok[k]
  {
    if ok == [] then 0
    else if !ok[0] then 0
    else 1 + FirstFailing(ok[1..])
  }

  /** The first failing position is the only position with the two properties above. */
  lemma FirstFailingUnique(ok: seq<bool>, k: nat)
    requires k <= |ok|
    requires forall i :: 0 <= i < k ==> ok[i]
    requires k < |ok| ==> !ok[k]
    ensures FirstFailing(ok) == k
  {
  }

  /** What each check of an ordered list says about the request. */
  function Passes<E>(checks: seq<Check<E>>): seq<bool>
  {
    seq(|checks|, i requires 0 <= i < |checks| => checks[i].passes)
  }

  /** The error an ordered list of guards reports: that of the first guard that
      fails, or None when the request passes them all. */
  function FirstError<E>(checks: seq<Check<E>>): (r: Option<E>)
  {
    var k := FirstFailing(Passes(checks));
    if k < |checks| then Some(checks[k].error) else None
  }

  /** A request passes the list exactly when it passes every guard in it. */
  lemma FirstErrorNoneIffAllPass<E>(checks: seq<Check<E>>)
    ensures FirstError(checks).None? <==> forall i :: 0 <= i < |checks| ==> checks[i].passes
  {
    var ok := Passes(checks);
    assert |ok| == |checks| && forall i :: 0 <= i < |checks| ==> ok[i] == checks[i].passes;
  }

  /** The check order decides which error wins: when guard `k` fails and every
      guard before it passes, the list reports guard `k`'s error, whatever the
      guards after `k` say. */
  lemma FirstErrorAt<E>(checks: seq<Check<E>>, k: nat)
    requires k < |checks|
    requires forall i :: 0 <= i < k ==> checks[i].passes
    requires !checks[k].passes
    ensures FirstError(checks) == Some(checks[k].error)
  {
    FirstFailingUnique(Passes(checks), k);
  }
}
