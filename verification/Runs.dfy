/** Executions of a transition system, and the induction principle every protocol module uses. */
module Runs {

  /** A finite execution: each state steps to the next one. */
  ghost predicate IsRun<S(!new)>(next: (S, S) -> bool, run: seq<S>) {
    |run| > 0 && forall k :: 0 <= k < |run| - 1 ==> next(run[k], run[k + 1])
  }

  /** State `s` ends some execution that starts in `s0`. */
  ghost predicate Reachable<S(!new)>(next: (S, S) -> bool, s0: S, s: S) {
    exists run :: IsRun(next, run) && run[0] == s0 && run[|run| - 1] == s
  }

  lemma ReachableRefl<S(!new)>(next: (S, S) -> bool, s0: S)
    ensures Reachable(next, s0, s0)
  {
    assert IsRun(next, [s0]) && [s0][0] == s0 && [s0][|[s0]| - 1] == s0;
  }

  lemma ReachableStep<S(!new)>(next: (S, S) -> bool, s0: S, s: S, s': S)
    requires Reachable(next, s0, s) && next(s, s')
    ensures Reachable(next, s0, s')
  {
    var run :| IsRun(next, run) && run[0] == s0 && run[|run| - 1] == s;
    var longer := run + [s'];
    assert IsRun(next, longer) && longer[0] == s0 && longer[|longer| - 1] == s';
  }

  /** A property of the first state that every step keeps holds of every reachable state. */
  lemma Invariance<S(!new)>(next: (S, S) -> bool, inv: S -> bool, s0: S, s: S)
    requires inv(s0)
    requires forall t, t' :: inv(t) && next(t, t') ==> inv(t')
    requires Reachable(next, s0, s)
    ensures inv(s)
  {
    var run :| IsRun(next, run) && run[0] == s0 && run[|run| - 1] == s;
    InvarianceAlong(next, inv, run, |run| - 1);
  }

  lemma {:induction false} InvarianceAlong<S(!new)>(next: (S, S) -> bool, inv: S -> bool, run: seq<S>, k: nat)
    requires IsRun(next, run) && k < |run|
    requires inv(run[0])
    requires forall t, t' :: inv(t) && next(t, t') ==> inv(t')
    ensures inv(run[k])
  {
    if k > 0 {
      InvarianceAlong(next, inv, run, k - 1);
      assert next(run[k - 1], run[k]);
    }
  }
}
