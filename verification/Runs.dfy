/** Finite runs of a state machine and the one induction every protocol here uses. */
module Runs {

  /** A run starts in an initial state and moves by `next` from each state to the following one. */
  ghost predicate IsRun<S(!new)>(init: S -> bool, next: (S, S) -> bool, run: seq<S>) {
    && |run| > 0
    && init(run[0])
    && forall i :: 0 <= i < |run| - 1 ==> next(run[i], run[i + 1])
  }

  /** What holds initially and is kept by every step holds in every state of every run. */
  lemma {:induction false} Invariance<S(!new)>(init: S -> bool, next: (S, S) -> bool, inv: S -> bool, run: seq<S>)
    requires forall s :: init(s) ==> inv(s)
    requires forall s, s' :: inv(s) && next(s, s') ==> inv(s')
    requires IsRun(init, next, run)
    ensures forall i :: 0 <= i < |run| ==> inv(run[i])
  {
    if |run| > 1 {
      var front := run[..|run| - 1];
      assert IsRun(init, next, front) by {
        forall i | 0 <= i < |front| - 1 ensures next(front[i], front[i + 1]) {
          assert next(run[i], run[i + 1]);
        }
      }
      Invariance(init, next, inv, front);
      var last := |run| - 2;
      assert inv(front[last]) && next(run[last], run[last + 1]);
      forall i | 0 <= i < |run| ensures inv(run[i]) {
        if i < |front| {
          assert inv(front[i]);
        }
      }
    }
  }

  /** A run can be prolonged by any step from its last state. */
  lemma Extend<S(!new)>(init: S -> bool, next: (S, S) -> bool, run: seq<S>, s: S)
    requires IsRun(init, next, run) && next(run[|run| - 1], s)
    ensures IsRun(init, next, run + [s])
  {
    var longer := run + [s];
    forall i | 0 <= i < |longer| - 1 ensures next(longer[i], longer[i + 1]) {
      if i < |run| - 1 {
        assert next(run[i], run[i + 1]);
      }
    }
  }
}
