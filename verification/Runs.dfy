/** Finite runs of a transition system, and the induction that carries an invariant along one. */
module Runs {
  /** `states` starts in an initial state and every `acts[i]` leads from `states[i]` to `states[i + 1]`. */
  ghost predicate IsRun<S(!new), A(!new)>(
    init: S -> bool, next: (S, A, S) -> bool, states: seq<S>, acts: seq<A>)
  {
    && |states| == |acts| + 1
    && init(states[0])
    && forall i :: 0 <= i < |acts| ==> next(states[i], acts[i], states[i + 1])
  }

  lemma {:induction false} Invariance<S(!new), A(!new)>(
    init: S -> bool, next: (S, A, S) -> bool, inv: S -> bool, states: seq<S>, acts: seq<A>, k: nat)
    requires IsRun(init, next, states, acts)
    requires forall s :: init(s) ==> inv(s)
    requires forall s, a, s' :: inv(s) && next(s, a, s') ==> inv(s')
    requires k < |states|
    ensures inv(states[k])
  {
    if k > 0 {
      Invariance(init, next, inv, states, acts, k - 1);
      assert next(states[k - 1], acts[k - 1], states[k - 1 + 1]);
    }
  }

  /** What every step from a state satisfying the invariant does, the k-th step of a run does. */
  lemma StepInvariance<S(!new), A(!new)>(
    init: S -> bool, next: (S, A, S) -> bool, inv: S -> bool, rel: (S, A, S) -> bool, states: seq<S>, acts: seq<A>,
        k: nat)
    requires IsRun(init, next, states, acts)
    requires forall s :: init(s) ==> inv(s)
    requires forall s, a, s' :: inv(s) && next(s, a, s') ==> inv(s') && rel(s, a, s')
    requires k < |acts|
    ensures inv(states[k]) && inv(states[k + 1]) && rel(states[k], acts[k], states[k + 1])
  {
    Invariance(init, next, inv, states, acts, k);
    assert next(states[k], acts[k], states[k + 1]);
  }
}
