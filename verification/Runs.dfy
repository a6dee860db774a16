/** Runs of a state machine given by an initial predicate and a step relation.
    Every claim "over every run" in this project goes through the two lemmas here. */
module Runs {

  /** The step into state `i`. */
  ghost predicate StepAt<S(!new)>(next: (S, S) -> bool, run: seq<S>, i: nat)
    requires 0 < i < |run|
  {
    next(run[i - 1], run[i])
  }

  /** From `run[0]`, step by step. */
  ghost predicate IsPath<S(!new)>(next: (S, S) -> bool, run: seq<S>) {
    0 < |run| && forall i | 0 < i < |run| :: StepAt(next, run, i)
  }

  ghost predicate IsRun<S(!new)>(init: S -> bool, next: (S, S) -> bool, run: seq<S>) {
    IsPath(next, run) && init(run[0])
  }

  /** `acts[i]` leads from `run[i]` to `run[i + 1]`. */
  ghost predicate Driven<S(!new), A(!new)>(step: (S, A, S) -> bool, run: seq<S>, acts: seq<A>) {
    |run| == |acts| + 1 && forall i | 0 <= i < |acts| :: DrivenAt(step, run, acts, i)
  }

  ghost predicate DrivenAt<S(!new), A(!new)>(step: (S, A, S) -> bool, run: seq<S>, acts: seq<A>, i: nat)
    requires i < |acts| < |run|
  {
    step(run[i], acts[i], run[i + 1])
  }

  /** A path may go on wherever its last state may step to. */
  lemma Longer<S(!new)>(next: (S, S) -> bool, run: seq<S>, s: S)
    requires IsPath(next, run) && next(run[|run| - 1], s)
    ensures IsPath(next, run + [s]) && (run + [s])[|run|] == s && (run + [s])[0] == run[0]
  {
    forall i | 0 < i < |run| + 1 ensures StepAt(next, run + [s], i) {
      if i < |run| { assert StepAt(next, run, i); }
    }
  }

  ghost predicate Inductive<S(!new)>(init: S -> bool, next: (S, S) -> bool, inv: S -> bool) {
    && (forall s | init(s) :: inv(s))
    && (forall s, s' | inv(s) && next(s, s') :: inv(s'))
  }

  /** An inductive predicate holds in every state of every run. */
  lemma {:induction false} InvariantHolds<S(!new)>(
    init: S -> bool, next: (S, S) -> bool, inv: S -> bool, run: seq<S>, i: nat)
    requires Inductive(init, next, inv)
    requires IsRun(init, next, run)
    requires i < |run|
    ensures inv(run[i])
  {
    if i > 0 {
      InvariantHolds(init, next, inv, run, i - 1);
      assert StepAt(next, run, i);
    }
  }

  /** A reflexive and transitive relation kept by every step from an invariant
      state relates any earlier state of a run to any later one. */
  lemma {:induction false} RelationHolds<S(!new)>(
    init: S -> bool, next: (S, S) -> bool, inv: S -> bool, rel: (S, S) -> bool,
    run: seq<S>, i: nat, j: nat)
    requires Inductive(init, next, inv)
    requires forall s :: rel(s, s)
    requires forall s, t, u | rel(s, t) && rel(t, u) :: rel(s, u)
    requires forall s, s' | inv(s) && next(s, s') :: rel(s, s')
    requires IsRun(init, next, run)
    requires i <= j < |run|
    ensures rel(run[i], run[j])
    decreases j - i
  {
    if i < j {
      RelationHolds(init, next, inv, rel, run, i, j - 1);
      InvariantHolds(init, next, inv, run, j - 1);
      assert StepAt(next, run, j);
    }
  }
}
