/** Runs of a system given by its steps. */
module Runs {
  /** The `i`-th step of a run. */
  ghost predicate StepAt<S(!new)>(step: (S, S) -> bool, run: seq<S>, i: int)
    requires 0 <= i < |run| - 1
  {
    step(run[i], run[i + 1])
  }

  ghost predicate Follows<S(!new)>(step: (S, S) -> bool, run: seq<S>) {
    |run| > 0 && forall i :: 0 <= i < |run| - 1 ==> StepAt(step, run, i)
  }

  ghost predicate LeadsTo<S(!new)>(step: (S, S) -> bool, s: S, t: S) {
    exists run :: Follows(step, run) && run[0] == s && run[|run| - 1] == t
  }

  lemma Longer<S(!new)>(step: (S, S) -> bool, run: seq<S>, t: S)
    requires Follows(step, run) && step(run[|run| - 1], t)
    ensures Follows(step, run + [t])
  {
    forall i | 0 <= i < |run|
      ensures StepAt(step, run + [t], i)
    {
      assert i < |run| - 1 ==> StepAt(step, run, i);
    }
  }

  lemma Stay<S(!new)>(step: (S, S) -> bool, s: S)
    ensures LeadsTo(step, s, s)
  {
    assert Follows(step, [s]);
  }

  lemma OneMore<S(!new)>(step: (S, S) -> bool, s: S, t: S, u: S)
    requires LeadsTo(step, s, t) && step(t, u)
    ensures LeadsTo(step, s, u)
  {
    var run :| Follows(step, run) && run[0] == s && run[|run| - 1] == t;
    Longer(step, run, u);
    assert (run + [u])[0] == s;
  }

  lemma OneBefore<S(!new)>(step: (S, S) -> bool, s: S, t: S, u: S)
    requires step(s, t) && LeadsTo(step, t, u)
    ensures LeadsTo(step, s, u)
  {
    var run :| Follows(step, run) && run[0] == t && run[|run| - 1] == u;
    forall i | 0 <= i < |run|
      ensures StepAt(step, [s] + run, i)
    {
      assert i > 0 ==> StepAt(step, run, i - 1);
    }
    assert Follows(step, [s] + run);
  }

  lemma Wider<S(!new)>(step: (S, S) -> bool, wider: (S, S) -> bool, s: S, t: S)
    requires LeadsTo(step, s, t) && forall u, v :: step(u, v) ==> wider(u, v)
    ensures LeadsTo(wider, s, t)
  {
    var run :| Follows(step, run) && run[0] == s && run[|run| - 1] == t;
    assert forall i :: 0 <= i < |run| - 1 ==> StepAt(step, run, i) ==> StepAt(wider, run, i);
    assert Follows(wider, run);
  }

  /** What every step keeps holds wherever it leads. */
  lemma {:induction false} KeptAlong<S(!new)>(step: (S, S) -> bool, keep: S -> bool, run: seq<S>, k: nat)
    requires Follows(step, run) && k < |run| && keep(run[0])
    requires forall u, v :: step(u, v) && keep(u) ==> keep(v)
    ensures keep(run[k])
  {
    if k > 0 {
      KeptAlong(step, keep, run, k - 1);
      assert StepAt(step, run, k - 1);
    }
  }
}
