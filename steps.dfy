/** Running an ordered list of steps over a state, where the first step that
    fails stops the run: the shape of a Rails before-filter chain (a filter
    that renders halts it) and of a controller action whose statements each
    update a builder or `raise`. */
module Steps {
  import opened Wrappers

  /** One step applied to the state so far; a failure is passed on untouched. */
  function Then<S, A, E>(acc: Result<A, E>, step: S, apply: (S, A) -> Result<A, E>): Result<A, E>
  {
    match acc
    case Failure(_) => acc
    case Success(a) => apply(step, a)
  }

  /** The steps applied in order, left to right. */
  function Fold<S, A, E>(steps: seq<S>, acc: Result<A, E>, apply: (S, A) -> Result<A, E>): Result<A, E>
    decreases |steps|
  {
    if steps == [] then acc else Fold(steps[1..], Then(acc, steps[0], apply), apply)
  }

  /** Once a step has failed, no later step runs and the failure is the result. */
  lemma {:induction false} FailureIsFinal<S, A, E>(steps: seq<S>, e: E, apply: (S, A) -> Result<A, E>)
    ensures Fold(steps, Failure(e), apply) == Failure(e)
    decreases |steps|
  {
    if steps != [] {
      FailureIsFinal(steps[1..], e, apply);
    }
  }

  /** Running `[x] + rest` is running `x`, then `rest`. */
  lemma FoldCons<S, A, E>(x: S, rest: seq<S>, acc: Result<A, E>, apply: (S, A) -> Result<A, E>)
    ensures Fold([x] + rest, acc, apply) == Fold(rest, Then(acc, x, apply), apply)
  {
  }

  /** Four steps, one after the other. */
  lemma FoldFour<S, A, E>(a: S, b: S, c: S, d: S, acc: Result<A, E>, apply: (S, A) -> Result<A, E>)
    ensures Fold([a, b, c, d], acc, apply) ==
            Then(Then(Then(Then(acc, a, apply), b, apply), c, apply), d, apply)
  {
    assert [a, b, c, d] == [a] + [b, c, d];
    FoldCons(a, [b, c, d], acc, apply);
    var acc1 := Then(acc, a, apply);
    assert [b, c, d] == [b] + [c, d];
    FoldCons(b, [c, d], acc1, apply);
    var acc2 := Then(acc1, b, apply);
    assert [c, d] == [c] + [d];
    FoldCons(c, [d], acc2, apply);
    var acc3 := Then(acc2, c, apply);
    assert [d] == [d] + [];
    FoldCons(d, [], acc3, apply);
  }

  /** Five steps, one after the other. */
  lemma FoldFive<S, A, E>(a: S, b: S, c: S, d: S, e: S, acc: Result<A, E>, apply: (S, A) -> Result<A, E>)
    ensures Fold([a, b, c, d, e], acc, apply) ==
            Then(Then(Then(Then(Then(acc, a, apply), b, apply), c, apply), d, apply), e, apply)
  {
    assert [a, b, c, d, e] == [a] + [b, c, d, e];
    FoldCons(a, [b, c, d, e], acc, apply);
    FoldFour(b, c, d, e, Then(acc, a, apply), apply);
  }

  /** Runs the steps one at a time and stops at the first failure. */
  method RunSteps<S, A, E>(steps: seq<S>, start: A, apply: (S, A) -> Result<A, E>) returns (r: Result<A, E>)
    ensures r == Fold(steps, Success(start), apply)
  {
    r := Success(start);
    var i := 0;
    while i < |steps| && r.Success?
      invariant 0 <= i <= |steps|
      invariant Fold(steps[i..], r, apply) == Fold(steps, Success(start), apply)
    {
      assert steps[i..] == [steps[i]] + steps[i + 1..];
      FoldCons(steps[i], steps[i + 1..], r, apply);
      r := apply(steps[i], r.value);
      i := i + 1;
    }
    if r.Failure? {
      FailureIsFinal(steps[i..], r.error, apply);
    } else {
      assert steps[i..] == [];
    }
  }
}
