/** Iterating a step, and what a step that keeps a property or a relation does for whole runs. */
module Runs {

  /** `n` steps from `s`; the step knows how many came before it. */
  function Iterate<T>(step: (nat, T) -> T, s: T, n: nat): T {
    if n == 0 then s else step(n - 1, Iterate(step, s, n - 1))
  }

  ghost predicate Keeps<T(!new)>(step: (nat, T) -> T, inv: (nat, T) -> bool) {
    forall i: nat, x: T :: inv(i, x) ==> inv(i + 1, step(i, x))
  }

  lemma {:induction false} RunKeeps<T(!new)>(step: (nat, T) -> T, inv: (nat, T) -> bool, s: T, n: nat)
    requires inv(0, s) && Keeps(step, inv)
    ensures inv(n, Iterate(step, s, n))
  {
    if n > 0 {
      RunKeeps(step, inv, s, n - 1);
    }
  }

  ghost predicate KeepsBoth<S(!new), T(!new)>(left: (nat, S) -> S, right: (nat, T) -> T, rel: (nat, S, T) -> bool) {
    forall i: nat, x: S, y: T :: rel(i, x, y) ==> rel(i + 1, left(i, x), right(i, y))
  }

  lemma {:induction false} RunsKeepBoth<S(!new), T(!new)>(left: (nat, S) -> S, right: (nat, T) -> T,
                                                          rel: (nat, S, T) -> bool, s: S, t: T, n: nat)
    requires rel(0, s, t) && KeepsBoth(left, right, rel)
    ensures rel(n, Iterate(left, s, n), Iterate(right, t, n))
  {
    if n > 0 {
      RunsKeepBoth(left, right, rel, s, t, n - 1);
    }
  }
}
