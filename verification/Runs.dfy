/** Finite runs of a step machine: a first state, and each further state with the action that led to it. */
module Runs {
  datatype Run<S, A> = Start(first: S) | Then(before: Run<S, A>, action: A, state: S)

  function Last<S, A>(r: Run<S, A>): S {
    match r case Start(s) => s case Then(_, _, s) => s
  }

  /** `p` is `r` or an earlier part of it. */
  ghost predicate IsPrefix<S, A>(p: Run<S, A>, r: Run<S, A>) {
    p == r || (r.Then? && IsPrefix(p, r.before))
  }
}
