/** Finite runs of a step system: a start state and the steps taken after it, the latest outermost. */
module Runs {

  datatype History<S, A> = Start(init: S) | Then(before: History<S, A>, action: A)

  function Beginning<S, A>(r: History<S, A>): S {
    match r
    case Start(s) => s
    case Then(before, _) => Beginning(before)
  }

  /** `r` continues `r0`. */
  predicate Extends<S(==), A(==)>(r: History<S, A>, r0: History<S, A>) {
    r == r0 || (r.Then? && Extends(r.before, r0))
  }
}
