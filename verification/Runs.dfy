/** Runs of a protocol on the single event loop.

    Code between two suspension points is one atomic step, so a protocol is a state, a set of
    events, a guard saying when an event can happen and a function giving the next state.  A run
    lists the events that happened, the newest one outermost. */
module Runs {

  datatype Run<E> = Start | Then(before: Run<E>, event: E)

  /** `later` continues `earlier` by zero or more events. */
  ghost predicate Extends<E(!new)>(later: Run<E>, earlier: Run<E>) {
    later == earlier || (later.Then? && Extends(later.before, earlier))
  }

  lemma {:induction false} ExtendsFurther<E(!new)>(latest: Run<E>, later: Run<E>, earlier: Run<E>)
    requires Extends(latest, later) && Extends(later, earlier)
    ensures Extends(latest, earlier)
  {
    if latest != later {
      ExtendsFurther(latest.before, later, earlier);
    }
  }
}
