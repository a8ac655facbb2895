/** Runs of any machine given by a step function: how their pieces fit together. */
module Trace {

  ghost function Last<S, E>(step: (S, E) -> S, s: S, events: seq<E>): S {
    if events == [] then s else step(Last(step, s, events[..|events| - 1]), events[|events| - 1])
  }

  ghost predicate AllEnabled<S, E>(enabled: (S, E) -> bool, step: (S, E) -> S, s: S, events: seq<E>) {
    events == [] ||
    (AllEnabled(enabled, step, s, events[..|events| - 1])
     && enabled(Last(step, s, events[..|events| - 1]), events[|events| - 1]))
  }

  /** Two runs in a row are a run. */
  lemma {:induction false} Concat<S, E>(enabled: (S, E) -> bool, step: (S, E) -> S, s: S, a: seq<E>, b: seq<E>)
    requires AllEnabled(enabled, step, s, a) && AllEnabled(enabled, step, Last(step, s, a), b)
    ensures AllEnabled(enabled, step, s, a + b) && Last(step, s, a + b) == Last(step, Last(step, s, a), b)
  {
    if b == [] {
      assert a + b == a;
    } else {
      var m := |b| - 1;
      Concat(enabled, step, s, a, b[..m]);
      assert (a + b)[..|a| + m] == a + b[..m];
    }
  }

  lemma Two<S, E>(enabled: (S, E) -> bool, step: (S, E) -> S, s: S, e: E, f: E)
    requires enabled(s, e) && enabled(step(s, e), f)
    ensures AllEnabled(enabled, step, s, [e, f]) && Last(step, s, [e, f]) == step(step(s, e), f)
  {
    var one, none: seq<E> := [e], [];
    assert one[..0] == none && Last(step, s, none) == s && AllEnabled(enabled, step, s, none);
    assert Last(step, s, one) == step(s, e) && AllEnabled(enabled, step, s, one);
    assert [e, f][..1] == one;
  }
}
