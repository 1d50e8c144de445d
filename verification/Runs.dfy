/** Runs of any state machine. */
module Runs {

  /** Every step is allowed when it is taken. */
  predicate Can<S, A>(ok: (S, A) -> bool, next: (S, A) -> S, s: S, steps: seq<A>)
    decreases steps
  {
    steps != [] ==> ok(s, steps[0]) && Can(ok, next, next(s, steps[0]), steps[1..])
  }

  function Iterate<S, A>(next: (S, A) -> S, s: S, steps: seq<A>): S
    decreases steps
  {
    if steps == [] then s else Iterate(next, next(s, steps[0]), steps[1..])
  }

  lemma {:induction false} Concat<S, A>(ok: (S, A) -> bool, next: (S, A) -> S, s: S, a: seq<A>, b: seq<A>)
    ensures Iterate(next, s, a + b) == Iterate(next, Iterate(next, s, a), b)
    ensures Can(ok, next, s, a + b) <==> Can(ok, next, s, a) && Can(ok, next, Iterate(next, s, a), b)
    decreases a
  {
    if a == [] {
      assert a + b == b;
    } else {
      assert (a + b)[0] == a[0] && (a + b)[1..] == a[1..] + b;
      Concat(ok, next, next(s, a[0]), a[1..], b);
    }
  }
}
