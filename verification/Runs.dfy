/** The state that a machine reaches from another one by a list of events. */
module Runs {
  ghost function After<S, E>(step: (S, E) -> S, s: S, es: seq<E>): S
    decreases |es|
  {
    if es == [] then s else After(step, step(s, es[0]), es[1..])
  }

  lemma {:induction false} AfterThen<S, E>(step: (S, E) -> S, s: S, es: seq<E>, more: seq<E>)
    ensures After(step, s, es + more) == After(step, After(step, s, es), more)
    decreases |es|
  {
    if es == [] {
      assert es + more == more;
    } else {
      assert (es + more)[0] == es[0] && (es + more)[1..] == es[1..] + more;
      AfterThen(step, step(s, es[0]), es[1..], more);
    }
  }

  lemma {:induction false} AfterOne<S, E>(step: (S, E) -> S, s: S, e: E)
    ensures After(step, s, [e]) == step(s, e)
  {
    assert [e][1..] == [];
  }

  lemma {:induction false} AfterFirst<S, E>(step: (S, E) -> S, s: S, e: E, es: seq<E>)
    ensures After(step, s, [e] + es) == After(step, step(s, e), es)
  {
    AfterOne(step, s, e);
    AfterThen(step, s, [e], es);
  }

  lemma {:induction false} AfterLast<S, E>(step: (S, E) -> S, s: S, es: seq<E>, e: E)
    ensures After(step, s, es + [e]) == step(After(step, s, es), e)
  {
    AfterThen(step, s, es, [e]);
    AfterOne(step, After(step, s, es), e);
  }
}
