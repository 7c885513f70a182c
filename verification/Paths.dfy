/** Sequences of actions taken one after the other, for any step function. */
module Paths {
  import opened Basics

  /** Where the actions lead from `s`, if each can be taken when its turn comes. */
  function Fold<S, A>(step: (S, A) -> Option<S>, s: S, actions: seq<A>): Option<S> {
    if actions == [] then Some(s)
    else
      var last := |actions| - 1;
      var before := Fold(step, s, actions[..last]);
      if before.Some? then step(before.value, actions[last]) else None
  }

  function Repeat<A>(a: A, n: nat): seq<A> {
    if n == 0 then [] else Repeat(a, n - 1) + [a]
  }

  lemma FoldOne<S, A>(step: (S, A) -> Option<S>, s: S, actions: seq<A>, m: S, a: A)
    requires Fold(step, s, actions) == Some(m)
    ensures Fold(step, s, actions + [a]) == step(m, a)
  {
    assert (actions + [a])[..|actions|] == actions;
  }

  lemma {:induction false} FoldConcat<S, A>(step: (S, A) -> Option<S>, s: S, actions: seq<A>, m: S, more: seq<A>)
    requires Fold(step, s, actions) == Some(m)
    ensures Fold(step, s, actions + more) == Fold(step, m, more)
    decreases |more|
  {
    if more == [] {
      assert actions + more == actions;
    } else {
      var n := |more| - 1;
      FoldConcat(step, s, actions, m, more[..n]);
      assert (actions + more)[..|actions| + n] == actions + more[..n];
    }
  }

  lemma FoldAfter<S, A>(step: (S, A) -> Option<S>, s: S, a: A, rest: seq<A>)
    requires step(s, a).Some?
    ensures Fold(step, s, [a] + rest) == Fold(step, step(s, a).value, rest)
  {
    assert [a][..0] == [];
    FoldConcat(step, s, [a], step(s, a).value, rest);
  }
}
