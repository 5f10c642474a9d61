/**
 * Dispatching a sequence of actions into a reducer, one after the other, as
 * `useReducer`'s `dispatch` does. Both contexts' traces are run through this fold.
 */
module Dispatching {

  /** The state after dispatching `actions` in order into `reduce`, starting from `s`. */
  function Fold<S, A>(reduce: (S, A) -> S, s: S, actions: seq<A>): S
  {
    if actions == [] then s
    else reduce(Fold(reduce, s, actions[..|actions| - 1]), actions[|actions| - 1])
  }

  lemma FoldOne<S, A>(reduce: (S, A) -> S, s: S, a: A)
    ensures Fold(reduce, s, [a]) == reduce(s, a)
  {
    assert [a][..0] == [];
  }

  lemma FoldTwo<S, A>(reduce: (S, A) -> S, s: S, a: A, b: A)
    ensures Fold(reduce, s, [a, b]) == reduce(reduce(s, a), b)
  {
    assert [a, b][..1] == [a];
    FoldOne(reduce, s, a);
  }

  /** Dispatching two action sequences one after the other is dispatching their concatenation. */
  lemma {:induction false} FoldConcat<S, A>(reduce: (S, A) -> S, s: S, first: seq<A>, second: seq<A>)
    ensures Fold(reduce, s, first + second) == Fold(reduce, Fold(reduce, s, first), second)
  {
    if second == [] {
      assert first + second == first;
    } else {
      var init := second[..|second| - 1];
      FoldConcat(reduce, s, first, init);
      assert (first + second)[..|first + second| - 1] == first + init;
    }
  }
}
