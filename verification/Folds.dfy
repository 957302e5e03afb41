/** Running a list of steps from the left. */
module Folds {

  function Fold<S, T>(step: (S, T) -> S, start: S, log: seq<T>): S {
    if log == [] then start else step(Fold(step, start, log[..|log| - 1]), log[|log| - 1])
  }

  lemma FoldOne<S, T>(step: (S, T) -> S, start: S, t: T)
    ensures Fold(step, start, [t]) == step(start, t)
  {
  }

  lemma FoldMore<S, T>(step: (S, T) -> S, start: S, log: seq<T>, t: T)
    ensures Fold(step, start, log + [t]) == step(Fold(step, start, log), t)
  {
  }

  lemma {:induction false} FoldConcat<S, T>(step: (S, T) -> S, start: S, first: seq<T>, second: seq<T>)
    ensures Fold(step, start, first + second) == Fold(step, Fold(step, start, first), second)
  {
    if second == [] {
      assert first + second == first;
    } else {
      var last := |second| - 1;
      FoldConcat(step, start, first, second[..last]);
      assert first + second == first + second[..last] + [second[last]];
      FoldMore(step, start, first + second[..last], second[last]);
    }
  }
}
