/** Going through a sequence from its first member on. */
module Folding {

  function Fold<S, T>(step: (S, T) -> S, s: S, xs: seq<T>): S {
    if xs == [] then s else step(Fold(step, s, xs[..|xs| - 1]), xs[|xs| - 1])
  }

  lemma {:induction false} FoldInTwo<S, T>(step: (S, T) -> S, s: S, first: seq<T>, rest: seq<T>)
    ensures Fold(step, s, first + rest) == Fold(step, Fold(step, s, first), rest)
    decreases |rest|
  {
    if rest == [] {
      assert first + rest == first;
    } else {
      var n := |rest| - 1;
      FoldInTwo(step, s, first, rest[..n]);
      assert (first + rest)[..|first| + n] == first + rest[..n];
    }
  }
}
