/** Counting the members of a sequence that satisfy a predicate. */
module Counting {

  function Count<T>(xs: seq<T>, p: T -> bool): nat {
    if xs == [] then 0
    else Count(xs[..|xs| - 1], p) + if p(xs[|xs| - 1]) then 1 else 0
  }

  lemma {:induction false} CountUpdate<T>(xs: seq<T>, w: nat, to: T, p: T -> bool)
    requires w < |xs|
    ensures Count(xs[w := to], p) + (if p(xs[w]) then 1 else 0) == Count(xs, p) + if p(to) then 1 else 0
  {
    var n := |xs| - 1;
    if w < n {
      CountUpdate(xs[..n], w, to, p);
      assert xs[w := to][..n] == xs[..n][w := to];
    } else {
      assert xs[w := to][..n] == xs[..n];
    }
  }

  lemma CountAppend<T>(xs: seq<T>, x: T, p: T -> bool)
    ensures Count(xs + [x], p) == Count(xs, p) + if p(x) then 1 else 0
  {
    assert (xs + [x])[..|xs|] == xs;
  }

  lemma {:induction false} CountSome<T>(xs: seq<T>, p: T -> bool)
    ensures Count(xs, p) > 0 <==> exists w :: 0 <= w < |xs| && p(xs[w])
  {
    if xs != [] {
      var n := |xs| - 1;
      CountSome(xs[..n], p);
      if Count(xs[..n], p) > 0 {
        var w :| 0 <= w < n && p(xs[..n][w]);
        assert p(xs[w]);
      }
      if w :| 0 <= w < |xs| && p(xs[w]) {
        assert w < n ==> p(xs[..n][w]);
      }
    }
  }
}
