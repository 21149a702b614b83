/** A fact about sequences shared by the histories below. */
module Seqs {

  /** The concatenation of `f(x)` over `xs`, in order. */
  function FlatMap<A, B>(f: A -> seq<B>, xs: seq<A>): seq<B> {
    if xs == [] then [] else FlatMap(f, xs[..|xs| - 1]) + f(xs[|xs| - 1])
  }

  lemma {:induction false} FlatMapConcat<A, B>(f: A -> seq<B>, xs: seq<A>, ys: seq<A>)
    ensures FlatMap(f, xs + ys) == FlatMap(f, xs) + FlatMap(f, ys)
  {
    if ys == [] {
      assert xs + ys == xs;
    } else {
      var last := |ys| - 1;
      assert (xs + ys)[..|xs| + last] == xs + ys[..last];
      assert (xs + ys)[|xs| + last] == ys[last];
      FlatMapConcat(f, xs, ys[..last]);
    }
  }

  lemma FlatMapOne<A, B>(f: A -> seq<B>, xs: seq<A>, y: A)
    ensures FlatMap(f, [y]) == f(y)
    ensures FlatMap(f, xs + [y]) == FlatMap(f, xs) + f(y)
  {
    assert [y][..0] == [] && FlatMap(f, [y]) == f(y);
    FlatMapConcat(f, xs, [y]);
  }

  /** An element that maps to nothing can be dropped. */
  lemma FlatMapDrop<A, B>(f: A -> seq<B>, xs: seq<A>, k: nat)
    requires k < |xs| && f(xs[k]) == []
    ensures FlatMap(f, xs[..k] + xs[k + 1..]) == FlatMap(f, xs)
  {
    hide FlatMap;
    var before, after := xs[..k], xs[k + 1..];
    assert xs[..k + 1] == before + [xs[k]];
    FlatMapOne(f, before, xs[k]);
    assert xs == xs[..k + 1] + after;
    FlatMapConcat(f, xs[..k + 1], after);
    FlatMapConcat(f, before, after);
  }

  lemma {:induction false} FlatMapNothing<A, B>(f: A -> seq<B>, xs: seq<A>)
    requires forall i :: 0 <= i < |xs| ==> f(xs[i]) == []
    ensures FlatMap(f, xs) == []
  {
    if xs != [] {
      FlatMapNothing(f, xs[..|xs| - 1]);
    }
  }

  lemma {:induction false} InFlatMap<A, B>(f: A -> seq<B>, xs: seq<A>, x: A, y: B)
    requires x in xs && y in f(x)
    ensures y in FlatMap(f, xs)
  {
    var last := |xs| - 1;
    if x != xs[last] {
      InFlatMap(f, xs[..last], x, y);
    }
  }
}
