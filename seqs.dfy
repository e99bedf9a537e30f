/** Generic facts about sequences used by the loops of the model: prefixes,
    element-wise predicates and relations, and concatenation of a mapped
    sequence. */
module Seqs {
  /** A prefix one longer is the prefix and the next element. */
  lemma TakeSnoc<T>(s: seq<T>, i: nat)
    requires i < |s|
    ensures s[..i + 1] == s[..i] + [s[i]]
  {
  }

  /** The whole prefix is the sequence. */
  lemma TakeAll<T>(s: seq<T>)
    ensures s[..|s|] == s
  {
  }

  /** Every element satisfies `p`. */
  predicate All<T>(xs: seq<T>, p: T -> bool) {
    forall i :: 0 <= i < |xs| ==> p(xs[i])
  }

  lemma AllAppend<T>(a: seq<T>, b: seq<T>, p: T -> bool)
    ensures All(a + b, p) <==> All(a, p) && All(b, p)
  {
    if All(a, p) && All(b, p) {
      forall i | |a| <= i < |a + b| ensures p((a + b)[i]) {
        assert (a + b)[i] == b[i - |a|];
      }
    }
    if All(a + b, p) {
      forall i | 0 <= i < |a| ensures p(a[i]) {
        assert (a + b)[i] == a[i];
      }
      forall i | 0 <= i < |b| ensures p(b[i]) {
        assert (a + b)[|a| + i] == b[i];
      }
    }
  }

  /** The two sequences have the same length and are related element by
      element. */
  predicate Pointwise<A, B>(xs: seq<A>, ys: seq<B>, rel: (A, B) -> bool) {
    |xs| == |ys| && forall i :: 0 <= i < |xs| ==> rel(xs[i], ys[i])
  }

  lemma PointwiseAppend<A, B>(x1: seq<A>, x2: seq<A>, y1: seq<B>, y2: seq<B>, rel: (A, B) -> bool)
    requires Pointwise(x1, y1, rel) && Pointwise(x2, y2, rel)
    ensures Pointwise(x1 + x2, y1 + y2, rel)
  {
    forall i | |x1| <= i < |x1 + x2| ensures rel((x1 + x2)[i], (y1 + y2)[i]) {
      assert (x1 + x2)[i] == x2[i - |x1|] && (y1 + y2)[i] == y2[i - |x1|];
    }
  }

  lemma AllSingle<T>(x: T, p: T -> bool)
    ensures All([x], p) <==> p(x)
  {
    assert [x][0] == x;
  }

  lemma PointwiseSingle<A, B>(x: A, y: B, rel: (A, B) -> bool)
    requires rel(x, y)
    ensures Pointwise([x], [y], rel)
  {
  }

  /** The concatenation of `f(x)` over the elements `x` of `xs`, in order. */
  function Concat<A, B>(xs: seq<A>, f: A -> seq<B>): seq<B> {
    if xs == [] then [] else Concat(xs[..|xs| - 1], f) + f(xs[|xs| - 1])
  }

  lemma ConcatSnoc<A, B>(xs: seq<A>, i: nat, f: A -> seq<B>)
    requires i < |xs|
    ensures Concat(xs[..i + 1], f) == Concat(xs[..i], f) + f(xs[i])
  {
    assert xs[..i + 1][..i] == xs[..i];
  }

  lemma {:induction false} ConcatAppend<A, B>(a: seq<A>, b: seq<A>, f: A -> seq<B>)
    ensures Concat(a + b, f) == Concat(a, f) + Concat(b, f)
    decreases |b|
  {
    if b == [] {
      assert a + b == a;
    } else {
      var n := |b| - 1;
      assert (a + b)[..|a + b| - 1] == a + b[..n];
      ConcatAppend(a, b[..n], f);
    }
  }

  /** Whatever one element contributes appears in the concatenation. */
  lemma {:induction false} ConcatContains<A, B>(xs: seq<A>, i: nat, f: A -> seq<B>)
    requires i < |xs|
    ensures forall y :: y in f(xs[i]) ==> y in Concat(xs, f)
    decreases |xs|
  {
    var n := |xs| - 1;
    if i < n {
      assert xs[..n][i] == xs[i];
      ConcatContains(xs[..n], i, f);
    }
  }

  /** An element whose contribution breaks `p` breaks it for the whole
      concatenation. */
  lemma ConcatBreaks<A, B>(xs: seq<A>, i: nat, f: A -> seq<B>, p: B -> bool)
    requires i < |xs| && !All(f(xs[i]), p)
    ensures !All(Concat(xs, f), p)
  {
    assert xs == xs[..i] + [xs[i]] + xs[i + 1..];
    ConcatAppend(xs[..i], [xs[i]], f);
    ConcatAppend(xs[..i] + [xs[i]], xs[i + 1..], f);
    assert Concat([xs[i]], f) == f(xs[i]) by {
      assert [xs[i]][..0] == [];
    }
    AllAppend(Concat(xs[..i], f), f(xs[i]), p);
    AllAppend(Concat(xs[..i] + [xs[i]], f), Concat(xs[i + 1..], f), p);
  }

  lemma ConcatOne<A, B>(x: A, f: A -> seq<B>)
    ensures Concat([x], f) == f(x)
  {
    assert [x][..0] == [];
  }
}
