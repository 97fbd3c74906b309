/** Weighted totals over sequences and order-preserving merges. */
module Sequences {

  /** The sum of `w(x)` over the elements of `s`. An indicator weight makes it a count. */
  function Total<T>(s: seq<T>, w: T -> nat): nat {
    if s == [] then 0 else Total(s[..|s| - 1], w) + w(s[|s| - 1])
  }

  lemma TotalAppend<T>(s: seq<T>, x: T, w: T -> nat)
    ensures Total(s + [x], w) == Total(s, w) + w(x)
  {
    assert (s + [x])[..|s|] == s;
  }

  lemma {:induction false} TotalConcat<T>(s: seq<T>, t: seq<T>, w: T -> nat)
    ensures Total(s + t, w) == Total(s, w) + Total(t, w)
  {
    if t == [] {
      assert s + t == s;
    } else {
      var t0, x := t[..|t| - 1], t[|t| - 1];
      assert s + t == (s + t0) + [x];
      TotalAppend(s + t0, x, w);
      TotalConcat(s, t0, w);
    }
  }

  lemma TotalFirst<T>(s: seq<T>, w: T -> nat)
    requires s != []
    ensures Total(s, w) == w(s[0]) + Total(s[1..], w)
  {
    assert s == [s[0]] + s[1..];
    TotalConcat([s[0]], s[1..], w);
    TotalAppend([], s[0], w);
    assert [] + [s[0]] == [s[0]];
  }

  /** A prefix never weighs more than the whole. */
  lemma TotalPrefix<T>(s: seq<T>, t: seq<T>, w: T -> nat)
    requires s <= t
    ensures Total(s, w) <= Total(t, w)
  {
    assert t == s + t[|s|..];
    TotalConcat(s, t[|s|..], w);
  }

  /** `zs` interleaves `xs` and `ys`, keeping the order inside each of them. */
  ghost predicate IsMerge<T>(zs: seq<T>, xs: seq<T>, ys: seq<T>)
    decreases |zs|
  {
    if zs == [] then xs == [] && ys == []
    else
      var z0, z := zs[..|zs| - 1], zs[|zs| - 1];
      || (xs != [] && xs[|xs| - 1] == z && IsMerge(z0, xs[..|xs| - 1], ys))
      || (ys != [] && ys[|ys| - 1] == z && IsMerge(z0, xs, ys[..|ys| - 1]))
  }

  lemma MergeAppendLeft<T>(zs: seq<T>, xs: seq<T>, ys: seq<T>, x: T)
    requires IsMerge(zs, xs, ys)
    ensures IsMerge(zs + [x], xs + [x], ys)
  {
    assert (zs + [x])[..|zs|] == zs && (xs + [x])[..|xs|] == xs;
  }

  lemma MergeAppendRight<T>(zs: seq<T>, xs: seq<T>, ys: seq<T>, y: T)
    requires IsMerge(zs, xs, ys)
    ensures IsMerge(zs + [y], xs, ys + [y])
  {
    assert (zs + [y])[..|zs|] == zs && (ys + [y])[..|ys|] == ys;
  }

  /** A merge has exactly the elements of its two sides. */
  lemma {:induction false} MergeTotal<T>(zs: seq<T>, xs: seq<T>, ys: seq<T>, w: T -> nat)
    requires IsMerge(zs, xs, ys)
    ensures Total(zs, w) == Total(xs, w) + Total(ys, w)
    ensures |zs| == |xs| + |ys|
    decreases |zs|
  {
    if zs != [] {
      var z0, z := zs[..|zs| - 1], zs[|zs| - 1];
      if xs != [] && xs[|xs| - 1] == z && IsMerge(z0, xs[..|xs| - 1], ys) {
        MergeTotal(z0, xs[..|xs| - 1], ys, w);
      } else {
        MergeTotal(z0, xs, ys[..|ys| - 1], w);
      }
    }
  }
}
