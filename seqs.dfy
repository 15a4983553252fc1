/** Sequence helpers shared by the Go and the Python scanners: flattening the
    per-reservation instance lists of a describe-instances reply, and the
    keep-some-and-map loops that build result lists. */
module Seqs {
  import opened Wrappers

  /** All inner sequences one after the other, in order. Defined from the
      back, like a loop that appends each inner sequence in turn. */
  function Flatten<T>(xss: seq<seq<T>>): seq<T>
  {
    if xss == [] then [] else Flatten(xss[..|xss| - 1]) + xss[|xss| - 1]
  }

  /** The sum of the lengths of the inner sequences. */
  function SumLengths<T>(xss: seq<seq<T>>): nat
  {
    if xss == [] then 0 else SumLengths(xss[..|xss| - 1]) + |xss[|xss| - 1]|
  }

  lemma {:induction false} FlattenLength<T>(xss: seq<seq<T>>)
    ensures |Flatten(xss)| == SumLengths(xss)
  {
    if xss != [] {
      FlattenLength(xss[..|xss| - 1]);
    }
  }

  /** Element j of inner sequence i sits in the flattening right after all
      the elements of the inner sequences before i. */
  lemma {:induction false} FlattenAt<T>(xss: seq<seq<T>>, i: nat, j: nat)
    requires i < |xss| && j < |xss[i]|
    ensures SumLengths(xss[..i]) + j < |Flatten(xss)|
    ensures Flatten(xss)[SumLengths(xss[..i]) + j] == xss[i][j]
  {
    var n := |xss| - 1;
    var init := xss[..n];
    FlattenLength(init);
    FlattenLength(xss);
    if i == n {
      assert xss[..i] == init;
    } else {
      assert init[..i] == xss[..i];
      FlattenAt(init, i, j);
    }
  }

  /** One more inner sequence, as a loop over a prefix sees it. */
  lemma FlattenStep<T>(xss: seq<seq<T>>, n: nat)
    requires n < |xss|
    ensures Flatten(xss[..n + 1]) == Flatten(xss[..n]) + xss[n]
  {
    assert xss[..n + 1][..n] == xss[..n];
  }

  /** Keeps, in order, the f-images of the elements that f maps to Some. */
  function FilterMap<A, B>(xs: seq<A>, f: A -> Option<B>): seq<B>
  {
    if xs == [] then []
    else
      var x := xs[|xs| - 1];
      FilterMap(xs[..|xs| - 1], f) + (if f(x).Some? then [f(x).value] else [])
  }

  /** One more element: it is kept at the end when f maps it to Some. */
  lemma FilterMapStep<A, B>(xs: seq<A>, x: A, f: A -> Option<B>)
    ensures FilterMap(xs + [x], f) == FilterMap(xs, f) + (if f(x).Some? then [f(x).value] else [])
  {
    assert (xs + [x])[..|xs|] == xs;
  }

  /** The same step, for a loop at index k of s. */
  lemma FilterMapSliceStep<A, B>(s: seq<A>, k: nat, f: A -> Option<B>)
    requires k < |s|
    ensures FilterMap(s[..k + 1], f) == FilterMap(s[..k], f) + (if f(s[k]).Some? then [f(s[k]).value] else [])
  {
    assert s[..k + 1][..k] == s[..k];
  }

  /** The same step, for a loop at index k of s after a prefix. */
  lemma FilterMapPrefixStep<A, B>(prefix: seq<A>, s: seq<A>, k: nat, f: A -> Option<B>)
    requires k < |s|
    ensures FilterMap(prefix + s[..k + 1], f) == FilterMap(prefix + s[..k], f) + (if f(s[k]).Some? then [f(s[k]).value] else [])
  {
    assert prefix + s[..k + 1] == (prefix + s[..k]) + [s[k]];
    FilterMapStep(prefix + s[..k], s[k], f);
  }

  lemma {:induction false} FilterMapAppend<A, B>(xs: seq<A>, ys: seq<A>, f: A -> Option<B>)
    ensures FilterMap(xs + ys, f) == FilterMap(xs, f) + FilterMap(ys, f)
  {
    if ys != [] {
      var n := |ys| - 1;
      assert (xs + ys)[..|xs + ys| - 1] == xs + ys[..n];
      FilterMapAppend(xs, ys[..n], f);
    } else {
      assert xs + ys == xs;
    }
  }

  /** One more inner sequence of a flattening, as a loop over a prefix sees it. */
  lemma FilterMapFlattenStep<A, B>(xss: seq<seq<A>>, n: nat, f: A -> Option<B>)
    requires n < |xss|
    ensures FilterMap(Flatten(xss[..n + 1]), f) == FilterMap(Flatten(xss[..n]), f) + FilterMap(xss[n], f)
  {
    FlattenStep(xss, n);
    FilterMapAppend(Flatten(xss[..n]), xss[n], f);
  }

  /** A loop that appends, in order, the f-image of each element that f
      keeps. */
  method AppendFilterMap<A, B>(acc: seq<B>, xs: seq<A>, f: A -> Option<B>) returns (r: seq<B>)
    ensures r == acc + FilterMap(xs, f)
  {
    r := acc;
    ghost var kept: seq<B> := [];
    for i := 0 to |xs|
      invariant kept == FilterMap(xs[..i], f)
      invariant r == acc + kept
    {
      FilterMapSliceStep(xs, i, f);
      var y := f(xs[i]);
      if y.Some? {
        r := r + [y.value];
        kept := kept + [y.value];
      }
    }
    assert xs[..|xs|] == xs;
  }

  /** The same over nested sequences: an outer loop over xss whose body is
      the loop of AppendFilterMap over one inner sequence. */
  method AppendFilterMapFlatten<A, B>(acc: seq<B>, xss: seq<seq<A>>, f: A -> Option<B>) returns (r: seq<B>)
    ensures r == acc + FilterMap(Flatten(xss), f)
  {
    r := acc;
    for n := 0 to |xss|
      invariant r == acc + FilterMap(Flatten(xss[..n]), f)
    {
      r := AppendFilterMap(r, xss[n], f);
      FilterMapFlattenStep(xss, n, f);
    }
    assert xss[..|xss|] == xss;
  }

  lemma {:induction false} FilterMapLength<A, B>(xs: seq<A>, f: A -> Option<B>)
    ensures |FilterMap(xs, f)| <= |xs|
  {
    if xs != [] {
      FilterMapLength(xs[..|xs| - 1], f);
    }
  }

  /** b is kept exactly when some element of xs is mapped to Some(b). */
  lemma {:induction false} FilterMapMember<A, B>(xs: seq<A>, f: A -> Option<B>, b: B)
    ensures b in FilterMap(xs, f) <==> exists i :: 0 <= i < |xs| && f(xs[i]) == Some(b)
  {
    if xs != [] {
      var n := |xs| - 1;
      FilterMapMember(xs[..n], f, b);
      if exists i :: 0 <= i < |xs| && f(xs[i]) == Some(b) {
        var i :| 0 <= i < |xs| && f(xs[i]) == Some(b);
        if i < n {
          assert xs[..n][i] == xs[i];
        }
      }
    }
  }
}
