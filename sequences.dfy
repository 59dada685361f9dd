/** Order-preserving selection from a sequence, duplicate-freedom, and the
    sizes of nested sets. */
module Sequences {

  /** `xs` is `ys` with some elements left out, the others in their original order. */
  predicate Subsequence<T(==)>(xs: seq<T>, ys: seq<T>)
    decreases |ys|
  {
    xs == [] || (ys != [] && ((xs[0] == ys[0] && Subsequence(xs[1..], ys[1..])) || Subsequence(xs, ys[1..])))
  }

  /** Extending both sides by the same head, keeping it or leaving it out. */
  lemma SubsequenceCons<T>(x: T, xs: seq<T>, ys: seq<T>, keep: bool)
    requires Subsequence(xs, ys)
    ensures Subsequence((if keep then [x] else []) + xs, [x] + ys)
  {
    assert ([x] + ys)[1..] == ys;
    if keep {
      assert ([x] + xs)[1..] == xs;
    } else {
      assert [] + xs == xs;
    }
  }

  lemma {:induction false} SubsequenceMembers<T>(xs: seq<T>, ys: seq<T>)
    requires Subsequence(xs, ys)
    ensures forall x :: x in xs ==> x in ys
    ensures |xs| <= |ys|
    decreases |ys|
  {
    if xs != [] {
      if xs[0] == ys[0] && Subsequence(xs[1..], ys[1..]) {
        SubsequenceMembers(xs[1..], ys[1..]);
        assert xs == [xs[0]] + xs[1..];
        assert ys == [ys[0]] + ys[1..];
      } else {
        SubsequenceMembers(xs, ys[1..]);
        assert ys == [ys[0]] + ys[1..];
      }
    }
  }

  /** Splitting a concatenation inside its left operand. */
  lemma AppendSplit<T>(t: seq<T>, u: seq<T>, k: nat)
    requires k <= |t|
    ensures (t + u)[..k] == t[..k]
    ensures (t + u)[k..] == t[k..] + u
  {
  }

  /** Appending to a sequence keeps its prefixes and extends its suffix. */
  lemma PrefixAppend<T>(c: seq<T>, t: seq<T>, u: seq<T>)
    requires c <= t
    ensures c <= t + u
    ensures (t + u)[|c|..] == t[|c|..] + u
  {
    AppendSplit(t, u, |c|);
  }

  predicate NoDuplicates<T(==)>(s: seq<T>) {
    forall i, j :: 0 <= i < j < |s| ==> s[i] != s[j]
  }

  lemma SubsetNotLarger<T>(a: set<T>, b: set<T>)
    requires a <= b
    ensures |a| <= |b|
  {
    assert b == a + (b - a);
    assert a * (b - a) == {};
  }

  lemma ProperSubsetSmaller<T>(a: set<T>, b: set<T>)
    requires a < b
    ensures |a| < |b|
  {
    var extra := b - a;
    assert b == a + extra;
    assert a * extra == {};
    var x :| x in extra;
  }
}
