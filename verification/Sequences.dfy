/** Subsequences and weighted sums over sequences. */
module Sequences {

  /** What was appended since `a`. */
  lemma SinceAppends<T>(a: seq<T>, b: seq<T>, c: seq<T>)
    requires a <= b <= c
    ensures c[|a|..] == b[|a|..] + c[|b|..]
  {
  }

  lemma Associates<T>(a: seq<T>, b: seq<T>, c: seq<T>)
    ensures (a + b) + c == a + (b + c)
  {
  }

  // ------------------------------------------------------------ subsequences

  /** `a` is `b` with some elements left out. */
  ghost predicate IsSubsequence<T>(a: seq<T>, b: seq<T>)
    decreases |b|
  {
    || a == []
    || (b != [] && IsSubsequence(a, b[..|b| - 1]))
    || (b != [] && a[|a| - 1] == b[|b| - 1] && IsSubsequence(a[..|a| - 1], b[..|b| - 1]))
  }

  lemma SubsequenceSkip<T>(a: seq<T>, b: seq<T>, x: T)
    requires IsSubsequence(a, b)
    ensures IsSubsequence(a, b + [x])
  {
    assert (b + [x])[..|b|] == b;
  }

  lemma SubsequenceTake<T>(a: seq<T>, b: seq<T>, x: T)
    requires IsSubsequence(a, b)
    ensures IsSubsequence(a + [x], b + [x])
  {
    assert (b + [x])[..|b|] == b && (a + [x])[..|a|] == a;
  }

  lemma {:induction false} SubsequenceMember<T>(a: seq<T>, b: seq<T>, x: T)
    requires IsSubsequence(a, b) && x in a
    ensures x in b
    decreases |b|
  {
    var b' := b[..|b| - 1];
    if IsSubsequence(a, b') {
      SubsequenceMember(a, b', x);
    } else if x != a[|a| - 1] {
      assert x in a[..|a| - 1];
      SubsequenceMember(a[..|a| - 1], b', x);
    }
  }

  ghost predicate Distinct<T>(s: seq<T>) {
    forall i, j :: 0 <= i < j < |s| ==> s[i] != s[j]
  }

  /** A subsequence of a sequence without repetition keeps its order. */
  lemma {:induction false} SubsequenceOrder<T>(a: seq<T>, s: seq<T>, i: nat, j: nat, p: nat, q: nat)
    requires IsSubsequence(a, s) && Distinct(s)
    requires i < j < |a| && p < |s| && q < |s|
    requires a[i] == s[p] && a[j] == s[q]
    ensures p < q
    decreases |s|
  {
    var n := |s| - 1;
    var s' := s[..n];
    if IsSubsequence(a, s') {
      SubsequenceMember(a, s', a[i]);
      SubsequenceMember(a, s', a[j]);
      SubsequenceOrder(a, s', i, j, p, q);
    } else {
      var a' := a[..|a| - 1];
      assert a[i] == a'[i] && a[i] in a';
      SubsequenceMember(a', s', a[i]);
      assert p < n;
      if j < |a| - 1 {
        assert a[j] == a'[j] && a[j] in a';
        SubsequenceMember(a', s', a[j]);
        SubsequenceOrder(a', s', i, j, p, q);
      }
    }
  }

  /** The elements of `s` that `p` keeps, in order. */
  ghost function Keep<T>(s: seq<T>, p: T -> bool): seq<T> {
    if s == [] then []
    else
      var front := Keep(s[..|s| - 1], p);
      if p(s[|s| - 1]) then front + [s[|s| - 1]] else front
  }

  lemma KeepAppend<T>(s: seq<T>, p: T -> bool, x: T)
    ensures Keep(s + [x], p) == if p(x) then Keep(s, p) + [x] else Keep(s, p)
  {
    assert (s + [x])[..|s|] == s;
  }

  /** What is kept is an in-order part of the sequence, and of each element as many
      copies as there were, or none. */
  lemma {:induction false} KeepExact<T>(s: seq<T>, p: T -> bool)
    ensures IsSubsequence(Keep(s, p), s)
    ensures forall x :: multiset(Keep(s, p))[x] == if p(x) then multiset(s)[x] else 0
  {
    if s != [] {
      var front, x := s[..|s| - 1], s[|s| - 1];
      KeepExact(front, p);
      assert s == front + [x];
      if p(x) { SubsequenceTake(Keep(front, p), front, x); } else { SubsequenceSkip(Keep(front, p), front, x); }
    }
  }

  lemma {:induction false} KeepMonotone<T>(a: seq<T>, b: seq<T>, p: T -> bool)
    requires IsSubsequence(a, b)
    ensures IsSubsequence(Keep(a, p), Keep(b, p))
    decreases |b|
  {
    if a != [] {
      var b', x := b[..|b| - 1], b[|b| - 1];
      if IsSubsequence(a, b') {
        KeepMonotone(a, b', p);
        SubsequenceSkip(Keep(a, p), Keep(b', p), x);
      } else {
        KeepMonotone(a[..|a| - 1], b', p);
        if p(x) { SubsequenceTake(Keep(a[..|a| - 1], p), Keep(b', p), x); }
      }
    }
  }

  // --------------------------------------------------------------- sums

  ghost function Sum<T>(xs: seq<T>, w: T -> nat): nat {
    if xs == [] then 0 else Sum(xs[..|xs| - 1], w) + w(xs[|xs| - 1])
  }

  lemma SumAppend<T>(xs: seq<T>, w: T -> nat, x: T)
    ensures Sum(xs + [x], w) == Sum(xs, w) + w(x)
  {
    assert (xs + [x])[..|xs|] == xs;
  }

  lemma {:induction false} SumUpdate<T>(xs: seq<T>, w: T -> nat, i: nat, x: T)
    requires i < |xs|
    ensures Sum(xs[i := x], w) + w(xs[i]) == Sum(xs, w) + w(x)
  {
    var n := |xs| - 1;
    if i == n {
      assert xs[i := x][..n] == xs[..n];
    } else {
      SumUpdate(xs[..n], w, i, x);
      assert xs[i := x][..n] == xs[..n][i := x];
    }
  }

  /** Weights that add up element by element have sums that add up. */
  lemma {:induction false} SumSplit<T>(xs: seq<T>, w: T -> nat, u: T -> nat, v: T -> nat)
    requires forall i | 0 <= i < |xs| :: w(xs[i]) == u(xs[i]) + v(xs[i])
    ensures Sum(xs, w) == Sum(xs, u) + Sum(xs, v)
  {
    if xs != [] {
      SumSplit(xs[..|xs| - 1], w, u, v);
    }
  }

  lemma {:induction false} SumSame<T>(xs: seq<T>, w: T -> nat, u: T -> nat)
    requires forall i | 0 <= i < |xs| :: w(xs[i]) == u(xs[i])
    ensures Sum(xs, w) == Sum(xs, u)
  {
    if xs != [] {
      SumSame(xs[..|xs| - 1], w, u);
    }
  }
}
