/** Running sums and order-preserving filters over sequences, with the facts the aggregations rely on. */
module Seqs {

  /** The total of `w` over `s`, accumulated from the left as a `+=` loop does. */
  function Sum<T>(s: seq<T>, w: T -> real): real
  {
    if s == [] then 0.0 else Sum(s[..|s| - 1], w) + w(s[|s| - 1])
  }

  /** The elements of `s` that satisfy `p`, in their original order. */
  function Filter<T>(s: seq<T>, p: T -> bool): (r: seq<T>)
    ensures |r| <= |s|
  {
    if s == [] then []
    else Filter(s[..|s| - 1], p) + (if p(s[|s| - 1]) then [s[|s| - 1]] else [])
  }

  /** The filter keeps exactly the elements that pass the test. */
  lemma {:induction false} FilterMembers<T>(s: seq<T>, p: T -> bool)
    ensures forall i :: 0 <= i < |Filter(s, p)| ==> Filter(s, p)[i] in s && p(Filter(s, p)[i])
    ensures forall i :: 0 <= i < |s| && p(s[i]) ==> s[i] in Filter(s, p)
  {
    if s != [] {
      var s', x := s[..|s| - 1], s[|s| - 1];
      assert s == s' + [x];
      FilterMembers(s', p);
      var f := Filter(s, p);
      assert f == Filter(s', p) + (if p(x) then [x] else []);
      forall i | 0 <= i < |f| ensures f[i] in s && p(f[i]) {
        if i < |Filter(s', p)| {
          assert f[i] == Filter(s', p)[i];
        }
      }
      forall i | 0 <= i < |s| && p(s[i]) ensures s[i] in f {
        if i < |s'| {
          assert s[i] == s'[i];
        }
      }
    }
  }

  lemma {:induction false} SumSingleton<T>(x: T, w: T -> real)
    ensures Sum([x], w) == w(x)
  {
    assert [x][..0] == [];
  }

  lemma {:induction false} FilterSingleton<T>(x: T, p: T -> bool)
    ensures Filter([x], p) == if p(x) then [x] else []
  {
    assert [x][..0] == [];
  }

  /** Summing a concatenation: the basis of batch-by-batch accumulation. */
  lemma {:induction false} SumAppend<T>(a: seq<T>, b: seq<T>, w: T -> real)
    ensures Sum(a + b, w) == Sum(a, w) + Sum(b, w)
  {
    if b == [] {
      assert a + b == a;
    } else {
      var b' := b[..|b| - 1];
      assert (a + b)[..|a + b| - 1] == a + b';
      SumAppend(a, b', w);
    }
  }

  lemma {:induction false} MultisetRemove<T>(s: seq<T>, k: nat)
    requires k < |s|
    ensures multiset(s) == multiset(s[..k] + s[k + 1..]) + multiset{s[k]}
  {
    assert s == s[..k] + [s[k]] + s[k + 1..];
  }

  /** Splitting a sum around one term. */
  lemma {:induction false} SumAround<T>(a: seq<T>, x: T, b: seq<T>, w: T -> real)
    ensures Sum(a + [x] + b, w) == Sum(a + b, w) + w(x)
  {
    SumAppend(a + [x], b, w);
    SumAppend(a, [x], w);
    SumAppend(a, b, w);
    SumSingleton(x, w);
  }

  /** Taking one term out of the middle of a sum. */
  lemma {:induction false} SumRemove<T>(s: seq<T>, k: nat, w: T -> real)
    requires k < |s|
    ensures Sum(s, w) == Sum(s[..k] + s[k + 1..], w) + w(s[k])
  {
    var a, x, b := s[..k], s[k], s[k + 1..];
    assert s == a + [x] + b;
    SumAround(a, x, b, w);
  }

  /** A sum does not depend on the order of its terms. */
  lemma {:induction false} SumPermutation<T>(a: seq<T>, b: seq<T>, w: T -> real)
    requires multiset(a) == multiset(b)
    ensures Sum(a, w) == Sum(b, w)
  {
    if b == [] {
      assert |a| == |multiset(a)| == 0;
    } else {
      var b', x := b[..|b| - 1], b[|b| - 1];
      assert b == b' + [x];
      assert multiset(b) == multiset(b') + multiset{x};
      assert x in multiset(a);
      var k :| 0 <= k < |a| && a[k] == x;
      var a' := a[..k] + a[k + 1..];
      MultisetRemove(a, k);
      assert multiset(a') + multiset{x} == multiset(b') + multiset{x};
      assert multiset(a') == multiset(b') by {
        assert multiset(a') == multiset(a') + multiset{x} - multiset{x};
        assert multiset(b') == multiset(b') + multiset{x} - multiset{x};
      }
      SumPermutation(a', b', w);
      SumRemove(a, k, w);
    }
  }

  /** Pointwise `w == u - v` carries over to the totals. */
  lemma {:induction false} SumDifference<T>(s: seq<T>, w: T -> real, u: T -> real, v: T -> real)
    requires forall x | x in s :: w(x) == u(x) - v(x)
    ensures Sum(s, w) == Sum(s, u) - Sum(s, v)
  {
    if s != [] {
      var s' := s[..|s| - 1];
      assert forall x | x in s' :: x in s;
      SumDifference(s', w, u, v);
    }
  }

  /** Non-negative terms give a non-negative total. */
  lemma {:induction false} SumNonnegative<T>(s: seq<T>, w: T -> real)
    requires forall x | x in s :: 0.0 <= w(x)
    ensures 0.0 <= Sum(s, w)
  {
    if s != [] {
      var s' := s[..|s| - 1];
      assert forall x | x in s' :: x in s;
      SumNonnegative(s', w);
    }
  }

  lemma {:induction false} FilterAppend<T>(a: seq<T>, b: seq<T>, p: T -> bool)
    ensures Filter(a + b, p) == Filter(a, p) + Filter(b, p)
  {
    if b == [] {
      assert a + b == a;
    } else {
      var b' := b[..|b| - 1];
      assert (a + b)[..|a + b| - 1] == a + b';
      FilterAppend(a, b', p);
    }
  }

  /** An element the filter drops can be taken out of the input. */
  lemma {:induction false} FilterSkips<T>(a: seq<T>, x: T, b: seq<T>, p: T -> bool)
    requires !p(x)
    ensures Filter(a + [x] + b, p) == Filter(a + b, p)
  {
    FilterAppend(a + [x], b, p);
    FilterAppend(a, [x], p);
    FilterAppend(a, b, p);
    FilterSingleton(x, p);
  }

  /** Summing a weight that is zero off `p` is summing over the filter. */
  lemma {:induction false} SumOfFilter<T>(s: seq<T>, p: T -> bool, w: T -> real, v: T -> real)
    requires forall x | x in s :: w(x) == if p(x) then v(x) else 0.0
    ensures Sum(s, w) == Sum(Filter(s, p), v)
  {
    if s != [] {
      var s', x := s[..|s| - 1], s[|s| - 1];
      assert forall y | y in s' :: y in s;
      SumOfFilter(s', p, w, v);
      var f' := Filter(s', p);
      assert x in s;
      assert Sum(s, w) == Sum(s', w) + w(x);
      if p(x) {
        assert Filter(s, p) == f' + [x];
        SumAppend(f', [x], v);
        SumSingleton(x, v);
        assert Sum(s, w) == Sum(f', v) + v(x);
      } else {
        assert Filter(s, p) == f';
        assert w(x) == 0.0;
      }
    }
  }

  /** How often `x` survives the filter: all of its occurrences if it satisfies `p`, none otherwise. */
  lemma {:induction false} FilterMultiplicity<T>(s: seq<T>, p: T -> bool, x: T)
    ensures multiset(Filter(s, p))[x] == if p(x) then multiset(s)[x] else 0
  {
    if s != [] {
      assert s == s[..|s| - 1] + [s[|s| - 1]];
      FilterMultiplicity(s[..|s| - 1], p, x);
    }
  }

  /** Two multisets of the same element type that count every element alike are equal. */
  lemma MultisetsAgree<T>(fa: multiset<T>, fb: multiset<T>)
    requires forall x :: fa[x] == fb[x]
    ensures fa == fb
  {
  }

  /** Filtering a reordering of `s` yields a reordering of the filtered `s`. */
  lemma {:induction false} FilterPermutation<T>(a: seq<T>, b: seq<T>, p: T -> bool)
    requires multiset(a) == multiset(b)
    ensures multiset(Filter(a, p)) == multiset(Filter(b, p))
  {
    var fa, fb := multiset(Filter(a, p)), multiset(Filter(b, p));
    forall x ensures fa[x] == fb[x] {
      FilterMultiplicity(a, p, x);
      FilterMultiplicity(b, p, x);
    }
    MultisetsAgree(fa, fb);
  }
}
