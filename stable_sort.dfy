/**
 * A stable sort by an integer key, the behaviour of Python's `sorted(xs, key=k)`.
 * Sort is insertion sort; the lemmas show it is ordered, a permutation, stable, and that
 * these three facts determine the result, so any stable sort (Python's included) agrees with it.
 */
module StableSort {
  import opened Seqs

  ghost predicate SortedBy<T>(s: seq<T>, key: T -> int)
  {
    forall i, j :: 0 <= i < j < |s| ==> key(s[i]) <= key(s[j])
  }

  /** The test "has key k", so that Filter(s, HasKey(key, k)) is the run of `s` with key `k`. */
  function HasKey<T>(key: T -> int, k: int): T -> bool
  {
    x => key(x) == k
  }

  /** `r` lists, for every key, exactly the elements of `s` with that key, in the order `s` has them. */
  ghost predicate Stable<T>(s: seq<T>, r: seq<T>, key: T -> int)
  {
    SameRuns(r, s, key)
  }

  lemma {:induction false} LastKeyIsMax<T>(s: seq<T>, key: T -> int, y: T)
    requires SortedBy(s, key) && y in s
    ensures key(y) <= key(s[|s| - 1])
  {
    var m :| 0 <= m < |s| && s[m] == y;
    if m < |s| - 1 {
      assert key(s[m]) <= key(s[|s| - 1]);
    }
  }

  /** Places `x` after every element of `t` whose key is not greater than its own. */
  function Insert<T>(t: seq<T>, x: T, key: T -> int): (r: seq<T>)
    requires SortedBy(t, key)
    ensures multiset(r) == multiset(t) + multiset{x}
    ensures SortedBy(r, key)
    decreases |t|
  {
    if t == [] || key(t[|t| - 1]) <= key(x) then
      t + [x]
    else
      var t', last := t[..|t| - 1], t[|t| - 1];
      assert t == t' + [last];
      var r' := Insert(t', x, key);
      InsertBelowLast(t, x, key, r');
      r' + [last]
  }

  /** Inserting `x` into `t` without its last element, then putting that last element back. */
  lemma {:induction false} InsertBelowLast<T>(t: seq<T>, x: T, key: T -> int, r: seq<T>)
    requires SortedBy(t, key) && t != [] && key(x) < key(t[|t| - 1])
    requires multiset(r) == multiset(t[..|t| - 1]) + multiset{x} && SortedBy(r, key)
    ensures multiset(r + [t[|t| - 1]]) == multiset(t) + multiset{x}
    ensures SortedBy(r + [t[|t| - 1]], key)
  {
    var t', last := t[..|t| - 1], t[|t| - 1];
    assert t == t' + [last];
    forall y | y in r ensures key(y) <= key(last) {
      assert y in multiset(r);
      if y != x {
        assert y in multiset(t');
        assert y in t;
        LastKeyIsMax(t, key, y);
      }
    }
    var r2 := r + [last];
    forall i, j | 0 <= i < j < |r2| ensures key(r2[i]) <= key(r2[j]) {
      if j == |r| {
        assert r2[i] == r[i];
        assert r[i] in r;
      }
    }
  }

  function Sort<T>(s: seq<T>, key: T -> int): (r: seq<T>)
    ensures multiset(r) == multiset(s)
    ensures SortedBy(r, key)
  {
    if s == [] then []
    else
      assert s == s[..|s| - 1] + [s[|s| - 1]];
      Insert(Sort(s[..|s| - 1], key), s[|s| - 1], key)
  }

  /** Two elements out of order change places. */
  lemma {:induction false} SortSwapsPair<T>(a: T, b: T, key: T -> int)
    requires key(b) < key(a)
    ensures Sort([a, b], key) == [b, a]
  {
    SortSingleton(a, key);
    InsertBeforeOne(a, b, key);
    assert [a, b][..1] == [a];
  }

  /** Two elements already in order, equal keys included, stay where they are. */
  lemma {:induction false} SortKeepsPair<T>(a: T, b: T, key: T -> int)
    requires key(a) <= key(b)
    ensures Sort([a, b], key) == [a, b]
  {
    SortSingleton(a, key);
    assert [a, b][..1] == [a];
    assert [a, b] == [a] + [b];
  }

  lemma {:induction false} SortSingleton<T>(a: T, key: T -> int)
    ensures Sort([a], key) == [a]
  {
    assert [a][..0] == [];
  }

  lemma {:induction false} InsertBeforeOne<T>(a: T, b: T, key: T -> int)
    requires key(b) < key(a)
    ensures Insert([a], b, key) == [b, a]
  {
    assert [a][..0] == [];
  }

  /** Inserting `x` appends it to the run of its own key and leaves every other run alone. */
  lemma {:induction false} InsertStable<T>(t: seq<T>, x: T, key: T -> int, k: int)
    requires SortedBy(t, key)
    ensures Filter(Insert(t, x, key), HasKey(key, k)) == Filter(t, HasKey(key, k)) + Filter([x], HasKey(key, k))
    decreases |t|
  {
    var p := HasKey(key, k);
    if t == [] || key(t[|t| - 1]) <= key(x) {
      FilterAppend(t, [x], p);
    } else {
      var t', last := t[..|t| - 1], t[|t| - 1];
      assert t == t' + [last];
      var r' := Insert(t', x, key);
      assert Insert(t, x, key) == r' + [last];
      InsertStable(t', x, key, k);
      RunsCommute(r', t', x, last, p);
    }
  }

  /** Appending `last` after `x` or before it gives the same runs when the two have different keys. */
  lemma {:induction false} RunsCommute<T>(r: seq<T>, t: seq<T>, x: T, last: T, p: T -> bool)
    requires Filter(r, p) == Filter(t, p) + Filter([x], p)
    requires !(p(x) && p(last))
    ensures Filter(r + [last], p) == Filter(t + [last], p) + Filter([x], p)
  {
    FilterAppend(r, [last], p);
    FilterAppend(t, [last], p);
    FilterSingleton(last, p);
    FilterSingleton(x, p);
    var ft, fx, fl := Filter(t, p), Filter([x], p), Filter([last], p);
    assert fx == [] || fl == [];
    assert fx + fl == fl + fx;
    assert (ft + fx) + fl == ft + (fl + fx) == (ft + fl) + fx;
  }

  lemma {:induction false} SortStable<T>(s: seq<T>, key: T -> int)
    ensures Stable(s, Sort(s, key), key)
  {
    if s != [] {
      var s', x := s[..|s| - 1], s[|s| - 1];
      assert s == s' + [x];
      SortStable(s', key);
      forall k ensures Filter(Sort(s, key), HasKey(key, k)) == Filter(s, HasKey(key, k)) {
        InsertStable(Sort(s', key), x, key, k);
        FilterAppend(s', [x], HasKey(key, k));
      }
    }
  }

  ghost predicate SameRuns<T>(r1: seq<T>, r2: seq<T>, key: T -> int)
  {
    forall k :: Filter(r1, HasKey(key, k)) == Filter(r2, HasKey(key, k))
  }

  /** The run of the last element's key ends with that element. */
  lemma {:induction false} RunEndsWithLast<T>(r: seq<T>, key: T -> int)
    requires r != []
    ensures Filter(r, HasKey(key, key(r[|r| - 1]))) == Filter(r[..|r| - 1], HasKey(key, key(r[|r| - 1]))) + [r[|r| - 1]]
  {
  }

  lemma {:induction false} SameRunsSameMembers<T>(r1: seq<T>, r2: seq<T>, key: T -> int, y: T)
    requires SameRuns(r1, r2, key) && y in r1
    ensures y in r2
  {
    var p := HasKey(key, key(y));
    FilterMembers(r1, p);
    FilterMembers(r2, p);
    assert y in Filter(r1, p);
    assert Filter(r1, p) == Filter(r2, p);
  }

  lemma {:induction false} SameRunsSameLastKey<T>(r1: seq<T>, r2: seq<T>, key: T -> int)
    requires SortedBy(r1, key) && SortedBy(r2, key) && SameRuns(r1, r2, key) && SameRuns(r2, r1, key)
    requires r1 != [] && r2 != []
    ensures key(r1[|r1| - 1]) == key(r2[|r2| - 1])
  {
    SameRunsSameMembers(r1, r2, key, r1[|r1| - 1]);
    LastKeyIsMax(r2, key, r1[|r1| - 1]);
    SameRunsSameMembers(r2, r1, key, r2[|r2| - 1]);
    LastKeyIsMax(r1, key, r2[|r2| - 1]);
  }

  lemma {:induction false} SameRunsSameLast<T>(r1: seq<T>, r2: seq<T>, key: T -> int)
    requires SameRuns(r1, r2, key) && r1 != [] && r2 != []
    requires key(r1[|r1| - 1]) == key(r2[|r2| - 1])
    ensures r1[|r1| - 1] == r2[|r2| - 1]
  {
    var k, p := key(r1[|r1| - 1]), HasKey(key, key(r1[|r1| - 1]));
    RunEndsWithLast(r1, key);
    RunEndsWithLast(r2, key);
    var f1, f2 := Filter(r1[..|r1| - 1], p), Filter(r2[..|r2| - 1], p);
    assert f1 + [r1[|r1| - 1]] == f2 + [r2[|r2| - 1]];
    assert (f1 + [r1[|r1| - 1]])[|f1|] == r1[|r1| - 1];
    assert (f2 + [r2[|r2| - 1]])[|f2|] == r2[|r2| - 1];
  }

  lemma {:induction false} SuffixCancel<T>(u: seq<T>, v: seq<T>, w: seq<T>)
    requires u + w == v + w
    ensures u == v
  {
    assert |u| == |v|;
    assert u == (u + w)[..|u|];
    assert v == (v + w)[..|v|];
  }

  lemma {:induction false} SameRunsPrefixes<T>(r1: seq<T>, r2: seq<T>, key: T -> int)
    requires SameRuns(r1, r2, key) && r1 != [] && r2 != [] && r1[|r1| - 1] == r2[|r2| - 1]
    ensures SameRuns(r1[..|r1| - 1], r2[..|r2| - 1], key)
  {
    var i1, i2, a := r1[..|r1| - 1], r2[..|r2| - 1], r1[|r1| - 1];
    assert r1 == i1 + [a];
    assert r2 == i2 + [a];
    forall k ensures Filter(i1, HasKey(key, k)) == Filter(i2, HasKey(key, k)) {
      var p := HasKey(key, k);
      assert Filter(r1, p) == Filter(r2, p);
      FilterAppend(i1, [a], p);
      FilterAppend(i2, [a], p);
      SuffixCancel(Filter(i1, p), Filter(i2, p), Filter([a], p));
    }
  }

  lemma {:induction false} SameRunsSymmetric<T>(r1: seq<T>, r2: seq<T>, key: T -> int)
    requires SameRuns(r1, r2, key)
    ensures SameRuns(r2, r1, key)
  {
  }

  lemma {:induction false} SameRunsEmpty<T>(r1: seq<T>, r2: seq<T>, key: T -> int)
    requires SameRuns(r1, r2, key) && r1 == []
    ensures r2 == []
  {
    if r2 != [] {
      SameRunsSameMembers(r2, r1, key, r2[0]);
    }
  }

  /** Two ordered sequences with the same run for every key are equal. */
  lemma {:induction false} SameRunsSame<T>(r1: seq<T>, r2: seq<T>, key: T -> int)
    requires SortedBy(r1, key) && SortedBy(r2, key) && SameRuns(r1, r2, key)
    ensures r1 == r2
    decreases |r1|
  {
    if r1 == [] {
      SameRunsEmpty(r1, r2, key);
    } else if r2 == [] {
      SameRunsSymmetric(r1, r2, key);
      SameRunsEmpty(r2, r1, key);
    } else {
      SameRunsSymmetric(r1, r2, key);
      SameRunsSameLastKey(r1, r2, key);
      SameRunsSameLast(r1, r2, key);
      SameRunsPrefixes(r1, r2, key);
      SameRunsSame(r1[..|r1| - 1], r2[..|r2| - 1], key);
      assert r1 == r1[..|r1| - 1] + [r1[|r1| - 1]];
      assert r2 == r2[..|r2| - 1] + [r2[|r2| - 1]];
    }
  }

  /** Every ordered, stable rearrangement of `s` is Sort(s): the stable sort is unique. */
  lemma {:induction false} SortIsTheStableSort<T>(s: seq<T>, r: seq<T>, key: T -> int)
    requires SortedBy(r, key) && Stable(s, r, key)
    ensures r == Sort(s, key)
  {
    SortStable(s, key);
    SameRunsSame(r, Sort(s, key), key);
  }

  /** A filter of an ordered sequence is ordered. */
  lemma {:induction false} FilterSorted<T>(s: seq<T>, p: T -> bool, key: T -> int)
    requires SortedBy(s, key)
    ensures SortedBy(Filter(s, p), key)
  {
    if s != [] {
      var s', x := s[..|s| - 1], s[|s| - 1];
      FilterSorted(s', p, key);
      var f' := Filter(s', p);
      FilterMembers(s', p);
      assert s == s' + [x];
      forall y | y in f' ensures key(y) <= key(x) {
        LastKeyIsMax(s, key, y);
      }
    }
  }
}
