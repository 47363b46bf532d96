/**
 A stable sort on a real-valued key. `Array.prototype.sort` is stable, and
 every comparator in the screens is a key difference (`b.amount - a.amount`,
 `dateA - dateB`), so sorting by a key (negated for a descending order) is
 what they compute.
 */
module Sorting {
  import Seqs

  ghost predicate SortedBy<T>(s: seq<T>, key: T -> real)
  {
    forall i, j :: 0 <= i < j < |s| ==> key(s[i]) <= key(s[j])
  }

  /**
   Inserts `x` before the first element whose key is not smaller than its own,
   so that `x`, which came earlier in the input, stays ahead of its ties.
   */
  function Insert<T(!new)>(x: T, s: seq<T>, key: T -> real): (r: seq<T>)
    requires SortedBy(s, key)
    ensures SortedBy(r, key)
    ensures multiset(r) == multiset(s) + multiset{x}
    decreases |s|
  {
    if |s| == 0 || key(x) <= key(s[0]) then [x] + s
    else
      var t := Insert(x, s[1..], key);
      InsertBehind(x, s, key, t);
      [s[0]] + t
  }

  /** When `x` goes behind the head, the head followed by `x` inserted into the tail is sorted. */
  lemma InsertBehind<T(!new)>(x: T, s: seq<T>, key: T -> real, t: seq<T>)
    requires SortedBy(s, key) && |s| > 0 && key(s[0]) < key(x)
    requires SortedBy(t, key) && multiset(t) == multiset(s[1..]) + multiset{x}
    ensures SortedBy([s[0]] + t, key)
    ensures multiset([s[0]] + t) == multiset(s) + multiset{x}
  {
    assert s == [s[0]] + s[1..];
    forall k | 0 <= k < |t| ensures key(s[0]) <= key(t[k]) {
      HeadBelow(x, s, key, t[k]);
    }
  }

  /** Every element of the tail, and `x` behind the head, has a key at least the head's. */
  lemma HeadBelow<T(!new)>(x: T, s: seq<T>, key: T -> real, y: T)
    requires SortedBy(s, key) && |s| > 0 && key(s[0]) < key(x)
    requires y in multiset(s[1..]) + multiset{x}
    ensures key(s[0]) <= key(y)
  {
    if y != x {
      assert y in s[1..];
      var m :| 0 <= m < |s[1..]| && s[1..][m] == y;
      assert s[m + 1] == y;
    }
  }

  /** Insertion sort: a permutation of `s`, ordered by `key`, ties in input order. */
  function Sort<T(!new)>(s: seq<T>, key: T -> real): (r: seq<T>)
    ensures SortedBy(r, key)
    ensures multiset(r) == multiset(s)
    ensures |r| == |s|
    decreases |s|
  {
    if |s| == 0 then []
    else
      assert s == [s[0]] + s[1..];
      Insert(s[0], Sort(s[1..], key), key)
  }

  /** No two elements share the same `g`. */
  ghost predicate DistinctBy<T, K>(s: seq<T>, g: T -> K)
  {
    forall i, j :: 0 <= i < j < |s| ==> g(s[i]) != g(s[j])
  }

  lemma {:induction false} InsertKeepsDistinct<T(!new), K>(x: T, s: seq<T>, key: T -> real, g: T -> K)
    requires SortedBy(s, key) && DistinctBy(s, g)
    requires forall k :: 0 <= k < |s| ==> g(s[k]) != g(x)
    ensures DistinctBy(Insert(x, s, key), g)
    decreases |s|
  {
    if |s| > 0 && key(x) > key(s[0]) {
      InsertKeepsDistinct(x, s[1..], key, g);
      var t := Insert(x, s[1..], key);
      forall k | 0 <= k < |t| ensures g(s[0]) != g(t[k]) {
        assert t[k] in multiset(t);
        if t[k] != x {
          assert t[k] in multiset(s[1..]);
          var m :| 0 <= m < |s[1..]| && s[1..][m] == t[k];
          assert s[m + 1] == t[k];
        }
      }
    }
  }

  /** Sorting never brings two elements with the same `g` together: it only permutes. */
  lemma {:induction false} SortKeepsDistinct<T(!new), K>(s: seq<T>, key: T -> real, g: T -> K)
    requires DistinctBy(s, g)
    ensures DistinctBy(Sort(s, key), g)
    decreases |s|
  {
    if |s| > 0 {
      assert DistinctBy(s[1..], g);
      SortKeepsDistinct(s[1..], key, g);
      var t := Sort(s[1..], key);
      forall k | 0 <= k < |t| ensures g(t[k]) != g(s[0]) {
        assert t[k] in multiset(s[1..]);
        var m :| 0 <= m < |s[1..]| && s[1..][m] == t[k];
        assert s[m + 1] == t[k];
      }
      InsertKeepsDistinct(s[0], t, key, g);
    }
  }

  /** Sums do not depend on the order: inserting adds the inserted element's share. */
  lemma {:induction false} SumOfInsert<T(!new)>(x: T, s: seq<T>, key: T -> real, f: T -> real)
    requires SortedBy(s, key)
    ensures Seqs.SumOf(Insert(x, s, key), f) == f(x) + Seqs.SumOf(s, f)
    decreases |s|
  {
    if |s| > 0 && key(x) > key(s[0]) {
      SumOfInsert(x, s[1..], key, f);
    }
  }

  lemma {:induction false} SumOfSort<T(!new)>(s: seq<T>, key: T -> real, f: T -> real)
    ensures Seqs.SumOf(Sort(s, key), f) == Seqs.SumOf(s, f)
    decreases |s|
  {
    if |s| > 0 {
      SumOfSort(s[1..], key, f);
      SumOfInsert(s[0], Sort(s[1..], key), key, f);
    }
  }
}
