/**
 Generic sequence operations that mirror the JavaScript array methods the
 stores and screens are built from: `filter`, a `map` that rewrites only the
 matching elements, and a left-to-right sum.
 */
module Seqs {

  /** An optional value: JavaScript's `undefined`/`null` against a present value. */
  datatype Option<+T> = None | Some(value: T)

  /** `a` is obtained from `b` by deleting elements, without reordering the rest. */
  predicate IsSubsequence<T(==)>(a: seq<T>, b: seq<T>)
    decreases |b|
  {
    |a| == 0 ||
    (|b| > 0 &&
     ((a[0] == b[0] && IsSubsequence(a[1..], b[1..])) || IsSubsequence(a, b[1..])))
  }

  /** `Array.prototype.filter`: the elements that satisfy `keep`, in their original order. */
  function Filter<T(==,!new)>(s: seq<T>, keep: T -> bool): (r: seq<T>)
    ensures |r| <= |s|
    ensures forall x :: x in r <==> x in s && keep(x)
    ensures forall x :: multiset(r)[x] == if keep(x) then multiset(s)[x] else 0
    decreases |s|
  {
    if |s| == 0 then []
    else
      assert s == [s[0]] + s[1..];
      if keep(s[0]) then [s[0]] + Filter(s[1..], keep) else Filter(s[1..], keep)
  }

  /** Filtering keeps the survivors in the order they had. */
  lemma {:induction false} FilterIsSubsequence<T(!new)>(s: seq<T>, keep: T -> bool)
    ensures IsSubsequence(Filter(s, keep), s)
    decreases |s|
  {
    if |s| > 0 {
      FilterIsSubsequence(s[1..], keep);
      var r := Filter(s, keep);
      if keep(s[0]) {
        assert r[0] == s[0] && r[1..] == Filter(s[1..], keep);
      } else if |r| > 0 {
        assert r == Filter(s[1..], keep);
      }
    }
  }

  /** Filtering distributes over concatenation. */
  lemma {:induction false} FilterAppend<T(!new)>(a: seq<T>, b: seq<T>, keep: T -> bool)
    ensures Filter(a + b, keep) == Filter(a, keep) + Filter(b, keep)
    decreases |a|
  {
    if |a| > 0 {
      assert (a + b)[1..] == a[1..] + b;
      FilterAppend(a[1..], b, keep);
    } else {
      assert a + b == b;
    }
  }

  /** Appending one element adds one to the filtered length exactly when it is kept. */
  lemma FilterSnoc<T(!new)>(s: seq<T>, x: T, keep: T -> bool)
    ensures |Filter(s + [x], keep)| == |Filter(s, keep)| + (if keep(x) then 1 else 0)
  {
    FilterAppend(s, [x], keep);
    assert [x][1..] == [];
  }

  /** The positions among the first `n` whose element is kept. */
  function Positions<T>(s: seq<T>, keep: T -> bool, n: nat): set<int>
    requires n <= |s|
  {
    set i | 0 <= i < n && keep(s[i])
  }

  /** Filtering keeps as many elements as there are positions holding a kept one. */
  lemma {:induction false} FilterCountsPositions<T(!new)>(s: seq<T>, keep: T -> bool, n: nat)
    requires n <= |s|
    ensures |Filter(s[..n], keep)| == |Positions(s, keep, n)|
    decreases n
  {
    if n == 0 {
      assert Positions(s, keep, 0) == {};
    } else {
      FilterCountsPositions(s, keep, n - 1);
      assert s[..n] == s[..n - 1] + [s[n - 1]];
      FilterSnoc(s[..n - 1], s[n - 1], keep);
      PositionsStep(s, keep, n);
    }
  }

  /** One more position adds one to the set exactly when its element is kept. */
  lemma PositionsStep<T>(s: seq<T>, keep: T -> bool, n: nat)
    requires 0 < n <= |s|
    ensures |Positions(s, keep, n)| == |Positions(s, keep, n - 1)| + (if keep(s[n - 1]) then 1 else 0)
  {
    var a := Positions(s, keep, n - 1);
    if keep(s[n - 1]) {
      assert Positions(s, keep, n) == a + {n - 1};
      assert n - 1 !in a;
    } else {
      assert Positions(s, keep, n) == a;
    }
  }

  /** When every element is kept, filtering is the identity. */
  lemma {:induction false} FilterKeepsAll<T(!new)>(s: seq<T>, keep: T -> bool)
    requires forall i :: 0 <= i < |s| ==> keep(s[i])
    ensures Filter(s, keep) == s
    decreases |s|
  {
    if |s| > 0 {
      FilterKeepsAll(s[1..], keep);
    }
  }

  /** `s.map(x => hit(x) ? f(x) : x)`: rewrite the matching elements, keep the rest. */
  function MapIf<T>(s: seq<T>, hit: T -> bool, f: T -> T): (r: seq<T>)
    ensures |r| == |s|
    ensures forall i :: 0 <= i < |s| ==> r[i] == if hit(s[i]) then f(s[i]) else s[i]
  {
    seq(|s|, i requires 0 <= i < |s| => if hit(s[i]) then f(s[i]) else s[i])
  }

  /** With no element matching, the rewrite leaves the sequence identical. */
  lemma MapIfNoHit<T>(s: seq<T>, hit: T -> bool, f: T -> T)
    requires forall i :: 0 <= i < |s| ==> !hit(s[i])
    ensures MapIf(s, hit, f) == s
  {
  }

  /**
   Rewriting twice is rewriting once, provided the rewrite is idempotent on
   elements that still match after it.
   */
  lemma MapIfIdempotent<T>(s: seq<T>, hit: T -> bool, f: T -> T)
    requires forall x :: hit(x) && hit(f(x)) ==> f(f(x)) == f(x)
    ensures MapIf(MapIf(s, hit, f), hit, f) == MapIf(s, hit, f)
  {
  }

  /**
   The sum of `f` over `s`, defined from the back: the first term plus the
   sum of the rest. Over the reals the order of addition does not matter;
   `SubsHome.Reduce` proves the left-to-right `reduce` equal to it.
   */
  function SumOf<T>(s: seq<T>, f: T -> real): real
    decreases |s|
  {
    if |s| == 0 then 0.0 else f(s[0]) + SumOf(s[1..], f)
  }

  lemma {:induction false} SumOfAppend<T>(a: seq<T>, b: seq<T>, f: T -> real)
    ensures SumOf(a + b, f) == SumOf(a, f) + SumOf(b, f)
    decreases |a|
  {
    if |a| == 0 {
      assert a + b == b;
    } else {
      assert (a + b)[1..] == a[1..] + b;
      SumOfAppend(a[1..], b, f);
    }
  }

  /** Replacing one element changes the sum by the difference of the two shares. */
  lemma {:induction false} SumOfUpdate<T>(s: seq<T>, k: nat, v: T, f: T -> real)
    requires k < |s|
    ensures SumOf(s[k := v], f) == SumOf(s, f) - f(s[k]) + f(v)
    decreases k
  {
    if k > 0 {
      assert s[k := v][1..] == s[1..][k - 1 := v];
      SumOfUpdate(s[1..], k - 1, v, f);
    }
  }

  lemma {:induction false} SumOfNonNegative<T>(s: seq<T>, f: T -> real)
    requires forall i :: 0 <= i < |s| ==> f(s[i]) >= 0.0
    ensures SumOf(s, f) >= 0.0
    decreases |s|
  {
    if |s| > 0 {
      SumOfNonNegative(s[1..], f);
    }
  }
}
