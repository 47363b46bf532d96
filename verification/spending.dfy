/**
 The spending dashboard's derived figures: monthly and yearly totals, the
 per-category breakdown with its bar widths, and the list of upcoming
 renewals. All of them are recomputed from the subscription list.

 Billing dates are kept as the strings the store holds; `parseDate` stands
 for `new Date(str).getTime()`, the instant in milliseconds, and `now` for
 the instant `new Date()` returns.
 */
module Spending {
  import opened Seqs
  import opened SubStore
  import Sorting

  /** A subscription's cost brought to a per-month figure. */
  function MonthlyAmount(s: Subscription): (r: real)
    ensures s.billing_cycle_type == Weekly ==> r == 4.0 * s.amount
    ensures s.billing_cycle_type == Yearly ==> 12.0 * r == s.amount
    ensures s.billing_cycle_type == Monthly || s.billing_cycle_type == Custom ==> r == s.amount
    ensures s.amount >= 0.0 ==> r >= 0.0
  {
    if s.billing_cycle_type == Weekly then s.amount * 4.0
    else if s.billing_cycle_type == Yearly then s.amount / 12.0
    else s.amount
  }

  /** The data-model invariant `amount >= 0`. */
  predicate AmountsNonNegative(subs: seq<Subscription>)
  {
    forall i :: 0 <= i < |subs| ==> subs[i].amount >= 0.0
  }

  lemma MonthlySumNonNegative(subs: seq<Subscription>)
    requires AmountsNonNegative(subs)
    ensures SumOf(subs, MonthlyAmount) >= 0.0
  {
    SumOfNonNegative(subs, MonthlyAmount);
  }

  datatype Totals = Totals(monthly: real, yearly: real)

  /** `totals`: one pass over the list adding up the monthly equivalents. */
  method ComputeTotals(subs: seq<Subscription>) returns (t: Totals)
    ensures t.monthly == SumOf(subs, MonthlyAmount)
    ensures t.yearly == 12.0 * t.monthly
    ensures AmountsNonNegative(subs) ==> t.monthly >= 0.0 && t.yearly >= 0.0
  {
    var monthly := 0.0;
    var i := 0;
    while i < |subs|
      invariant 0 <= i <= |subs|
      invariant monthly == SumOf(subs[..i], MonthlyAmount)
    {
      assert subs[..i + 1] == subs[..i] + [subs[i]];
      SumOfAppend(subs[..i], [subs[i]], MonthlyAmount);
      monthly := monthly + MonthlyAmount(subs[i]);
      i := i + 1;
    }
    assert subs[..i] == subs;
    if AmountsNonNegative(subs) {
      MonthlySumNonNegative(subs);
    }
    t := Totals(monthly, monthly * 12.0);
  }

  // ---- Per-category breakdown ----

  datatype CategoryAmount = CategoryAmount(category: Category, amount: real)

  function InCategory(c: Category): Subscription -> bool
  {
    (s: Subscription) => s.category == c
  }

  /** The monthly-equivalent spend of one category: the reference each entry is checked against. */
  function CategoryTotal(subs: seq<Subscription>, c: Category): real
  {
    SumOf(Filter(subs, InCategory(c)), MonthlyAmount)
  }

  predicate HasCategory(es: seq<CategoryAmount>, c: Category)
  {
    exists i :: 0 <= i < |es| && es[i].category == c
  }

  predicate Present(subs: seq<Subscription>, c: Category)
  {
    exists i :: 0 <= i < |subs| && subs[i].category == c
  }

  function CategoryOf(e: CategoryAmount): Category
  {
    e.category
  }

  predicate DistinctCategories(es: seq<CategoryAmount>)
  {
    forall i, j :: 0 <= i < j < |es| ==> es[i].category != es[j].category
  }

  function EntryAmount(e: CategoryAmount): real
  {
    e.amount
  }

  function NegatedAmount(e: CategoryAmount): real
  {
    -e.amount
  }

  /**
   The breakdown `es` is exact for `subs`: one entry per category present,
   each holding that category's total.
   */
  ghost predicate Tallies(es: seq<CategoryAmount>, subs: seq<Subscription>)
  {
    DistinctCategories(es) && Covers(es, subs) && Exact(es, subs)
  }

  /** The entries name exactly the categories present. */
  predicate Covers(es: seq<CategoryAmount>, subs: seq<Subscription>)
  {
    forall c :: HasCategory(es, c) <==> Present(subs, c)
  }

  /** Every entry holds its category's total. */
  ghost predicate Exact(es: seq<CategoryAmount>, subs: seq<Subscription>)
  {
    forall i :: 0 <= i < |es| ==> es[i].amount == CategoryTotal(subs, es[i].category)
  }

  /** `categoryMap[c] = (categoryMap[c] || 0) + m`, on entries kept in insertion order. */
  function AddTo(es: seq<CategoryAmount>, c: Category, m: real): (r: seq<CategoryAmount>)
    ensures |r| == |es| || |r| == |es| + 1
    ensures SumOf(r, EntryAmount) == SumOf(es, EntryAmount) + m
    decreases |es|
  {
    if |es| == 0 then [CategoryAmount(c, m)]
    else if es[0].category == c then [CategoryAmount(c, es[0].amount + m)] + es[1..]
    else [es[0]] + AddTo(es[1..], c, m)
  }

  /** When the category already has an entry, that entry, and only it, grows by `m`. */
  lemma {:induction false} AddToExisting(es: seq<CategoryAmount>, c: Category, m: real, k: nat)
    requires k < |es| && es[k].category == c
    requires forall j :: 0 <= j < k ==> es[j].category != c
    ensures AddTo(es, c, m) == es[k := CategoryAmount(c, es[k].amount + m)]
    decreases k
  {
    if k > 0 {
      AddToExisting(es[1..], c, m, k - 1);
    }
  }

  /** When the category has no entry yet, a new one is appended. */
  lemma {:induction false} AddToMissing(es: seq<CategoryAmount>, c: Category, m: real)
    requires !HasCategory(es, c)
    ensures AddTo(es, c, m) == es + [CategoryAmount(c, m)]
    decreases |es|
  {
    if |es| > 0 {
      AddToMissing(es[1..], c, m);
    }
  }

  /** Adding `x` to the list changes only its own category's total, by its share. */
  lemma CategoryTotalAppend(subs: seq<Subscription>, x: Subscription, d: Category)
    ensures CategoryTotal(subs + [x], d) ==
      CategoryTotal(subs, d) + (if d == x.category then MonthlyAmount(x) else 0.0)
  {
    FilterAppend(subs, [x], InCategory(d));
    SumOfAppend(Filter(subs, InCategory(d)), Filter([x], InCategory(d)), MonthlyAmount);
  }

  lemma PresentAppend(subs: seq<Subscription>, x: Subscription)
    ensures forall d :: Present(subs + [x], d) <==> Present(subs, d) || d == x.category
  {
    forall d ensures Present(subs + [x], d) <==> Present(subs, d) || d == x.category {
      if Present(subs, d) {
        var i :| 0 <= i < |subs| && subs[i].category == d;
        assert (subs + [x])[i].category == d;
      }
      if Present(subs + [x], d) {
        var i :| 0 <= i < |subs + [x]| && (subs + [x])[i].category == d;
        if i < |subs| { assert subs[i].category == d; }
      }
      assert (subs + [x])[|subs|] == x;
    }
  }

  /** The entry of an already present category grows by the new subscription's share. */
  lemma TalliesStepExisting(es: seq<CategoryAmount>, subs: seq<Subscription>, x: Subscription, k: nat)
    requires Tallies(es, subs)
    requires k < |es| && es[k].category == x.category
    requires forall j :: 0 <= j < k ==> es[j].category != x.category
    ensures Tallies(AddTo(es, x.category, MonthlyAmount(x)), subs + [x])
  {
    var c := x.category;
    AddToExisting(es, c, MonthlyAmount(x), k);
    var r := es[k := CategoryAmount(c, es[k].amount + MonthlyAmount(x))];
    ExistingKeepsCategories(es, subs, x, k, r);
    ExactStep(es, subs, x, r);
  }

  /** Growing one entry keeps the entries' categories, so they stay distinct and covering. */
  lemma ExistingKeepsCategories(es: seq<CategoryAmount>, subs: seq<Subscription>, x: Subscription, k: nat,
                                r: seq<CategoryAmount>)
    requires DistinctCategories(es) && Covers(es, subs)
    requires k < |es| && es[k].category == x.category
    requires r == es[k := CategoryAmount(x.category, es[k].amount + MonthlyAmount(x))]
    ensures DistinctCategories(r) && Covers(r, subs + [x])
  {
    assert forall i :: 0 <= i < |r| ==> r[i].category == es[i].category;
    PresentAppend(subs, x);
    forall d ensures HasCategory(r, d) <==> HasCategory(es, d) {
      if HasCategory(es, d) {
        var i :| 0 <= i < |es| && es[i].category == d;
        assert r[i].category == d;
      }
    }
  }

  /**
   After adding `x`, an entry is exact when it held its total before and,
   if it is `x`'s category, has grown by `x`'s share.
   */
  lemma ExactStep(es: seq<CategoryAmount>, subs: seq<Subscription>, x: Subscription, r: seq<CategoryAmount>)
    requires forall i :: 0 <= i < |r| ==>
      r[i].amount == CategoryTotal(subs, r[i].category) +
        (if r[i].category == x.category then MonthlyAmount(x) else 0.0)
    ensures Exact(r, subs + [x])
  {
    forall i | 0 <= i < |r| ensures r[i].amount == CategoryTotal(subs + [x], r[i].category) {
      CategoryTotalAppend(subs, x, r[i].category);
    }
  }

  /** A category seen for the first time gets a new entry holding the subscription's share. */
  lemma TalliesStepNew(es: seq<CategoryAmount>, subs: seq<Subscription>, x: Subscription)
    requires Tallies(es, subs)
    requires !HasCategory(es, x.category)
    ensures Tallies(es + [CategoryAmount(x.category, MonthlyAmount(x))], subs + [x])
  {
    var c := x.category;
    var r := es + [CategoryAmount(c, MonthlyAmount(x))];
    NewKeepsCategories(es, subs, x, r);
    assert !Present(subs, c);
    assert Filter(subs, InCategory(c)) == [];
    forall i | 0 <= i < |r| ensures r[i].amount == CategoryTotal(subs, r[i].category) +
        (if r[i].category == c then MonthlyAmount(x) else 0.0)
    {
      if i < |es| {
        assert r[i] == es[i];
        assert es[i].category != c;
      }
    }
    ExactStep(es, subs, x, r);
  }

  /** A new entry for an unseen category keeps the categories distinct and covering. */
  lemma NewKeepsCategories(es: seq<CategoryAmount>, subs: seq<Subscription>, x: Subscription,
                           r: seq<CategoryAmount>)
    requires DistinctCategories(es) && Covers(es, subs)
    requires !HasCategory(es, x.category)
    requires r == es + [CategoryAmount(x.category, MonthlyAmount(x))]
    ensures DistinctCategories(r) && Covers(r, subs + [x])
  {
    var c := x.category;
    PresentAppend(subs, x);
    assert forall i :: 0 <= i < |es| ==> r[i] == es[i];
    forall d ensures HasCategory(r, d) <==> HasCategory(es, d) || d == c {
      if HasCategory(es, d) {
        var i :| 0 <= i < |es| && es[i].category == d;
        assert r[i].category == d;
      }
      assert r[|es|].category == c;
    }
  }

  /** Where a category's entry sits, when the entries have distinct categories. */
  lemma EntryIndex(es: seq<CategoryAmount>, c: Category) returns (k: nat)
    requires DistinctCategories(es) && HasCategory(es, c)
    ensures k < |es| && es[k].category == c
    ensures forall j :: 0 <= j < k ==> es[j].category != c
  {
    k :| 0 <= k < |es| && es[k].category == c;
  }

  lemma AddToExistingSum(es: seq<CategoryAmount>, c: Category, m: real)
    requires DistinctCategories(es) && HasCategory(es, c)
    ensures SumOf(AddTo(es, c, m), EntryAmount) == SumOf(es, EntryAmount) + m
  {
    var k := EntryIndex(es, c);
    var e := CategoryAmount(c, es[k].amount + m);
    AddToExisting(es, c, m, k);
    SumOfUpdate(es, k, e, EntryAmount);
  }

  lemma AddToExistingStep(es: seq<CategoryAmount>, subs: seq<Subscription>, x: Subscription)
    requires Tallies(es, subs) && HasCategory(es, x.category)
    ensures Tallies(AddTo(es, x.category, MonthlyAmount(x)), subs + [x])
    ensures SumOf(AddTo(es, x.category, MonthlyAmount(x)), EntryAmount) ==
      SumOf(es, EntryAmount) + MonthlyAmount(x)
  {
    var c := x.category;
    var m := MonthlyAmount(x);
    var k := EntryIndex(es, c);
    TalliesStepExisting(es, subs, x, k);
    AddToExistingSum(es, c, m);
  }

  lemma AddToMissingStep(es: seq<CategoryAmount>, subs: seq<Subscription>, x: Subscription)
    requires Tallies(es, subs) && !HasCategory(es, x.category)
    ensures Tallies(AddTo(es, x.category, MonthlyAmount(x)), subs + [x])
    ensures SumOf(AddTo(es, x.category, MonthlyAmount(x)), EntryAmount) ==
      SumOf(es, EntryAmount) + MonthlyAmount(x)
  {
    var c := x.category;
    var m := MonthlyAmount(x);
    AddToMissing(es, c, m);
    SumOfAppend(es, [CategoryAmount(c, m)], EntryAmount);
    TalliesStepNew(es, subs, x);
  }

  /** Adding one subscription's share to its category keeps the breakdown exact. */
  lemma TalliesStep(es: seq<CategoryAmount>, subs: seq<Subscription>, x: Subscription)
    requires Tallies(es, subs)
    ensures Tallies(AddTo(es, x.category, MonthlyAmount(x)), subs + [x])
    ensures SumOf(AddTo(es, x.category, MonthlyAmount(x)), EntryAmount) ==
      SumOf(es, EntryAmount) + MonthlyAmount(x)
  {
    if HasCategory(es, x.category) {
      AddToExistingStep(es, subs, x);
    } else {
      AddToMissingStep(es, subs, x);
    }
  }

  /** The breakdown of a list extended by one subscription, from the breakdown of the list. */
  lemma TallyStep(subs: seq<Subscription>, es: seq<CategoryAmount>)
    requires |subs| > 0
    requires Tallies(es, subs[..|subs| - 1])
    requires SumOf(es, EntryAmount) == SumOf(subs[..|subs| - 1], MonthlyAmount)
    ensures var last := subs[|subs| - 1];
      var r := AddTo(es, last.category, MonthlyAmount(last));
      Tallies(r, subs) && SumOf(r, EntryAmount) == SumOf(subs, MonthlyAmount)
  {
    var init := subs[..|subs| - 1];
    var last := subs[|subs| - 1];
    SplitLast(subs);
    TalliesStep(es, init, last);
    LastSum(subs);
  }

  lemma SplitLast(subs: seq<Subscription>)
    requires |subs| > 0
    ensures subs == subs[..|subs| - 1] + [subs[|subs| - 1]]
  {
  }

  /** A list's sum is its prefix's sum plus its last element's share. */
  lemma LastSum(subs: seq<Subscription>)
    requires |subs| > 0
    ensures SumOf(subs, MonthlyAmount) ==
      SumOf(subs[..|subs| - 1], MonthlyAmount) + MonthlyAmount(subs[|subs| - 1])
  {
    SplitLast(subs);
    SumOfAppend(subs[..|subs| - 1], [subs[|subs| - 1]], MonthlyAmount);
  }

  /** `forEach` over the list, building the category map in first-appearance order. */
  function Tally(subs: seq<Subscription>): (es: seq<CategoryAmount>)
    ensures Tallies(es, subs)
    ensures SumOf(es, EntryAmount) == SumOf(subs, MonthlyAmount)
    decreases |subs|
  {
    if |subs| == 0 then []
    else
      var es := Tally(subs[..|subs| - 1]);
      TallyStep(subs, es);
      var last := subs[|subs| - 1];
      AddTo(es, last.category, MonthlyAmount(last))
  }

  /** Sorting the entries keeps the breakdown exact: it only permutes them. */
  lemma SortKeepsTallies(es: seq<CategoryAmount>, subs: seq<Subscription>)
    requires Tallies(es, subs)
    ensures Tallies(Sorting.Sort(es, NegatedAmount), subs)
  {
    var r := Sorting.Sort(es, NegatedAmount);
    Sorting.SortKeepsDistinct(es, NegatedAmount, CategoryOf);
    PermutationKeepsCovers(es, r, subs);
    PermutationKeepsExact(es, r, subs);
  }

  lemma PermutationKeepsCovers(es: seq<CategoryAmount>, r: seq<CategoryAmount>, subs: seq<Subscription>)
    requires multiset(r) == multiset(es) && Covers(es, subs)
    ensures Covers(r, subs)
  {
    forall c ensures HasCategory(r, c) <==> HasCategory(es, c) {
      if HasCategory(es, c) {
        var i :| 0 <= i < |es| && es[i].category == c;
        assert es[i] in multiset(r);
        var j :| 0 <= j < |r| && r[j] == es[i];
      }
      if HasCategory(r, c) {
        var i :| 0 <= i < |r| && r[i].category == c;
        assert r[i] in multiset(es);
        var j :| 0 <= j < |es| && es[j] == r[i];
      }
    }
  }

  lemma PermutationKeepsExact(es: seq<CategoryAmount>, r: seq<CategoryAmount>, subs: seq<Subscription>)
    requires multiset(r) == multiset(es) && Exact(es, subs)
    ensures Exact(r, subs)
  {
    forall i | 0 <= i < |r| ensures r[i].amount == CategoryTotal(subs, r[i].category) {
      assert r[i] in multiset(es);
      var j :| 0 <= j < |es| && es[j] == r[i];
    }
  }

  lemma SortDescending(es: seq<CategoryAmount>)
    ensures var r := Sorting.Sort(es, NegatedAmount);
      forall i, j :: 0 <= i < j < |r| ==> r[i].amount >= r[j].amount
  {
    var r := Sorting.Sort(es, NegatedAmount);
    assert forall i, j :: 0 <= i < j < |r| ==> NegatedAmount(r[i]) <= NegatedAmount(r[j]);
  }

  /**
   `categorySpending`: one entry per category present, holding its monthly
   spend; the entries add up to the monthly total and run from largest to
   smallest.
   */
  function CategorySpending(subs: seq<Subscription>): (r: seq<CategoryAmount>)
    ensures DistinctCategories(r)
    ensures forall c :: HasCategory(r, c) <==> Present(subs, c)
    ensures forall i :: 0 <= i < |r| ==> r[i].amount == CategoryTotal(subs, r[i].category)
    ensures SumOf(r, EntryAmount) == SumOf(subs, MonthlyAmount)
    ensures forall i, j :: 0 <= i < j < |r| ==> r[i].amount >= r[j].amount
  {
    var es := Tally(subs);
    SortKeepsTallies(es, subs);
    SortDescending(es);
    Sorting.SumOfSort(es, NegatedAmount, EntryAmount);
    Sorting.Sort(es, NegatedAmount)
  }

  /** `maxCategoryAmount = categorySpending[0]?.amount || 1`: the first entry, or 1 for none or zero. */
  function MaxCategoryAmount(es: seq<CategoryAmount>): (r: real)
    ensures r != 0.0
    ensures |es| > 0 && es[0].amount != 0.0 ==> r == es[0].amount
    ensures |es| == 0 || es[0].amount == 0.0 ==> r == 1.0
  {
    if |es| == 0 || es[0].amount == 0.0 then 1.0 else es[0].amount
  }

  /** A category bar's width, as a fraction of the full bar. */
  function BarWidth(amount: real, max: real): (r: real)
    requires max != 0.0
    ensures r * max == amount
    ensures amount == max ==> r == 1.0
  {
    amount / max
  }

  /** With non-negative amounts, no category spends a negative amount. */
  lemma CategoryTotalNonNegative(subs: seq<Subscription>, c: Category)
    requires AmountsNonNegative(subs)
    ensures CategoryTotal(subs, c) >= 0.0
  {
    var f := Filter(subs, InCategory(c));
    forall k | 0 <= k < |f| ensures MonthlyAmount(f[k]) >= 0.0 {
      assert f[k] in f;
      var j :| 0 <= j < |subs| && subs[j] == f[k];
    }
    SumOfNonNegative(f, MonthlyAmount);
  }

  /** On a non-negative breakdown sorted largest first, every bar lies between 0 and 1. */
  lemma BarWidthBounded(es: seq<CategoryAmount>, i: nat)
    requires i < |es|
    requires forall j :: 0 <= j < |es| ==> es[j].amount >= 0.0
    requires forall j, k :: 0 <= j < k < |es| ==> es[j].amount >= es[k].amount
    ensures 0.0 <= BarWidth(es[i].amount, MaxCategoryAmount(es)) <= 1.0
  {
    assert es[i].amount <= es[0].amount;
  }

  /** With non-negative amounts, every bar fits: its width lies between 0 and 1. */
  lemma BarWidthsAtMostOne(subs: seq<Subscription>)
    requires AmountsNonNegative(subs)
    ensures var es := CategorySpending(subs);
      forall i :: 0 <= i < |es| ==> 0.0 <= BarWidth(es[i].amount, MaxCategoryAmount(es)) <= 1.0
  {
    var es := CategorySpending(subs);
    forall j | 0 <= j < |es| ensures es[j].amount >= 0.0 {
      CategoryTotalNonNegative(subs, es[j].category);
    }
    forall i | 0 <= i < |es| ensures 0.0 <= BarWidth(es[i].amount, MaxCategoryAmount(es)) <= 1.0 {
      BarWidthBounded(es, i);
    }
  }

  // ---- Upcoming renewals ----

  const DayMs: int := 86_400_000
  /** `nextWeek.setDate(today.getDate() + 7)`, taken as seven whole days. */
  const WeekMs: int := 7 * DayMs
  /** `.slice(0, 5)`. */
  const MaxRenewals: nat := 5

  function BillingKey(parseDate: string -> int): Subscription -> real
  {
    (s: Subscription) => parseDate(s.next_billing_date) as real
  }

  function InWindow(parseDate: string -> int, lo: int, hi: int): Subscription -> bool
  {
    (s: Subscription) => lo <= parseDate(s.next_billing_date) <= hi
  }

  /** The first `MaxRenewals` elements, or all of them: `.slice(0, 5)`. */
  function TakeRenewals(s: seq<Subscription>): (r: seq<Subscription>)
    ensures |r| <= MaxRenewals && |r| <= |s|
    ensures |r| == if |s| <= MaxRenewals then |s| else MaxRenewals
    ensures s == r + s[|r|..]
    ensures |s| <= MaxRenewals ==> r == s
  {
    if |s| <= MaxRenewals then s else s[..MaxRenewals]
  }

  /** The windowed subscriptions, soonest first. */
  function SortedWindow(subs: seq<Subscription>, parseDate: string -> int, lo: int, hi: int)
    : (r: seq<Subscription>)
    ensures Sorting.SortedBy(r, BillingKey(parseDate))
    ensures multiset(r) == multiset(Filter(subs, InWindow(parseDate, lo, hi)))
  {
    Sorting.Sort(Filter(subs, InWindow(parseDate, lo, hi)), BillingKey(parseDate))
  }

  /**
   The subscriptions billed inside `[lo, hi]`, soonest first, at most five.
   They are the nearest ones: a windowed subscription left out is billed no
   earlier than any listed one, and none is left out when five or fewer fall
   in the window.
   */
  function RenewalsBetween(subs: seq<Subscription>, parseDate: string -> int, lo: int, hi: int)
    : (r: seq<Subscription>)
    ensures |r| <= MaxRenewals
    ensures var n := |Filter(subs, InWindow(parseDate, lo, hi))|;
      |r| == if n <= MaxRenewals then n else MaxRenewals
    ensures forall i :: 0 <= i < |r| ==> lo <= parseDate(r[i].next_billing_date) <= hi
    ensures forall i, j :: 0 <= i < j < |r| ==>
      parseDate(r[i].next_billing_date) <= parseDate(r[j].next_billing_date)
    ensures multiset(r) <= multiset(subs)
    ensures |Filter(subs, InWindow(parseDate, lo, hi))| <= MaxRenewals ==>
      multiset(r) == multiset(Filter(subs, InWindow(parseDate, lo, hi)))
    ensures forall i, s ::
      (0 <= i < |r| && s in subs && lo <= parseDate(s.next_billing_date) <= hi &&
       multiset(r)[s] < multiset(subs)[s]) ==>
      parseDate(r[i].next_billing_date) <= parseDate(s.next_billing_date)
  {
    var r := TakeRenewals(SortedWindow(subs, parseDate, lo, hi));
    RenewalsFacts(subs, parseDate, lo, hi, r);
    r
  }

  /** The listed renewals: how many, where they are billed, in what order, and which. */
  lemma RenewalsFacts(subs: seq<Subscription>, parseDate: string -> int, lo: int, hi: int,
                      r: seq<Subscription>)
    requires r == TakeRenewals(SortedWindow(subs, parseDate, lo, hi))
    ensures var n := |Filter(subs, InWindow(parseDate, lo, hi))|;
      |r| == if n <= MaxRenewals then n else MaxRenewals
    ensures forall i :: 0 <= i < |r| ==> lo <= parseDate(r[i].next_billing_date) <= hi
    ensures forall i, j :: 0 <= i < j < |r| ==>
      parseDate(r[i].next_billing_date) <= parseDate(r[j].next_billing_date)
    ensures multiset(r) <= multiset(subs)
    ensures |Filter(subs, InWindow(parseDate, lo, hi))| <= MaxRenewals ==>
      multiset(r) == multiset(Filter(subs, InWindow(parseDate, lo, hi)))
    ensures forall i, s ::
      (0 <= i < |r| && s in subs && lo <= parseDate(s.next_billing_date) <= hi &&
       multiset(r)[s] < multiset(subs)[s]) ==>
      parseDate(r[i].next_billing_date) <= parseDate(s.next_billing_date)
  {
    RenewalsCount(subs, parseDate, lo, hi);
    RenewalsAllWhenFew(subs, parseDate, lo, hi);
    RenewalsWithin(subs, parseDate, lo, hi);
    RenewalsSorted(subs, parseDate, lo, hi);
    RenewalsNearest(subs, parseDate, lo, hi);
  }

  /** Five are listed when more than five fall in the window, otherwise all of them. */
  lemma RenewalsCount(subs: seq<Subscription>, parseDate: string -> int, lo: int, hi: int)
    ensures var n := |Filter(subs, InWindow(parseDate, lo, hi))|;
      |TakeRenewals(SortedWindow(subs, parseDate, lo, hi))| == if n <= MaxRenewals then n else MaxRenewals
  {
    var f := Filter(subs, InWindow(parseDate, lo, hi));
    var w := SortedWindow(subs, parseDate, lo, hi);
    assert |multiset(w)| == |multiset(f)|;
  }

  /** When five or fewer fall in the window, all of them are listed. */
  lemma RenewalsAllWhenFew(subs: seq<Subscription>, parseDate: string -> int, lo: int, hi: int)
    ensures var f := Filter(subs, InWindow(parseDate, lo, hi));
      |f| <= MaxRenewals ==> multiset(TakeRenewals(SortedWindow(subs, parseDate, lo, hi))) == multiset(f)
  {
    var f := Filter(subs, InWindow(parseDate, lo, hi));
    var w := SortedWindow(subs, parseDate, lo, hi);
    assert |multiset(w)| == |multiset(f)|;
  }

  /** Everything listed is a subscription of the list, billed inside the window. */
  lemma RenewalsWithin(subs: seq<Subscription>, parseDate: string -> int, lo: int, hi: int)
    ensures var r := TakeRenewals(SortedWindow(subs, parseDate, lo, hi));
      && (forall i :: 0 <= i < |r| ==> lo <= parseDate(r[i].next_billing_date) <= hi)
      && multiset(r) <= multiset(subs)
  {
    var window := InWindow(parseDate, lo, hi);
    var sorted := SortedWindow(subs, parseDate, lo, hi);
    var r := TakeRenewals(sorted);
    WindowCounts(subs, window, sorted, r);
    forall i | 0 <= i < |r| ensures lo <= parseDate(r[i].next_billing_date) <= hi {
      assert r[i] in r;
    }
  }

  /** The listed renewals run soonest first. */
  lemma RenewalsSorted(subs: seq<Subscription>, parseDate: string -> int, lo: int, hi: int)
    ensures var r := TakeRenewals(SortedWindow(subs, parseDate, lo, hi));
      forall i, j :: 0 <= i < j < |r| ==>
        parseDate(r[i].next_billing_date) <= parseDate(r[j].next_billing_date)
  {
    var key := BillingKey(parseDate);
    var sorted := SortedWindow(subs, parseDate, lo, hi);
    var r := TakeRenewals(sorted);
    assert forall i, j :: 0 <= i < j < |r| ==> key(r[i]) <= key(r[j]);
  }

  /** No windowed subscription left out comes before a listed one. */
  lemma RenewalsNearest(subs: seq<Subscription>, parseDate: string -> int, lo: int, hi: int)
    ensures var r := TakeRenewals(SortedWindow(subs, parseDate, lo, hi));
      forall i, s ::
        (0 <= i < |r| && s in subs && lo <= parseDate(s.next_billing_date) <= hi &&
         multiset(r)[s] < multiset(subs)[s]) ==>
        parseDate(r[i].next_billing_date) <= parseDate(s.next_billing_date)
  {
    var sorted := SortedWindow(subs, parseDate, lo, hi);
    var r := TakeRenewals(sorted);
    forall i, s | 0 <= i < |r| && s in subs && lo <= parseDate(s.next_billing_date) <= hi &&
                  multiset(r)[s] < multiset(subs)[s]
      ensures parseDate(r[i].next_billing_date) <= parseDate(s.next_billing_date)
    {
      var window := InWindow(parseDate, lo, hi);
      assert window(s);
      assert multiset(sorted)[s] == multiset(subs)[s];
      TakeSortedBefore(sorted, BillingKey(parseDate), i, s);
    }
  }

  /** Whatever the prefix leaves out of a sorted list comes no earlier than what it keeps. */
  lemma TakeSortedBefore(sorted: seq<Subscription>, key: Subscription -> real, i: nat, s: Subscription)
    requires Sorting.SortedBy(sorted, key)
    requires i < |TakeRenewals(sorted)|
    requires multiset(TakeRenewals(sorted))[s] < multiset(sorted)[s]
    ensures key(TakeRenewals(sorted)[i]) <= key(s)
  {
    var r := TakeRenewals(sorted);
    var rest := sorted[|r|..];
    assert multiset(sorted) == multiset(r) + multiset(rest);
    assert s in multiset(rest);
    var k :| 0 <= k < |rest| && rest[k] == s;
    assert sorted[|r| + k] == s;
  }

  /** Filtering and sorting keep every windowed subscription's count; the prefix takes no more. */
  lemma WindowCounts(subs: seq<Subscription>, window: Subscription -> bool,
                     sorted: seq<Subscription>, r: seq<Subscription>)
    requires multiset(sorted) == multiset(Filter(subs, window))
    requires |r| <= |sorted| && sorted == r + sorted[|r|..]
    ensures forall s :: s in r ==> s in subs && window(s)
    ensures multiset(r) <= multiset(subs)
    ensures forall s :: window(s) ==> multiset(sorted)[s] == multiset(subs)[s]
  {
    var inWindow := Filter(subs, window);
    assert multiset(sorted) == multiset(r) + multiset(sorted[|r|..]);
    forall s | s in r ensures s in subs && window(s) {
      assert s in multiset(inWindow);
    }
  }

  /** `upcomingRenewals` as written: the window opens at the current instant. */
  function UpcomingRenewals(subs: seq<Subscription>, parseDate: string -> int, now: int)
    : (r: seq<Subscription>)
    ensures forall i :: 0 <= i < |r| ==> now <= parseDate(r[i].next_billing_date) <= now + WeekMs
  {
    RenewalsBetween(subs, parseDate, now, now + WeekMs)
  }

  /**
   As written, a renewal billed today is dropped as soon as the day has begun.
   `today` is the instant the current day began. The billing date parses to
   that instant, which lies before the current one.
   */
  lemma DueTodayDroppedAsWritten(subs: seq<Subscription>, parseDate: string -> int,
                                 today: int, now: int, s: Subscription)
    requires today < now < today + DayMs
    requires s in subs && parseDate(s.next_billing_date) == today
    ensures s !in UpcomingRenewals(subs, parseDate, now)
  {
  }

  /**
   `upcomingRenewals` with the window opening at `today`, the instant the
   current day began, rather than at the current instant. It still closes
   seven days after the current instant.
   */
  function UpcomingRenewalsByDay(subs: seq<Subscription>, parseDate: string -> int, now: int, today: int)
    : (r: seq<Subscription>)
    requires today <= now < today + DayMs
    ensures forall i :: 0 <= i < |r| ==> today <= parseDate(r[i].next_billing_date) <= now + WeekMs
    ensures forall i :: 0 <= i < |r| ==> now - DayMs < parseDate(r[i].next_billing_date)
  {
    RenewalsBetween(subs, parseDate, today, now + WeekMs)
  }

  /** With the window opening at the start of the day, a renewal billed today is listed whenever all fit. */
  lemma DueTodayListed(subs: seq<Subscription>, parseDate: string -> int, now: int, today: int, s: Subscription)
    requires today <= now < today + DayMs
    requires s in subs && parseDate(s.next_billing_date) == today
    requires |Filter(subs, InWindow(parseDate, today, now + WeekMs))| <= MaxRenewals
    ensures s in UpcomingRenewalsByDay(subs, parseDate, now, today)
  {
    ListedWhenFew(subs, parseDate, today, now + WeekMs, s);
  }

  /** When all fit, the corrected list keeps everything the list as written shows. */
  lemma ByDayKeepsAsWritten(subs: seq<Subscription>, parseDate: string -> int, now: int, today: int)
    requires today <= now < today + DayMs
    requires |Filter(subs, InWindow(parseDate, today, now + WeekMs))| <= MaxRenewals
    ensures forall s :: s in UpcomingRenewals(subs, parseDate, now) ==>
      s in UpcomingRenewalsByDay(subs, parseDate, now, today)
  {
    forall s | s in UpcomingRenewals(subs, parseDate, now)
      ensures s in UpcomingRenewalsByDay(subs, parseDate, now, today)
    {
      ListedAsWritten(subs, parseDate, now, s);
      ListedWhenFew(subs, parseDate, today, now + WeekMs, s);
    }
  }

  /** A renewal the code as written lists is a subscription of the list, billed in the coming week. */
  lemma ListedAsWritten(subs: seq<Subscription>, parseDate: string -> int, now: int, s: Subscription)
    ensures s in UpcomingRenewals(subs, parseDate, now) ==>
      s in subs && now <= parseDate(s.next_billing_date) <= now + WeekMs
  {
    var r := RenewalsBetween(subs, parseDate, now, now + WeekMs);
    if s in r {
      var k :| 0 <= k < |r| && r[k] == s;
      assert s in multiset(r);
    }
  }

  /** A subscription billed inside the window is listed when five or fewer fall in it. */
  lemma ListedWhenFew(subs: seq<Subscription>, parseDate: string -> int, lo: int, hi: int, s: Subscription)
    requires s in subs && lo <= parseDate(s.next_billing_date) <= hi
    requires |Filter(subs, InWindow(parseDate, lo, hi))| <= MaxRenewals
    ensures s in RenewalsBetween(subs, parseDate, lo, hi)
  {
    var f := Filter(subs, InWindow(parseDate, lo, hi));
    var r := RenewalsBetween(subs, parseDate, lo, hi);
    assert InWindow(parseDate, lo, hi)(s);
    assert s in f;
    assert multiset(r) == multiset(f);
    assert s in multiset(r);
  }
}
