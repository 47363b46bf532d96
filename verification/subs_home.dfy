/**
 The subscriptions home screen's figures: the monthly total folded with
 `reduce`, the yearly total, and the list ordered by next billing date.
 `parseDate` stands for `new Date(str).getTime()`.
 */
module SubsHome {
  import opened Seqs
  import opened SubStore
  import Spending
  import Sorting

  /**
   The reducer's per-subscription figure: start from the amount, then let a
   weekly cycle and then a yearly cycle overwrite it. It agrees with the
   dashboard's conversion on every subscription.
   */
  function MonthlyShare(s: Subscription): (r: real)
    ensures r == Spending.MonthlyAmount(s)
  {
    var m := s.amount;
    var m := if s.billing_cycle_type == Weekly then s.amount * 4.0 else m;
    var m := if s.billing_cycle_type == Yearly then s.amount / 12.0 else m;
    m
  }

  /**
   `subscriptions.reduce((acc, sub) => acc + share(sub), acc)`: a left fold.
   It adds the same shares as the dashboard's sum, whatever it starts from.
   */
  function Reduce(subs: seq<Subscription>, acc: real): (r: real)
    ensures r == acc + SumOf(subs, Spending.MonthlyAmount)
    decreases |subs|
  {
    if |subs| == 0 then acc else Reduce(subs[1..], acc + MonthlyShare(subs[0]))
  }

  /**
   `totalMonthly`: the same figure as the dashboard's monthly total, 0 for an
   empty list, never negative when no amount is.
   */
  function TotalMonthly(subs: seq<Subscription>): (r: real)
    ensures r == SumOf(subs, Spending.MonthlyAmount)
    ensures |subs| == 0 ==> r == 0.0
    ensures Spending.AmountsNonNegative(subs) ==> r >= 0.0
  {
    if Spending.AmountsNonNegative(subs) then
      Spending.MonthlySumNonNegative(subs);
      Reduce(subs, 0.0)
    else Reduce(subs, 0.0)
  }

  /** `totalYearly = totalMonthly * 12`. */
  function TotalYearly(subs: seq<Subscription>): (r: real)
    ensures r == 12.0 * SumOf(subs, Spending.MonthlyAmount)
    ensures |subs| == 0 ==> r == 0.0
  {
    TotalMonthly(subs) * 12.0
  }

  /**
   `sortedSubs`: a sorted copy, soonest billing first. The store's list is a
   value and is not touched.
   */
  function SortedSubs(subs: seq<Subscription>, parseDate: string -> int): (r: seq<Subscription>)
    ensures multiset(r) == multiset(subs) && |r| == |subs|
    ensures forall i, j :: 0 <= i < j < |r| ==>
      parseDate(r[i].next_billing_date) <= parseDate(r[j].next_billing_date)
  {
    var key := Spending.BillingKey(parseDate);
    var r := Sorting.Sort(subs, key);
    assert forall i, j :: 0 <= i < j < |r| ==> key(r[i]) <= key(r[j]);
    r
  }

  /** The home screen and the dashboard show the same monthly and yearly totals. */
  method ScreensAgree(subs: seq<Subscription>) returns (home: Spending.Totals, dashboard: Spending.Totals)
    ensures home == dashboard
    ensures home.monthly == TotalMonthly(subs) && home.yearly == TotalYearly(subs)
  {
    dashboard := Spending.ComputeTotals(subs);
    home := Spending.Totals(TotalMonthly(subs), TotalYearly(subs));
  }

  /** A worked example: 15 a month, 120 a year and 10 a week come to 65 a month and 780 a year. */
  lemma {:induction false} ExampleTotals(netflix: Subscription, domain: Subscription, gym: Subscription)
    requires netflix.billing_cycle_type == Monthly && netflix.amount == 15.0
    requires domain.billing_cycle_type == Yearly && domain.amount == 120.0
    requires gym.billing_cycle_type == Weekly && gym.amount == 10.0
    ensures TotalMonthly([netflix, domain, gym]) == 65.0
    ensures TotalYearly([netflix, domain, gym]) == 780.0
  {
    var subs := [netflix, domain, gym];
    var f := Spending.MonthlyAmount;
    assert [gym][1..] == [] && SumOf([gym], f) == 40.0;
    assert [domain, gym][1..] == [gym] && SumOf([domain, gym], f) == 50.0;
    assert subs[1..] == [domain, gym] && SumOf(subs, f) == 65.0;
  }
}
