/**
 The subscription store: one list of subscription records, newest first,
 with add, partial update and delete by id.
 */
module SubStore {
  import opened Seqs

  datatype Category = Education | Productivity | Entertainment | Finance | Health | Other

  datatype BillingCycle = Weekly | Monthly | Yearly | Custom

  datatype Subscription = Subscription(
    id: string,
    name: string,
    category: Category,
    amount: real,
    currency: string,
    billing_cycle_type: BillingCycle,
    billing_cycle_value: int,
    next_billing_date: string,
    reminder_days: int,
    notes: Option<string>,
    is_free_trial: bool,
    created_at: string)

  /** What `addSubscription` is given: a subscription without its id and creation time. */
  datatype NewSubscription = NewSubscription(
    name: string,
    category: Category,
    amount: real,
    currency: string,
    billing_cycle_type: BillingCycle,
    billing_cycle_value: int,
    next_billing_date: string,
    reminder_days: int,
    notes: Option<string>,
    is_free_trial: bool)

  /** A `Partial<Subscription>`; `None` is an absent key. */
  datatype SubPatch = SubPatch(
    id: Option<string>,
    name: Option<string>,
    category: Option<Category>,
    amount: Option<real>,
    currency: Option<string>,
    billing_cycle_type: Option<BillingCycle>,
    billing_cycle_value: Option<int>,
    next_billing_date: Option<string>,
    reminder_days: Option<int>,
    notes: Option<Option<string>>,
    is_free_trial: Option<bool>,
    created_at: Option<string>)

  const AllCategories: set<Category> := {Education, Productivity, Entertainment, Finance, Health, Other}
  const AllCycles: set<BillingCycle> := {Weekly, Monthly, Yearly, Custom}

  /** The two enumerations have exactly six and four members. */
  lemma EnumerationsAreClosed()
    ensures forall c: Category :: c in AllCategories
    ensures forall b: BillingCycle :: b in AllCycles
    ensures |AllCategories| == 6 && |AllCycles| == 4
  {
    forall c: Category ensures c in AllCategories {
      match c
      case Education => case Productivity => case Entertainment =>
      case Finance => case Health => case Other =>
    }
    forall b: BillingCycle ensures b in AllCycles {
      match b
      case Weekly => case Monthly => case Yearly => case Custom =>
    }
  }

  predicate HasSubscription(subs: seq<Subscription>, id: string)
  {
    exists i :: 0 <= i < |subs| && subs[i].id == id
  }

  /** The store before any persisted state is loaded. */
  const Init: seq<Subscription> := []

  /** A fresh store holds no subscription, so the first one added is the only one. */
  lemma InitHoldsNone(id: string, data: NewSubscription, newId: string, now: string)
    ensures !HasSubscription(Init, id)
    ensures var r := AddSubscription(Init, data, newId, now);
      |r| == 1 && r[0].id == newId && HasSubscription(r, newId)
  {
    assert AddSubscription(Init, data, newId, now)[0].id == newId;
  }

  /** `addSubscription`: the new record, with the caller's fields verbatim, goes first. */
  function AddSubscription(subs: seq<Subscription>, data: NewSubscription, newId: string, now: string)
    : (r: seq<Subscription>)
    ensures |r| == |subs| + 1 && r[1..] == subs
    ensures r[0].id == newId && r[0].created_at == now
    ensures r[0].name == data.name && r[0].category == data.category
    ensures r[0].amount == data.amount && r[0].currency == data.currency
    ensures r[0].billing_cycle_type == data.billing_cycle_type
    ensures r[0].billing_cycle_value == data.billing_cycle_value
    ensures r[0].next_billing_date == data.next_billing_date
    ensures r[0].reminder_days == data.reminder_days
    ensures r[0].notes == data.notes && r[0].is_free_trial == data.is_free_trial
  {
    var sub := Subscription(newId, data.name, data.category, data.amount, data.currency,
                            data.billing_cycle_type, data.billing_cycle_value,
                            data.next_billing_date, data.reminder_days, data.notes,
                            data.is_free_trial, now);
    [sub] + subs
  }

  /** `{ ...s, ...p }`: the patch's present fields win. */
  function MergeSubscription(s: Subscription, p: SubPatch): (m: Subscription)
    ensures m.id == (if p.id.Some? then p.id.value else s.id)
    ensures m.name == (if p.name.Some? then p.name.value else s.name)
    ensures m.category == (if p.category.Some? then p.category.value else s.category)
    ensures m.amount == (if p.amount.Some? then p.amount.value else s.amount)
    ensures m.currency == (if p.currency.Some? then p.currency.value else s.currency)
    ensures m.billing_cycle_type ==
      (if p.billing_cycle_type.Some? then p.billing_cycle_type.value else s.billing_cycle_type)
    ensures m.billing_cycle_value ==
      (if p.billing_cycle_value.Some? then p.billing_cycle_value.value else s.billing_cycle_value)
    ensures m.next_billing_date ==
      (if p.next_billing_date.Some? then p.next_billing_date.value else s.next_billing_date)
    ensures m.reminder_days == (if p.reminder_days.Some? then p.reminder_days.value else s.reminder_days)
    ensures m.notes == (if p.notes.Some? then p.notes.value else s.notes)
    ensures m.is_free_trial == (if p.is_free_trial.Some? then p.is_free_trial.value else s.is_free_trial)
    ensures m.created_at == (if p.created_at.Some? then p.created_at.value else s.created_at)
  {
    Subscription(
      if p.id.Some? then p.id.value else s.id,
      if p.name.Some? then p.name.value else s.name,
      if p.category.Some? then p.category.value else s.category,
      if p.amount.Some? then p.amount.value else s.amount,
      if p.currency.Some? then p.currency.value else s.currency,
      if p.billing_cycle_type.Some? then p.billing_cycle_type.value else s.billing_cycle_type,
      if p.billing_cycle_value.Some? then p.billing_cycle_value.value else s.billing_cycle_value,
      if p.next_billing_date.Some? then p.next_billing_date.value else s.next_billing_date,
      if p.reminder_days.Some? then p.reminder_days.value else s.reminder_days,
      if p.notes.Some? then p.notes.value else s.notes,
      if p.is_free_trial.Some? then p.is_free_trial.value else s.is_free_trial,
      if p.created_at.Some? then p.created_at.value else s.created_at)
  }

  /** `updateSubscription`: merges the patch into the records with that id, in place. */
  function UpdateSubscription(subs: seq<Subscription>, id: string, p: SubPatch): (r: seq<Subscription>)
    ensures |r| == |subs|
    ensures forall i :: 0 <= i < |subs| && subs[i].id == id ==> r[i] == MergeSubscription(subs[i], p)
    ensures forall i :: 0 <= i < |subs| && subs[i].id != id ==> r[i] == subs[i]
  {
    MapIf(subs, (s: Subscription) => s.id == id, (s: Subscription) => MergeSubscription(s, p))
  }

  /** `deleteSubscription`: removes exactly the records with that id, the rest keep their order. */
  function DeleteSubscription(subs: seq<Subscription>, id: string): (r: seq<Subscription>)
    ensures !HasSubscription(r, id)
    ensures forall s: Subscription :: s.id != id ==> multiset(r)[s] == multiset(subs)[s]
    ensures IsSubsequence(r, subs)
  {
    var keep := (s: Subscription) => s.id != id;
    FilterIsSubsequence(subs, keep);
    var r := Filter(subs, keep);
    assert forall i :: 0 <= i < |r| ==> r[i] in r;
    r
  }

  /** Updating a record that is not there leaves the list identical. */
  lemma UpdateSubscriptionMissing(subs: seq<Subscription>, id: string, p: SubPatch)
    requires !HasSubscription(subs, id)
    ensures UpdateSubscription(subs, id, p) == subs
  {
    MapIfNoHit(subs, (s: Subscription) => s.id == id, (s: Subscription) => MergeSubscription(s, p));
  }

  /** Applying the same update twice is the same as applying it once. */
  lemma UpdateSubscriptionIdempotent(subs: seq<Subscription>, id: string, p: SubPatch)
    ensures UpdateSubscription(UpdateSubscription(subs, id, p), id, p) == UpdateSubscription(subs, id, p)
  {
    MapIfIdempotent(subs, (s: Subscription) => s.id == id, (s: Subscription) => MergeSubscription(s, p));
  }

  /** Deleting a record that is not there leaves the list identical. */
  lemma DeleteSubscriptionMissing(subs: seq<Subscription>, id: string)
    requires !HasSubscription(subs, id)
    ensures DeleteSubscription(subs, id) == subs
  {
    FilterKeepsAll(subs, (s: Subscription) => s.id != id);
  }

  /** Deleting a freshly added record, by its new id, undoes the addition. */
  lemma AddThenDeleteSubscription(subs: seq<Subscription>, data: NewSubscription, newId: string, now: string)
    requires !HasSubscription(subs, newId)
    ensures DeleteSubscription(AddSubscription(subs, data, newId, now), newId) == subs
  {
    var a := AddSubscription(subs, data, newId, now);
    var keep := (s: Subscription) => s.id != newId;
    assert a == [a[0]] + subs;
    FilterAppend([a[0]], subs, keep);
    FilterKeepsAll(subs, keep);
  }
}
