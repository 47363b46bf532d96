/**
 The add-subscription form: its fields, the choices it offers, the reset
 when it opens, and the submit handler that fills the fields the form does
 not ask for with fixed values. `parseAmount` stands for `parseFloat`, and
 `today` for the date part of the current instant.
 */
module AddSubForm {
  import opened Seqs
  import opened SubStore

  /** The form's state; the amount is kept as typed. */
  datatype SubForm = SubForm(
    name: string,
    category: Category,
    amountText: string,
    currency: string,
    cycle: BillingCycle,
    date: string)

  /** `CATEGORIES`: one button per category. */
  const Categories: seq<Category> := [Education, Productivity, Entertainment, Finance, Health, Other]

  /** `CYCLES`: the cycle picker's options. */
  const Cycles: seq<BillingCycle> := [Weekly, Monthly, Yearly]

  /** The currency picker's options. */
  const Currencies: seq<string> := ["USD", "EUR", "SUM"]

  /** The state on first render. */
  const Initial: SubForm := SubForm("", Other, "", "USD", Monthly, "")

  /** The categories offered are all of them, each once. */
  lemma CategoriesOffered()
    ensures forall c: Category :: c in Categories
    ensures |Categories| == |AllCategories|
  {
    EnumerationsAreClosed();
    forall c: Category ensures c in Categories {
      match c
      case Education => assert Categories[0] == c;
      case Productivity => assert Categories[1] == c;
      case Entertainment => assert Categories[2] == c;
      case Finance => assert Categories[3] == c;
      case Health => assert Categories[4] == c;
      case Other => assert Categories[5] == c;
    }
  }

  /**
   The reset when the form opens: name and amount cleared, category "Other",
   cycle monthly, date today. The currency keeps its last choice.
   */
  function OnOpen(form: SubForm, today: string): (r: SubForm)
    ensures r.name == "" && r.amountText == "" && r.category == Other && r.cycle == Monthly
    ensures r.date == today && r.currency == form.currency
  {
    form.(name := "", category := Other, amountText := "", cycle := Monthly, date := today)
  }

  /** What the user can do: type in a field, press a category button, pick from a select, reopen. */
  datatype FormEvent =
    | TypeName(name: string)
    | PressCategory(index: nat)
    | TypeAmount(text: string)
    | PickCurrency(index: nat)
    | PickCycle(index: nat)
    | TypeDate(date: string)
    | Reopen(today: string)

  /** One event; a choice outside the offered options cannot be made and changes nothing. */
  function Apply(form: SubForm, e: FormEvent): (r: SubForm)
    ensures Offered(form) ==> Offered(r)
    ensures e.Reopen? ==> r == OnOpen(form, e.today)
    ensures !e.Reopen? && !e.PickCycle? ==> r.cycle == form.cycle
    ensures !e.PickCurrency? ==> r.currency == form.currency
    ensures e.PressCategory? && e.index < |Categories| ==> r.category == Categories[e.index]
  {
    match e
    case TypeName(n) => form.(name := n)
    case PressCategory(k) => if k < |Categories| then form.(category := Categories[k]) else form
    case TypeAmount(t) => form.(amountText := t)
    case PickCurrency(k) => if k < |Currencies| then form.(currency := Currencies[k]) else form
    case PickCycle(k) => if k < |Cycles| then form.(cycle := Cycles[k]) else form
    case TypeDate(d) => form.(date := d)
    case Reopen(today) => OnOpen(form, today)
  }

  function Run(form: SubForm, events: seq<FormEvent>): SubForm
    decreases |events|
  {
    if |events| == 0 then form else Run(Apply(form, events[0]), events[1..])
  }

  /** The choices the form can be in: an offered cycle, never custom, and an offered currency. */
  predicate Offered(form: SubForm)
  {
    form.cycle in Cycles && form.currency in Currencies
  }

  /** Whatever the user does, the form holds an offered cycle and currency. */
  lemma {:induction false} RunStaysOffered(form: SubForm, events: seq<FormEvent>)
    requires Offered(form)
    ensures Offered(Run(form, events))
    ensures Run(form, events).cycle != Custom
    decreases |events|
  {
    if |events| > 0 {
      RunStaysOffered(Apply(form, events[0]), events[1..]);
    }
  }

  /** The store afterwards, and whether the form asked to be closed. */
  datatype SubmitOutcome = SubmitOutcome(subs: seq<Subscription>, closed: bool)

  /**
   `handleSubmit`: with an empty name, amount or date nothing happens.
   Otherwise one subscription is added with the typed fields, the parsed
   amount, a cycle value of 1, one reminder day, no free trial and no notes.
   */
  function HandleSubmit(subs: seq<Subscription>, form: SubForm, parseAmount: string -> real,
                        newId: string, now: string): (r: SubmitOutcome)
    ensures form.name == "" || form.amountText == "" || form.date == "" ==> r == SubmitOutcome(subs, false)
    ensures form.name != "" && form.amountText != "" && form.date != "" ==>
      && r.closed
      && |r.subs| == |subs| + 1 && r.subs[1..] == subs
      && r.subs[0] == Subscription(newId, form.name, form.category, parseAmount(form.amountText),
                                   form.currency, form.cycle, 1, form.date, 1, None, false, now)
  {
    if form.name == "" || form.amountText == "" || form.date == "" then SubmitOutcome(subs, false)
    else
      var data := NewSubscription(form.name, form.category, parseAmount(form.amountText), form.currency,
                                  form.cycle, 1, form.date, 1, None, false);
      SubmitOutcome(AddSubscription(subs, data, newId, now), true)
  }

  /** No subscription has a custom cycle. */
  predicate NoCustom(subs: seq<Subscription>)
  {
    forall i :: 0 <= i < |subs| ==> subs[i].billing_cycle_type != Custom
  }

  /**
   A list built only through this form never holds a custom cycle: from the
   first render, whatever is typed and picked, a submit adds a weekly,
   monthly or yearly subscription.
   */
  lemma SubmitNeverCustom(subs: seq<Subscription>, events: seq<FormEvent>, parseAmount: string -> real,
                          newId: string, now: string)
    requires NoCustom(subs)
    ensures NoCustom(HandleSubmit(subs, Run(Initial, events), parseAmount, newId, now).subs)
  {
    assert Initial.cycle == Cycles[1] && Initial.currency == Currencies[0];
    RunStaysOffered(Initial, events);
  }
}
