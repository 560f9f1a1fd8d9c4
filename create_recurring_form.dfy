/** `CreateRecurringExpenseModal`: the form that creates a recurring
    expense. The category is chosen by id among the expense categories,
    the due day among the days 1 to 31 and the recurrence among the four
    repeating kinds. Submitting needs a category with the chosen id and a
    non-empty description and amount; it passes the parsed values on and
    resets the form. */
module CreateRecurringForm {
  import Text
  import Seqs
  import opened Wrappers
  import opened Ledger
  import opened CategoryLists
  import RecurringExpenses

  /** The form's own `recurrenceOptions`. */
  const RecurrenceChoices: seq<RecurrenceOption> := [
    RecurrenceOption(Daily, "Daily"),
    RecurrenceOption(Weekly, "Weekly"),
    RecurrenceOption(Monthly, "Monthly"),
    RecurrenceOption(Yearly, "Yearly")
  ]

  predicate Repeats(o: RecurrenceOption) {
    o.value != OneTime
  }

  /** Options that start with one-time and then list only repeating
      kinds lose just their first entry to the filter. */
  lemma DropOneTime(options: seq<RecurrenceOption>)
    requires options != [] && options[0].value == OneTime
    requires forall i :: 1 <= i < |options| ==> options[i].value != OneTime
    ensures Seqs.Filter(options, Repeats) == options[1..]
  {
    Seqs.FilterDropsHead(options, Repeats);
  }

  /** The form's options are the shared options without one-time, in the
      same order and with the same captions. */
  lemma RecurrenceChoicesAreShared()
    ensures RecurrenceChoices == Seqs.Filter(RecurrenceOptions, Repeats)
  {
    DropOneTime(RecurrenceOptions);
  }

  /** The form offers every kind of recurrence except one-time. */
  lemma RecurrenceChoicesRepeat()
    ensures !Offered(RecurrenceChoices, OneTime)
    ensures forall r :: r != OneTime ==> Offered(RecurrenceChoices, r)
  {
    forall r | r != OneTime ensures Offered(RecurrenceChoices, r) {
      var i := match r case Daily => 0 case Weekly => 1 case Monthly => 2 case _ => 3;
      assert RecurrenceChoices[i].value == r;
    }
  }

  /** The due-day selector's values: the texts of the days 1 to 31. */
  const DueDayOptions: seq<string> := seq(31, i requires 0 <= i => Text.NatText(i + 1))

  /** Every due-day value reads back as its day, so the due day passed on
      is always a day from 1 to 31. */
  lemma DueDayOptionsRange()
    ensures |DueDayOptions| == 31
    ensures forall i :: 0 <= i < 31 ==> Text.ParseDecimal(DueDayOptions[i]) == Some(i + 1)
    ensures forall s :: s in DueDayOptions ==>
              Text.ParseDecimal(s).Some? && 1 <= Text.ParseDecimal(s).value <= 31
  {
    forall i | 0 <= i < 31 ensures Text.ParseDecimal(DueDayOptions[i]) == Some(i + 1) {
      Text.ParseIntText(i + 1);
    }
  }

  /** The argument of `onAdd`: `amount` is `None` when `parseFloat` gives
      NaN, `dueDay` when `parseInt` does. */
  datatype Payload = Payload(description: string, amount: Option<real>, category: Category,
                             dueDay: Option<int>, recurrence: Recurrence)

  /** What `handleSubmit` passes to `onAdd`, with `parse` standing for
      `parseFloat`; `None` when it returns early. The description is passed
      as typed and the amount is not checked to be positive. */
  function Validated(categories: seq<Category>, description: string, amount: string, categoryId: string,
                     dueDay: string, recurrence: Recurrence, parse: string -> Option<real>): (r: Option<Payload>)
    ensures r.Some? <==> description != "" && amount != "" && exists c :: c in categories && c.id == categoryId
    ensures r.Some? ==> r.value.category in categories && r.value.category.id == categoryId
    ensures r.Some? ==> exists i :: 0 <= i < |categories| && categories[i] == r.value.category
                                    && forall j :: 0 <= j < i ==> categories[j].id != categoryId
    ensures r.Some? ==> r.value.description == description && r.value.amount == parse(amount)
                        && r.value.dueDay == Text.ParseDecimal(dueDay) && r.value.recurrence == recurrence
  {
    match Seqs.Find(categories, IdIs(categoryId))
    case None => None
    case Some(c) =>
      if description == "" || amount == "" then None
      else Some(Payload(description, parse(amount), c, Text.ParseDecimal(dueDay), recurrence))
  }

  /** The Create button is enabled: description, amount and category id
      are all non-empty. */
  predicate CanCreate(description: string, amount: string, categoryId: string) {
    description != "" && amount != "" && categoryId != ""
  }

  /** A submission that goes through needs the button enabled unless a
      category has the empty id; with the button enabled, it goes through
      exactly when a category has the chosen id. */
  lemma EnabledButton(categories: seq<Category>, description: string, amount: string, categoryId: string,
                      dueDay: string, recurrence: Recurrence, parse: string -> Option<real>)
    requires forall c :: c in categories ==> c.id != ""
    ensures Validated(categories, description, amount, categoryId, dueDay, recurrence, parse).Some? ==>
              CanCreate(description, amount, categoryId)
    ensures CanCreate(description, amount, categoryId) ==>
              (Validated(categories, description, amount, categoryId, dueDay, recurrence, parse).Some? <==>
               exists c :: c in categories && c.id == categoryId)
  {
  }

  /** The record `addRecurringExpense` receives once the two numbers parse. */
  function ToDraft(p: Payload): (d: Option<RecurringExpenses.Draft>)
    ensures d.Some? <==> p.amount.Some? && p.dueDay.Some?
    ensures d.Some? ==> d.value.description == p.description && d.value.category == p.category
                        && Some(d.value.amount) == p.amount && Some(d.value.dueDay) == p.dueDay
                        && d.value.recurrence == p.recurrence
  {
    if p.amount.Some? && p.dueDay.Some? then
      Some(RecurringExpenses.Draft(p.description, p.amount.value, p.category, p.dueDay.value, p.recurrence))
    else None
  }

  class CreateRecurringExpenseModal {
    const categories: seq<Category>
    var description: string
    var amount: string
    var categoryId: string
    var dueDay: string
    var recurrence: Recurrence

    /** The form as it first appears, and as a submission leaves it. */
    predicate Blank()
      reads this
    {
      description == "" && amount == "" && categoryId == "" && dueDay == "1" && recurrence == Monthly
    }

    constructor(categories: seq<Category>)
      ensures this.categories == categories && Blank()
    {
      this.categories := categories;
      description := "";
      amount := "";
      categoryId := "";
      dueDay := "1";
      recurrence := Monthly;
    }

    /** The categories the selector offers: the expense list, the same
        filter the budget settings dialog applies to its own copy of the
        categories (`BudgetSettingsModal.Listed`). */
    function Selectable(): (r: seq<Category>)
      reads this
      ensures forall c :: c in r <==> c in categories && c.name !in IncomeOnlyNames
    {
      ExpenseCategories(categories)
    }

    /** `handleSubmit`: the payload given to `onAdd`, if any; the form is
        reset after it and left as it was otherwise. */
    method Submit(parse: string -> Option<real>) returns (added: Option<Payload>)
      modifies this
      ensures added == Validated(categories, old(description), old(amount), old(categoryId), old(dueDay),
                                 old(recurrence), parse)
      ensures added.Some? ==> Blank()
      ensures added.None? ==> description == old(description) && amount == old(amount)
                              && categoryId == old(categoryId) && dueDay == old(dueDay)
                              && recurrence == old(recurrence)
    {
      added := Validated(categories, description, amount, categoryId, dueDay, recurrence, parse);
      if added.Some? {
        description := "";
        amount := "";
        categoryId := "";
        dueDay := "1";
        recurrence := Monthly;
      }
    }
  }

  /** A due day chosen from the selector reaches the hook as a day from 1
      to 31, so the payment `markAsPaid` records for it falls on a day from
      1 to 28. */
  lemma ChosenDueDay(categories: seq<Category>, description: string, amount: string, categoryId: string,
                     dueDay: string, recurrence: Recurrence, parse: string -> Option<real>)
    requires dueDay in DueDayOptions
    requires Validated(categories, description, amount, categoryId, dueDay, recurrence, parse).Some?
    ensures var p := Validated(categories, description, amount, categoryId, dueDay, recurrence, parse).value;
            p.dueDay.Some? && 1 <= p.dueDay.value <= 31
            && 1 <= RecurringExpenses.PaymentDay(p.dueDay.value) <= 28
  {
    DueDayOptionsRange();
  }
}
