/** `EditRecurringExpenseModal`: the form that edits a recurring expense.
    It is filled from the expense when one is given; submitting needs the
    expense and a category with the chosen id, and sends the five editable
    fields, never the paid state or the payment link. */
module EditRecurringForm {
  import Text
  import Seqs
  import opened Wrappers
  import opened Ledger
  import opened RecurringExpenses
  import opened CreateRecurringForm

  /** `recurringOptions`: the shared recurrence options without
      one-time. */
  function RecurringOptions(): (r: seq<RecurrenceOption>)
    ensures forall o :: o in r <==> o in RecurrenceOptions && o.value != OneTime
  {
    Seqs.Filter(RecurrenceOptions, Repeats)
  }

  /** The edit form offers the same choices as the create form: the shared
      options after one-time, in their order. */
  lemma RecurringOptionsOrder()
    ensures RecurringOptions() == RecurrenceOptions[1..] == RecurrenceChoices
    ensures !Offered(RecurringOptions(), OneTime)
    ensures forall r :: r != OneTime ==> Offered(RecurringOptions(), r)
  {
    RecurrenceChoicesAreShared();
    RecurrenceChoicesRepeat();
  }

  /** The argument pair of `onUpdate`: the five fields the form edits, with
      `amount` `None` when `parseFloat` gives NaN and `dueDay` when
      `parseInt` does. */
  datatype Update = Update(id: string, fields: Payload)

  /** What `handleSubmit` sends, with `parse` standing for `parseFloat`;
      `None` when it returns early. Neither the description nor the amount
      is checked. */
  function Validated(expense: Option<RecurringExpense>, categories: seq<Category>, description: string,
                     amount: string, categoryId: string, dueDay: string, recurrence: Recurrence,
                     parse: string -> Option<real>): (r: Option<Update>)
    ensures r.Some? <==> expense.Some? && exists c :: c in categories && c.id == categoryId
    ensures r.Some? ==> r.value.id == expense.value.id
    ensures r.Some? ==> var f := r.value.fields;
              f.category in categories && f.category.id == categoryId && f.description == description
              && f.amount == parse(amount) && f.dueDay == Text.ParseDecimal(dueDay) && f.recurrence == recurrence
  {
    if expense.None? then None
    else
      match Seqs.Find(categories, IdIs(categoryId))
      case None => None
      case Some(c) => Some(Update(expense.value.id, Payload(description, parse(amount), c, Text.ParseDecimal(dueDay), recurrence)))
  }

  /** The patch `updateRecurringExpense` receives once both numbers parse:
      every one of the five keys present. */
  function PatchOf(f: Payload): (p: Option<Patch>)
    ensures p.Some? <==> f.amount.Some? && f.dueDay.Some?
    ensures p.Some? ==> p.value.description == Some(f.description) && p.value.amount == f.amount
                        && p.value.category == Some(f.category) && p.value.dueDay == f.dueDay
                        && p.value.recurrence == Some(f.recurrence)
  {
    if f.amount.Some? && f.dueDay.Some? then
      Some(Patch(Some(f.description), f.amount, Some(f.category), f.dueDay, Some(f.recurrence)))
    else None
  }

  class EditRecurringExpenseModal {
    var description: string
    var amount: string
    var categoryId: string
    var dueDay: string
    var recurrence: Recurrence

    constructor()
      ensures description == "" && amount == "" && categoryId == "" && dueDay == "1" && recurrence == Monthly
    {
      description := "";
      amount := "";
      categoryId := "";
      dueDay := "1";
      recurrence := Monthly;
    }

    /** The effect on a new `expense`: the form takes its fields, the
        amount written by `numberText` (`toString`) and the due day as its
        decimal text. */
    method Open(expense: Option<RecurringExpense>, numberText: real -> string)
      modifies this
      ensures expense.None? ==> description == old(description) && amount == old(amount)
                                && categoryId == old(categoryId) && dueDay == old(dueDay)
                                && recurrence == old(recurrence)
      ensures expense.Some? ==> var e := expense.value;
                description == e.description && amount == numberText(e.amount) && categoryId == e.category.id
                && dueDay == Text.IntText(e.dueDay) && recurrence == e.recurrence
    {
      if expense.Some? {
        var e := expense.value;
        description := e.description;
        amount := numberText(e.amount);
        categoryId := e.category.id;
        dueDay := Text.IntText(e.dueDay);
        recurrence := e.recurrence;
      }
    }
  }

  /** Opening the form on an expense and saving it unchanged sends the
      expense's own five fields, and merging them leaves the record as it
      was, provided its amount reads back from its text and its category is
      the one its id resolves to. */
  lemma OpenThenSave(e: RecurringExpense, categories: seq<Category>, numberText: real -> string,
                     parse: string -> Option<real>)
    requires parse(numberText(e.amount)) == Some(e.amount)
    requires e.category in categories && ResolveCategory(categories, e.category.id) == e.category
    ensures var r := Validated(Some(e), categories, e.description, numberText(e.amount), e.category.id,
                               Text.IntText(e.dueDay), e.recurrence, parse);
            r == Some(Update(e.id, Payload(e.description, Some(e.amount), e.category, Some(e.dueDay), e.recurrence)))
            && PatchOf(r.value.fields).Some? && Merged(e, PatchOf(r.value.fields).value) == e
  {
    Text.ParseIntText(e.dueDay);
  }

  /** Whatever the form sends, merging it keeps the record's id, paid state,
      payment link and paid period. */
  lemma SaveKeepsPaidState(e: RecurringExpense, u: Update)
    requires PatchOf(u.fields).Some?
    ensures var m := Merged(e, PatchOf(u.fields).value);
            m.id == e.id && m.isPaid == e.isPaid && m.paidTransactionId == e.paidTransactionId
            && m.paidForMonth == e.paidForMonth && m.paidForYear == e.paidForYear
            && m.description == u.fields.description && m.category == u.fields.category
  {
  }
}
