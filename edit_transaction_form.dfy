/** `EditTransactionModal`: the form that edits a stored transaction. It is
    filled from the transaction when one is given; submitting checks the
    fields and sends every field back, with the date moved to the 15th of
    the chosen month; the two type buttons keep the selected category when
    the new kind's list has it. */
module EditTransactionForm {
  import Text
  import Seqs
  import opened Wrappers
  import opened Ledger
  import opened CategoryLists
  import opened SupabaseTransactions

  /** A month as the month selector offers it, counted from 0. */
  type MonthIndex = m: int | 0 <= m <= 11

  /** `years`: the five years `currentYear - 2 + i` for `i` from 0 to 4. */
  function Years(currentYear: int): (r: seq<int>)
    ensures |r| == 5
    ensures forall y :: y in r <==> currentYear - 2 <= y <= currentYear + 2
    ensures forall i, j :: 0 <= i < j < |r| ==> r[i] < r[j]
  {
    [currentYear - 2, currentYear - 1, currentYear, currentYear + 1, currentYear + 2]
  }

  /** The argument pair of `onUpdate`. */
  datatype Update = Update(id: string, patch: TransactionPatch)

  /** What `handleSubmit` sends from the form's fields, with `parse`
      standing for `parseFloat` (`None` for NaN); `None` when it returns
      early. */
  function Validated(transaction: Option<Transaction>, selected: Option<Category>, kind: Kind, amount: string,
                     description: string, month: MonthIndex, year: int, recurrence: Recurrence,
                     parse: string -> Option<real>): (r: Option<Update>)
    ensures r.Some? <==> transaction.Some? && selected.Some? && parse(amount).Some? && parse(amount).value > 0.0
                         && !Text.AllWhitespace(description)
    ensures r.Some? ==> r.value.id == transaction.value.id
    ensures r.Some? ==> var p := r.value.patch;
              p.kind == Some(kind) && p.category == selected && p.recurrence == Some(recurrence)
              && p.amount == parse(amount) && p.amount.value > 0.0
              && p.description == Some(Text.Trim(description)) && p.description.value != ""
              && p.date.Some? && p.date.value.day == 15 && p.date.value.MonthIndex() == month && p.date.value.year == year
  {
    Text.TrimEmptyIffBlank(description);
    if transaction.None? || selected.None? then None
    else
      var parsed := parse(amount);
      if parsed.None? || parsed.value <= 0.0 then None
      else if Text.Trim(description) == "" then None
      else Some(Update(transaction.value.id,
                       TransactionPatch(Some(kind), Some(parsed.value), selected, Some(Text.Trim(description)),
                                        Some(CalendarDate(year, month + 1, 15)), Some(recurrence))))
  }

  /** An edit this form sends never hits the truthiness filter of
      `updateTransaction`: the stored row and the listed transaction agree
      afterwards, the id is kept, and the date is the 15th. */
  lemma EditAgreesWithStore(transaction: Option<Transaction>, selected: Option<Category>, kind: Kind, amount: string,
                            description: string, month: MonthIndex, year: int, recurrence: Recurrence,
                            parse: string -> Option<real>, t: Transaction)
    requires Validated(transaction, selected, kind, amount, description, month, year, recurrence, parse).Some?
    ensures var u := Validated(transaction, selected, kind, amount, description, month, year, recurrence, parse).value;
            ApplyPatch(RowOfTransaction(t), StorePatch(u.patch)) == RowOfTransaction(Merge(t, u.patch))
            && Merge(t, u.patch).id == t.id && Merge(t, u.patch).date.day == 15
  {
    var u := Validated(transaction, selected, kind, amount, description, month, year, recurrence, parse).value;
    UpdateAgreement(t, u.patch);
  }

  /** The selection after a type button: kept when the new list has a
      category with its id, otherwise the list's first entry (`undefined`
      on an empty list); no selection stays none. */
  function KeepIfListed(selected: Option<Category>, list: seq<Category>): (r: Option<Category>)
    ensures selected.None? ==> r.None?
    ensures selected.Some? && (exists c :: c in list && c.id == selected.value.id) ==> r == selected
    ensures selected.Some? && list != [] ==> r.Some? && exists c :: c in list && c.id == r.value.id
    ensures selected.Some? && !(exists c :: c in list && c.id == selected.value.id) ==> r == FirstOf(list)
    ensures r == selected || r == FirstOf(list)
  {
    match selected
    case None => None
    case Some(c) => if Seqs.Find(list, IdIs(c.id)).Some? then selected else FirstOf(list)
  }

  class EditTransactionModal {
    const categories: seq<Category>
    var kind: Kind
    var amount: string
    var description: string
    var selected: Option<Category>
    var month: MonthIndex
    var year: int
    var recurrence: Recurrence

    constructor(categories: seq<Category>, currentYear: int)
      ensures this.categories == categories
      ensures kind == Expense && amount == "" && description == "" && selected == None
      ensures month == 0 && year == currentYear && recurrence == OneTime
    {
      this.categories := categories;
      kind := Expense;
      amount := "";
      description := "";
      selected := None;
      month := 0;
      year := currentYear;
      recurrence := OneTime;
    }

    /** `filteredCategories`. */
    function Listed(): seq<Category>
      reads this
    {
      if kind == Income then IncomeCategories(categories) else ExpenseCategories(categories)
    }

    /** The effect on a new `transaction`: the form takes its fields, the
        amount written by `numberText` (`toString`). */
    method Open(transaction: Option<Transaction>, numberText: real -> string)
      modifies this
      ensures transaction.None? ==> kind == old(kind) && amount == old(amount) && description == old(description)
                                    && selected == old(selected) && month == old(month) && year == old(year)
                                    && recurrence == old(recurrence)
      ensures transaction.Some? ==> var t := transaction.value;
                kind == t.kind && amount == numberText(t.amount) && description == t.description
                && selected == Some(t.category) && month == t.date.MonthIndex() && year == t.date.year
                && recurrence == t.recurrence
    {
      if transaction.Some? {
        var t := transaction.value;
        kind := t.kind;
        amount := numberText(t.amount);
        description := t.description;
        selected := Some(t.category);
        month := t.date.MonthIndex();
        year := t.date.year;
        recurrence := t.recurrence;
      }
    }

    /** The "Expense" button. */
    method ChooseExpense()
      modifies this
      ensures kind == Expense && selected == KeepIfListed(old(selected), ExpenseCategories(categories))
      ensures amount == old(amount) && description == old(description) && month == old(month)
              && year == old(year) && recurrence == old(recurrence)
    {
      kind := Expense;
      selected := KeepIfListed(selected, ExpenseCategories(categories));
    }

    /** The "Income" button. */
    method ChooseIncome()
      modifies this
      ensures kind == Income && selected == KeepIfListed(old(selected), IncomeCategories(categories))
      ensures amount == old(amount) && description == old(description) && month == old(month)
              && year == old(year) && recurrence == old(recurrence)
    {
      kind := Income;
      selected := KeepIfListed(selected, IncomeCategories(categories));
    }
  }

  /** Opening the form on a transaction and submitting it unchanged sends
      the transaction's own fields back, dated the 15th of its month,
      provided its amount reads back from its text and its description is
      not blank. */
  lemma OpenThenSubmit(t: Transaction, numberText: real -> string, parse: string -> Option<real>)
    requires parse(numberText(t.amount)) == Some(t.amount) && t.amount > 0.0
    requires !Text.AllWhitespace(t.description)
    ensures var r := Validated(Some(t), Some(t.category), t.kind, numberText(t.amount), t.description,
                               t.date.MonthIndex(), t.date.year, t.recurrence, parse);
            r.Some? && r.value.id == t.id
            && Merge(t, r.value.patch) == t.(description := Text.Trim(t.description), date := CalendarDate(t.date.year, t.date.month, 15))
  {
  }
}
