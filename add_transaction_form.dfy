/** `AddTransactionModal`: the form that builds a transaction for the
    in-memory ledger over the built-in category table. Submitting checks
    the amount and the description, hands the transaction to `onAdd` and
    resets the form; the two type buttons switch the kind and select the
    first category of the new kind's list. */
module AddTransactionForm {
  import Text
  import opened Wrappers
  import opened Ledger
  import opened CategoryLists
  import opened LocalTransactions

  /** What `handleSubmit` passes to `onAdd` from the form's fields, with
      `parse` standing for `parseFloat` (`None` for NaN) and `today` for
      `new Date()`; `None` when it returns early. */
  function Validated(kind: Kind, amount: string, description: string, selected: Category,
                     parse: string -> Option<real>, today: CalendarDate): (r: Option<Draft>)
    ensures r.Some? <==> parse(amount).Some? && parse(amount).value > 0.0 && !Text.AllWhitespace(description)
    ensures r.Some? ==> r.value.amount > 0.0 && Some(r.value.amount) == parse(amount)
    ensures r.Some? ==> r.value.description == Text.Trim(description) && r.value.description != ""
    ensures r.Some? ==> !Text.IsWhitespace(r.value.description[0])
                        && !Text.IsWhitespace(r.value.description[|r.value.description| - 1])
    ensures r.Some? ==> r.value.kind == kind && r.value.category == selected && r.value.date == today
  {
    Text.TrimEmptyIffBlank(description);
    var parsed := parse(amount);
    if parsed.None? || parsed.value <= 0.0 then None
    else if Text.Trim(description) == "" then None
    else Some(Draft(kind, parsed.value, selected, Text.Trim(description), today))
  }

  class AddTransactionModal {
    /** The built-in category table the form imports. */
    const categories: seq<Category>
    var kind: Kind
    var amount: string
    var description: string
    var selected: Category

    /** The shape of the table the form relies on: Salary first, then Food. */
    predicate Valid()
      reads this
    {
      |categories| >= 2 && categories[0].name == "Salary" && categories[1].name == "Food"
    }

    /** The form as it first appears, and as a successful add leaves it. */
    predicate Blank()
      reads this
      requires Valid()
    {
      kind == Expense && amount == "" && description == "" && selected == categories[1]
    }

    constructor()
      ensures categories == LocalCategories
      ensures Valid() && Blank()
    {
      categories := LocalCategories;
      kind := Expense;
      amount := "";
      description := "";
      selected := LocalCategories[1];
    }

    /** `filteredCategories`: the list the category buttons show. */
    function Listed(): seq<Category>
      reads this
    {
      if kind == Income then IncomeCategories(categories) else ExpenseCategories(categories)
    }

    /** The "Expense" button: the expense list's first entry, Food. */
    method ChooseExpense()
      requires Valid()
      modifies this
      ensures Valid()
      ensures kind == Expense && selected == ExpenseCategories(categories)[0] == categories[1]
      ensures selected in Listed()
      ensures amount == old(amount) && description == old(description)
    {
      ListHeads(categories);
      kind := Expense;
      selected := ExpenseCategories(categories)[0];
    }

    /** The "Income" button: the income list's first entry, Salary. */
    method ChooseIncome()
      requires Valid()
      modifies this
      ensures Valid()
      ensures kind == Income && selected == IncomeCategories(categories)[0] == categories[0]
      ensures selected in Listed()
      ensures amount == old(amount) && description == old(description)
    {
      ListHeads(categories);
      kind := Income;
      selected := IncomeCategories(categories)[0];
    }

    /** `handleSubmit`: the transaction given to `onAdd`, if any. The form
        is reset after an add and left as it was otherwise. */
    method Submit(parse: string -> Option<real>, today: CalendarDate) returns (added: Option<Draft>)
      requires Valid()
      modifies this
      ensures Valid()
      ensures added == Validated(old(kind), old(amount), old(description), old(selected), parse, today)
      ensures added.Some? ==> Blank()
      ensures added.None? ==> kind == old(kind) && amount == old(amount) && description == old(description)
                              && selected == old(selected)
    {
      added := Validated(kind, amount, description, selected, parse, today);
      if added.Some? {
        amount := "";
        description := "";
        selected := categories[1];
        kind := Expense;
      }
    }
  }
}
