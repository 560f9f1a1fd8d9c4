/** `BudgetSettingsModal`: one budget field per expense category. The
    fields start from the categories' budgets, each edit changes one field,
    and "Save" sends one category's field to `onUpdateBudget`: `null` for an
    empty field, its number otherwise. */
module BudgetSettingsForm {
  import opened Wrappers
  import opened Ledger
  import opened CategoryLists
  import SupabaseTransactions

  /** `c.budget?.toString() || ''`, with `numberText` standing for
      `toString`. */
  function BudgetText(budget: Option<real>, numberText: real -> string): (r: string)
    ensures budget.None? ==> r == ""
    ensures budget.Some? ==> r == numberText(budget.value)
  {
    match budget
    case None => ""
    case Some(b) => numberText(b)
  }

  /** The record the `forEach` builds over `cs`: each category's budget
      text under its id, a later category overwriting an earlier one with
      the same id. */
  function InitialBudgets(cs: seq<Category>, numberText: real -> string): map<string, string>
    decreases |cs|
  {
    if cs == [] then map[]
    else InitialBudgets(cs[..|cs| - 1], numberText)[cs[|cs| - 1].id := BudgetText(cs[|cs| - 1].budget, numberText)]
  }

  /** The record has an entry for every category id and no other. */
  lemma {:induction false} InitialBudgetsKeys(cs: seq<Category>, numberText: real -> string)
    ensures InitialBudgets(cs, numberText).Keys == set c | c in cs :: c.id
    decreases |cs|
  {
    if cs != [] {
      var front := cs[..|cs| - 1];
      InitialBudgetsKeys(front, numberText);
      assert cs == front + [cs[|cs| - 1]];
      assert (set c | c in cs :: c.id) == (set c | c in front :: c.id) + {cs[|cs| - 1].id};
    }
  }

  /** The entry for a category's id is that category's budget text when no
      later category has the same id. */
  lemma {:induction false} InitialBudgetsEntry(cs: seq<Category>, numberText: real -> string, i: nat)
    requires i < |cs|
    requires forall j :: i < j < |cs| ==> cs[j].id != cs[i].id
    ensures cs[i].id in InitialBudgets(cs, numberText)
    ensures InitialBudgets(cs, numberText)[cs[i].id] == BudgetText(cs[i].budget, numberText)
    decreases |cs|
  {
    if i < |cs| - 1 {
      var front := cs[..|cs| - 1];
      InitialBudgetsEntry(front, numberText, i);
    }
  }

  /** What `handleSave` passes as the budget. */
  datatype BudgetValue = Null | Number(value: real) | NotANumber

  /** `value ? parseFloat(value) : null` for the field's value (`None` when
      the record has no entry), with `parse` standing for `parseFloat`. */
  function SaveValue(value: Option<string>, parse: string -> Option<real>): (r: BudgetValue)
    ensures r.Null? <==> value.None? || value == Some("")
    ensures r.Number? ==> value.Some? && parse(value.value) == Some(r.value)
    ensures r.NotANumber? <==> value.Some? && value.value != "" && parse(value.value).None?
  {
    if value.None? || value.value == "" then Null
    else
      match parse(value.value)
      case None => NotANumber
      case Some(b) => Number(b)
  }

  /** The budget `updateCategoryBudget` keeps in memory for what was sent:
      `budget || undefined`, so `null`, NaN and 0 all clear it. */
  function HookBudget(v: BudgetValue): (r: Option<real>)
    ensures r.None? <==> v.Null? || v.NotANumber? || v == Number(0.0)
    ensures r.Some? ==> v == Number(r.value)
  {
    SupabaseTransactions.BudgetOrUndefined(if v.Number? then Some(v.value) else None)
  }

  class BudgetSettingsModal {
    const categories: seq<Category>
    var budgets: map<string, string>

    /** The lazy initial state: the record filled by the `forEach`. */
    constructor(categories: seq<Category>, numberText: real -> string)
      ensures this.categories == categories
      ensures budgets == InitialBudgets(categories, numberText)
    {
      this.categories := categories;
      var initial: map<string, string> := map[];
      var i := 0;
      while i < |categories|
        invariant 0 <= i <= |categories|
        invariant initial == InitialBudgets(categories[..i], numberText)
      {
        assert categories[..i + 1][..i] == categories[..i];
        initial := initial[categories[i].id := BudgetText(categories[i].budget, numberText)];
        i := i + 1;
      }
      assert categories[..i] == categories;
      budgets := initial;
    }

    /** `expenseCategories`: the categories the modal lists. */
    function Listed(): (r: seq<Category>)
      reads this
      ensures forall c :: c in r <==> c in categories && c.name !in IncomeOnlyNames
    {
      ExpenseCategories(categories)
    }

    /** `budgets[id] || ''`: what a category's field shows. */
    function Shown(id: string): string
      reads this
    {
      if id in budgets then budgets[id] else ""
    }

    /** Typing into a category's field changes that field only. */
    method Edit(id: string, text: string)
      modifies this
      ensures budgets == old(budgets)[id := text]
      ensures Shown(id) == text && forall other :: other != id ==> Shown(other) == old(Shown(other))
    {
      budgets := budgets[id := text];
    }

    /** `handleSave(id)`: the budget sent for `id`. */
    method Save(id: string, parse: string -> Option<real>) returns (sent: BudgetValue)
      ensures sent == SaveValue(if id in budgets then Some(budgets[id]) else None, parse)
      ensures sent.Null? <==> Shown(id) == ""
    {
      sent := SaveValue(if id in budgets then Some(budgets[id]) else None, parse);
    }
  }

  /** Saving a field that was left as it opened sends the category's own
      budget back, when `parse` reads what `numberText` wrote and no later
      category has the same id; a category without a budget sends `null`. */
  lemma SaveUnchanged(cs: seq<Category>, numberText: real -> string, parse: string -> Option<real>, i: nat)
    requires i < |cs|
    requires forall j :: i < j < |cs| ==> cs[j].id != cs[i].id
    requires cs[i].budget.Some? ==> numberText(cs[i].budget.value) != ""
                                    && parse(numberText(cs[i].budget.value)) == cs[i].budget
    ensures cs[i].id in InitialBudgets(cs, numberText)
    ensures var sent := SaveValue(Some(InitialBudgets(cs, numberText)[cs[i].id]), parse);
            (cs[i].budget.None? ==> sent == Null)
            && (cs[i].budget.Some? ==> sent == Number(cs[i].budget.value))
            && HookBudget(sent) == SupabaseTransactions.BudgetOrUndefined(cs[i].budget)
  {
    InitialBudgetsEntry(cs, numberText, i);
  }
}
