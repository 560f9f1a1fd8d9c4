/** The split of a category table into the income list and the expense
    list the forms offer. The split goes by category name: "Gift" and
    "Other" fall in both lists, "Salary", "Freelance" and "Investment"
    only in the income list, and every other name only in the expense
    list. */
module CategoryLists {
  import Seqs
  import opened Wrappers
  import opened Ledger
  import LocalTransactions

  const IncomeNames: seq<string> := ["Salary", "Freelance", "Gift", "Investment", "Other"]

  /** The names the expense list leaves out. */
  const IncomeOnlyNames: seq<string> := ["Salary", "Freelance", "Investment"]

  predicate IsIncomeCategory(c: Category) {
    c.name in IncomeNames
  }

  predicate IsExpenseCategory(c: Category) {
    c.name !in IncomeOnlyNames
  }

  /** `categories.filter(c => [...income names].includes(c.name))`. */
  function IncomeCategories(cs: seq<Category>): (r: seq<Category>)
    ensures forall c :: c in r <==> c in cs && c.name in IncomeNames
  {
    Seqs.Filter(cs, IsIncomeCategory)
  }

  /** `categories.filter(c => ![...income-only names].includes(c.name))`. */
  function ExpenseCategories(cs: seq<Category>): (r: seq<Category>)
    ensures forall c :: c in r <==> c in cs && c.name !in IncomeOnlyNames
  {
    Seqs.Filter(cs, IsExpenseCategory)
  }

  /** `list[0]`, which is `undefined` on an empty list. */
  function FirstOf(list: seq<Category>): (r: Option<Category>)
    ensures r.None? <==> list == []
    ensures r.Some? ==> r.value in list && r.value == list[0]
  {
    if list == [] then None else Some(list[0])
  }

  /** Which of the two lists a category is on depends on its name alone:
      "Gift" and "Other" are on both, "Salary", "Freelance" and
      "Investment" on the income list only, any other name on the expense
      list only; so every category of the table is on at least one list. */
  lemma ListMembership(cs: seq<Category>, c: Category)
    requires c in cs
    ensures c in IncomeCategories(cs) && c in ExpenseCategories(cs) <==> c.name == "Gift" || c.name == "Other"
    ensures c in IncomeCategories(cs) && c !in ExpenseCategories(cs) <==>
              c.name == "Salary" || c.name == "Freelance" || c.name == "Investment"
    ensures c in IncomeCategories(cs) || c in ExpenseCategories(cs)
  {
  }

  /** Both lists keep the table's order: the list of a table made of two
      parts is the list of the first part followed by that of the second. */
  lemma ListsKeepOrder(a: seq<Category>, b: seq<Category>)
    ensures IncomeCategories(a + b) == IncomeCategories(a) + IncomeCategories(b)
    ensures ExpenseCategories(a + b) == ExpenseCategories(a) + ExpenseCategories(b)
  {
    Seqs.FilterConcat(a, b, IsIncomeCategory);
    Seqs.FilterConcat(a, b, IsExpenseCategory);
  }

  /** A table that starts with Salary and then Food has non-empty lists:
      the income list starts with Salary and the expense list with Food. */
  lemma ListHeads(cs: seq<Category>)
    requires |cs| >= 2 && cs[0].name == "Salary" && cs[1].name == "Food"
    ensures IncomeCategories(cs) != [] && IncomeCategories(cs)[0] == cs[0]
    ensures ExpenseCategories(cs) != [] && ExpenseCategories(cs)[0] == cs[1]
  {
    Seqs.FilterFirst(cs, IsIncomeCategory, 0);
    Seqs.FilterFirst(cs, IsExpenseCategory, 1);
  }

  /** The built-in table of `src/types/transaction.ts` is such a table, so
      the add form's starting category, Food, heads its expense list. */
  lemma LocalLists()
    ensures IncomeCategories(LocalTransactions.LocalCategories) != []
    ensures IncomeCategories(LocalTransactions.LocalCategories)[0] == LocalTransactions.LocalCategories[0]
    ensures ExpenseCategories(LocalTransactions.LocalCategories) != []
    ensures ExpenseCategories(LocalTransactions.LocalCategories)[0] == LocalTransactions.LocalCategories[1]
  {
    ListHeads(LocalTransactions.LocalCategories);
  }

  /** Over the default table the Supabase hook seeds, the expense list holds
      exactly the categories that carry a budget. */
  lemma DefaultExpenseList()
    ensures forall c :: c in ExpenseCategories(DefaultCategories) <==> c in DefaultCategories && c.budget.Some?
  {
    DefaultCategoriesWithoutBudget();
  }
}
