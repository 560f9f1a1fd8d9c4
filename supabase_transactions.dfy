/** `useSupabaseTransactions`: the signed-in user's transactions and
    categories, kept in memory beside the `transactions` and `categories`
    tables, and the viewing period the derived figures are computed over. */
module SupabaseTransactions {
  import opened Wrappers
  import Seqs
  import opened Ledger
  import opened Store
  import opened Aggregation

  /** `Omit<Transaction, 'id'>`: what `addTransaction` receives. */
  datatype NewTransaction = NewTransaction(
    kind: Kind,
    amount: real,
    category: Category,
    description: string,
    date: CalendarDate,
    recurrence: Recurrence)

  /** `Partial<Omit<Transaction, 'id'>>`: `None` is a key that is absent. */
  datatype TransactionPatch = TransactionPatch(
    kind: Option<Kind>,
    amount: Option<real>,
    category: Option<Category>,
    description: Option<string>,
    date: Option<CalendarDate>,
    recurrence: Option<Recurrence>)

  /** The columns an `update` sets; `None` leaves a column as it is. */
  datatype RowPatch = RowPatch(
    kind: Option<Kind>,
    amount: Option<real>,
    categoryId: Option<string>,
    description: Option<string>,
    date: Option<string>,
    recurrence: Option<Recurrence>)

  /** The row `addTransaction` inserts. */
  function RowOf(t: NewTransaction): TransactionRow {
    TransactionRow(t.kind, t.amount, t.category.id, t.description, IsoDateText(t.date), t.recurrence)
  }

  /** The transaction `addTransaction` puts in front of the list once the
      database has assigned `id`. */
  function Saved(id: string, t: NewTransaction): Transaction {
    Transaction(id, t.kind, t.amount, t.category, t.description, t.date, t.recurrence)
  }

  /** The transaction the loader builds from a stored row; `None` when the
      date column does not read as a date. */
  function FromRow(id: string, row: TransactionRow, categories: seq<Category>): Option<Transaction> {
    match ReadIsoDate(row.date)
    case None => None
    case Some(d) =>
      Some(Transaction(id, row.kind, row.amount, ResolveCategory(categories, row.categoryId),
                       row.description, d, row.recurrence))
  }

  /** What `addTransaction` prepends is what loading the inserted row would
      give, whenever the category resolves to itself and the year has four
      digits. */
  lemma SavedMatchesReload(id: string, t: NewTransaction, categories: seq<Category>)
    requires ResolveCategory(categories, t.category.id) == t.category
    requires 0 <= t.date.year <= 9999
    ensures FromRow(id, RowOf(t), categories) == Some(Saved(id, t))
  {
    IsoDateRoundTrip(t.date);
  }

  /** `{ ...t, ...updates }`. */
  function Merge(t: Transaction, p: TransactionPatch): Transaction {
    Transaction(t.id, p.kind.GetOr(t.kind), p.amount.GetOr(t.amount), p.category.GetOr(t.category),
                p.description.GetOr(t.description), p.date.GetOr(t.date), p.recurrence.GetOr(t.recurrence))
  }

  /** The `updateData` record: only truthy fields are sent, so an amount of
      0 and an empty description are dropped. */
  function StorePatch(p: TransactionPatch): RowPatch {
    RowPatch(
      p.kind,
      if p.amount == Some(0.0) then None else p.amount,
      if p.category.Some? then Some(p.category.value.id) else None,
      if p.description == Some("") then None else p.description,
      if p.date.Some? then Some(IsoDateText(p.date.value)) else None,
      p.recurrence)
  }

  /** The row after the `update`. */
  function ApplyPatch(row: TransactionRow, p: RowPatch): TransactionRow {
    TransactionRow(p.kind.GetOr(row.kind), p.amount.GetOr(row.amount), p.categoryId.GetOr(row.categoryId),
                   p.description.GetOr(row.description), p.date.GetOr(row.date), p.recurrence.GetOr(row.recurrence))
  }

  /** The row the in-memory transaction would be written as. */
  function RowOfTransaction(t: Transaction): TransactionRow {
    TransactionRow(t.kind, t.amount, t.category.id, t.description, IsoDateText(t.date), t.recurrence)
  }

  /** The store and the list agree after an update exactly when the patch
      has no falsy value: without a 0 amount or an empty description the
      stored row is the merged transaction's row; with one, the store keeps
      the old value while the list shows the new one. */
  lemma UpdateAgreement(t: Transaction, p: TransactionPatch)
    ensures p.amount != Some(0.0) && p.description != Some("") ==>
              ApplyPatch(RowOfTransaction(t), StorePatch(p)) == RowOfTransaction(Merge(t, p))
    ensures p.amount == Some(0.0) ==>
              ApplyPatch(RowOfTransaction(t), StorePatch(p)).amount == t.amount && Merge(t, p).amount == 0.0
    ensures p.description == Some("") ==>
              ApplyPatch(RowOfTransaction(t), StorePatch(p)).description == t.description
              && Merge(t, p).description == ""
  {
  }

  /** `prev.map(t => t.id === id ? { ...t, ...updates } : t)`. */
  function MergeWhere(ts: seq<Transaction>, id: string, p: TransactionPatch): (r: seq<Transaction>)
    ensures |r| == |ts|
    ensures forall i :: 0 <= i < |ts| ==> r[i] == if ts[i].id == id then Merge(ts[i], p) else ts[i]
  {
    if ts == [] then []
    else [if ts[0].id == id then Merge(ts[0], p) else ts[0]] + MergeWhere(ts[1..], id, p)
  }

  /** `budget || undefined` on a number or `null`: a missing or zero budget
      becomes undefined. */
  function BudgetOrUndefined(budget: Option<real>): (r: Option<real>)
    ensures r.None? <==> budget.None? || budget == Some(0.0)
    ensures r.Some? ==> r == budget
  {
    if budget == Some(0.0) then None else budget
  }

  /** The category the loader builds from a stored row. */
  function CategoryFromRow(id: string, row: CategoryRow): Category {
    Category(id, row.name, row.icon, row.color, BudgetOrUndefined(row.budget))
  }

  /** The row inserted for a default category of a new user. */
  function SeedRow(c: Category): CategoryRow {
    CategoryRow(c.name, c.icon, c.color, BudgetOrUndefined(c.budget))
  }

  /** Seeding the default table and loading it back gives the default
      categories again, under the ids the database assigned. */
  lemma SeedThenLoad(c: Category, id: string)
    requires c in DefaultCategories
    ensures CategoryFromRow(id, SeedRow(c)) == c.(id := id)
  {
    DefaultBudgetsPositive();
  }

  /** `prev.map(c => c.id === id ? { ...c, budget: budget || undefined } : c)`. */
  function WithBudget(categories: seq<Category>, id: string, budget: Option<real>): (r: seq<Category>)
    ensures |r| == |categories|
    ensures forall i :: 0 <= i < |categories| ==>
              r[i] == if categories[i].id == id then categories[i].(budget := BudgetOrUndefined(budget)) else categories[i]
  {
    if categories == [] then []
    else
      [if categories[0].id == id then categories[0].(budget := BudgetOrUndefined(budget)) else categories[0]]
      + WithBudget(categories[1..], id, budget)
  }

  /** After `updateCategoryBudget` the in-memory category is the one a reload
      of the updated row would give. */
  lemma BudgetUpdateMatchesReload(id: string, row: CategoryRow, budget: Option<real>)
    ensures CategoryFromRow(id, row.(budget := budget)) == CategoryFromRow(id, row).(budget := BudgetOrUndefined(budget))
  {
  }

  /** Clearing a budget (to `null` or 0) takes the category out of
      `budgetProgress`. */
  lemma BudgetClearedLeavesProgress(ts: seq<Transaction>, categories: seq<Category>, id: string, budget: Option<real>)
    requires budget.None? || budget == Some(0.0)
    ensures forall s :: s in BudgetProgress(ts, WithBudget(categories, id, budget)) ==> s.category.id != id
  {
    var r := WithBudget(categories, id, budget);
    BudgetProgressEntries(ts, r);
    forall s | s in BudgetProgress(ts, r) ensures s.category.id != id {
      var i :| 0 <= i < |r| && r[i] == s.category;
    }
  }

  /** Setting a positive budget puts the category into `budgetProgress`
      with that budget. */
  lemma BudgetSetEntersProgress(ts: seq<Transaction>, categories: seq<Category>, id: string, budget: Option<real>)
    requires budget.Some? && budget.value > 0.0
    ensures forall c :: c in categories && c.id == id ==>
              exists s :: s in BudgetProgress(ts, WithBudget(categories, id, budget))
                          && s.category == c.(budget := budget) && s.budget == budget.value
  {
    var r := WithBudget(categories, id, budget);
    BudgetProgressEntries(ts, r);
    forall c | c in categories && c.id == id
      ensures exists s :: s in BudgetProgress(ts, r) && s.category == c.(budget := budget) && s.budget == budget.value
    {
      var i :| 0 <= i < |categories| && categories[i] == c;
      assert r[i] == c.(budget := budget);
      assert r[i] in r;
    }
  }

  /** The hook's state. The derived figures are functions of it. */
  class TransactionsHook {
    const store: Tables
    /** Whether `user` is set; every operation returns at once without one. */
    const signedIn: bool
    var transactions: seq<Transaction>
    var categories: seq<Category>
    var filterPeriod: FilterPeriod

    /** The initial state: no transactions yet, the default categories, and
        the month of `today`. */
    constructor(store: Tables, signedIn: bool, today: CalendarDate)
      ensures this.store == store && this.signedIn == signedIn
      ensures transactions == [] && categories == DefaultCategories
      ensures filterPeriod == MonthOf(today.MonthIndex(), today.year)
    {
      this.store := store;
      this.signedIn := signedIn;
      transactions := [];
      categories := DefaultCategories;
      filterPeriod := MonthOf(today.MonthIndex(), today.year);
    }

    /** `filteredTransactions`. */
    function Visible(): seq<Transaction>
      reads this
    {
      FilterByPeriod(transactions, filterPeriod)
    }

    /** `totalIncome`, `totalExpenses`, `totalBalance`. */
    function Summary(): Totals
      reads this
    {
      TotalsOf(Visible())
    }

    function ByCategory(): seq<CategoryTotal>
      reads this
    {
      ExpensesByCategory(Visible())
    }

    function Progress(): seq<BudgetStatus>
      reads this
    {
      BudgetProgress(Visible(), categories)
    }

    method SetFilterPeriod(period: FilterPeriod)
      modifies this
      ensures filterPeriod == period
      ensures transactions == old(transactions) && categories == old(categories)
    {
      filterPeriod := period;
    }

    /** `addTransaction`: insert the row, then put the saved transaction in
        front of the list; on an error nothing changes. */
    method AddTransaction(t: NewTransaction, outcome: Insert)
      modifies this, store
      ensures categories == old(categories) && filterPeriod == old(filterPeriod)
      ensures store.recurring == old(store.recurring) && store.categories == old(store.categories)
      ensures if signedIn && outcome.Assigns? then
                store.transactions == old(store.transactions)[outcome.id := RowOf(t)]
                && transactions == [Saved(outcome.id, t)] + old(transactions)
              else
                store.transactions == old(store.transactions) && transactions == old(transactions)
    {
      if !signedIn {
        return;
      }
      if outcome.Rejects? {
        return;
      }
      store.transactions := store.transactions[outcome.id := RowOf(t)];
      transactions := [Saved(outcome.id, t)] + transactions;
    }

    /** `updateTransaction`: send the truthy fields, then merge the whole
        patch into the transaction with that id. */
    method UpdateTransaction(id: string, p: TransactionPatch, outcome: Write)
      modifies this, store
      ensures categories == old(categories) && filterPeriod == old(filterPeriod)
      ensures store.recurring == old(store.recurring) && store.categories == old(store.categories)
      ensures if signedIn && outcome.Succeeds? then
                store.transactions == UpdateWhere(old(store.transactions), id, row => ApplyPatch(row, StorePatch(p)))
                && transactions == MergeWhere(old(transactions), id, p)
              else
                store.transactions == old(store.transactions) && transactions == old(transactions)
    {
      if !signedIn {
        return;
      }
      if outcome.Fails? {
        return;
      }
      store.transactions := UpdateWhere(store.transactions, id, row => ApplyPatch(row, StorePatch(p)));
      transactions := MergeWhere(transactions, id, p);
    }

    /** `deleteTransaction`. */
    method DeleteTransaction(id: string, outcome: Write)
      modifies this, store
      ensures categories == old(categories) && filterPeriod == old(filterPeriod)
      ensures store.recurring == old(store.recurring) && store.categories == old(store.categories)
      ensures if signedIn && outcome.Succeeds? then
                store.transactions == old(store.transactions) - {id} && transactions == Without(old(transactions), id)
              else
                store.transactions == old(store.transactions) && transactions == old(transactions)
    {
      if !signedIn {
        return;
      }
      if outcome.Fails? {
        return;
      }
      store.transactions := store.transactions - {id};
      transactions := Without(transactions, id);
    }

    /** `updateCategoryBudget`: the column takes the value as given, the
        in-memory category `budget || undefined`. */
    method UpdateCategoryBudget(id: string, budget: Option<real>, outcome: Write)
      modifies this, store
      ensures transactions == old(transactions) && filterPeriod == old(filterPeriod)
      ensures store.transactions == old(store.transactions) && store.recurring == old(store.recurring)
      ensures if signedIn && outcome.Succeeds? then
                store.categories == UpdateWhere(old(store.categories), id, (row: CategoryRow) => row.(budget := budget))
                && categories == WithBudget(old(categories), id, budget)
              else
                store.categories == old(store.categories) && categories == old(categories)
    {
      if !signedIn {
        return;
      }
      if outcome.Fails? {
        return;
      }
      store.categories := UpdateWhere(store.categories, id, (row: CategoryRow) => row.(budget := budget));
      categories := WithBudget(categories, id, budget);
    }
  }
}
