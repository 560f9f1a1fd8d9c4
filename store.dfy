/** The three Supabase tables the hooks write to, as seen by the signed-in
    user: every row is keyed by its id, and every query the hooks issue is
    already restricted to that user's rows. */
module Store {
  import opened Wrappers
  import opened Ledger

  /** A row of `transactions`; `date` holds the `YYYY-MM-DD` text. */
  datatype TransactionRow = TransactionRow(
    kind: Kind,
    amount: real,
    categoryId: string,
    description: string,
    date: string,
    recurrence: Recurrence)

  /** A row of `recurring_expenses`; the last three columns are `null`
      (`None`) until the expense is marked as paid. */
  datatype RecurringRow = RecurringRow(
    description: string,
    amount: real,
    categoryId: string,
    dueDay: int,
    recurrence: Recurrence,
    isPaid: bool,
    paidTransactionId: Option<string>,
    paidForMonth: Option<int>,
    paidForYear: Option<int>)

  /** A row of `categories`; `budget` is `null` (`None`) when none is set. */
  datatype CategoryRow = CategoryRow(name: string, icon: string, color: string, budget: Option<real>)

  /** What the database answers to an `insert(...).select().single()`: the
      id it assigned to the new row, or an error. */
  datatype Insert = Assigns(id: string) | Rejects

  /** What the database answers to an `update` or a `delete`. */
  datatype Write = Succeeds | Fails

  /** `update(...).eq('id', id)`: changes the row with that id, if any. */
  function UpdateWhere<R>(rows: map<string, R>, id: string, f: R -> R): (r: map<string, R>)
    ensures r.Keys == rows.Keys
    ensures forall k :: k in rows ==> r[k] == if k == id then f(rows[k]) else rows[k]
  {
    if id in rows then rows[id := f(rows[id])] else rows
  }

  class Tables {
    var transactions: map<string, TransactionRow>
    var recurring: map<string, RecurringRow>
    var categories: map<string, CategoryRow>

    constructor(transactions: map<string, TransactionRow>, recurring: map<string, RecurringRow>,
                categories: map<string, CategoryRow>)
      ensures this.transactions == transactions && this.recurring == recurring
      ensures this.categories == categories
    {
      this.transactions := transactions;
      this.recurring := recurring;
      this.categories := categories;
    }
  }
}
