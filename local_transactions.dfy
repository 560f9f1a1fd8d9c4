/** `useTransactions`: the in-memory ledger used before the Supabase hook,
    seeded with seven sample transactions over the category table of
    `src/types/transaction.ts`, and its all-time figures. */
module LocalTransactions {
  import Text
  import Seqs
  import opened Wrappers
  import opened Ledger
  import opened Aggregation

  /** `categories` of `src/types/transaction.ts`: ids "1" to "12", and no
      budgets. */
  const LocalCategories: seq<Category> := [
    Category("1", "Salary", "\U{1F4B0}", "hsl(160 84% 39%)", None),
    Category("2", "Food", "\U{1F354}", "hsl(30 90% 55%)", None),
    Category("3", "Transport", "\U{1F697}", "hsl(200 80% 50%)", None),
    Category("4", "Shopping", "\U{1F6CD}\U{FE0F}", "hsl(330 80% 55%)", None),
    Category("5", "Entertainment", "\U{1F3AC}", "hsl(280 70% 55%)", None),
    Category("6", "Bills", "\U{1F4C4}", "hsl(220 70% 50%)", None),
    Category("7", "Health", "\U{1F48A}", "hsl(0 70% 55%)", None),
    Category("8", "Freelance", "\U{1F4BB}", "hsl(170 70% 45%)", None),
    Category("9", "Gift", "\U{1F381}", "hsl(350 80% 60%)", None),
    Category("10", "Investment", "\U{1F4C8}", "hsl(140 60% 45%)", None),
    Category("11", "Groceries", "\U{1F6D2}", "hsl(100 60% 45%)", None),
    Category("12", "Other", "\U{1F4E6}", "hsl(220 10% 50%)", None)
  ]

  /** `Omit<Transaction, 'id'>` of the local type, which has no recurrence. */
  datatype Draft = Draft(kind: Kind, amount: real, category: Category, description: string, date: CalendarDate)

  /** The transaction `addTransaction` builds from a draft and an id. */
  function Stamped(id: string, d: Draft): Transaction {
    Transaction(id, d.kind, d.amount, d.category, d.description, d.date, OneTime)
  }

  function Sample(id: string, kind: Kind, amount: real, c: nat, description: string, date: CalendarDate): Transaction
    requires c < |LocalCategories|
  {
    Transaction(id, kind, amount, LocalCategories[c], description, date, OneTime)
  }

  /** `initialTransactions`. */
  const InitialTransactions: seq<Transaction> := [
    Sample("1", Income, 5000.0, 0, "Monthly salary", CalendarDate(2026, 1, 1)),
    Sample("2", Expense, 45.50, 1, "Dinner at restaurant", CalendarDate(2026, 1, 1)),
    Sample("3", Expense, 30.0, 2, "Uber rides", CalendarDate(2025, 12, 31)),
    Sample("4", Expense, 120.0, 3, "New headphones", CalendarDate(2025, 12, 30)),
    Sample("5", Income, 350.0, 7, "Freelance project", CalendarDate(2025, 12, 28)),
    Sample("6", Expense, 89.0, 5, "Internet bill", CalendarDate(2025, 12, 27)),
    Sample("7", Expense, 65.0, 10, "Weekly groceries", CalendarDate(2025, 12, 26))
  ]

  class LocalTransactionsHook {
    var transactions: seq<Transaction>

    constructor()
      ensures transactions == InitialTransactions
    {
      transactions := InitialTransactions;
    }

    /** `totalIncome`, `totalExpenses`, `totalBalance`, over every
        transaction. */
    function Summary(): Totals
      reads this
    {
      TotalsOf(transactions)
    }

    function ByCategory(): seq<CategoryTotal>
      reads this
    {
      ExpensesByCategory(transactions)
    }

    /** `addTransaction`: the id is the decimal text of the clock reading
        `now` (milliseconds), and the transaction goes in front. */
    method AddTransaction(d: Draft, now: nat)
      modifies this
      ensures transactions == [Stamped(Text.NatText(now), d)] + old(transactions)
      ensures Summary().balance == old(Summary()).balance + Signed(Stamped(Text.NatText(now), d))
    {
      PrependTotals(Stamped(Text.NatText(now), d), transactions);
      transactions := [Stamped(Text.NatText(now), d)] + transactions;
    }

    /** `deleteTransaction`: drop every transaction with the id. */
    method DeleteTransaction(id: string)
      modifies this
      ensures transactions == Without(old(transactions), id)
    {
      transactions := Without(transactions, id);
    }
  }

  /** Every local category id is an array index equal to its position plus
      one, so `Object.values` lists the expense groups by category number
      before the sort by total. */
  lemma LocalCategoryIds()
    ensures forall i :: 0 <= i < |LocalCategories| ==>
              IsArrayIndex(LocalCategories[i].id) && Text.DigitsValue(LocalCategories[i].id) == i + 1
  {
    forall i | 0 <= i < |LocalCategories|
      ensures IsArrayIndex(LocalCategories[i].id) && Text.DigitsValue(LocalCategories[i].id) == i + 1
    {
      var id := LocalCategories[i].id;
      if i < 9 {
        assert id == [Text.DigitChar(i + 1)];
        assert id[..0] == [];
      } else {
        assert id == ['1', Text.DigitChar(i - 9)];
        assert id[..1] == ['1'] && id[..1][..0] == [];
      }
    }
  }

  /** The totals of a list, added up from its end. */
  lemma {:induction false} TotalsFromEnd(ts: seq<Transaction>, incomes: seq<real>, expenses: seq<real>)
    requires |incomes| == |expenses| == |ts| + 1
    requires incomes[|ts|] == 0.0 && expenses[|ts|] == 0.0
    requires forall i :: 0 <= i < |ts| ==>
               incomes[i] == incomes[i + 1] + (if ts[i].kind == Income then ts[i].amount else 0.0)
    requires forall i :: 0 <= i < |ts| ==>
               expenses[i] == expenses[i + 1] + (if ts[i].kind == Expense then ts[i].amount else 0.0)
    ensures TotalsOf(ts).income == incomes[0] && TotalsOf(ts).expenses == expenses[0]
    decreases |ts|
  {
    if ts != [] {
      TotalsFromEnd(ts[1..], incomes[1..], expenses[1..]);
      PrependTotals(ts[0], ts[1..]);
      assert ts == [ts[0]] + ts[1..];
    }
  }

  /** The sample ledger starts with 5350 of income, 349.50 of expenses and
      a balance of 5000.50. */
  lemma InitialTotals()
    ensures TotalsOf(InitialTransactions) == Totals(5350.0, 349.5, 5000.5)
  {
    TotalsFromEnd(InitialTransactions,
                  [5350.0, 350.0, 350.0, 350.0, 350.0, 0.0, 0.0, 0.0],
                  [349.5, 349.5, 304.0, 274.0, 154.0, 154.0, 65.0, 0.0]);
  }
}
