/** The derived views of the transactions hook: the period filter, the
    income/expense/balance totals, the per-category expense grouping and the
    budget progress list. They are pure `filter`/`reduce`/`sort` expressions
    over the transaction and category lists. */
module Aggregation {
  import opened Wrappers
  import Seqs
  import Text
  import opened Ledger

  // ---------------------------------------------------------------------
  // Period filter

  /** Whether a transaction falls in the period: every transaction is in
      'all'; otherwise its `getMonth()` and `getFullYear()` must both match. */
  predicate InPeriod(t: Transaction, period: FilterPeriod) {
    period.AllTime? || (t.date.MonthIndex() == period.month && t.date.year == period.year)
  }

  function InMonth(month: int, year: int): Transaction -> bool {
    (t: Transaction) => t.date.MonthIndex() == month && t.date.year == year
  }

  /** `filteredTransactions`. */
  function FilterByPeriod(ts: seq<Transaction>, period: FilterPeriod): seq<Transaction> {
    if period.AllTime? then ts else Seqs.Filter(ts, InMonth(period.month, period.year))
  }

  /** 'all' returns the list itself; a month keeps exactly the transactions
      dated in that month of that year, each as often as it occurs. */
  lemma FilterByPeriodContents(ts: seq<Transaction>, period: FilterPeriod)
    ensures period.AllTime? ==> FilterByPeriod(ts, period) == ts
    ensures forall t :: t in FilterByPeriod(ts, period) <==> t in ts && InPeriod(t, period)
    ensures forall t :: multiset(FilterByPeriod(ts, period))[t] == if InPeriod(t, period) then multiset(ts)[t] else 0
  {
    if period.MonthOf? {
      forall t ensures multiset(FilterByPeriod(ts, period))[t] == if InPeriod(t, period) then multiset(ts)[t] else 0 {
        Seqs.FilterMultiset(ts, InMonth(period.month, period.year), t);
      }
    }
  }

  /** The filter keeps the original order: filtering a concatenation filters
      each part in place. */
  lemma FilterByPeriodKeepsOrder(a: seq<Transaction>, b: seq<Transaction>, period: FilterPeriod)
    ensures FilterByPeriod(a + b, period) == FilterByPeriod(a, period) + FilterByPeriod(b, period)
  {
    if period.MonthOf? {
      Seqs.FilterConcat(a, b, InMonth(period.month, period.year));
    }
  }

  // ---------------------------------------------------------------------
  // Totals

  datatype Totals = Totals(income: real, expenses: real, balance: real)

  function AmountOf(t: Transaction): real {
    t.amount
  }

  function OfKind(k: Kind): Transaction -> bool {
    (t: Transaction) => t.kind == k
  }

  /** `filter(t => t.type === k).reduce((sum, t) => sum + t.amount, 0)`. */
  function SumOfKind(ts: seq<Transaction>, k: Kind): real {
    Seqs.SumBy(Seqs.Filter(ts, OfKind(k)), AmountOf)
  }

  /** `totalIncome`, `totalExpenses` and `totalBalance`. */
  function TotalsOf(ts: seq<Transaction>): Totals {
    var income := SumOfKind(ts, Income);
    var expenses := SumOfKind(ts, Expense);
    Totals(income, expenses, income - expenses)
  }

  /** An amount with the sign of its effect on the balance. */
  function Signed(t: Transaction): real {
    if t.kind == Income then t.amount else -t.amount
  }

  lemma {:induction false} SumOfKindCons(t: Transaction, ts: seq<Transaction>, k: Kind)
    ensures SumOfKind([t] + ts, k) == (if t.kind == k then t.amount else 0.0) + SumOfKind(ts, k)
  {
    var s := [t] + ts;
    assert s[1..] == ts;
    if t.kind == k {
      var f := Seqs.Filter(s, OfKind(k));
      assert f == [t] + Seqs.Filter(ts, OfKind(k));
      assert f[1..] == Seqs.Filter(ts, OfKind(k));
    } else {
      assert Seqs.Filter(s, OfKind(k)) == Seqs.Filter(ts, OfKind(k));
    }
  }

  /** The balance is the signed sum of all amounts: income counts up,
      expenses count down. */
  lemma {:induction false} BalanceIsSignedSum(ts: seq<Transaction>)
    ensures TotalsOf(ts).balance == Seqs.SumBy(ts, Signed)
    decreases |ts|
  {
    if ts != [] {
      assert ts == [ts[0]] + ts[1..];
      SumOfKindCons(ts[0], ts[1..], Income);
      SumOfKindCons(ts[0], ts[1..], Expense);
      BalanceIsSignedSum(ts[1..]);
    }
  }

  /** Income and expenses together account for every amount, since every
      transaction is one of the two kinds. */
  lemma {:induction false} TotalsCoverAll(ts: seq<Transaction>)
    ensures TotalsOf(ts).income + TotalsOf(ts).expenses == Seqs.SumBy(ts, AmountOf)
    decreases |ts|
  {
    if ts != [] {
      assert ts == [ts[0]] + ts[1..];
      SumOfKindCons(ts[0], ts[1..], Income);
      SumOfKindCons(ts[0], ts[1..], Expense);
      TotalsCoverAll(ts[1..]);
    }
  }

  /** With non-negative amounts both totals are non-negative. */
  lemma TotalsNonNegative(ts: seq<Transaction>)
    requires forall t :: t in ts ==> t.amount >= 0.0
    ensures TotalsOf(ts).income >= 0.0 && TotalsOf(ts).expenses >= 0.0
  {
    Seqs.SumByNonNegative(Seqs.Filter(ts, OfKind(Income)), AmountOf);
    Seqs.SumByNonNegative(Seqs.Filter(ts, OfKind(Expense)), AmountOf);
  }

  // ---------------------------------------------------------------------
  // Expenses by category

  /** One `{ category, total }` value of the grouping record. */
  datatype CategoryTotal = CategoryTotal(category: Category, total: real)

  function GroupId(g: CategoryTotal): string {
    g.category.id
  }

  function TotalOf(g: CategoryTotal): real {
    g.total
  }

  function HasId(id: string): CategoryTotal -> bool {
    (g: CategoryTotal) => g.category.id == id
  }

  function InCategory(id: string): Transaction -> bool {
    (t: Transaction) => t.category.id == id
  }

  /** One step of the `reduce`: add the amount to the entry under the
      transaction's category id, creating the entry (total 0) first when the
      id has no entry yet. The record's entries are kept in the order their
      keys were created. */
  function AddTo(groups: seq<CategoryTotal>, t: Transaction): seq<CategoryTotal> {
    var i := Seqs.IndexWhere(groups, HasId(t.category.id));
    if i < |groups| then groups[i := CategoryTotal(groups[i].category, groups[i].total + t.amount)]
    else groups + [CategoryTotal(t.category, 0.0 + t.amount)]
  }

  /** The `reduce` over a list, from the left. */
  function Group(ts: seq<Transaction>): seq<CategoryTotal> {
    if ts == [] then [] else AddTo(Group(ts[..|ts| - 1]), ts[|ts| - 1])
  }

  function GroupIds(gs: seq<CategoryTotal>): set<string> {
    set g | g in gs :: g.category.id
  }

  function CategoryIds(ts: seq<Transaction>): set<string> {
    set t | t in ts :: t.category.id
  }

  /** The sum of the amounts of the transactions in one category. */
  function CategorySum(ts: seq<Transaction>, id: string): real {
    Seqs.SumBy(Seqs.Filter(ts, InCategory(id)), AmountOf)
  }

  /** What the record holds after reducing `ts`: one entry per category id
      of `ts` and no other, each with the sum of that category's amounts. */
  ghost predicate Tallies(gs: seq<CategoryTotal>, ts: seq<Transaction>) {
    Seqs.DistinctBy(gs, GroupId)
    && GroupIds(gs) == CategoryIds(ts)
    && forall j :: 0 <= j < |gs| ==> gs[j].total == CategorySum(ts, gs[j].category.id)
  }

  lemma CategorySumSnoc(ts: seq<Transaction>, t: Transaction, id: string)
    ensures CategorySum(ts + [t], id) == CategorySum(ts, id) + (if t.category.id == id then t.amount else 0.0)
  {
    var p := InCategory(id);
    Seqs.FilterConcat(ts, [t], p);
    Seqs.SumByConcat(Seqs.Filter(ts, p), Seqs.Filter([t], p), AmountOf);
    assert [t][1..] == [];
  }

  lemma CategoryIdsSnoc(ts: seq<Transaction>, t: Transaction)
    ensures CategoryIds(ts + [t]) == CategoryIds(ts) + {t.category.id}
  {
    var ts' := ts + [t];
    forall x | x in ts' ensures x in ts || x == t {
      var k :| 0 <= k < |ts'| && ts'[k] == x;
      if k < |ts| {
        assert ts'[k] == ts[k];
      }
    }
    assert t in ts';
    forall x | x in ts ensures x in ts' {
      var k :| 0 <= k < |ts| && ts[k] == x;
      assert ts'[k] == x;
    }
  }

  /** Two lists whose entries carry the same ids position by position have
      the same id set. */
  lemma GroupIdsSameIds(gs: seq<CategoryTotal>, r: seq<CategoryTotal>)
    requires |r| == |gs|
    requires forall j :: 0 <= j < |r| ==> GroupId(r[j]) == GroupId(gs[j])
    ensures GroupIds(r) == GroupIds(gs)
  {
    forall x | x in GroupIds(r) ensures x in GroupIds(gs) {
      var g :| g in r && g.category.id == x;
      var k :| 0 <= k < |r| && r[k] == g;
      assert gs[k] in gs && GroupId(gs[k]) == x;
    }
    forall x | x in GroupIds(gs) ensures x in GroupIds(r) {
      var g :| g in gs && g.category.id == x;
      var k :| 0 <= k < |gs| && gs[k] == g;
      assert r[k] in r && GroupId(r[k]) == x;
    }
  }

  lemma GroupIdsSnoc(gs: seq<CategoryTotal>, g: CategoryTotal)
    ensures GroupIds(gs + [g]) == GroupIds(gs) + {g.category.id}
  {
    var r := gs + [g];
    forall x | x in GroupIds(r) ensures x in GroupIds(gs) + {g.category.id} {
      var e :| e in r && e.category.id == x;
      var k :| 0 <= k < |r| && r[k] == e;
      if k < |gs| {
        assert gs[k] in gs;
      }
    }
    assert r[|gs|] in r;
    forall x | x in GroupIds(gs) ensures x in GroupIds(r) {
      var e :| e in gs && e.category.id == x;
      var k :| 0 <= k < |gs| && gs[k] == e;
      assert r[k] in r;
    }
  }

  /** A step whose category already has an entry adds to that entry only. */
  lemma AddToExisting(gs: seq<CategoryTotal>, ts: seq<Transaction>, t: Transaction, i: nat)
    requires Tallies(gs, ts)
    requires i < |gs| && gs[i].category.id == t.category.id
    ensures Tallies(gs[i := CategoryTotal(gs[i].category, gs[i].total + t.amount)], ts + [t])
  {
    var r := gs[i := CategoryTotal(gs[i].category, gs[i].total + t.amount)];
    var ts' := ts + [t];
    forall j | 0 <= j < |r| ensures r[j].total == CategorySum(ts', r[j].category.id) {
      CategorySumSnoc(ts, t, r[j].category.id);
      if j != i {
        assert GroupId(gs[j]) != GroupId(gs[i]);
      }
    }
    GroupIdsSameIds(gs, r);
    CategoryIdsSnoc(ts, t);
    assert t.category.id in GroupIds(gs) by {
      assert gs[i] in gs;
    }
  }

  /** A step whose category has no entry yet appends one holding its amount. */
  lemma AddToNew(gs: seq<CategoryTotal>, ts: seq<Transaction>, t: Transaction)
    requires Tallies(gs, ts)
    requires forall j :: 0 <= j < |gs| ==> gs[j].category.id != t.category.id
    ensures Tallies(gs + [CategoryTotal(t.category, 0.0 + t.amount)], ts + [t])
  {
    var id := t.category.id;
    var last := CategoryTotal(t.category, 0.0 + t.amount);
    var r := gs + [last];
    var ts' := ts + [t];
    assert id !in GroupIds(gs) by {
      forall g | g in gs ensures g.category.id != id {
        var k :| 0 <= k < |gs| && gs[k] == g;
      }
    }
    assert forall x :: x in ts ==> !InCategory(id)(x) by {
      forall x | x in ts ensures !InCategory(id)(x) {
        assert x.category.id in CategoryIds(ts);
      }
    }
    Seqs.FilterNone(ts, InCategory(id));
    forall j | 0 <= j < |r| ensures r[j].total == CategorySum(ts', r[j].category.id) {
      CategorySumSnoc(ts, t, r[j].category.id);
      if j < |gs| {
        assert r[j] == gs[j];
      }
    }
    GroupIdsSnoc(gs, last);
    CategoryIdsSnoc(ts, t);
    forall a, b | 0 <= a < b < |r| ensures GroupId(r[a]) != GroupId(r[b]) {
      if b == |gs| {
        assert r[a] == gs[a];
      } else {
        assert r[a] == gs[a] && r[b] == gs[b];
      }
    }
  }

  /** Each step of the `reduce` keeps the record tallying what it has seen. */
  lemma AddToTallies(gs: seq<CategoryTotal>, ts: seq<Transaction>, t: Transaction)
    requires Tallies(gs, ts)
    ensures Tallies(AddTo(gs, t), ts + [t])
  {
    var i := Seqs.IndexWhere(gs, HasId(t.category.id));
    if i < |gs| {
      AddToExisting(gs, ts, t, i);
    } else {
      AddToNew(gs, ts, t);
    }
  }

  /** The reduce yields one entry per category id, each holding the sum of
      that category's amounts. */
  lemma {:induction false} GroupTallies(ts: seq<Transaction>)
    ensures Tallies(Group(ts), ts)
    decreases |ts|
  {
    if ts == [] {
      assert GroupIds([]) == {};
      assert CategoryIds([]) == {};
    } else {
      var init := ts[..|ts| - 1];
      GroupTallies(init);
      AddToTallies(Group(init), init, ts[|ts| - 1]);
      assert init + [ts[|ts| - 1]] == ts;
    }
  }

  /** The entries' totals add up to the sum of all amounts. */
  lemma {:induction false} GroupSum(ts: seq<Transaction>)
    ensures Seqs.SumBy(Group(ts), TotalOf) == Seqs.SumBy(ts, AmountOf)
    decreases |ts|
  {
    if ts != [] {
      var init, t := ts[..|ts| - 1], ts[|ts| - 1];
      GroupSum(init);
      var gs := Group(init);
      var i := Seqs.IndexWhere(gs, HasId(t.category.id));
      if i < |gs| {
        Seqs.SumByUpdate(gs, i, CategoryTotal(gs[i].category, gs[i].total + t.amount), TotalOf);
      } else {
        Seqs.SumByConcat(gs, [CategoryTotal(t.category, 0.0 + t.amount)], TotalOf);
      }
      Seqs.SumByConcat(init, [t], AmountOf);
      assert init + [t] == ts;
    }
  }

  /** Whether a record key is an array index (a canonical decimal numeral
      below 2^32 - 1): such keys are listed first by `Object.values`, in
      numeric order. */
  predicate IsArrayIndex(key: string) {
    |key| > 0 && Text.AllDigits(key) && (key[0] != '0' || |key| == 1)
    && Text.DigitsValue(key) < 4294967295
  }

  predicate HasIndexKey(g: CategoryTotal) {
    IsArrayIndex(g.category.id)
  }

  function IndexKey(g: CategoryTotal): real {
    if HasIndexKey(g) then Text.DigitsValue(g.category.id) as real else 0.0
  }

  /** `Object.values(record)`: entries under array-index keys in ascending
      numeric order, then the other entries in the order their keys were
      created. */
  function ObjectValues(gs: seq<CategoryTotal>): seq<CategoryTotal> {
    Seqs.SortBy(Seqs.Filter(gs, HasIndexKey), IndexKey) + Seqs.Filter(gs, Seqs.Not(HasIndexKey))
  }

  /** `Object.values` lists every entry exactly once. */
  lemma ObjectValuesPermutes(gs: seq<CategoryTotal>)
    ensures multiset(ObjectValues(gs)) == multiset(gs)
  {
    forall x ensures multiset(ObjectValues(gs))[x] == multiset(gs)[x] {
      Seqs.FilterMultiset(gs, HasIndexKey, x);
      Seqs.FilterMultiset(gs, Seqs.Not(HasIndexKey), x);
    }
  }

  /** The order `Object.values` gives: no entry under an array-index key
      comes after one under another key, and the array-index keys ascend. */
  lemma ObjectValuesOrder(gs: seq<CategoryTotal>)
    ensures forall i, j :: 0 <= i < j < |ObjectValues(gs)| && HasIndexKey(ObjectValues(gs)[j]) ==>
              HasIndexKey(ObjectValues(gs)[i]) && IndexKey(ObjectValues(gs)[i]) <= IndexKey(ObjectValues(gs)[j])
  {
    var a := Seqs.SortBy(Seqs.Filter(gs, HasIndexKey), IndexKey);
    IndexKeysSorted(gs);
    IndexKeysFirst(a, Seqs.Filter(gs, Seqs.Not(HasIndexKey)));
  }

  /** The other entries keep their creation order in `Object.values`. */
  lemma ObjectValuesKeepsOthers(gs: seq<CategoryTotal>)
    ensures Seqs.Filter(ObjectValues(gs), Seqs.Not(HasIndexKey)) == Seqs.Filter(gs, Seqs.Not(HasIndexKey))
  {
    var a := Seqs.SortBy(Seqs.Filter(gs, HasIndexKey), IndexKey);
    var b := Seqs.Filter(gs, Seqs.Not(HasIndexKey));
    IndexKeysSorted(gs);
    Seqs.FilterConcat(a, b, Seqs.Not(HasIndexKey));
    Seqs.FilterNone(a, Seqs.Not(HasIndexKey));
    Seqs.FilterAll(b, Seqs.Not(HasIndexKey));
  }

  /** The sorted array-index entries all have array-index keys. */
  lemma IndexKeysSorted(gs: seq<CategoryTotal>)
    ensures forall x :: x in Seqs.SortBy(Seqs.Filter(gs, HasIndexKey), IndexKey) ==> HasIndexKey(x)
  {
    var a := Seqs.SortBy(Seqs.Filter(gs, HasIndexKey), IndexKey);
    forall x | x in a ensures HasIndexKey(x) {
      assert x in multiset(a);
    }
  }

  lemma IndexKeysFirst(a: seq<CategoryTotal>, b: seq<CategoryTotal>)
    requires Seqs.SortedBy(a, IndexKey)
    requires forall x :: x in a ==> HasIndexKey(x)
    requires forall x :: x in b ==> !HasIndexKey(x)
    ensures forall i, j :: 0 <= i < j < |a + b| && HasIndexKey((a + b)[j]) ==>
              HasIndexKey((a + b)[i]) && IndexKey((a + b)[i]) <= IndexKey((a + b)[j])
  {
    var ov := a + b;
    forall k | |a| <= k < |ov| ensures !HasIndexKey(ov[k]) {
      assert ov[k] == b[k - |a|];
      assert ov[k] in b;
    }
    forall i, j | 0 <= i < j < |a|
      ensures HasIndexKey(ov[i]) && IndexKey(ov[i]) <= IndexKey(ov[j])
    {
      assert ov[i] == a[i] && ov[j] == a[j];
      assert a[i] in a;
    }
  }

  /** `Object.values` keeps the keys distinct. */
  lemma ObjectValuesDistinct(gs: seq<CategoryTotal>)
    requires Seqs.DistinctBy(gs, GroupId)
    ensures Seqs.DistinctBy(ObjectValues(gs), GroupId)
  {
    var f := Seqs.Filter(gs, HasIndexKey);
    var a := Seqs.SortBy(f, IndexKey);
    var b := Seqs.Filter(gs, Seqs.Not(HasIndexKey));
    Seqs.FilterDistinct(gs, HasIndexKey, GroupId);
    Seqs.SortByDistinct(f, IndexKey, GroupId);
    Seqs.FilterDistinct(gs, Seqs.Not(HasIndexKey), GroupId);
    forall x, y | x in a && y in b ensures GroupId(x) != GroupId(y) {
      assert x in multiset(a);
      assert x in f;
    }
    Seqs.DistinctConcat(a, b, GroupId);
  }

  function NegTotal(g: CategoryTotal): real {
    -g.total
  }

  /** `expensesByCategory`: the expense transactions grouped by category id,
      in `Object.values` order, then stably sorted by total, largest first. */
  function ExpensesByCategory(ts: seq<Transaction>): seq<CategoryTotal> {
    Seqs.SortBy(ObjectValues(Group(Seqs.Filter(ts, OfKind(Expense)))), NegTotal)
  }

  /** The expense amounts of one category: what `budgetProgress` calls
      `spent`. */
  function Spent(ts: seq<Transaction>, id: string): real {
    Seqs.SumBy(Seqs.Filter(ts, ExpenseIn(id)), AmountOf)
  }

  function ExpenseIn(id: string): Transaction -> bool {
    (t: Transaction) => t.kind == Expense && t.category.id == id
  }

  /** The grouping lists the same entries as the record, each once. */
  lemma ExpensesByCategoryPermutes(ts: seq<Transaction>)
    ensures multiset(ExpensesByCategory(ts)) == multiset(Group(Seqs.Filter(ts, OfKind(Expense))))
  {
    ObjectValuesPermutes(Group(Seqs.Filter(ts, OfKind(Expense))));
  }

  /** No category id has two entries in the grouping. */
  lemma ExpensesByCategoryDistinct(ts: seq<Transaction>)
    ensures Seqs.DistinctBy(ExpensesByCategory(ts), GroupId)
  {
    var es := Seqs.Filter(ts, OfKind(Expense));
    var gs := Group(es);
    GroupTallies(es);
    ObjectValuesDistinct(gs);
    Seqs.SortByDistinct(ObjectValues(gs), NegTotal, GroupId);
  }

  /** The grouping has an entry for a category id exactly when some expense
      carries that id. */
  lemma ExpensesByCategoryIds(ts: seq<Transaction>)
    ensures forall id :: id in GroupIds(ExpensesByCategory(ts)) <==>
              exists t :: t in ts && t.kind == Expense && t.category.id == id
  {
    var es := Seqs.Filter(ts, OfKind(Expense));
    GroupTallies(es);
    ExpensesByCategoryPermutes(ts);
    SameEntriesSameIds(ExpensesByCategory(ts), Group(es));
    ExpenseCategoryIds(ts);
  }

  lemma SameEntriesSameIds(r: seq<CategoryTotal>, gs: seq<CategoryTotal>)
    requires multiset(r) == multiset(gs)
    ensures GroupIds(r) == GroupIds(gs)
  {
    forall g ensures g in r <==> g in gs {
      assert g in r <==> g in multiset(r);
      assert g in gs <==> g in multiset(gs);
    }
  }

  /** The category ids of the expenses are those some expense of `ts`
      carries. */
  lemma ExpenseCategoryIds(ts: seq<Transaction>)
    ensures forall id :: id in CategoryIds(Seqs.Filter(ts, OfKind(Expense))) <==>
              exists t :: t in ts && t.kind == Expense && t.category.id == id
  {
    var es := Seqs.Filter(ts, OfKind(Expense));
    forall id | exists t :: t in ts && t.kind == Expense && t.category.id == id
      ensures id in CategoryIds(es)
    {
      var t :| t in ts && t.kind == Expense && t.category.id == id;
      assert OfKind(Expense)(t);
      assert t in es;
    }
  }

  /** Each entry's total is the category's spending, the same sum
      `budgetProgress` reports. */
  lemma ExpensesByCategoryTotals(ts: seq<Transaction>)
    ensures forall g :: g in ExpensesByCategory(ts) ==> g.total == Spent(ts, g.category.id)
  {
    var gs := Group(Seqs.Filter(ts, OfKind(Expense)));
    var r := ExpensesByCategory(ts);
    GroupTotalsAreSpent(ts);
    ExpensesByCategoryPermutes(ts);
    forall g | g in r ensures g in gs {
      assert g in multiset(r);
    }
  }

  lemma GroupTotalsAreSpent(ts: seq<Transaction>)
    ensures forall g :: g in Group(Seqs.Filter(ts, OfKind(Expense))) ==> g.total == Spent(ts, g.category.id)
  {
    var es := Seqs.Filter(ts, OfKind(Expense));
    var gs := Group(es);
    GroupTallies(es);
    forall j | 0 <= j < |gs| ensures gs[j].total == Spent(ts, gs[j].category.id) {
      SpentOfExpenses(ts, gs[j].category.id);
    }
  }

  /** A category's sum over the expenses is its spending. */
  lemma SpentOfExpenses(ts: seq<Transaction>, id: string)
    ensures CategorySum(Seqs.Filter(ts, OfKind(Expense)), id) == Spent(ts, id)
  {
    Seqs.FilterFilter(ts, OfKind(Expense), InCategory(id), ExpenseIn(id));
  }

  /** The entries' totals add up to `totalExpenses`. */
  lemma ExpensesByCategorySum(ts: seq<Transaction>)
    ensures Seqs.SumBy(ExpensesByCategory(ts), TotalOf) == TotalsOf(ts).expenses
  {
    var es := Seqs.Filter(ts, OfKind(Expense));
    var gs := Group(es);
    var f := Seqs.Filter(gs, HasIndexKey);
    GroupSum(es);
    Seqs.SumBySortBy(ObjectValues(gs), NegTotal, TotalOf);
    Seqs.SumByConcat(Seqs.SortBy(f, IndexKey), Seqs.Filter(gs, Seqs.Not(HasIndexKey)), TotalOf);
    Seqs.SumBySortBy(f, IndexKey, TotalOf);
    Seqs.SumByFilterSplit(gs, HasIndexKey, TotalOf);
  }

  /** The entries run from the largest total to the smallest, and entries
      with equal totals stay in `Object.values` order. */
  lemma ExpensesByCategoryOrder(ts: seq<Transaction>, k: real)
    ensures forall i, j :: 0 <= i < j < |ExpensesByCategory(ts)| ==>
              ExpensesByCategory(ts)[i].total >= ExpensesByCategory(ts)[j].total
    ensures Seqs.WithKey(ExpensesByCategory(ts), NegTotal, k)
         == Seqs.WithKey(ObjectValues(Group(Seqs.Filter(ts, OfKind(Expense)))), NegTotal, k)
  {
    var r := ExpensesByCategory(ts);
    forall i, j | 0 <= i < j < |r| ensures r[i].total >= r[j].total {
      assert NegTotal(r[i]) <= NegTotal(r[j]);
    }
    Seqs.SortByStable(ObjectValues(Group(Seqs.Filter(ts, OfKind(Expense)))), NegTotal, k);
  }

  // ---------------------------------------------------------------------
  // Budget progress

  /** One entry of `budgetProgress`. */
  datatype BudgetStatus = BudgetStatus(category: Category, spent: real, budget: real, percentage: real, isOverBudget: bool)

  /** `c.budget && c.budget > 0`. */
  predicate HasBudget(c: Category) {
    c.budget.Some? && c.budget.value > 0.0
  }

  /** `Math.min`. */
  function Min(a: real, b: real): real {
    if a <= b then a else b
  }

  lemma RatioFacts(spent: real, budget: real)
    requires budget > 0.0
    ensures spent / budget * 100.0 >= 100.0 <==> spent >= budget
    ensures spent >= 0.0 ==> spent / budget * 100.0 >= 0.0
    ensures spent / budget * 100.0 * budget == 100.0 * spent
  {
    var q := spent / budget;
    assert q * budget == spent;
    if q >= 1.0 {
      assert q * budget >= 1.0 * budget;
    }
    if spent >= budget {
      assert q * budget >= budget;
    }
  }

  /** The progress of one category: the percentage is the share of the
      budget spent, capped at 100; it reaches 100 exactly when the spending
      reaches the budget, and is not negative when the spending is not;
      over budget implies the cap. */
  function StatusOf(ts: seq<Transaction>, c: Category): (s: BudgetStatus)
    requires HasBudget(c)
    ensures s.category == c && s.spent == Spent(ts, c.id) && s.budget == c.budget.value
    ensures s.percentage <= 100.0
    ensures s.percentage == 100.0 <==> s.spent >= s.budget
    ensures s.isOverBudget <==> s.spent > s.budget
    ensures s.isOverBudget ==> s.percentage == 100.0
    ensures s.spent >= 0.0 ==> s.percentage >= 0.0
    ensures s.percentage * s.budget == 100.0 * Min(s.spent, s.budget)
  {
    var spent := Spent(ts, c.id);
    var budget := c.budget.value;
    RatioFacts(spent, budget);
    BudgetStatus(c, spent, budget, Min(spent / budget * 100.0, 100.0), spent > budget)
  }

  /** The `map` over the categories that have a budget. */
  function Statuses(ts: seq<Transaction>, cs: seq<Category>): (r: seq<BudgetStatus>)
    requires forall c :: c in cs ==> HasBudget(c)
    ensures |r| == |cs|
    ensures forall i :: 0 <= i < |cs| ==> r[i] == StatusOf(ts, cs[i])
  {
    if cs == [] then [] else [StatusOf(ts, cs[0])] + Statuses(ts, cs[1..])
  }

  /** `b.spent > 0 || b.budget > 0`. */
  predicate Shown(s: BudgetStatus) {
    s.spent > 0.0 || s.budget > 0.0
  }

  function NegPercentage(s: BudgetStatus): real {
    -s.percentage
  }

  /** `budgetProgress`. */
  function BudgetProgress(ts: seq<Transaction>, cats: seq<Category>): seq<BudgetStatus> {
    var withBudget := Seqs.Filter(cats, HasBudget);
    Seqs.SortBy(Seqs.Filter(Statuses(ts, withBudget), Shown), NegPercentage)
  }

  /** The `spent > 0 || budget > 0` filter drops nothing: every mapped
      category has a positive budget. */
  lemma ShownKeepsAll(ts: seq<Transaction>, cats: seq<Category>)
    ensures Seqs.Filter(Statuses(ts, Seqs.Filter(cats, HasBudget)), Shown)
         == Statuses(ts, Seqs.Filter(cats, HasBudget))
  {
    var ss := Statuses(ts, Seqs.Filter(cats, HasBudget));
    forall s | s in ss ensures Shown(s) {
      var i :| 0 <= i < |ss| && ss[i] == s;
      assert Seqs.Filter(cats, HasBudget)[i] in Seqs.Filter(cats, HasBudget);
    }
    Seqs.FilterAll(ss, Shown);
  }

  /** `budgetProgress` has one entry per category with a positive budget,
      each being that category's progress, and no other entry. */
  lemma BudgetProgressEntries(ts: seq<Transaction>, cats: seq<Category>)
    ensures |BudgetProgress(ts, cats)| == |Seqs.Filter(cats, HasBudget)|
    ensures forall s :: s in BudgetProgress(ts, cats) ==>
              s.category in cats && HasBudget(s.category) && s == StatusOf(ts, s.category)
    ensures forall c :: c in cats && HasBudget(c) ==>
              exists s :: s in BudgetProgress(ts, cats) && s.category == c
  {
    ShownKeepsAll(ts, cats);
    StatusesPermuted(ts, Seqs.Filter(cats, HasBudget), BudgetProgress(ts, cats));
  }

  /** A permutation of the statuses of `cs` holds one status per category of
      `cs`, and nothing else. */
  lemma StatusesPermuted(ts: seq<Transaction>, cs: seq<Category>, r: seq<BudgetStatus>)
    requires forall c :: c in cs ==> HasBudget(c)
    requires multiset(r) == multiset(Statuses(ts, cs))
    ensures forall s :: s in r ==> s.category in cs && s == StatusOf(ts, s.category)
    ensures forall c :: c in cs ==> exists s :: s in r && s.category == c
  {
    var ss := Statuses(ts, cs);
    forall s | s in r ensures s.category in cs && s == StatusOf(ts, s.category) {
      assert s in multiset(ss);
      var i :| 0 <= i < |ss| && ss[i] == s;
      assert cs[i] in cs;
    }
    forall c | c in cs ensures exists s :: s in r && s.category == c {
      var i :| 0 <= i < |cs| && cs[i] == c;
      assert ss[i] in multiset(r);
    }
  }

  /** `budgetProgress` runs from the highest percentage to the lowest. */
  lemma BudgetProgressOrder(ts: seq<Transaction>, cats: seq<Category>)
    ensures forall i, j :: 0 <= i < j < |BudgetProgress(ts, cats)| ==>
              BudgetProgress(ts, cats)[i].percentage >= BudgetProgress(ts, cats)[j].percentage
  {
    var r := BudgetProgress(ts, cats);
    forall i, j | 0 <= i < j < |r| ensures r[i].percentage >= r[j].percentage {
      assert NegPercentage(r[i]) <= NegPercentage(r[j]);
    }
  }

  // ---------------------------------------------------------------------
  // List edits both hooks make

  function IdIsNot(id: string): Transaction -> bool {
    (t: Transaction) => t.id != id
  }

  /** `prev.filter(t => t.id !== id)`. */
  function Without(ts: seq<Transaction>, id: string): seq<Transaction> {
    Seqs.Filter(ts, IdIsNot(id))
  }

  /** Deleting keeps every other transaction, each as often as before and in
      the same order, and drops every one with that id. */
  lemma WithoutContents(ts: seq<Transaction>, id: string, a: seq<Transaction>, b: seq<Transaction>)
    ensures forall t :: t in Without(ts, id) <==> t in ts && t.id != id
    ensures forall t: Transaction :: t.id != id ==> multiset(Without(ts, id))[t] == multiset(ts)[t]
    ensures Without(a + b, id) == Without(a, id) + Without(b, id)
  {
    forall t: Transaction | t.id != id ensures multiset(Without(ts, id))[t] == multiset(ts)[t] {
      Seqs.FilterMultiset(ts, IdIsNot(id), t);
    }
    Seqs.FilterConcat(a, b, IdIsNot(id));
  }

  /** Adding a transaction moves the totals by its amount: income or
      expenses by the amount, the balance up for income and down for an
      expense. */
  lemma PrependTotals(t: Transaction, ts: seq<Transaction>)
    ensures TotalsOf([t] + ts).income == TotalsOf(ts).income + (if t.kind == Income then t.amount else 0.0)
    ensures TotalsOf([t] + ts).expenses == TotalsOf(ts).expenses + (if t.kind == Expense then t.amount else 0.0)
    ensures TotalsOf([t] + ts).balance == TotalsOf(ts).balance + Signed(t)
  {
    SumOfKindCons(t, ts, Income);
    SumOfKindCons(t, ts, Expense);
  }

  // ---------------------------------------------------------------------
  // Worked examples

  /** A Food expense of `amount` in March 2026. */
  function FoodExpense(id: string, amount: real): Transaction {
    Transaction(id, Expense, amount, DefaultCategories[1], "Food", CalendarDate(2026, 3, 10), OneTime)
  }

  /** Budget 5000: spending 6000 caps the percentage at 100 and is over
      budget; spending 2500 is 50 per cent and within budget. */
  lemma BudgetExamples()
    ensures StatusOf([FoodExpense("a", 6000.0)], DefaultCategories[1]).percentage == 100.0
    ensures StatusOf([FoodExpense("a", 6000.0)], DefaultCategories[1]).isOverBudget
    ensures StatusOf([FoodExpense("a", 2500.0)], DefaultCategories[1]).percentage == 50.0
    ensures !StatusOf([FoodExpense("a", 2500.0)], DefaultCategories[1]).isOverBudget
  {
    var food := DefaultCategories[1];
    assert Spent([FoodExpense("a", 6000.0)], food.id) == 6000.0;
    assert Spent([FoodExpense("a", 2500.0)], food.id) == 2500.0;
  }

  /** Two Food expenses of 2000 and 3500 in March: viewing March, Food has
      spent 5500 of 5000, shown as 100 per cent and over budget. */
  lemma MarchFoodExample()
    ensures var ts := FilterByPeriod([FoodExpense("a", 2000.0), FoodExpense("b", 3500.0)], MonthOf(2, 2026));
            var s := StatusOf(ts, DefaultCategories[1]);
            s.spent == 5500.0 && s.budget == 5000.0 && s.percentage == 100.0 && s.isOverBudget
  {
    var both := [FoodExpense("a", 2000.0), FoodExpense("b", 3500.0)];
    var ts := FilterByPeriod(both, MonthOf(2, 2026));
    Seqs.FilterAll(both, InMonth(2, 2026));
    assert ts == both;
    var food := DefaultCategories[1];
    Seqs.FilterAll(both, ExpenseIn(food.id));
    assert both[1..] == [FoodExpense("b", 3500.0)];
    assert Spent(ts, food.id) == 5500.0;
  }
}
