/** `useRecurringExpenses`: the signed-in user's recurring expenses, kept
    in memory in `dueDay` order beside the `recurring_expenses` table. A
    record's paid state is per viewing month: the table remembers the one
    month and year it was last paid for, and the list shows it as paid only
    while that period is viewed. */
module RecurringExpenses {
  import opened Wrappers
  import Seqs
  import Text
  import opened Ledger
  import opened Store

  datatype RecurringExpense = RecurringExpense(
    id: string,
    description: string,
    amount: real,
    category: Category,
    dueDay: int,
    recurrence: Recurrence,
    isPaid: bool,
    paidTransactionId: Option<string>,
    paidForMonth: Option<int>,
    paidForYear: Option<int>)

  /** What `addRecurringExpense` receives: the record without its id and
      paid state. */
  datatype Draft = Draft(description: string, amount: real, category: Category, dueDay: int, recurrence: Recurrence)

  /** What `updateRecurringExpense` receives; `None` is a key that is
      absent. */
  datatype Patch = Patch(
    description: Option<string>,
    amount: Option<real>,
    category: Option<Category>,
    dueDay: Option<int>,
    recurrence: Option<Recurrence>)

  function DueDayOf(e: RecurringExpense): real {
    e.dueDay as real
  }

  function IdOf(e: RecurringExpense): string {
    e.id
  }

  function HasId(id: string): RecurringExpense -> bool {
    (e: RecurringExpense) => e.id == id
  }

  function IdIsNot(id: string): RecurringExpense -> bool {
    (e: RecurringExpense) => e.id != id
  }

  /** `x || undefined` on a text column: `null` and `''` become undefined. */
  function OrUndefined(link: Option<string>): Option<string> {
    if link == Some("") then None else link
  }

  /** Whether the expense has a truthy `paidTransactionId`. */
  predicate Linked(e: RecurringExpense) {
    e.paidTransactionId.Some? && e.paidTransactionId.value != ""
  }

  // ---------------------------------------------------------------------
  // The loader's row mapping

  /** The record the loader builds from a stored row while month `month`
      (counted from 0) of `year` is viewed. */
  function FromRow(id: string, row: RecurringRow, categories: seq<Category>, month: int, year: int): (e: RecurringExpense)
    ensures e.isPaid <==> row.isPaid && row.paidForMonth == Some(month + 1) && row.paidForYear == Some(year)
    ensures e.paidTransactionId.Some? ==> e.isPaid && e.paidTransactionId == row.paidTransactionId && Linked(e)
    ensures e.isPaid && row.paidTransactionId.Some? && row.paidTransactionId.value != "" ==>
              e.paidTransactionId == row.paidTransactionId
    ensures e.paidForMonth == row.paidForMonth && e.paidForYear == row.paidForYear
  {
    var paid := row.isPaid && row.paidForMonth == Some(month + 1) && row.paidForYear == Some(year);
    RecurringExpense(id, row.description, row.amount, ResolveCategory(categories, row.categoryId), row.dueDay,
                     row.recurrence, paid, if paid then OrUndefined(row.paidTransactionId) else None,
                     row.paidForMonth, row.paidForYear)
  }

  /** A stored row is shown as paid in at most one viewing period. */
  lemma PaidInOnePeriodOnly(id: string, row: RecurringRow, categories: seq<Category>,
                            m1: int, y1: int, m2: int, y2: int)
    requires FromRow(id, row, categories, m1, y1).isPaid && FromRow(id, row, categories, m2, y2).isPaid
    ensures m1 == m2 && y1 == y2
  {
  }

  /** Switching the viewed period changes only the paid state and the link:
      everything else is read from the row alike. */
  lemma PeriodChangesOnlyPaidState(id: string, row: RecurringRow, categories: seq<Category>,
                                   m1: int, y1: int, m2: int, y2: int)
    ensures FromRow(id, row, categories, m1, y1).(isPaid := false, paidTransactionId := None)
         == FromRow(id, row, categories, m2, y2).(isPaid := false, paidTransactionId := None)
  {
  }

  // ---------------------------------------------------------------------
  // What the writes store

  /** The row `addRecurringExpense` inserts: never paid. */
  function NewRow(d: Draft): RecurringRow {
    RecurringRow(d.description, d.amount, d.category.id, d.dueDay, d.recurrence, false, None, None, None)
  }

  /** The record `addRecurringExpense` puts into the list. */
  function Created(id: string, d: Draft): RecurringExpense {
    RecurringExpense(id, d.description, d.amount, d.category, d.dueDay, d.recurrence, false, None, None, None)
  }

  /** The added record is what loading the inserted row gives at any viewing
      period: unpaid, without a link. */
  lemma CreatedMatchesReload(id: string, d: Draft, categories: seq<Category>, month: int, year: int)
    requires ResolveCategory(categories, d.category.id) == d.category
    ensures FromRow(id, NewRow(d), categories, month, year) == Created(id, d)
    ensures !Created(id, d).isPaid && Created(id, d).paidTransactionId.None?
  {
  }

  /** The row after `markAsPaid`'s status update. */
  function Stamped(row: RecurringRow, tid: string, month: int, year: int): RecurringRow {
    row.(isPaid := true, paidTransactionId := Some(tid), paidForMonth := Some(month + 1), paidForYear := Some(year))
  }

  function Stamp(tid: string, month: int, year: int): RecurringRow -> RecurringRow {
    row => Stamped(row, tid, month, year)
  }

  /** The row after `markAsUnpaid`'s status update. */
  function Cleared(row: RecurringRow): RecurringRow {
    row.(isPaid := false, paidTransactionId := None, paidForMonth := None, paidForYear := None)
  }

  /** A row stamped for (M, Y) reads as paid, linked to the new transaction,
      when (M, Y) is viewed, and as unpaid in every other period. */
  lemma StampedPaidOnlyThen(id: string, row: RecurringRow, categories: seq<Category>, tid: string,
                            month: int, year: int, m: int, y: int)
    requires tid != ""
    ensures FromRow(id, Stamped(row, tid, month, year), categories, m, y).isPaid <==> m == month && y == year
    ensures m == month && y == year ==>
              FromRow(id, Stamped(row, tid, month, year), categories, m, y).paidTransactionId == Some(tid)
  {
  }

  /** A cleared row reads as unpaid and unlinked in every period. */
  lemma ClearedNeverPaid(id: string, row: RecurringRow, categories: seq<Category>, m: int, y: int)
    ensures !FromRow(id, Cleared(row), categories, m, y).isPaid
    ensures FromRow(id, Cleared(row), categories, m, y).paidTransactionId.None?
  {
  }

  /** The in-memory edit of `markAsPaid`. */
  function Paid(e: RecurringExpense, tid: string, month: int, year: int): RecurringExpense {
    e.(isPaid := true, paidTransactionId := Some(tid), paidForMonth := Some(month + 1), paidForYear := Some(year))
  }

  function Pay(tid: string, month: int, year: int): RecurringExpense -> RecurringExpense {
    e => Paid(e, tid, month, year)
  }

  /** The in-memory edit of `markAsUnpaid`. */
  function Unpaid(e: RecurringExpense): RecurringExpense {
    e.(isPaid := false, paidTransactionId := None, paidForMonth := None, paidForYear := None)
  }

  /** The in-memory edits of both status changes are what a reload of the
      updated row gives while the same period is viewed. */
  lemma StatusEditsMatchReload(id: string, row: RecurringRow, categories: seq<Category>, tid: string,
                               month: int, year: int)
    requires tid != ""
    ensures FromRow(id, Stamped(row, tid, month, year), categories, month, year)
         == Paid(FromRow(id, row, categories, month, year), tid, month, year)
    ensures FromRow(id, Cleared(row), categories, month, year) == Unpaid(FromRow(id, row, categories, month, year))
  {
  }

  /** `Math.min(dueDay, 28)`: the day of the month the payment is dated. */
  function PaymentDay(dueDay: int): (d: int)
    ensures d <= 28 && d <= dueDay && (d == dueDay || d == 28)
    ensures dueDay >= 1 ==> 1 <= d
  {
    if dueDay <= 28 then dueDay else 28
  }

  /** `${year}-${String(month + 1).padStart(2, '0')}-${String(day).padStart(2, '0')}`. */
  function PaymentDateText(year: int, month: int, dueDay: int): string {
    Text.IntText(year) + "-" + Text.PadStart(Text.IntText(month + 1), 2, '0') + "-"
    + Text.PadStart(Text.IntText(PaymentDay(dueDay)), 2, '0')
  }

  /** For a four-digit year, a month from 0 to 11 and a due day of at least
      1, the payment date text is the ISO text of day `min(dueDay, 28)` of
      that month, and reads back as that date. */
  lemma PaymentDateIsIso(year: int, month: int, dueDay: int)
    requires 1000 <= year <= 9999 && 0 <= month <= 11 && dueDay >= 1
    ensures 1 <= PaymentDay(dueDay) <= 28
    ensures PaymentDateText(year, month, dueDay) == IsoDateText(CalendarDate(year, month + 1, PaymentDay(dueDay)))
    ensures ReadIsoDate(PaymentDateText(year, month, dueDay)) == Some(CalendarDate(year, month + 1, PaymentDay(dueDay)))
  {
    var d := CalendarDate(year, month + 1, PaymentDay(dueDay));
    assert Text.Pow10(3) == 1000;
    Text.DigitCountAtLeast(year, 4);
    assert IsoYearText(year) == Text.IntText(year);
    IsoDateRoundTrip(d);
  }

  /** The transaction row `markAsPaid` inserts for the expense. */
  function PaymentRow(e: RecurringExpense, month: int, year: int): (row: TransactionRow)
    ensures row.kind == Expense && row.amount == e.amount && row.categoryId == e.category.id
    ensures row.description == e.description && row.recurrence == e.recurrence
    ensures row.date == PaymentDateText(year, month, e.dueDay)
  {
    TransactionRow(Expense, e.amount, e.category.id, e.description, PaymentDateText(year, month, e.dueDay), e.recurrence)
  }

  /** `{ ...e, ...updates }`. */
  function Merged(e: RecurringExpense, p: Patch): (r: RecurringExpense)
    ensures r.id == e.id && r.isPaid == e.isPaid && r.paidTransactionId == e.paidTransactionId
    ensures r.paidForMonth == e.paidForMonth && r.paidForYear == e.paidForYear
  {
    e.(description := p.description.GetOr(e.description), amount := p.amount.GetOr(e.amount),
       category := p.category.GetOr(e.category), dueDay := p.dueDay.GetOr(e.dueDay),
       recurrence := p.recurrence.GetOr(e.recurrence))
  }

  function Merge(p: Patch): RecurringExpense -> RecurringExpense {
    e => Merged(e, p)
  }

  /** The row after `updateRecurringExpense`: a description is written only
      when it is not empty, every other field whenever it is given. */
  function Patched(row: RecurringRow, p: Patch): RecurringRow {
    row.(description := if p.description.Some? && p.description.value != "" then p.description.value else row.description,
         amount := p.amount.GetOr(row.amount),
         categoryId := if p.category.Some? then p.category.value.id else row.categoryId,
         dueDay := p.dueDay.GetOr(row.dueDay),
         recurrence := p.recurrence.GetOr(row.recurrence))
  }

  function PatchRow(p: Patch): RecurringRow -> RecurringRow {
    row => Patched(row, p)
  }

  /** An update leaves the paid columns alone, and unless it empties the
      description the in-memory record is what a reload of the updated row
      gives. */
  lemma UpdateMatchesReload(id: string, row: RecurringRow, categories: seq<Category>, p: Patch,
                            month: int, year: int)
    requires p.description != Some("")
    requires p.category.Some? ==> ResolveCategory(categories, p.category.value.id) == p.category.value
    requires ResolveCategory(categories, row.categoryId) == FromRow(id, row, categories, month, year).category
    ensures Patched(row, p).isPaid == row.isPaid && Patched(row, p).paidTransactionId == row.paidTransactionId
    ensures Patched(row, p).paidForMonth == row.paidForMonth && Patched(row, p).paidForYear == row.paidForYear
    ensures FromRow(id, Patched(row, p), categories, month, year) == Merged(FromRow(id, row, categories, month, year), p)
  {
  }

  /** `prev.map(e => e.id === id ? f(e) : e)`. */
  function MapWhere(es: seq<RecurringExpense>, id: string, f: RecurringExpense -> RecurringExpense): seq<RecurringExpense> {
    if es == [] then [] else [if es[0].id == id then f(es[0]) else es[0]] + MapWhere(es[1..], id, f)
  }

  /** The edit applies `f` to the records with that id and keeps the others
      where they are. */
  lemma {:induction false} MapWhereAt(es: seq<RecurringExpense>, id: string, f: RecurringExpense -> RecurringExpense)
    ensures |MapWhere(es, id, f)| == |es|
    ensures forall i :: 0 <= i < |es| ==> MapWhere(es, id, f)[i] == if es[i].id == id then f(es[i]) else es[i]
  {
    if es != [] {
      MapWhereAt(es[1..], id, f);
    }
  }

  /** `recurringExpenses.find(e => e.id === id)`. */
  function Lookup(es: seq<RecurringExpense>, id: string): Option<RecurringExpense> {
    if es == [] then None else if es[0].id == id then Some(es[0]) else Lookup(es[1..], id)
  }

  /** `Lookup` is the array `find` with the test `e.id === id`. */
  lemma {:induction false} LookupIsFind(es: seq<RecurringExpense>, id: string)
    ensures Lookup(es, id) == Seqs.Find(es, HasId(id))
  {
    if es != [] && es[0].id != id {
      LookupIsFind(es[1..], id);
      var i := Seqs.IndexWhere(es[1..], HasId(id));
      assert Seqs.IndexWhere(es, HasId(id)) == 1 + i;
      if i < |es[1..]| {
        assert es[1..][i] == es[1 + i];
      }
    }
  }

  /** The description of a duplicate, and what it copies. */
  function CopyOf(e: RecurringExpense): (d: Draft)
    ensures d.description == e.description + " (Copy)"
    ensures d.amount == e.amount && d.category == e.category && d.dueDay == e.dueDay && d.recurrence == e.recurrence
  {
    Draft(e.description + " (Copy)", e.amount, e.category, e.dueDay, e.recurrence)
  }

  // ---------------------------------------------------------------------
  // The list invariant

  /** What the in-memory list keeps: ascending `dueDay`, one record per id,
      every id a row of the table, and a link only on a paid record. */
  ghost predicate WellFormed(es: seq<RecurringExpense>, ids: set<string>) {
    Seqs.SortedBy(es, DueDayOf) && Seqs.DistinctBy(es, IdOf)
    && (forall e :: e in es ==> e.id in ids)
    && (forall e :: e in es && e.paidTransactionId.Some? ==> e.isPaid)
  }

  /** Adding a record under a new id and re-sorting keeps the invariant. */
  lemma AddKeepsWellFormed(es: seq<RecurringExpense>, ids: set<string>, e: RecurringExpense)
    requires WellFormed(es, ids)
    requires e.id !in ids && e.paidTransactionId.None?
    ensures WellFormed(Seqs.SortBy(es + [e], DueDayOf), ids + {e.id})
  {
    var s := es + [e];
    forall x | x in es ensures IdOf(x) != IdOf(e) {
    }
    Seqs.DistinctConcat(es, [e], IdOf);
    Seqs.SortByDistinct(s, DueDayOf, IdOf);
    var r := Seqs.SortBy(s, DueDayOf);
    forall x | x in r ensures x in s {
      assert x in multiset(r);
    }
  }

  /** An edit that keeps every record's id, due day and link rule keeps the
      invariant. */
  lemma MapKeepsWellFormed(es: seq<RecurringExpense>, ids: set<string>, id: string, f: RecurringExpense -> RecurringExpense)
    requires WellFormed(es, ids)
    requires forall e :: e in es ==> f(e).id == e.id && f(e).dueDay == e.dueDay
    requires forall e :: e in es ==> f(e).paidTransactionId.Some? ==> f(e).isPaid
    ensures WellFormed(MapWhere(es, id, f), ids)
  {
    var r := MapWhere(es, id, f);
    MapWhereAt(es, id, f);
    forall i | 0 <= i < |r|
      ensures r[i].id == es[i].id && r[i].dueDay == es[i].dueDay && (r[i].paidTransactionId.Some? ==> r[i].isPaid)
    {
      assert es[i] in es;
    }
    SameShapeWellFormed(es, r, ids);
  }

  /** A list that agrees with a well-formed one on every position's id and
      due day, and keeps the link rule, is well formed. */
  lemma SameShapeWellFormed(es: seq<RecurringExpense>, r: seq<RecurringExpense>, ids: set<string>)
    requires WellFormed(es, ids) && |r| == |es|
    requires forall i :: 0 <= i < |r| ==> r[i].id == es[i].id && r[i].dueDay == es[i].dueDay
    requires forall i :: 0 <= i < |r| ==> r[i].paidTransactionId.Some? ==> r[i].isPaid
    ensures WellFormed(r, ids)
  {
    assert Seqs.SortedBy(r, DueDayOf) && Seqs.DistinctBy(r, IdOf) by {
      forall i, j | 0 <= i < j < |r| ensures DueDayOf(r[i]) <= DueDayOf(r[j]) && IdOf(r[i]) != IdOf(r[j]) {
      }
    }
    forall x | x in r ensures x.id in ids && (x.paidTransactionId.Some? ==> x.isPaid) {
      var i :| 0 <= i < |r| && r[i] == x;
      assert es[i] in es;
    }
  }

  /** Marking a record paid keeps the invariant. */
  lemma PayKeepsWellFormed(es: seq<RecurringExpense>, ids: set<string>, id: string, tid: string, month: int, year: int)
    requires WellFormed(es, ids)
    ensures WellFormed(MapWhere(es, id, Pay(tid, month, year)), ids)
  {
    MapKeepsWellFormed(es, ids, id, Pay(tid, month, year));
  }

  /** Marking a record unpaid keeps the invariant. */
  lemma UnpayKeepsWellFormed(es: seq<RecurringExpense>, ids: set<string>, id: string)
    requires WellFormed(es, ids)
    ensures WellFormed(MapWhere(es, id, Unpaid), ids)
  {
    MapKeepsWellFormed(es, ids, id, Unpaid);
  }

  /** The merge of an update keeps ids and the link rule. */
  lemma MergeKeepsRecords(es: seq<RecurringExpense>, ids: set<string>, id: string, p: Patch)
    requires WellFormed(es, ids)
    ensures Seqs.DistinctBy(MapWhere(es, id, Merge(p)), IdOf)
    ensures forall x :: x in MapWhere(es, id, Merge(p)) ==> x.id in ids && (x.paidTransactionId.Some? ==> x.isPaid)
  {
    var m := MapWhere(es, id, Merge(p));
    MapWhereAt(es, id, Merge(p));
    forall i, j | 0 <= i < j < |m| ensures IdOf(m[i]) != IdOf(m[j]) {
    }
    forall x | x in m ensures x.id in ids && (x.paidTransactionId.Some? ==> x.isPaid) {
      var i :| 0 <= i < |m| && m[i] == x;
      assert es[i] in es;
    }
  }

  /** An update followed by the re-sort keeps the invariant. */
  lemma UpdateKeepsWellFormed(es: seq<RecurringExpense>, ids: set<string>, id: string, p: Patch)
    requires WellFormed(es, ids)
    ensures WellFormed(Seqs.SortBy(MapWhere(es, id, Merge(p)), DueDayOf), ids)
  {
    var m := MapWhere(es, id, Merge(p));
    MergeKeepsRecords(es, ids, id, p);
    Seqs.SortByDistinct(m, DueDayOf, IdOf);
    var r := Seqs.SortBy(m, DueDayOf);
    forall x | x in r ensures x in m {
      assert x in multiset(m);
    }
  }

  /** Removing one id keeps the invariant, against the table without that
      row. */
  lemma RemoveKeepsWellFormed(es: seq<RecurringExpense>, ids: set<string>, id: string)
    requires WellFormed(es, ids)
    ensures WellFormed(Seqs.Filter(es, IdIsNot(id)), ids - {id})
  {
    Seqs.FilterSorted(es, IdIsNot(id), DueDayOf);
    Seqs.FilterDistinct(es, IdIsNot(id), IdOf);
  }

  /** The update's re-sort keeps records with equal due days in their
      previous order. */
  lemma UpdateKeepsTieOrder(es: seq<RecurringExpense>, id: string, p: Patch, day: int)
    ensures Seqs.WithKey(Seqs.SortBy(MapWhere(es, id, Merge(p)), DueDayOf), DueDayOf, day as real)
         == Seqs.WithKey(MapWhere(es, id, Merge(p)), DueDayOf, day as real)
  {
    Seqs.SortByStable(MapWhere(es, id, Merge(p)), DueDayOf, day as real);
  }

  /** After an edit that keeps ids, looking the id up finds the edited
      record. */
  lemma {:induction false} LookupAfterMap(es: seq<RecurringExpense>, id: string, f: RecurringExpense -> RecurringExpense)
    requires Lookup(es, id).Some?
    requires forall e :: e in es ==> f(e).id == e.id
    ensures Lookup(MapWhere(es, id, f), id) == Some(f(Lookup(es, id).value))
  {
    if es[0].id != id {
      assert MapWhere(es, id, f)[1..] == MapWhere(es[1..], id, f);
      LookupAfterMap(es[1..], id, f);
    }
  }

  class RecurringExpensesHook {
    const store: Tables
    /** Whether `user` is set; every operation returns at once without one. */
    const signedIn: bool
    var expenses: seq<RecurringExpense>

    ghost predicate Valid()
      reads this, store
    {
      WellFormed(expenses, store.recurring.Keys)
    }

    /** The initial state: an empty list. */
    constructor(store: Tables, signedIn: bool)
      ensures this.store == store && this.signedIn == signedIn && expenses == []
      ensures Valid()
    {
      this.store := store;
      this.signedIn := signedIn;
      expenses := [];
    }

    /** `addRecurringExpense`: insert an unpaid row, then add the record and
        re-sort by due day; on an error nothing changes. */
    method Add(d: Draft, inserted: Insert)
      requires Valid()
      requires inserted.Assigns? ==> inserted.id !in store.recurring
      modifies this, store
      ensures Valid()
      ensures store.transactions == old(store.transactions) && store.categories == old(store.categories)
      ensures if signedIn && inserted.Assigns? then
                store.recurring == old(store.recurring)[inserted.id := NewRow(d)]
                && expenses == Seqs.SortBy(old(expenses) + [Created(inserted.id, d)], DueDayOf)
              else
                store.recurring == old(store.recurring) && expenses == old(expenses)
    {
      if !signedIn || inserted.Rejects? {
        return;
      }
      var e := Created(inserted.id, d);
      AddKeepsWellFormed(expenses, store.recurring.Keys, e);
      store.recurring := store.recurring[inserted.id := NewRow(d)];
      expenses := Seqs.SortBy(expenses + [e], DueDayOf);
    }

    /** The insert of the payment transaction for `e`. */
    method InsertPayment(e: RecurringExpense, month: int, year: int, tid: string)
      modifies store
      ensures store.transactions == old(store.transactions)[tid := PaymentRow(e, month, year)]
      ensures store.recurring == old(store.recurring) && store.categories == old(store.categories)
    {
      store.transactions := store.transactions[tid := PaymentRow(e, month, year)];
    }

    /** The stamp of row `id` with the payment `tid` for the period, and the
        same change to the record. */
    method StampRecord(id: string, tid: string, month: int, year: int)
      requires Valid()
      modifies this, store
      ensures Valid()
      ensures store.transactions == old(store.transactions) && store.categories == old(store.categories)
      ensures store.recurring == UpdateWhere(old(store.recurring), id, Stamp(tid, month, year))
      ensures expenses == MapWhere(old(expenses), id, Pay(tid, month, year))
    {
      PayKeepsWellFormed(expenses, store.recurring.Keys, id, tid, month, year);
      store.recurring := UpdateWhere(store.recurring, id, Stamp(tid, month, year));
      expenses := MapWhere(expenses, id, Pay(tid, month, year));
    }

    /** `markAsPaid`: insert the payment transaction, then stamp the row with
        it and the period, then mark the record. Either write may fail; a
        failed stamp leaves the inserted transaction in place. The result is
        the new transaction's id when both writes succeed. */
    method MarkAsPaid(id: string, month: int, year: int, inserted: Insert, stamped: Write)
      returns (created: Option<string>)
      requires Valid()
      modifies this, store
      ensures Valid()
      ensures store.categories == old(store.categories)
      ensures var found := Lookup(old(expenses), id);
              !signedIn || found.None? || inserted.Rejects? ==>
                created == None && store.transactions == old(store.transactions)
                && store.recurring == old(store.recurring) && expenses == old(expenses)
      ensures var found := Lookup(old(expenses), id);
              signedIn && found.Some? && inserted.Assigns? ==>
                store.transactions == old(store.transactions)[inserted.id := PaymentRow(found.value, month, year)]
      ensures var found := Lookup(old(expenses), id);
              signedIn && found.Some? && inserted.Assigns? && stamped.Fails? ==>
                created == None && store.recurring == old(store.recurring) && expenses == old(expenses)
      ensures var found := Lookup(old(expenses), id);
              signedIn && found.Some? && inserted.Assigns? && stamped.Succeeds? ==>
                created == Some(inserted.id)
                && store.recurring == UpdateWhere(old(store.recurring), id, Stamp(inserted.id, month, year))
                && expenses == MapWhere(old(expenses), id, Pay(inserted.id, month, year))
    {
      created := None;
      var found := Lookup(expenses, id);
      if signedIn && found.Some? && inserted.Assigns? {
        InsertPayment(found.value, month, year, inserted.id);
        if stamped.Succeeds? {
          StampRecord(id, inserted.id, month, year);
          created := Some(inserted.id);
        }
      }
    }

    /** `markAsUnpaid`: nothing without a record or a link; otherwise delete
        the linked transaction, then clear the row, then clear the record.
        A failed delete stops before the row; a failed clear leaves the
        transaction deleted and the row still paid. */
    method MarkAsUnpaid(id: string, deleted: Write, cleared: Write)
      requires Valid()
      modifies this, store
      ensures Valid()
      ensures store.categories == old(store.categories)
      ensures var found := Lookup(old(expenses), id);
              !signedIn || found.None? || !Linked(found.value) || deleted.Fails? ==>
                store.transactions == old(store.transactions)
                && store.recurring == old(store.recurring) && expenses == old(expenses)
      ensures var found := Lookup(old(expenses), id);
              signedIn && found.Some? && Linked(found.value) && deleted.Succeeds? ==>
                store.transactions == old(store.transactions) - {found.value.paidTransactionId.value}
      ensures var found := Lookup(old(expenses), id);
              signedIn && found.Some? && Linked(found.value) && deleted.Succeeds? && cleared.Fails? ==>
                store.recurring == old(store.recurring) && expenses == old(expenses)
      ensures var found := Lookup(old(expenses), id);
              signedIn && found.Some? && Linked(found.value) && deleted.Succeeds? && cleared.Succeeds? ==>
                store.recurring == UpdateWhere(old(store.recurring), id, Cleared)
                && expenses == MapWhere(old(expenses), id, Unpaid)
    {
      var found := Lookup(expenses, id);
      if signedIn && found.Some? && Linked(found.value) && deleted.Succeeds? {
        store.transactions := store.transactions - {found.value.paidTransactionId.value};
        if cleared.Succeeds? {
          UnpayKeepsWellFormed(expenses, store.recurring.Keys, id);
          store.recurring := UpdateWhere(store.recurring, id, Cleared);
          expenses := MapWhere(expenses, id, Unpaid);
        }
      }
    }

    /** `updateRecurringExpense`: write the given fields, then merge them into
        the record and re-sort by due day. */
    method Update(id: string, p: Patch, written: Write)
      requires Valid()
      modifies this, store
      ensures Valid()
      ensures store.transactions == old(store.transactions) && store.categories == old(store.categories)
      ensures if signedIn && written.Succeeds? then
                store.recurring == UpdateWhere(old(store.recurring), id, PatchRow(p))
                && expenses == Seqs.SortBy(MapWhere(old(expenses), id, Merge(p)), DueDayOf)
              else
                store.recurring == old(store.recurring) && expenses == old(expenses)
    {
      if !signedIn || written.Fails? {
        return;
      }
      UpdateKeepsWellFormed(expenses, store.recurring.Keys, id, p);
      store.recurring := UpdateWhere(store.recurring, id, PatchRow(p));
      expenses := Seqs.SortBy(MapWhere(expenses, id, Merge(p)), DueDayOf);
    }

    /** `deleteRecurringExpense`: try to delete the linked transaction, with
        its outcome ignored, then delete the row and drop the record. */
    method Delete(id: string, linkDeleted: Write, deleted: Write)
      requires Valid()
      modifies this, store
      ensures Valid()
      ensures store.categories == old(store.categories)
      ensures var found := Lookup(old(expenses), id);
              store.transactions
              == if signedIn && found.Some? && Linked(found.value) && linkDeleted.Succeeds?
                 then old(store.transactions) - {found.value.paidTransactionId.value}
                 else old(store.transactions)
      ensures if signedIn && deleted.Succeeds? then
                store.recurring == old(store.recurring) - {id} && expenses == Seqs.Filter(old(expenses), IdIsNot(id))
              else
                store.recurring == old(store.recurring) && expenses == old(expenses)
    {
      if !signedIn {
        return;
      }
      var found := Lookup(expenses, id);
      if found.Some? && Linked(found.value) && linkDeleted.Succeeds? {
        store.transactions := store.transactions - {found.value.paidTransactionId.value};
      }
      if deleted.Fails? {
        return;
      }
      RemoveKeepsWellFormed(expenses, store.recurring.Keys, id);
      store.recurring := store.recurring - {id};
      expenses := Seqs.Filter(expenses, IdIsNot(id));
    }

    /** `duplicateRecurringExpense`: add a copy of the record, described as
        the original followed by " (Copy)". */
    method Duplicate(id: string, inserted: Insert)
      requires Valid()
      requires inserted.Assigns? ==> inserted.id !in store.recurring
      modifies this, store
      ensures Valid()
      ensures store.transactions == old(store.transactions) && store.categories == old(store.categories)
      ensures var found := Lookup(old(expenses), id);
              if signedIn && found.Some? && inserted.Assigns? then
                store.recurring == old(store.recurring)[inserted.id := NewRow(CopyOf(found.value))]
                && expenses == Seqs.SortBy(old(expenses) + [Created(inserted.id, CopyOf(found.value))], DueDayOf)
              else
                store.recurring == old(store.recurring) && expenses == old(expenses)
    {
      if !signedIn {
        return;
      }
      var found := Lookup(expenses, id);
      if found.None? {
        return;
      }
      Add(CopyOf(found.value), inserted);
    }
  }

  /** Un-paying a record that was just paid leaves it as un-paying it
      directly would. */
  lemma {:induction false} UnpaidAfterPaid(es: seq<RecurringExpense>, id: string, tid: string, month: int, year: int)
    ensures MapWhere(MapWhere(es, id, Pay(tid, month, year)), id, Unpaid) == MapWhere(es, id, Unpaid)
  {
    if es != [] {
      var paid := MapWhere(es, id, Pay(tid, month, year));
      assert paid[1..] == MapWhere(es[1..], id, Pay(tid, month, year));
      UnpaidAfterPaid(es[1..], id, tid, month, year);
    }
  }

  lemma InsertThenRemove<V>(m: map<string, V>, k: string, v: V)
    requires k !in m
    ensures m[k := v] - {k} == m
  {
  }

  /** Paying a record for a period and then un-paying it, with every write
      succeeding, leaves the transactions table as it was and the record
      unpaid. */
  method PayThenUnpay(hook: RecurringExpensesHook, id: string, month: int, year: int, tid: string)
    requires hook.Valid() && hook.signedIn
    requires Lookup(hook.expenses, id).Some?
    requires tid != "" && tid !in hook.store.transactions
    modifies hook, hook.store
    ensures hook.Valid()
    ensures hook.store.transactions == old(hook.store.transactions)
    ensures hook.expenses == MapWhere(old(hook.expenses), id, Unpaid)
  {
    var es := hook.expenses;
    var created := hook.MarkAsPaid(id, month, year, Assigns(tid), Succeeds);
    LookupAfterMap(es, id, Pay(tid, month, year));
    hook.MarkAsUnpaid(id, Succeeds, Succeeds);
    UnpaidAfterPaid(es, id, tid, month, year);
    InsertThenRemove(old(hook.store.transactions), tid, PaymentRow(Lookup(es, id).value, month, year));
  }
}
