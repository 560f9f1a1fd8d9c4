/** `RecurringExpensesList`: the list of recurring expenses for the viewed
    month, with its paid and unpaid counts, a switch per record that marks
    it paid or unpaid, and the texts shown beside each record. */
module RecurringList {
  import Text
  import Seqs
  import opened Wrappers
  import opened Ledger
  import opened RecurringExpenses

  predicate IsPaid(e: RecurringExpense) {
    e.isPaid
  }

  /** `paidCount`. */
  function PaidCount(es: seq<RecurringExpense>): (n: nat)
    ensures n <= |es|
    ensures n == 0 <==> forall e :: e in es ==> !e.isPaid
  {
    var paid := Seqs.Filter(es, IsPaid);
    assert paid != [] ==> paid[0] in paid;
    |paid|
  }

  /** `unpaidCount`. */
  function UnpaidCount(es: seq<RecurringExpense>): int {
    |es| - PaidCount(es)
  }

  /** The unpaid count is the number of unpaid records, so the two badges
      add up to the length of the list. */
  lemma UnpaidCountCountsUnpaid(es: seq<RecurringExpense>)
    ensures UnpaidCount(es) == |Seqs.Filter(es, Seqs.Not(IsPaid))|
    ensures 0 <= UnpaidCount(es) && PaidCount(es) + UnpaidCount(es) == |es|
  {
    Seqs.FilterLengthSplit(es, IsPaid);
  }

  /** The callback the switch calls. */
  datatype Dispatch = CallMarkAsUnpaid(id: string) | CallMarkAsPaid(id: string)

  /** `handleTogglePaid`. */
  function HandleTogglePaid(e: RecurringExpense): (d: Dispatch)
    ensures d.id == e.id
    ensures d.CallMarkAsUnpaid? <==> e.isPaid
  {
    if e.isPaid then CallMarkAsUnpaid(e.id) else CallMarkAsPaid(e.id)
  }

  /** The switch alternates: once the hook has marked a record paid the
      switch offers to unmark it, and once unmarked to mark it again. */
  lemma ToggleAlternates(e: RecurringExpense, tid: string, month: int, year: int)
    ensures HandleTogglePaid(Paid(e, tid, month, year)) == CallMarkAsUnpaid(e.id)
    ensures HandleTogglePaid(Unpaid(e)) == CallMarkAsPaid(e.id)
  {
  }

  const MonthNames: seq<string> := ["Jan", "Feb", "Mar", "Apr", "May", "Jun", "Jul", "Aug", "Sep", "Oct", "Nov", "Dec"]

  /** `monthNames[currentMonth]` in a template: "undefined" outside 0..11. */
  function MonthName(month: int): (r: string)
    ensures 0 <= month < 12 ==> r == MonthNames[month]
    ensures !(0 <= month < 12) ==> r == "undefined"
    ensures ' ' !in r
  {
    if 0 <= month < 12 then MonthNames[month] else "undefined"
  }

  /** `formatDueDate`: `${dueDay} ${monthNames[currentMonth]} ${currentYear}`. */
  function FormatDueDate(dueDay: int, currentMonth: int, currentYear: int): string {
    Text.IntText(dueDay) + " " + MonthName(currentMonth) + " " + Text.IntText(currentYear)
  }

  /** The decimal text of an integer holds no space. */
  lemma NoSpaceInIntText(i: int)
    ensures ' ' !in Text.IntText(i)
  {
    var s := Text.IntText(i);
    forall k | 0 <= k < |s| ensures s[k] != ' ' {
      if i < 0 {
        assert s == "-" + Text.NatText(-i);
        if k > 0 {
          assert s[k] == Text.NatText(-i)[k - 1];
        }
      }
    }
  }

  /** The due label splits at its spaces into the due day, the month name
      and the year, and the first and last read back as the numbers. */
  lemma DueDateParts(dueDay: int, currentMonth: int, currentYear: int)
    ensures Text.Split(FormatDueDate(dueDay, currentMonth, currentYear), ' ')
            == [Text.IntText(dueDay), MonthName(currentMonth), Text.IntText(currentYear)]
    ensures Text.ParseDecimal(Text.IntText(dueDay)) == Some(dueDay)
    ensures Text.ParseDecimal(Text.IntText(currentYear)) == Some(currentYear)
  {
    var parts := [Text.IntText(dueDay), MonthName(currentMonth), Text.IntText(currentYear)];
    NoSpaceInIntText(dueDay);
    NoSpaceInIntText(currentYear);
    assert Text.Join(parts[2..], ' ') == parts[2];
    assert Text.Join(parts[1..], ' ') == parts[1] + [' '] + parts[2];
    assert Text.Join(parts, ' ') == FormatDueDate(dueDay, currentMonth, currentYear);
    Text.SplitJoin(parts, ' ');
    Text.ParseIntText(dueDay);
    Text.ParseIntText(currentYear);
  }

  /** The word beside the switch. */
  function StatusLabel(e: RecurringExpense): (r: string)
    ensures r == "Paid" <==> e.isPaid
  {
    if e.isPaid then "Paid" else "Unpaid"
  }

  const TransactionWarning: string := " This will also delete the associated transaction."

  /** The delete confirmation: the question, followed by the warning about
      the payment transaction when the record is paid. */
  function DeleteWarning(e: RecurringExpense): (r: string)
    ensures e.isPaid <==> |r| >= |TransactionWarning| && r[|r| - |TransactionWarning|..] == TransactionWarning
  {
    var question := "Are you sure you want to delete \"" + e.description + "\"?";
    var r := question + (if e.isPaid then TransactionWarning else "");
    assert r[|r| - 1] == if e.isPaid then '.' else '?';
    r
  }

  /** `recurrenceLabels[expense.recurrence] || expense.recurrence`. */
  function RecurrenceLabel(r: Recurrence): string {
    match r
    case Daily => "Daily"
    case Weekly => "Weekly"
    case Monthly => "Monthly"
    case Yearly => "Yearly"
    case OneTime => r.Text()
  }

  /** A repeating recurrence shows its value with a capital first letter;
      one-time, which has no label, shows its raw value. */
  lemma RecurrenceLabelIsCapitalized(r: Recurrence)
    ensures r != OneTime ==> RecurrenceLabel(r) == Text.Capitalize(r.Text())
    ensures r == OneTime ==> RecurrenceLabel(r) == "one-time"
  {
    var t := r.Text();
    assert Text.Capitalize(t) == [Text.UpperAscii(t[0])] + t[1..];
  }
}
