/** The entities the Supabase-backed ledger works with: transaction kinds,
    recurrence kinds, categories, calendar dates, transactions and the
    viewing period; the default category table and the recurrence options;
    and the `YYYY-MM-DD` text the client writes into the `date` column. */
module Ledger {
  import opened Wrappers
  import Text
  import Seqs

  /** `TransactionType`. */
  datatype Kind = Income | Expense {
    function Text(): string {
      match this
      case Income => "income"
      case Expense => "expense"
    }
  }

  /** `RecurrenceType`. */
  datatype Recurrence = OneTime | Daily | Weekly | Monthly | Yearly {
    function Text(): string {
      match this
      case OneTime => "one-time"
      case Daily => "daily"
      case Weekly => "weekly"
      case Monthly => "monthly"
      case Yearly => "yearly"
    }
  }

  /** A spending or earning category; `budget` is absent when none is set. */
  datatype Category = Category(id: string, name: string, icon: string, color: string, budget: Option<real>)

  type MonthOfYear = m: int | 1 <= m <= 12 witness 1

  type DayOfMonth = d: int | 1 <= d <= 31 witness 1

  /** The calendar date of a `Date`; `month` runs from 1 to 12, so
      `getMonth()` is `month - 1`. */
  datatype CalendarDate = CalendarDate(year: int, month: MonthOfYear, day: DayOfMonth) {
    /** `getMonth()`: the month counted from 0. */
    function MonthIndex(): int {
      month - 1
    }
  }

  datatype Transaction = Transaction(
    id: string,
    kind: Kind,
    amount: real,
    category: Category,
    description: string,
    date: CalendarDate,
    recurrence: Recurrence)

  /** `FilterPeriod`: every transaction, or one month (counted from 0) of
      one year. */
  datatype FilterPeriod = AllTime | MonthOf(month: int, year: int)

  /** One entry of `recurrenceOptions`. */
  datatype RecurrenceOption = RecurrenceOption(value: Recurrence, caption: string)

  const DefaultCategories: seq<Category> := [
    Category("salary", "Salary", "\U{1F4B0}", "hsl(160 84% 39%)", None),
    Category("food", "Food", "\U{1F354}", "hsl(30 90% 55%)", Some(5000.0)),
    Category("transport", "Transport", "\U{1F697}", "hsl(200 80% 50%)", Some(3000.0)),
    Category("shopping", "Shopping", "\U{1F6CD}\U{FE0F}", "hsl(330 80% 55%)", Some(4000.0)),
    Category("entertainment", "Entertainment", "\U{1F3AC}", "hsl(280 70% 55%)", Some(2000.0)),
    Category("bills", "Bills", "\U{1F4C4}", "hsl(220 70% 50%)", Some(5000.0)),
    Category("health", "Health", "\U{1F48A}", "hsl(0 70% 55%)", Some(2000.0)),
    Category("freelance", "Freelance", "\U{1F4BB}", "hsl(170 70% 45%)", None),
    Category("gift", "Gift", "\U{1F381}", "hsl(350 80% 60%)", Some(1000.0)),
    Category("investment", "Investment", "\U{1F4C8}", "hsl(140 60% 45%)", None),
    Category("groceries", "Groceries", "\U{1F6D2}", "hsl(100 60% 45%)", Some(8000.0)),
    Category("other", "Other", "\U{1F4E6}", "hsl(220 10% 50%)", Some(2000.0))
  ]

  /** `defaultCategories[11]`: the fallback for a row whose category id is
      unknown. */
  const FallbackCategory: Category := DefaultCategories[11]

  function IdIs(id: string): Category -> bool {
    (c: Category) => c.id == id
  }

  /** `categories.find(c => c.id === id) || defaultCategories[11]`: the first
      category with the id, or the fallback when none has it. */
  function ResolveCategory(categories: seq<Category>, id: string): (c: Category)
    ensures (c in categories && c.id == id) || (c == FallbackCategory && forall x :: x in categories ==> x.id != id)
  {
    match Seqs.Find(categories, IdIs(id))
    case Some(c) => c
    case None => FallbackCategory
  }

  const RecurrenceOptions: seq<RecurrenceOption> := [
    RecurrenceOption(OneTime, "One-time"),
    RecurrenceOption(Daily, "Daily"),
    RecurrenceOption(Weekly, "Weekly"),
    RecurrenceOption(Monthly, "Monthly"),
    RecurrenceOption(Yearly, "Yearly")
  ]

  /** The default table has twelve categories with distinct ids, and its
      fallback entry is "Other". */
  lemma DefaultCategoryIds()
    ensures |DefaultCategories| == 12
    ensures forall i, j :: 0 <= i < j < 12 ==> DefaultCategories[i].id != DefaultCategories[j].id
    ensures FallbackCategory.id == "other" && FallbackCategory.name == "Other"
  {
  }

  /** In the default table the categories without a budget are exactly
      Salary, Freelance and Investment. */
  lemma DefaultCategoriesWithoutBudget()
    ensures forall c :: c in DefaultCategories ==>
              (c.budget.None? <==> c.name in ["Salary", "Freelance", "Investment"])
  {
  }

  /** Every budget in the default table is positive. */
  lemma DefaultBudgetsPositive()
    ensures forall c :: c in DefaultCategories && c.budget.Some? ==> c.budget.value > 0.0
  {
  }

  /** Whether some option offers the recurrence `r`. */
  predicate Offered(options: seq<RecurrenceOption>, r: Recurrence) {
    exists i :: 0 <= i < |options| && options[i].value == r
  }

  /** Every recurrence kind is offered, and no kind twice. */
  lemma RecurrenceOptionsComplete()
    ensures forall r: Recurrence :: Offered(RecurrenceOptions, r)
    ensures forall i, j :: 0 <= i < j < |RecurrenceOptions| ==> RecurrenceOptions[i].value != RecurrenceOptions[j].value
  {
    forall r: Recurrence ensures Offered(RecurrenceOptions, r) {
      match r
      case OneTime => assert RecurrenceOptions[0].value == r;
      case Daily => assert RecurrenceOptions[1].value == r;
      case Weekly => assert RecurrenceOptions[2].value == r;
      case Monthly => assert RecurrenceOptions[3].value == r;
      case Yearly => assert RecurrenceOptions[4].value == r;
    }
  }

  function CaptionOf(r: Recurrence): string {
    match r
    case OneTime => "One-time"
    case Daily => "Daily"
    case Weekly => "Weekly"
    case Monthly => "Monthly"
    case Yearly => "Yearly"
  }

  /** Each option's caption is its stored text with the first letter
      upper-cased. */
  lemma RecurrenceCaptions()
    ensures forall o :: o in RecurrenceOptions ==> o.caption == Text.Capitalize(o.value.Text())
  {
    forall r: Recurrence ensures CaptionOf(r) == Text.Capitalize(r.Text()) {
      assert r.Text()[1..] == CaptionOf(r)[1..];
    }
    forall i | 0 <= i < |RecurrenceOptions| ensures RecurrenceOptions[i].caption == CaptionOf(RecurrenceOptions[i].value) {
    }
  }

  /** `String(n).padStart(2, '0')`. */
  function Pad2(n: nat): string {
    Text.PadStart(Text.NatText(n), 2, '0')
  }

  /** The year as `toISOString` writes it: four digits for years 0 to 9999,
      otherwise a sign and six digits. */
  function IsoYearText(year: int): string {
    if 0 <= year <= 9999 then Text.PadStart(Text.NatText(year), 4, '0')
    else if year < 0 then "-" + Text.PadStart(Text.NatText(-year), 6, '0')
    else "+" + Text.PadStart(Text.NatText(year), 6, '0')
  }

  /** `date.toISOString().split('T')[0]` for a date at midnight UTC. */
  function IsoDateText(d: CalendarDate): string {
    IsoYearText(d.year) + "-" + Pad2(d.month) + "-" + Pad2(d.day)
  }

  /** Reads a `YYYY-MM-DD` text back into a date; `None` for any other
      shape and for a month or day out of range. */
  function ReadIsoDate(s: string): (r: Option<CalendarDate>)
    ensures r.Some? ==> |s| == 10 && s[4] == '-' && s[7] == '-'
  {
    if |s| == 10 && s[4] == '-' && s[7] == '-'
       && Text.AllDigits(s[..4]) && Text.AllDigits(s[5..7]) && Text.AllDigits(s[8..])
       && 1 <= Text.DigitsValue(s[5..7]) <= 12 && 1 <= Text.DigitsValue(s[8..]) <= 31
    then Some(CalendarDate(Text.DigitsValue(s[..4]), Text.DigitsValue(s[5..7]), Text.DigitsValue(s[8..])))
    else None
  }

  /** A two-digit number padded to two places reads back as that number. */
  lemma Pad2Value(n: nat)
    requires n < 100
    ensures |Pad2(n)| == 2
    ensures Text.AllDigits(Pad2(n)) && Text.DigitsValue(Pad2(n)) == n
  {
    Text.PaddedValue(n, 2);
    assert Text.Pow10(2) == 100;
    Text.DigitCountBound(n, 2);
  }

  /** A year of at most four digits padded to four places reads back as the
      year. */
  lemma Year4Value(y: nat)
    requires y <= 9999
    ensures |IsoYearText(y)| == 4
    ensures Text.AllDigits(IsoYearText(y)) && Text.DigitsValue(IsoYearText(y)) == y
  {
    Text.PaddedValue(y, 4);
    assert Text.Pow10(4) == 10000;
    Text.DigitCountBound(y, 4);
  }

  /** The three parts of a `YYYY-MM-DD` text sit at fixed places. */
  lemma DateTextParts(y: string, m: string, dd: string)
    requires |y| == 4 && |m| == 2 && |dd| == 2
    ensures var s := y + "-" + m + "-" + dd;
            |s| == 10 && s[4] == '-' && s[7] == '-' && s[..4] == y && s[5..7] == m && s[8..] == dd
  {
    var s := y + "-" + m + "-" + dd;
    assert s[..4] == y;
    assert s[5..7] == m;
    assert s[8..] == dd;
  }

  /** The text written for a date between years 0 and 9999 reads back as
      that same date: writing a transaction's date loses nothing. */
  lemma IsoDateRoundTrip(d: CalendarDate)
    requires 0 <= d.year <= 9999
    ensures ReadIsoDate(IsoDateText(d)) == Some(d)
  {
    Year4Value(d.year);
    Pad2Value(d.month);
    Pad2Value(d.day);
    DateTextParts(IsoYearText(d.year), Pad2(d.month), Pad2(d.day));
  }
}
