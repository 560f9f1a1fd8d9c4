/** `MonthYearFilter`: the control that steps the viewing period one month
    back or forward, switches to every transaction ('all'), and from there
    back to the current month. Months are counted from 0, as `getMonth()`
    counts them. */
module MonthYearFilter {
  import opened Wrappers
  import opened Ledger

  const MonthLabels: seq<string> := ["Jan", "Feb", "Mar", "Apr", "May", "Jun", "Jul", "Aug", "Sep", "Oct", "Nov", "Dec"]

  /** The number of months from January of year 0 to the month, the
      reference the two steps are measured against. */
  function Serial(month: int, year: int): int {
    12 * year + month
  }

  /** `goToPrevMonth`. */
  function PrevMonth(month: int, year: int): (p: FilterPeriod)
    ensures p.MonthOf?
    ensures 0 <= month <= 11 ==> 0 <= p.month <= 11 && Serial(p.month, p.year) == Serial(month, year) - 1
  {
    var newMonth := month - 1;
    if newMonth < 0 then MonthOf(11, year - 1) else MonthOf(newMonth, year)
  }

  /** `goToNextMonth`. */
  function NextMonth(month: int, year: int): (p: FilterPeriod)
    ensures p.MonthOf?
    ensures 0 <= month <= 11 ==> 0 <= p.month <= 11 && Serial(p.month, p.year) == Serial(month, year) + 1
  {
    var newMonth := month + 1;
    if newMonth > 11 then MonthOf(0, year + 1) else MonthOf(newMonth, year)
  }

  /** The buttons the control shows: only "All Time" while every
      transaction is viewed; otherwise the two arrows and the period label. */
  datatype Control = AllTimeButton | PrevArrow | NextArrow | PeriodLabel

  predicate Shown(period: FilterPeriod, c: Control) {
    if period.AllTime? then c == AllTimeButton else c != AllTimeButton
  }

  /** The period `onFilterChange` receives when the control `c` is clicked,
      with `today` standing for `new Date()`; `None` when `c` is not shown. */
  function Click(period: FilterPeriod, c: Control, today: CalendarDate): (r: Option<FilterPeriod>)
    ensures r.Some? <==> Shown(period, c)
  {
    match period
    case AllTime =>
      if c == AllTimeButton then Some(MonthOf(today.MonthIndex(), today.year)) else None
    case MonthOf(month, year) =>
      match c
      case PrevArrow => Some(PrevMonth(month, year))
      case NextArrow => Some(NextMonth(month, year))
      case PeriodLabel => Some(AllTime)
      case AllTimeButton => None
  }

  /** Next month is the following month of the same year, except from
      December, which goes to January of the next year. */
  lemma NextMonthCases(month: int, year: int)
    requires 0 <= month <= 11
    ensures month < 11 ==> NextMonth(month, year) == MonthOf(month + 1, year)
    ensures month == 11 ==> NextMonth(month, year) == MonthOf(0, year + 1)
  {
  }

  /** Previous month is the preceding month of the same year, except from
      January, which goes to December of the year before. */
  lemma PrevMonthCases(month: int, year: int)
    requires 0 <= month <= 11
    ensures month > 0 ==> PrevMonth(month, year) == MonthOf(month - 1, year)
    ensures month == 0 ==> PrevMonth(month, year) == MonthOf(11, year - 1)
  {
  }

  /** A month and year are fixed by their serial number. */
  lemma SerialInjective(m1: int, y1: int, m2: int, y2: int)
    requires 0 <= m1 <= 11 && 0 <= m2 <= 11
    requires Serial(m1, y1) == Serial(m2, y2)
    ensures m1 == m2 && y1 == y2
  {
    assert 12 * (y1 - y2) == m2 - m1;
  }

  /** The two steps undo each other. */
  lemma StepsAreInverse(month: int, year: int)
    requires 0 <= month <= 11
    ensures var n := NextMonth(month, year); PrevMonth(n.month, n.year) == MonthOf(month, year)
    ensures var p := PrevMonth(month, year); NextMonth(p.month, p.year) == MonthOf(month, year)
  {
    var n := NextMonth(month, year);
    var back := PrevMonth(n.month, n.year);
    SerialInjective(back.month, back.year, month, year);
    var p := PrevMonth(month, year);
    var fwd := NextMonth(p.month, p.year);
    SerialInjective(fwd.month, fwd.year, month, year);
  }

  /** `k` clicks on the forward arrow. */
  function Forward(month: int, year: int, k: nat): (p: FilterPeriod)
    ensures p.MonthOf?
    decreases k
  {
    if k == 0 then MonthOf(month, year)
    else var n := Forward(month, year, k - 1); NextMonth(n.month, n.year)
  }

  /** Twelve forward clicks from any month reach the same month a year
      later; in general `k` clicks move the period `k` months on. */
  lemma {:induction false} ForwardMoves(month: int, year: int, k: nat)
    requires 0 <= month <= 11
    ensures var p := Forward(month, year, k); 0 <= p.month <= 11 && Serial(p.month, p.year) == Serial(month, year) + k
    ensures k == 12 ==> Forward(month, year, k) == MonthOf(month, year + 1)
    decreases k
  {
    if k > 0 {
      ForwardMoves(month, year, k - 1);
    }
    if k == 12 {
      var p := Forward(month, year, k);
      SerialInjective(p.month, p.year, month, year + 1);
    }
  }

  /** The year moves only when the step wraps around. */
  lemma YearChangesOnlyOnWrap(month: int, year: int)
    requires 0 <= month <= 11
    ensures NextMonth(month, year).year != year <==> month == 11
    ensures PrevMonth(month, year).year != year <==> month == 0
  {
  }

  /** Clicking the period label switches to every transaction, and from
      there the one button returns to the current month. */
  lemma AllTimeRoundTrip(month: int, year: int, today: CalendarDate)
    ensures Click(MonthOf(month, year), PeriodLabel, today) == Some(AllTime)
    ensures Click(AllTime, AllTimeButton, today) == Some(MonthOf(today.month - 1, today.year))
    ensures forall c :: Click(AllTime, c, today).Some? ==> c == AllTimeButton
  {
  }
}
