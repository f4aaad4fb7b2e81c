/** Calendar dates at day granularity, their chronological order, and the
    calendar-month subtraction the dashboard uses for its rolling windows.
    Dates in the attendance file are parsed with the day/month/year format,
    so every date the dashboard handles is a valid Gregorian date. */
module Dates {

  datatype Date = Date(year: int, month: int, day: int)

  /** Gregorian leap-year rule. */
  predicate IsLeapYear(y: int) {
    y % 4 == 0 && (y % 100 != 0 || y % 400 == 0)
  }

  /** Number of days in month `m` of year `y`. */
  function DaysInMonth(y: int, m: int): (n: int)
    requires 1 <= m <= 12
    ensures 28 <= n <= 31
    ensures n == 29 <==> m == 2 && IsLeapYear(y)
    ensures n == 31 <==> m in {1, 3, 5, 7, 8, 10, 12}
    ensures n == 30 <==> m in {4, 6, 9, 11}
    ensures n == 28 <==> m == 2 && !IsLeapYear(y)
  {
    if m == 2 then (if IsLeapYear(y) then 29 else 28)
    else if m == 4 || m == 6 || m == 9 || m == 11 then 30
    else 31
  }

  predicate Valid(d: Date) {
    1 <= d.month <= 12 && 1 <= d.day <= DaysInMonth(d.year, d.month)
  }

  /** A date a parsed timestamp can denote. */
  type CalendarDate = d: Date | Valid(d) witness Date(1970, 1, 1)

  /** Chronological order of two dates at midnight: lexicographic on
      (year, month, day). */
  predicate OnOrBefore(a: Date, b: Date) {
    a.year < b.year
    || (a.year == b.year && (a.month < b.month || (a.month == b.month && a.day <= b.day)))
  }

  lemma OnOrBeforeTransitive(a: Date, b: Date, c: Date)
    requires OnOrBefore(a, b) && OnOrBefore(b, c)
    ensures OnOrBefore(a, c)
  {
  }

  /** Number of whole months since January of year 0. */
  function MonthIndex(d: Date): int {
    d.year * 12 + d.month - 1
  }

  /** For dates whose months are in range, chronological order is the order
      of their month indices, then of their days. */
  lemma OrderByMonthIndex(a: Date, b: Date)
    requires 1 <= a.month <= 12 && 1 <= b.month <= 12
    ensures OnOrBefore(a, b) <==>
              MonthIndex(a) < MonthIndex(b) || (MonthIndex(a) == MonthIndex(b) && a.day <= b.day)
    ensures MonthIndex(a) == MonthIndex(b) <==> a.year == b.year && a.month == b.month
  {
  }

  /** `d` shifted back by `n` calendar months, as a relative month offset does
      it: same day of the month, clamped to the last day of the target month
      (31 May minus 3 months is the last day of February). */
  function SubtractMonths(d: CalendarDate, n: nat): (r: CalendarDate)
    ensures MonthIndex(r) == MonthIndex(d) - n
    ensures d.day <= DaysInMonth(r.year, r.month) ==> r.day == d.day
    ensures d.day > DaysInMonth(r.year, r.month) ==> r.day == DaysInMonth(r.year, r.month)
  {
    var t := MonthIndex(d) - n;
    var y := t / 12;
    var m := t % 12 + 1;
    var last := DaysInMonth(y, m);
    Date(y, m, if d.day <= last then d.day else last)
  }

  /** Going back never moves a date forward. */
  lemma SubtractMonthsNotAfter(d: CalendarDate, n: nat)
    ensures OnOrBefore(SubtractMonths(d, n), d)
  {
    var r := SubtractMonths(d, n);
    OrderByMonthIndex(r, d);
  }

  /** Going back further gives an earlier (or the same) date. */
  lemma SubtractMonthsAntitone(d: CalendarDate, m: nat, n: nat)
    requires m <= n
    ensures OnOrBefore(SubtractMonths(d, n), SubtractMonths(d, m))
  {
    var rn, rm := SubtractMonths(d, n), SubtractMonths(d, m);
    OrderByMonthIndex(rn, rm);
  }

  /** The shift preserves chronological order. */
  lemma SubtractMonthsMonotone(a: CalendarDate, b: CalendarDate, n: nat)
    requires OnOrBefore(a, b)
    ensures OnOrBefore(SubtractMonths(a, n), SubtractMonths(b, n))
  {
    var ra, rb := SubtractMonths(a, n), SubtractMonths(b, n);
    OrderByMonthIndex(a, b);
    OrderByMonthIndex(ra, rb);
  }

  /** Day clamping at month ends and the change of year. */
  lemma SubtractMonthsExamples()
    ensures SubtractMonths(Date(2024, 5, 31), 3) == Date(2024, 2, 29)
    ensures SubtractMonths(Date(2023, 5, 31), 3) == Date(2023, 2, 28)
    ensures SubtractMonths(Date(2024, 8, 31), 6) == Date(2024, 2, 29)
    ensures SubtractMonths(Date(2024, 2, 15), 3) == Date(2023, 11, 15)
    ensures SubtractMonths(Date(2024, 3, 31), 6) == Date(2023, 9, 30)
  {
  }
}
