/** UTC instants as calendar values, compared field by field as Python compares datetimes. */
module Calendar {
  predicate LeapYear(year: int) {
    year % 4 == 0 && (year % 100 != 0 || year % 400 == 0)
  }

  function DaysIn(year: int, month: int): (days: int)
    ensures 28 <= days <= 31
  {
    if month == 2 then if LeapYear(year) then 29 else 28
    else if month in {4, 6, 9, 11} then 30
    else 31
  }

  /** `micros` counts microseconds since midnight. */
  datatype Instant = Instant(year: int, month: int, day: int, micros: int)

  type Moment = t: Instant |
    1 <= t.month <= 12 && 1 <= t.day <= DaysIn(t.year, t.month) && 0 <= t.micros < 86_400_000_000
    witness Instant(1, 1, 1, 0)

  /** `a.date() < b.date()`. */
  predicate DateBefore(a: Moment, b: Moment) {
    a.year < b.year || (a.year == b.year && (a.month < b.month || (a.month == b.month && a.day < b.day)))
  }

  /** `a < b`. */
  predicate Before(a: Moment, b: Moment) {
    DateBefore(a, b) || (SameDate(a, b) && a.micros < b.micros)
  }

  /** `now.replace(day=1, hour=0, minute=0, second=0, microsecond=0)`. */
  function MonthStart(now: Moment): Moment {
    now.(day := 1, micros := 0)
  }

  predicate SameDate(a: Moment, b: Moment) {
    a.year == b.year && a.month == b.month && a.day == b.day
  }

  predicate SameMonth(a: Moment, b: Moment) {
    a.year == b.year && a.month == b.month
  }

  /** Months, and days with 31 to every month, numbered so that the calendar order is the order of numbers. */
  function MonthNumber(t: Moment): int {
    12 * t.year + t.month
  }

  function DayNumber(t: Moment): int {
    31 * MonthNumber(t) + t.day
  }

  lemma DateOrder(a: Moment, b: Moment)
    ensures DateBefore(a, b) <==> DayNumber(a) < DayNumber(b)
    ensures SameDate(a, b) <==> DayNumber(a) == DayNumber(b)
    ensures SameMonth(a, b) <==> MonthNumber(a) == MonthNumber(b)
    ensures !Before(b, a) ==> DayNumber(a) <= DayNumber(b)
    ensures DayNumber(a) <= DayNumber(b) ==> MonthNumber(a) <= MonthNumber(b)
  {
  }

  /** An instant precedes the first instant of `now`'s month exactly when it lies in an earlier month. */
  lemma BeforeMonthStart(a: Moment, now: Moment)
    ensures Before(a, MonthStart(now)) <==> MonthNumber(a) < MonthNumber(now)
  {
  }
}
