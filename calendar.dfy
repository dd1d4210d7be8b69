/** Calendar days, as the UTC components a JavaScript `Date` exposes. */
module Calendar {

  /** Full year, month counted from 1, day of the month. */
  datatype Date = Date(year: int, month: int, day: int)

  /** Gregorian leap-year rule (proleptic, as JavaScript dates use it). */
  predicate IsLeapYear(y: int) {
    y % 4 == 0 && (y % 100 != 0 || y % 400 == 0)
  }

  function DaysInMonth(y: int, m: int): (r: int)
    requires 1 <= m <= 12
    ensures 28 <= r <= 31
  {
    if m == 2 then (if IsLeapYear(y) then 29 else 28)
    else if m == 4 || m == 6 || m == 9 || m == 11 then 30
    else 31
  }

  /** A day that exists in the calendar: the month is 1..12 and the day lies in that month. */
  predicate IsCalendarDate(d: Date) {
    1 <= d.month <= 12 && 1 <= d.day <= DaysInMonth(d.year, d.month)
  }

  /** What a valid JavaScript `Date` denotes once its time of day is ignored. */
  type CalendarDate = d: Date | IsCalendarDate(d) witness Date(1970, 1, 1)

  /** Chronological order on days: by year, then month, then day. */
  predicate AtOrBefore(a: Date, b: Date) {
    a.year < b.year || (a.year == b.year && (a.month < b.month || (a.month == b.month && a.day <= b.day)))
  }
}
