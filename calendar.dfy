/** The part of java.time.LocalDate the loan service relies on: comparison,
    `plusMonths`, "first day of next month" and `ChronoUnit.DAYS.between`.

    A date is an absolute month index (12 * year + month-of-year - 1, so
    January of year 0 is month 0) and a day of that month. Month lengths follow
    the proleptic Gregorian calendar, as LocalDate does. */
module Calendar {

  datatype Date = Date(month: int, day: int)

  predicate IsLeapYear(year: int) {
    year % 4 == 0 && (year % 100 != 0 || year % 400 == 0)
  }

  /** Number of days of absolute month `m`. */
  function DaysInMonth(m: int): (n: int)
    ensures 28 <= n <= 31
  {
    var year, monthOfYear := m / 12, m % 12 + 1;
    if monthOfYear == 2 then (if IsLeapYear(year) then 29 else 28)
    else if monthOfYear == 4 || monthOfYear == 6 || monthOfYear == 9 || monthOfYear == 11 then 30
    else 31
  }

  /** A date LocalDate can represent: the day exists in its month. */
  predicate ValidDate(d: Date) {
    1 <= d.day <= DaysInMonth(d.month)
  }

  /** Day number of the first day of month `m`, counted from January 1st of year 0. */
  function FirstDayNumber(m: int): int
    decreases if m < 0 then -m else m
  {
    if m == 0 then 0
    else if m > 0 then FirstDayNumber(m - 1) + DaysInMonth(m - 1)
    else FirstDayNumber(m + 1) - DaysInMonth(m)
  }

  /** Day number of a date (LocalDate.toEpochDay, shifted to another origin). */
  function DayNumber(d: Date): int {
    FirstDayNumber(d.month) + d.day - 1
  }

  /** LocalDate.isBefore: chronological order, month first, then day. */
  predicate IsBefore(a: Date, b: Date) {
    a.month < b.month || (a.month == b.month && a.day < b.day)
  }

  /** LocalDate.isAfter. */
  predicate IsAfter(a: Date, b: Date) {
    IsBefore(b, a)
  }

  /** ChronoUnit.DAYS.between(a, b): signed number of days from `a` to `b`. */
  function DaysBetween(a: Date, b: Date): int {
    DayNumber(b) - DayNumber(a)
  }

  /** LocalDate.plusMonths: same day in the month `k` months on, clamped to that month's length. */
  function PlusMonths(d: Date, k: int): (r: Date)
    requires ValidDate(d)
    ensures ValidDate(r) && r.month == d.month + k
    ensures r.day == d.day || (r.day < d.day && r.day == DaysInMonth(r.month))
  {
    var m := d.month + k;
    Date(m, if d.day <= DaysInMonth(m) then d.day else DaysInMonth(m))
  }

  /** `d.plusMonths(1).withDayOfMonth(1)`: the first day of the next month. */
  function FirstOfNextMonth(d: Date): (r: Date)
    requires ValidDate(d)
    ensures ValidDate(r) && r.day == 1 && IsAfter(r, d)
    ensures forall x :: ValidDate(x) && IsAfter(x, d) && x.day == 1 ==> !IsBefore(x, r)
  {
    Date(PlusMonths(d, 1).month, 1)
  }

  /** Consecutive months are `DaysInMonth` days apart. */
  lemma FirstDayStep(m: int)
    ensures FirstDayNumber(m + 1) == FirstDayNumber(m) + DaysInMonth(m)
  {
  }

  /** A later month starts no earlier than the end of an earlier month. */
  lemma {:induction false} FirstDayMonotone(a: int, b: int)
    requires a < b
    ensures FirstDayNumber(a) + DaysInMonth(a) <= FirstDayNumber(b)
    decreases b - a
  {
    FirstDayStep(a);
    if a + 1 < b {
      FirstDayMonotone(a + 1, b);
    }
  }

  /** The sign of DAYS.between agrees with the order of the two dates. */
  lemma {:induction false} DaysBetweenSign(a: Date, b: Date)
    requires ValidDate(a) && ValidDate(b)
    ensures IsBefore(a, b) <==> DaysBetween(a, b) > 0
    ensures IsAfter(a, b) <==> DaysBetween(a, b) < 0
    ensures a == b <==> DaysBetween(a, b) == 0
  {
    if a.month < b.month {
      FirstDayMonotone(a.month, b.month);
    } else if b.month < a.month {
      FirstDayMonotone(b.month, a.month);
    }
  }
}
