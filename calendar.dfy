/** Calendar dates as day numbers, counted as Python's `date.toordinal()`
    counts them: 1 January of year 1 is day 1 of the proleptic Gregorian
    calendar.  A `timedelta(days=k)` subtracted from a date is `k`
    subtracted from its day number. */
module Calendar {

  predicate IsLeap(y: int) {
    y % 4 == 0 && (y % 100 != 0 || y % 400 == 0)
  }

  function DaysInMonth(y: int, m: int): (n: int)
    requires 1 <= m <= 12
    ensures 28 <= n <= 31
  {
    if m == 2 then (if IsLeap(y) then 29 else 28)
    else if m == 4 || m == 6 || m == 9 || m == 11 then 30
    else 31
  }

  predicate IsDate(y: int, m: int, d: int) {
    1 <= y && 1 <= m <= 12 && 1 <= d <= DaysInMonth(y, m)
  }

  /** Days of year `y` before the first day of month `m`. */
  function DaysBeforeMonth(y: int, m: int): (n: int)
    requires 1 <= m <= 12
    ensures 0 <= n <= 31 * (m - 1)
    decreases m
  {
    if m == 1 then 0 else DaysBeforeMonth(y, m - 1) + DaysInMonth(y, m - 1)
  }

  function DaysBeforeYear(y: int): int
    requires 1 <= y
  {
    var p := y - 1;
    p * 365 + p / 4 - p / 100 + p / 400
  }

  /** `date(y, m, d).toordinal()`. */
  function Ordinal(y: int, m: int, d: int): (n: int)
    requires IsDate(y, m, d)
    ensures n >= 1
  {
    DaysBeforeYear(y) + DaysBeforeMonth(y, m) + d
  }

  /** Consecutive days of one month have consecutive day numbers. */
  lemma OrdinalNextDay(y: int, m: int, d: int)
    requires IsDate(y, m, d) && d < DaysInMonth(y, m)
    ensures Ordinal(y, m, d + 1) == Ordinal(y, m, d) + 1
  {
  }

  /** The last day of a month is followed by the first day of the next. */
  lemma OrdinalNextMonth(y: int, m: int)
    requires 1 <= y && 1 <= m < 12
    ensures Ordinal(y, m + 1, 1) == Ordinal(y, m, DaysInMonth(y, m)) + 1
  {
  }

  /** January to November have 334 days, 335 in a leap year. */
  lemma DaysBeforeDecember(y: int)
    ensures DaysBeforeMonth(y, 12) == (if IsLeap(y) then 335 else 334)
  {
    assert DaysBeforeMonth(y, 3) == (if IsLeap(y) then 60 else 59);
    assert DaysBeforeMonth(y, 6) == DaysBeforeMonth(y, 3) + 92;
    assert DaysBeforeMonth(y, 9) == DaysBeforeMonth(y, 6) + 92;
  }

  /** A year has 366 days when it is a leap year, 365 otherwise. */
  lemma YearLength(y: int)
    requires 1 <= y
    ensures DaysBeforeYear(y + 1) == DaysBeforeYear(y) + (if IsLeap(y) then 366 else 365)
  {
    assert y / 4 - (y - 1) / 4 == (if y % 4 == 0 then 1 else 0);
    assert y / 100 - (y - 1) / 100 == (if y % 100 == 0 then 1 else 0);
    assert y / 400 - (y - 1) / 400 == (if y % 400 == 0 then 1 else 0);
  }

  /** 31 December is followed by 1 January of the next year. */
  lemma OrdinalNextYear(y: int)
    requires 1 <= y
    ensures Ordinal(y + 1, 1, 1) == Ordinal(y, 12, 31) + 1
  {
    DaysBeforeDecember(y);
    YearLength(y);
  }
}
