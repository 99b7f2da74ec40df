/**
 * Whole-day arithmetic in the proleptic Gregorian calendar, as Python's `datetime`
 * does it: a date is valid for years 1..9999, and subtracting two dates counts the
 * days between their ordinals (day 1 is 0001-01-01).
 */
module Calendar {
  import opened Outcomes

  const MinYear := 1
  const MaxYear := 9999

  /** First date of the weather grid; its day offset is 0. */
  const EpochYear := 2012
  const EpochMonth := 1
  const EpochDay := 1

  predicate IsLeap(y: int)
  {
    y % 4 == 0 && (y % 100 != 0 || y % 400 == 0)
  }

  function DaysInMonth(y: int, m: int): (n: int)
    requires 1 <= m <= 12
    ensures 28 <= n <= 31
    ensures n == 29 <==> m == 2 && IsLeap(y)
  {
    if m == 2 then (if IsLeap(y) then 29 else 28)
    else if m == 4 || m == 6 || m == 9 || m == 11 then 30
    else 31
  }

  function DaysInYear(y: int): int
  {
    if IsLeap(y) then 366 else 365
  }

  /** The dates `datetime(y, m, d)` accepts; every other triple raises ValueError. */
  predicate ValidDate(y: int, m: int, d: int)
  {
    MinYear <= y <= MaxYear && 1 <= m <= 12 && 1 <= d <= DaysInMonth(y, m)
  }

  /** Number of days in the years before `y`. */
  function DaysBeforeYear(y: int): int
    requires y >= 1
  {
    var p := y - 1;
    p * 365 + p / 4 - p / 100 + p / 400
  }

  /** Number of days in the months of year `y` before month `m`. */
  function DaysBeforeMonth(y: int, m: int): int
    requires 1 <= m <= 12
  {
    var before := [0, 31, 59, 90, 120, 151, 181, 212, 243, 273, 304, 334];
    before[m - 1] + (if m > 2 && IsLeap(y) then 1 else 0)
  }

  /** Proleptic Gregorian ordinal of a valid date; 0001-01-01 is day 1. */
  function Ordinal(y: int, m: int, d: int): int
    requires ValidDate(y, m, d)
  {
    DaysBeforeYear(y) + DaysBeforeMonth(y, m) + d
  }

  /**
   * `(datetime(y, m, d) - datetime(2012, 1, 1)).days`: the whole days from the grid
   * epoch to the date, or a fault when `datetime` refuses the date.
   */
  function DaysFromEpoch(y: int, m: int, d: int): (r: Result<int>)
    ensures r.Err? <==> !ValidDate(y, m, d)
    ensures r.Err? ==> r.fault == InvalidDate
  {
    if ValidDate(y, m, d) then Ok(Ordinal(y, m, d) - Ordinal(EpochYear, EpochMonth, EpochDay))
    else Err(InvalidDate)
  }

  /** The calendar day after a valid date (the last representable date has none). */
  function NextDay(y: int, m: int, d: int): (int, int, int)
    requires ValidDate(y, m, d)
  {
    if d < DaysInMonth(y, m) then (y, m, d + 1)
    else if m < 12 then (y, m + 1, 1)
    else (y + 1, 1, 1)
  }

  /** Strict lexicographic order of (year, month, day). */
  predicate DateBefore(y1: int, m1: int, d1: int, y2: int, m2: int, d2: int)
  {
    y1 < y2 || (y1 == y2 && (m1 < m2 || (m1 == m2 && d1 < d2)))
  }

  lemma DaysBeforeYearStep(y: int)
    requires y >= 1
    ensures DaysBeforeYear(y + 1) == DaysBeforeYear(y) + DaysInYear(y)
  {
    assert y / 4 == (y - 1) / 4 + (if y % 4 == 0 then 1 else 0);
    assert y / 100 == (y - 1) / 100 + (if y % 100 == 0 then 1 else 0);
    assert y / 400 == (y - 1) / 400 + (if y % 400 == 0 then 1 else 0);
  }

  lemma DaysBeforeMonthStep(y: int, m: int)
    requires 1 <= m < 12
    ensures DaysBeforeMonth(y, m + 1) == DaysBeforeMonth(y, m) + DaysInMonth(y, m)
  {
  }

  /** The epoch itself is day 0 of the grid, the first time step. */
  lemma EpochIsDayZero()
    ensures DaysFromEpoch(EpochYear, EpochMonth, EpochDay) == Ok(0)
  {
  }

  /** The next calendar day is exactly one more day from the epoch. */
  lemma NextDayCountsOne(y: int, m: int, d: int)
    requires ValidDate(y, m, d) && !(y == MaxYear && m == 12 && d == 31)
    ensures var (y', m', d') := NextDay(y, m, d);
      ValidDate(y', m', d') &&
      DaysFromEpoch(y', m', d') == Ok(DaysFromEpoch(y, m, d).value + 1)
  {
    if d == DaysInMonth(y, m) {
      if m < 12 {
        DaysBeforeMonthStep(y, m);
      } else {
        DaysBeforeYearStep(y);
      }
    }
  }

  /** A valid date's ordinal lies within its own year. */
  lemma OrdinalWithinYear(y: int, m: int, d: int)
    requires ValidDate(y, m, d)
    ensures DaysBeforeYear(y) < Ordinal(y, m, d) <= DaysBeforeYear(y) + DaysInYear(y)
  {
    MonthEndBound(y, m, 12);
    DaysBeforeMonthStep(y, 11);
  }

  /** A month ends no later than any later month begins. */
  lemma {:induction false} MonthEndBound(y: int, m1: int, m2: int)
    requires 1 <= m1 <= m2 <= 12
    ensures DaysBeforeMonth(y, m1) <= DaysBeforeMonth(y, m2)
    ensures m1 < m2 ==> DaysBeforeMonth(y, m1) + DaysInMonth(y, m1) <= DaysBeforeMonth(y, m2)
  {
    if m1 < m2 {
      MonthEndBound(y, m1, m2 - 1);
      DaysBeforeMonthStep(y, m2 - 1);
    }
  }

  /** A year ends no later than any later year begins. */
  lemma {:induction false} YearEndBound(y1: int, y2: int)
    requires 1 <= y1 < y2
    ensures DaysBeforeYear(y1) + DaysInYear(y1) <= DaysBeforeYear(y2)
    decreases y2 - y1
  {
    DaysBeforeYearStep(y1);
    if y1 + 1 < y2 {
      YearEndBound(y1 + 1, y2);
    }
  }

  /**
   * The day offset is strictly increasing in calendar order, and calendar order is
   * recovered from it: for valid dates, one comes first exactly when its offset is smaller.
   */
  lemma DaysFromEpochMonotone(y1: int, m1: int, d1: int, y2: int, m2: int, d2: int)
    requires ValidDate(y1, m1, d1) && ValidDate(y2, m2, d2)
    ensures DateBefore(y1, m1, d1, y2, m2, d2) <==>
      DaysFromEpoch(y1, m1, d1).value < DaysFromEpoch(y2, m2, d2).value
  {
    if DateBefore(y1, m1, d1, y2, m2, d2) {
      OrdinalBefore(y1, m1, d1, y2, m2, d2);
    } else if DateBefore(y2, m2, d2, y1, m1, d1) {
      OrdinalBefore(y2, m2, d2, y1, m1, d1);
    }
  }

  lemma OrdinalBefore(y1: int, m1: int, d1: int, y2: int, m2: int, d2: int)
    requires ValidDate(y1, m1, d1) && ValidDate(y2, m2, d2)
    requires DateBefore(y1, m1, d1, y2, m2, d2)
    ensures Ordinal(y1, m1, d1) < Ordinal(y2, m2, d2)
  {
    if y1 < y2 {
      OrdinalWithinYear(y1, m1, d1);
      OrdinalWithinYear(y2, m2, d2);
      YearEndBound(y1, y2);
    } else if m1 < m2 {
      MonthEndBound(y1, m1, m2);
    }
  }
}
