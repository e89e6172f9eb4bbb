/**
 * The proleptic Gregorian calendar that `java.util.GregorianCalendar` uses to turn a day
 * count into year, month and day and back. Days are counted from 1970-01-01 (day 0); year
 * numbers are astronomical (year 0 is 1 BC).
 */
module Calendar {

  predicate IsLeapYear(y: int) {
    (y % 4 == 0 && y % 100 != 0) || y % 400 == 0
  }

  function DaysInYear(y: int): (n: nat)
    ensures n == 365 || n == 366
  {
    if IsLeapYear(y) then 366 else 365
  }

  function DaysInMonth(y: int, m: int): (n: nat)
    requires 1 <= m <= 12
    ensures 28 <= n <= 31
  {
    if m == 2 then (if IsLeapYear(y) then 29 else 28)
    else if m == 4 || m == 6 || m == 9 || m == 11 then 30
    else 31
  }

  /** The day number of January 1 of year `y`. */
  function YearStart(y: int): int
    decreases if y < 1970 then 1970 - y else y - 1970
  {
    if y == 1970 then 0
    else if y > 1970 then YearStart(y - 1) + DaysInYear(y - 1)
    else YearStart(y + 1) - DaysInYear(y)
  }

  lemma YearStep(y: int)
    ensures YearStart(y + 1) == YearStart(y) + DaysInYear(y)
  {
  }

  lemma {:induction false} YearStartMonotone(a: int, b: int)
    requires a < b
    ensures YearStart(a) < YearStart(b)
    decreases b - a
  {
    YearStep(a);
    if a + 1 < b {
      YearStartMonotone(a + 1, b);
    }
  }

  /** For years before 1970 no year is longer than 366 days. */
  lemma {:induction false} YearStartLowerBound(y: int)
    requires y <= 1970
    ensures YearStart(y) >= (y - 1970) * 366
    decreases 1970 - y
  {
    if y < 1970 {
      YearStartLowerBound(y + 1);
      YearStep(y);
    }
  }

  function YearFrom(days: int, y: int): (r: int)
    requires YearStart(y) <= days
    ensures YearStart(r) <= days < YearStart(r + 1)
    decreases days - YearStart(y)
  {
    YearStep(y);
    if days < YearStart(y + 1) then y else YearFrom(days, y + 1)
  }

  function YearBefore(days: int, y: int): (r: int)
    requires days < YearStart(y + 1)
    ensures YearStart(r) <= days < YearStart(r + 1)
    decreases YearStart(y + 1) - days
  {
    YearStep(y);
    if YearStart(y) <= days then y else YearBefore(days, y - 1)
  }

  /** The year that contains day `days`. */
  function YearOf(days: int): (y: int)
    ensures YearStart(y) <= days < YearStart(y + 1)
  {
    if 0 <= days then YearFrom(days, 1970) else YearBefore(days, 1969)
  }

  lemma YearUnique(days: int, y: int, y': int)
    requires YearStart(y) <= days < YearStart(y + 1)
    requires YearStart(y') <= days < YearStart(y' + 1)
    ensures y == y'
  {
    if y + 1 < y' + 1 && y + 1 != y' {
      YearStartMonotone(y + 1, y');
    } else if y' + 1 < y + 1 && y' + 1 != y {
      YearStartMonotone(y' + 1, y);
    }
  }

  /** Days of year `y` before the first day of month `m` (month 13 stands for the next January). */
  function MonthStart(y: int, m: int): nat
    requires 1 <= m <= 13
    decreases m
  {
    if m == 1 then 0 else MonthStart(y, m - 1) + DaysInMonth(y, m - 1)
  }

  lemma MonthStartFull(y: int)
    ensures MonthStart(y, 13) == DaysInYear(y)
  {
    assert MonthStart(y, 3) == 31 + DaysInMonth(y, 2);
    assert MonthStart(y, 7) == MonthStart(y, 3) + 31 + 30 + 31 + 30;
    assert MonthStart(y, 11) == MonthStart(y, 7) + 31 + 31 + 30 + 31;
  }

  lemma {:induction false} MonthStartMonotone(y: int, a: int, b: int)
    requires 1 <= a < b <= 13
    ensures MonthStart(y, a) < MonthStart(y, b)
    decreases b - a
  {
    if a + 1 < b {
      MonthStartMonotone(y, a + 1, b);
    }
  }

  function MonthFrom(y: int, dayOfYear: int, m: int): (r: int)
    requires 1 <= m <= 12 && MonthStart(y, m) <= dayOfYear < DaysInYear(y)
    ensures 1 <= r <= 12 && MonthStart(y, r) <= dayOfYear < MonthStart(y, r + 1)
    decreases 12 - m
  {
    MonthStartFull(y);
    if dayOfYear < MonthStart(y, m + 1) then m else MonthFrom(y, dayOfYear, m + 1)
  }

  lemma MonthUnique(y: int, dayOfYear: int, m: int, m': int)
    requires 1 <= m <= 12 && MonthStart(y, m) <= dayOfYear < MonthStart(y, m + 1)
    requires 1 <= m' <= 12 && MonthStart(y, m') <= dayOfYear < MonthStart(y, m' + 1)
    ensures m == m'
  {
    if m + 1 < m' {
      MonthStartMonotone(y, m + 1, m');
    } else if m' + 1 < m {
      MonthStartMonotone(y, m' + 1, m);
    }
  }

  datatype CivilDate = CivilDate(year: int, month: int, day: int)

  predicate ValidDate(d: CivilDate) {
    1 <= d.month <= 12 && 1 <= d.day <= DaysInMonth(d.year, d.month)
  }

  /** The day number of a date; a day outside its month counts on into the neighbouring months. */
  function DaysFromCivil(d: CivilDate): int
    requires 1 <= d.month <= 12
  {
    YearStart(d.year) + MonthStart(d.year, d.month) + d.day - 1
  }

  /** The date of day number `days`. */
  function CivilFromDays(days: int): (d: CivilDate)
    ensures ValidDate(d) && DaysFromCivil(d) == days
  {
    var y := YearOf(days);
    YearStep(y);
    var dayOfYear := days - YearStart(y);
    var m := MonthFrom(y, dayOfYear, 1);
    CivilDate(y, m, dayOfYear - MonthStart(y, m) + 1)
  }

  /** Every valid date is the date of its own day number. */
  lemma CivilOfDays(d: CivilDate)
    requires ValidDate(d)
    ensures CivilFromDays(DaysFromCivil(d)) == d
  {
    var days := DaysFromCivil(d);
    var c := CivilFromDays(days);
    MonthStartFull(d.year);
    if d.month < 12 {
      MonthStartMonotone(d.year, d.month + 1, 13);
    }
    YearStep(d.year);
    YearUnique(days, c.year, d.year);
    MonthUnique(d.year, days - YearStart(d.year), c.month, d.month);
  }

  /**
   * The day number a lenient calendar gives to a year, month and day taken from text:
   * a month outside 1..12 rolls into neighbouring years, a day outside the month into
   * neighbouring months.
   */
  function LenientDays(year: int, month: int, day: int): (n: int)
    ensures 1 <= month <= 12 ==> n == DaysFromCivil(CivilDate(year, month, day))
  {
    DaysFromCivil(CivilDate(year + (month - 1) / 12, (month - 1) % 12 + 1, day))
  }
}
