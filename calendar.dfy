/** Whole-day arithmetic in the proleptic Gregorian calendar.

    A day is an integer: the number of days since 1 January 1970, which was a
    Thursday. Weekdays are numbered as moment.js numbers them, 0 = Sunday up to
    6 = Saturday, and a week runs from Sunday to Saturday.
 */
module Calendar {

  /** Days since 1970-01-01; negative numbers are earlier days. */
  type Day = int

  /** Day of the week, 0 = Sunday .. 6 = Saturday. */
  function Weekday(d: Day): (w: int)
    ensures 0 <= w < 7
  {
    (d + 4) % 7
  }

  /** The Sunday that opens the (Sunday-to-Saturday) week of `d`. */
  function WeekStart(d: Day): (s: Day)
    ensures Weekday(s) == 0
    ensures s <= d < s + 7
  {
    d - Weekday(d)
  }

  /** Days `d` and `e` lie in the same Sunday-to-Saturday week. */
  predicate SameWeek(d: Day, e: Day)
  {
    WeekStart(d) == WeekStart(e)
  }

  lemma {:induction false} WeekdayOfWeekOffset(s: Day, k: int)
    requires Weekday(s) == 0 && 0 <= k < 7
    ensures Weekday(s + k) == k && WeekStart(s + k) == s
  {
    var q := (s + 4) / 7;
    assert s + 4 == 7 * q;
    assert s + k + 4 == 7 * q + k;
  }

  lemma {:induction false} WeekdayShift(d: Day, n: int)
    ensures Weekday(d + 7 * n) == Weekday(d)
    ensures WeekStart(d + 7 * n) == WeekStart(d) + 7 * n
  {
    var q := (d + 4) / 7;
    var r := (d + 4) % 7;
    assert d + 7 * n + 4 == 7 * (q + n) + r;
  }

  // ---------------------------------------------------------------- years

  predicate IsLeapYear(y: int)
  {
    y % 4 == 0 && (y % 100 != 0 || y % 400 == 0)
  }

  function DaysInYear(y: int): int
  {
    if IsLeapYear(y) then 366 else 365
  }

  /** y/4 - y/100 + y/400: the leap-year count that the closed form of
      YearStart is built from (floor division, so it also works before year 1). */
  function LeapCount(y: int): int
  {
    y / 4 - y / 100 + y / 400
  }

  /** The day of 1 January of year `y`. */
  function YearStart(y: int): (d: Day)
  {
    365 * (y - 1970) + LeapCount(y - 1) - LeapCount(1969)
  }

  /** Floor division by each leap-rule divisor steps by one exactly at its multiples. */
  lemma {:induction false} DivStep4(y: int)
    ensures y / 4 - (y - 1) / 4 == if y % 4 == 0 then 1 else 0
  {
    var q, r := (y - 1) / 4, (y - 1) % 4;
    assert y - 1 == 4 * q + r;
  }

  lemma {:induction false} DivStep100(y: int)
    ensures y / 100 - (y - 1) / 100 == if y % 100 == 0 then 1 else 0
  {
    var q, r := (y - 1) / 100, (y - 1) % 100;
    assert y - 1 == 100 * q + r;
  }

  lemma {:induction false} DivStep400(y: int)
    ensures y / 400 - (y - 1) / 400 == if y % 400 == 0 then 1 else 0
  {
    var q, r := (y - 1) / 400, (y - 1) % 400;
    assert y - 1 == 400 * q + r;
  }

  lemma {:induction false} DividesDown(y: int)
    ensures y % 400 == 0 ==> y % 100 == 0
    ensures y % 100 == 0 ==> y % 4 == 0
  {
    if y % 400 == 0 {
      var q := y / 400;
      assert y == 100 * (4 * q);
    }
    if y % 100 == 0 {
      var q := y / 100;
      assert y == 4 * (25 * q);
    }
  }

  /** The closed form agrees with the Gregorian year lengths. */
  lemma {:induction false} YearStartStep(y: int)
    ensures YearStart(y + 1) == YearStart(y) + DaysInYear(y)
  {
    DivStep4(y);
    DivStep100(y);
    DivStep400(y);
    DividesDown(y);
  }

  lemma {:induction false} YearStartMonotone(a: int, b: int)
    requires a <= b
    ensures YearStart(a) + 365 * (b - a) <= YearStart(b)
    decreases b - a
  {
    if a < b {
      YearStartMonotone(a, b - 1);
      YearStartStep(b - 1);
    }
  }

  /** Every 400 years hold exactly 146097 days. */
  lemma {:induction false} YearStartEra(y: int, q: int)
    ensures YearStart(y + 400 * q) == YearStart(y) + 146097 * q
  {
    var x := y - 1;
    assert (x + 400 * q) / 4 == x / 4 + 100 * q;
    assert (x + 400 * q) / 100 == x / 100 + 4 * q;
    assert (x + 400 * q) / 400 == x / 400 + q;
  }

  /** A year has 365 or 366 days, so `k` years after 1970 start between 365 * k
      and 366 * k days after it. */
  lemma {:induction false} YearStartAfterEpoch(k: nat)
    ensures 365 * k <= YearStart(1970 + k) <= 366 * k
  {
    if k > 0 {
      YearStartAfterEpoch(k - 1);
      YearStartStep(1970 + k - 1);
    }
  }

  /** The year that day `z` falls in: whole 400-year eras from 1970, then one of
      three candidate years for the rest of the days. */
  function YearOf(z: Day): (y: int)
    ensures YearStart(y) <= z < YearStart(y + 1)
  {
    var q, r := z / 146097, z % 146097;
    var k := r / 366;
    YearStartAfterEpoch(k);
    YearStartAfterEpoch(k + 3);
    YearStartStep(1970 + k);
    YearStartStep(1971 + k);
    YearStartStep(1972 + k);
    var y := if r < YearStart(1971 + k) then 1970 + k
             else if r < YearStart(1972 + k) then 1971 + k
             else 1972 + k;
    YearStartEra(y, q);
    YearStartEra(y + 1, q);
    y + 400 * q
  }

  /** A day lies in exactly one year. */
  lemma {:induction false} YearOfUnique(z: Day, y: int)
    requires YearStart(y) <= z < YearStart(y + 1)
    ensures YearOf(z) == y
  {
    var r := YearOf(z);
    if r < y {
      YearStartMonotone(r + 1, y);
    } else if y < r {
      YearStartMonotone(y + 1, r);
    }
  }

  // ---------------------------------------------------------------- months

  /** Days of year `y` before the first of month `m` (month 13 closes the year). */
  function DaysBeforeMonth(y: int, m: int): (n: int)
    requires 1 <= m <= 13
    ensures m == 13 ==> n == DaysInYear(y)
  {
    var common :=
      if m == 1 then 0 else if m == 2 then 31 else if m == 3 then 59
      else if m == 4 then 90 else if m == 5 then 120 else if m == 6 then 151
      else if m == 7 then 181 else if m == 8 then 212 else if m == 9 then 243
      else if m == 10 then 273 else if m == 11 then 304 else if m == 12 then 334
      else 365;
    common + (if 2 < m && IsLeapYear(y) then 1 else 0)
  }

  function DaysInMonth(y: int, m: int): (n: int)
    requires 1 <= m <= 12
    ensures 28 <= n <= 31
  {
    DaysBeforeMonth(y, m + 1) - DaysBeforeMonth(y, m)
  }

  /** The month of day-of-year `doy` (0 = 1 January) in year `y`. */
  function MonthOf(y: int, doy: int): (m: int)
    requires 0 <= doy < DaysInYear(y)
    ensures 1 <= m <= 12
    ensures DaysBeforeMonth(y, m) <= doy < DaysBeforeMonth(y, m + 1)
  {
    if doy < DaysBeforeMonth(y, 2) then 1
    else if doy < DaysBeforeMonth(y, 3) then 2
    else if doy < DaysBeforeMonth(y, 4) then 3
    else if doy < DaysBeforeMonth(y, 5) then 4
    else if doy < DaysBeforeMonth(y, 6) then 5
    else if doy < DaysBeforeMonth(y, 7) then 6
    else if doy < DaysBeforeMonth(y, 8) then 7
    else if doy < DaysBeforeMonth(y, 9) then 8
    else if doy < DaysBeforeMonth(y, 10) then 9
    else if doy < DaysBeforeMonth(y, 11) then 10
    else if doy < DaysBeforeMonth(y, 12) then 11
    else 12
  }

  lemma DaysBeforeMonthIncreasing(y: int, m: int, n: int)
    requires 1 <= m < n <= 13
    ensures DaysBeforeMonth(y, m) < DaysBeforeMonth(y, n)
  {
  }

  /** A day of the year lies in exactly one month. */
  lemma {:induction false} MonthOfUnique(y: int, doy: int, m: int)
    requires 1 <= m <= 12
    requires DaysBeforeMonth(y, m) <= doy < DaysBeforeMonth(y, m + 1)
    ensures MonthOf(y, doy) == m
  {
    var r := MonthOf(y, doy);
    if r + 1 < m {
      DaysBeforeMonthIncreasing(y, r + 1, m);
    } else if m + 1 < r {
      DaysBeforeMonthIncreasing(y, m + 1, r);
    }
  }

  // ---------------------------------------------------------------- civil dates

  /** A calendar date: year, month 1..12, day of month 1..31. */
  datatype Date = Date(year: int, month: int, day: int)

  predicate ValidDate(dt: Date)
  {
    1 <= dt.month <= 12 && 1 <= dt.day <= DaysInMonth(dt.year, dt.month)
  }

  /** The day number of a calendar date. */
  function DaysFromCivil(dt: Date): (z: Day)
    requires ValidDate(dt)
    ensures YearStart(dt.year) <= z < YearStart(dt.year + 1)
  {
    YearStartStep(dt.year);
    YearStart(dt.year) + DaysBeforeMonth(dt.year, dt.month) + dt.day - 1
  }

  /** The calendar date of a day number; DaysFromCivil undoes it. */
  function CivilFromDays(z: Day): (dt: Date)
    ensures ValidDate(dt) && DaysFromCivil(dt) == z
  {
    var y := YearOf(z);
    YearStartStep(y);
    var doy := z - YearStart(y);
    var m := MonthOf(y, doy);
    Date(y, m, doy - DaysBeforeMonth(y, m) + 1)
  }

  /** CivilFromDays undoes DaysFromCivil on every valid date. */
  lemma {:induction false} CivilFromDaysOfCivil(dt: Date)
    requires ValidDate(dt)
    ensures CivilFromDays(DaysFromCivil(dt)) == dt
  {
    var z := DaysFromCivil(dt);
    YearOfUnique(z, dt.year);
    MonthOfUnique(dt.year, z - YearStart(dt.year), dt.month);
  }

  /** Distinct days have distinct calendar dates. */
  lemma CivilFromDaysInjective(a: Day, b: Day)
    ensures CivilFromDays(a) == CivilFromDays(b) <==> a == b
  {
  }
}
