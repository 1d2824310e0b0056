/** The calendar steps of the pay-date engine (src/components/calander.js), on
    whole days. moment.js date objects become `Moment` objects whose one field
    is the day; each step that changes a moment in place is a method specified
    by a pure function on day numbers, which the rest of the model reasons with.
 */
module DateMath {
  import opened Calendar

  /** A mutable moment.js date, reduced to its day. */
  class Moment {
    var day: Day

    constructor (d: Day)
      ensures day == d
    {
      day := d;
    }

    /** `m.add('day', n)` and `m.add('week', w)` (as `n = 7 * w`): moves the date
        `n` days, in place. moment swaps the deprecated reversed argument order back. */
    method Add(days: int)
      modifies this
      ensures day == old(day) + days
    {
      day := day + days;
    }

    /** `m.day(k)`: moves the date to weekday `k` of its Sunday-started week, in place. */
    method SetWeekday(k: int)
      modifies this
      ensures day == OnWeekday(k, old(day))
    {
      day := day - Weekday(day) + k;
    }

    /** `m.clone()`: a new moment on the same day. */
    method Clone() returns (c: Moment)
      ensures fresh(c) && c.day == day
    {
      c := new Moment(day);
    }
  }

  /** Weekday `k` of the Sunday-to-Saturday week of `d` (moment's `day(k)` setter);
      for k outside 0..6 it runs on into a neighbouring week, as moment does. */
  function OnWeekday(k: int, d: Day): (r: Day)
    ensures 0 <= k < 7 ==> Weekday(r) == k && SameWeek(r, d)
    ensures 0 <= k < 7 ==> d - 6 <= r <= d + 6
  {
    if 0 <= k < 7 then WeekdayOfWeekOffset(WeekStart(d), k); d - Weekday(d) + k
    else d - Weekday(d) + k
  }

  /** The day `weeks` weeks after `d`. */
  function WeeksFrom(weeks: int, d: Day): (r: Day)
    ensures Weekday(r) == Weekday(d)
    ensures WeekStart(r) == WeekStart(d) + 7 * weeks
  {
    WeekdayShift(d, weeks);
    d + 7 * weeks
  }

  /** getStartDateOfPayrollByStartYear on days: 1 January of `year`, back to the
      Sunday of its week, then one day on. Always the Monday of the week that
      holds 1 January, so between 27 December of the previous year and 2 January. */
  function StartOfPayroll(year: int): (d: Day)
    ensures Weekday(d) == 1 && Weekday(d - 1) == 0
    ensures d - 1 <= YearStart(year) < d + 6
    ensures YearStart(year) - 5 <= d <= YearStart(year) + 1
    ensures d == YearStart(year) + 1 <==> Weekday(YearStart(year)) == 0
  {
    var sunday := OnWeekday(0, YearStart(year));
    WeekdayOfWeekOffset(sunday, 1);
    sunday + 1
  }

  /** The range of StartOfPayroll as calendar dates. */
  lemma {:induction false} StartOfPayrollBetween(year: int)
    ensures DaysFromCivil(Date(year - 1, 12, 27)) <= StartOfPayroll(year)
    ensures StartOfPayroll(year) <= DaysFromCivil(Date(year, 1, 2))
  {
    YearStartStep(year - 1);
  }

  /** `getStartDateOfPayrollByStartYear(year)`: a fresh moment at the payroll start.
      The deprecated `add('day', 1)` argument order is swapped back by moment, so
      the step adds one day. */
  method GetStartDateOfPayrollByStartYear(year: int) returns (m: Moment)
    ensures fresh(m) && m.day == StartOfPayroll(year)
  {
    m := new Moment(YearStart(year));
    m.SetWeekday(0);
    m.Add(1);
  }

  /** `weeksFromDate(weeks)(date)`: moves `date` itself on by `weeks` weeks and
      returns that same object. */
  method WeeksFromDate(weeks: int, date: Moment) returns (r: Moment)
    modifies date
    ensures r == date && date.day == WeeksFrom(weeks, old(date.day))
  {
    date.Add(7 * weeks);
    r := date;
  }

  /** `addDaysToDate(k)(date)`: moves `date` itself to weekday `k` of its week and
      returns a fresh copy of it. */
  method AddDaysToDate(k: int, date: Moment) returns (r: Moment)
    modifies date
    ensures date.day == OnWeekday(k, old(date.day))
    ensures fresh(r) && r.day == date.day
  {
    date.SetWeekday(k);
    r := date.Clone();
  }

  /** The `'ddd MMM DD YYYY'` rendering of a day, as its four fields:
      day name (weekday number), month, day of month, year. */
  datatype DateKey = DateKey(weekday: int, month: int, day: int, year: int)

  /** `formatDate`: the key of a day. It names the day's weekday and a valid
      calendar date that gives the day back. */
  function FormatDate(d: Day): (k: DateKey)
    ensures k.weekday == Weekday(d)
    ensures ValidDate(Date(k.year, k.month, k.day))
    ensures DaysFromCivil(Date(k.year, k.month, k.day)) == d
  {
    var dt := CivilFromDays(d);
    DateKey(Weekday(d), dt.month, dt.day, dt.year)
  }

  /** Two days have the same key exactly when they are the same day. */
  lemma {:induction false} FormatDateInjective(a: Day, b: Day)
    ensures FormatDate(a) == FormatDate(b) <==> a == b
  {
  }

  /** The key of day `d`, which is the calendar date `dt` and falls on weekday
      `w`, is made of `w` and the date's own fields. */
  lemma {:induction false} FormatDateOfCivil(d: Day, dt: Date, w: int)
    requires ValidDate(dt) && DaysFromCivil(dt) == d && Weekday(d) == w
    ensures FormatDate(d) == DateKey(w, dt.month, dt.day, dt.year)
  {
    CivilFromDaysOfCivil(dt);
  }

  /** `isDateAfterStartDateOfYear(year)(date)` for a date held at 23:59:59 of day
      `d`: it is after midnight of 1 January of `year` exactly when its own year
      is `year` or later. */
  function IsDateAfterStartDateOfYear(year: int, d: Day): (after: bool)
    ensures after <==> year <= CivilFromDays(d).year
  {
    var y := CivilFromDays(d).year;
    if year <= y then
      YearStartMonotone(year, y);
      YearStart(year) <= d
    else
      YearStartMonotone(y + 1, year);
      YearStart(year) <= d
  }
}
