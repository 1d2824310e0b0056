/** Generation of the biweekly pay dates (src/components/calander.js, lines 10-118).

    The options record, the first pay day of a year, the two-week step and the
    generator. `PaySchedule` is the reference definition of the list as day
    numbers (first pay day, then every 14 days, up to and including the first
    pay date on or after 1 January of `maxYear`); `AllPayDates` is the generator
    as the source runs it, proved to produce that list, formatted.
 */
module PayDates {
  import opened Calendar
  import opened DateMath

  /** `payrollOptions`: years as numbers, the pay-date list, the pay weekday. */
  datatype PayrollOptions = PayrollOptions(startYear: int, maxYear: int, payDates: seq<DateKey>, payDay: int)

  /** The options the source is configured with: 2019 to 2030, paid on Thursdays. */
  const DefaultOptions := PayrollOptions(2019, 2030, [], 4)

  /** `twoWeeksFromDate` is `weeksFromDate(2)`: pay dates are two weeks apart. */
  const PayIntervalWeeks := 2

  /** `firstPayDayOfYear` on days: the payroll-start Monday, two weeks on, then
      weekday `payDay` of that week; 13 + payDay days after the start, so for a
      Thursday 17 days after it. */
  function FirstPayDay(year: int, payDay: int): (d: Day)
    ensures d == StartOfPayroll(year) + 13 + payDay
    ensures 0 <= payDay < 7 ==> Weekday(d) == payDay
  {
    OnWeekday(payDay, WeeksFrom(PayIntervalWeeks, StartOfPayroll(year)))
  }

  /** `firstPayDayOfYear(year)`: composes the three moment steps; the result is a
      fresh moment (the clone made by `addDaysToDate`). */
  method FirstPayDayOfYear(year: int, payDay: int) returns (r: Moment)
    ensures fresh(r) && r.day == FirstPayDay(year, payDay)
  {
    var start := GetStartDateOfPayrollByStartYear(year);
    var twoWeeksOn := WeeksFromDate(PayIntervalWeeks, start);
    r := AddDaysToDate(payDay, twoWeeksOn);
  }

  /** `nextPayDay`: moves the previous pay date itself two weeks on and returns it;
      no re-anchoring of the weekday. */
  method NextPayDay(date: Moment) returns (r: Moment)
    modifies date
    ensures r == date && date.day == old(date.day) + 7 * PayIntervalWeeks
    ensures Weekday(date.day) == Weekday(old(date.day))
  {
    r := WeeksFromDate(PayIntervalWeeks, date);
  }

  /** `isMaxPayrollYearReached`: a date at 23:59:59 of day `d` is after the start of
      `maxYear` exactly when `d` is 1 January of `maxYear` or later. */
  function IsMaxPayrollYearReached(o: PayrollOptions, d: Day): (reached: bool)
    ensures reached <==> o.maxYear <= CivilFromDays(d).year
  {
    IsDateAfterStartDateOfYear(o.maxYear, d)
  }

  /** The number of pay dates: the smallest n >= 1 whose entry n-1 is on or after
      `bound` (so every earlier entry is before it). */
  function PayDayCount(first: Day, bound: Day): (n: nat)
    ensures 1 <= n
    ensures bound <= first + 14 * (n - 1)
    ensures 2 <= n ==> first + 14 * (n - 2) < bound
  {
    if bound <= first then 1
    else
      var q := (bound - first + 13) / 14;
      assert 14 * q <= bound - first + 13 < 14 * q + 14;
      q + 1
  }

  /** `n` days a fortnight apart, starting at `first`. */
  function Fortnights(first: Day, n: nat): (s: seq<Day>)
    ensures |s| == n && forall i :: 0 <= i < n ==> s[i] == first + 14 * i
  {
    seq(n, i => first + 14 * i)
  }

  /** A day is among `n >= 1` fortnightly days exactly when it lies between the
      first and the last and a whole number of fortnights after the first. */
  lemma {:induction false} FortnightsMember(first: Day, n: nat, d: Day)
    requires 1 <= n
    ensures d in Fortnights(first, n) <==>
              first <= d <= first + 14 * (n - 1) && (d - first) % 14 == 0
  {
    var s := Fortnights(first, n);
    if d in s {
      var i :| 0 <= i < n && s[i] == d;
      assert d - first == 14 * i;
    }
    if first <= d <= first + 14 * (n - 1) && (d - first) % 14 == 0 {
      var i := (d - first) / 14;
      assert d == first + 14 * i;
      assert s[i] == d;
    }
  }

  /** Reference definition of the pay dates as days. */
  function PaySchedule(o: PayrollOptions): (s: seq<Day>)
    ensures 1 <= |s| && s[0] == FirstPayDay(o.startYear, o.payDay)
    ensures forall i :: 0 < i < |s| ==> s[i] == s[i - 1] + 14
    ensures forall i :: 0 <= i < |s| - 1 ==> s[i] < YearStart(o.maxYear)
    ensures YearStart(o.maxYear) <= s[|s| - 1]
  {
    var first := FirstPayDay(o.startYear, o.payDay);
    Fortnights(first, PayDayCount(first, YearStart(o.maxYear)))
  }

  /** The schedule is strictly increasing, entries `j - i` places apart are
      `14 * (j - i)` days apart, and every entry falls on the pay weekday. */
  lemma {:induction false} PayScheduleShape(o: PayrollOptions)
    ensures forall i, j :: 0 <= i < j < |PaySchedule(o)| ==>
              PaySchedule(o)[i] < PaySchedule(o)[j]
              && PaySchedule(o)[j] - PaySchedule(o)[i] == 14 * (j - i)
    ensures 0 <= o.payDay < 7 ==>
              forall i :: 0 <= i < |PaySchedule(o)| ==> Weekday(PaySchedule(o)[i]) == o.payDay
  {
    var s := PaySchedule(o);
    var first := s[0];
    forall i | 0 <= i < |s|
      ensures s[i] == first + 14 * i && Weekday(s[i]) == Weekday(first)
    {
      WeekdayShift(first, 2 * i);
    }
  }

  /** A day is a pay date exactly when it lies between the first and the last
      entry and a whole number of fortnights after the first. */
  lemma {:induction false} PayScheduleMember(o: PayrollOptions, d: Day)
    ensures d in PaySchedule(o) <==>
              PaySchedule(o)[0] <= d <= PaySchedule(o)[|PaySchedule(o)| - 1]
              && (d - PaySchedule(o)[0]) % 14 == 0
  {
    var s := PaySchedule(o);
    var first := s[0];
    assert s == Fortnights(first, |s|);
    FortnightsMember(first, |s|, d);
  }

  /** The keys of a list of days, in order. */
  function Formatted(s: seq<Day>): (keys: seq<DateKey>)
    ensures |keys| == |s|
    ensures forall i :: 0 <= i < |s| ==> keys[i] == FormatDate(s[i])
  {
    if s == [] then [] else Formatted(s[..|s| - 1]) + [FormatDate(s[|s| - 1])]
  }

  /** `allPayDates` as the module runs it: the list is empty when the clock already
      reads a day on or after the start of `maxYear`, and otherwise the formatted
      schedule. */
  function PayDateKeys(o: PayrollOptions, now: Day): (keys: seq<DateKey>)
    ensures keys == [] <==> o.maxYear <= CivilFromDays(now).year
    ensures keys != [] ==> |keys| == |PaySchedule(o)|
    ensures keys != [] ==> forall i :: 0 <= i < |keys| ==> keys[i] == FormatDate(PaySchedule(o)[i])
  {
    if IsMaxPayrollYearReached(o, now) then [] else Formatted(PaySchedule(o))
  }

  /** A day's key is among the keys of a list of days exactly when the day is in
      the list, since distinct days have distinct keys. */
  lemma {:induction false} FormattedMember(s: seq<Day>, d: Day)
    ensures FormatDate(d) in Formatted(s) <==> d in s
  {
    if s != [] {
      var init, last := s[..|s| - 1], s[|s| - 1];
      assert s == init + [last];
      FormattedMember(init, d);
      FormatDateInjective(last, d);
    }
  }

  /** A day's key is in the generated list exactly when the clock at generation
      time was before `maxYear` and the day is in the schedule. */
  lemma {:induction false} PayDateKeysMember(o: PayrollOptions, now: Day, d: Day)
    ensures FormatDate(d) in PayDateKeys(o, now) <==>
              now < YearStart(o.maxYear) && d in PaySchedule(o)
  {
    FormattedMember(PaySchedule(o), d);
  }

  /** `allPayDates(date, payDates)`: the self-recursion with its accumulator, run
      as a loop. `date` starts as the clock reading `now` (the lens passes the
      empty `payDates` array, which moment reads as the current time); each round
      tests the previous date against the start of `maxYear`, then appends the
      first pay day (when the list is empty) or the previous date moved two weeks
      on. */
  method AllPayDates(o: PayrollOptions, now: Day) returns (payDates: seq<DateKey>)
    ensures payDates == PayDateKeys(o, now)
  {
    ghost var bound := YearStart(o.maxYear);
    ghost var days: seq<Day> := [];
    payDates := [];
    var date := new Moment(now);
    while !IsMaxPayrollYearReached(o, date.day)
      invariant fresh(date)
      invariant payDates == Formatted(days) && SchedulePrefix(o, days)
      invariant |days| == 0 ==> date.day == now
      invariant 0 < |days| ==> now < bound && date.day == days[|days| - 1]
      decreases if |days| == 0 then 1 else 0, bound - date.day
    {
      var dateToAdd: Moment;
      if |payDates| == 0 {
        dateToAdd := FirstPayDayOfYear(o.startYear, o.payDay);
      } else {
        dateToAdd := NextPayDay(date);
      }
      ScheduleExtend(o, days, dateToAdd.day);
      FormattedAppend(days, dateToAdd.day);
      payDates := payDates + [FormatDate(dateToAdd.day)];
      days := days + [dateToAdd.day];
      date := dateToAdd;
    }
    ScheduleComplete(o, now, days);
  }

  /** `days` is the start of the schedule. */
  ghost predicate SchedulePrefix(o: PayrollOptions, days: seq<Day>)
  {
    |days| <= |PaySchedule(o)| && days == PaySchedule(o)[..|days|]
  }

  /** One round of the generator: the first pay day on an empty list, otherwise
      the last date two weeks on, provided the last date is before `maxYear`. */
  lemma {:induction false} ScheduleExtend(o: PayrollOptions, days: seq<Day>, d: Day)
    requires SchedulePrefix(o, days)
    requires |days| == 0 ==> d == FirstPayDay(o.startYear, o.payDay)
    requires 0 < |days| ==> days[|days| - 1] < YearStart(o.maxYear) && d == days[|days| - 1] + 14
    ensures SchedulePrefix(o, days + [d])
  {
    var s := PaySchedule(o);
    assert |days| < |s|;
    assert days + [d] == s[..|days| + 1];
  }

  /** When the generator stops, the days it produced are the whole schedule (or
      none, when the clock was already past the start of `maxYear`). */
  lemma {:induction false} ScheduleComplete(o: PayrollOptions, now: Day, days: seq<Day>)
    requires SchedulePrefix(o, days)
    requires |days| == 0 ==> YearStart(o.maxYear) <= now
    requires 0 < |days| ==> now < YearStart(o.maxYear) <= days[|days| - 1]
    ensures Formatted(days) == PayDateKeys(o, now)
  {
    if 0 < |days| {
      var s := PaySchedule(o);
      assert |days| == |s|;
      assert days == s;
    }
  }

  lemma FormattedAppend(s: seq<Day>, d: Day)
    ensures Formatted(s + [d]) == Formatted(s) + [FormatDate(d)]
  {
    assert (s + [d])[..|s|] == s;
  }

  // ---------------------------------------------------------------- worked values

  /** 1 January 2019 was a Tuesday: the payroll start is Monday 31 December 2018
      and the first Thursday pay date 17 days later, 17 January 2019. */
  lemma PayrollDays2019()
    ensures StartOfPayroll(2019) == DaysFromCivil(Date(2018, 12, 31))
    ensures FirstPayDay(2019, 4) == DaysFromCivil(Date(2019, 1, 17))
  {
    assert YearStart(2019) == 17897 && Weekday(17897) == 2;
  }

  /** With the default options the first pay date is "Thu Jan 17 2019". */
  lemma FirstPayDay2019()
    ensures FormatDate(FirstPayDay(2019, 4)) == DateKey(4, 1, 17, 2019)
  {
    PayrollDays2019();
    FormatDateOfCivil(FirstPayDay(2019, 4), Date(2019, 1, 17), 4);
  }

  /** 1 January 2021 was a Friday: the payroll start is Monday 28 December 2020
      and the first Thursday pay date 14 January 2021. */
  lemma PayrollDays2021()
    ensures StartOfPayroll(2021) == DaysFromCivil(Date(2020, 12, 28))
    ensures FirstPayDay(2021, 4) == DaysFromCivil(Date(2021, 1, 14))
  {
    assert YearStart(2021) == 18628 && Weekday(18628) == 5;
  }

  /** Started in 2021 the first pay date is "Thu Jan 14 2021". */
  lemma FirstPayDay2021()
    ensures FormatDate(FirstPayDay(2021, 4)) == DateKey(4, 1, 14, 2021)
  {
    PayrollDays2021();
    FormatDateOfCivil(FirstPayDay(2021, 4), Date(2021, 1, 14), 4);
  }

  /** Entry `i` of a schedule whose first pay date and bound are known. */
  lemma {:induction false} ScheduleEntry(o: PayrollOptions, first: Day, bound: Day, i: int)
    requires FirstPayDay(o.startYear, o.payDay) == first && YearStart(o.maxYear) == bound
    requires 0 <= i < PayDayCount(first, bound)
    ensures |PaySchedule(o)| == PayDayCount(first, bound) && PaySchedule(o)[i] == first + 14 * i
  {
  }

  /** 20 December 2029 and 3 January 2030 as day numbers. */
  lemma TurnOf2030Days()
    ensures DaysFromCivil(Date(2029, 12, 20)) == 21903
    ensures DaysFromCivil(Date(2030, 1, 3)) == 21917
  {
    assert YearStart(2029) == 21550 && YearStart(2030) == 21915;
  }

  /** The default schedule (payroll from 2019 up to 2030, paid on Thursdays):
      287 days, the last two 20 December 2029 and 3 January 2030. */
  lemma DefaultScheduleDays(o: PayrollOptions)
    requires o.startYear == DefaultOptions.startYear && o.maxYear == DefaultOptions.maxYear
    requires o.payDay == DefaultOptions.payDay
    ensures |PaySchedule(o)| == 287
    ensures PaySchedule(o)[285] == 21903 == DaysFromCivil(Date(2029, 12, 20))
    ensures PaySchedule(o)[286] == 21917 == DaysFromCivil(Date(2030, 1, 3))
  {
    PayrollDays2019();
    assert DaysFromCivil(Date(2019, 1, 17)) == 17913 by {
      assert YearStart(2019) == 17897;
    }
    TurnOf2030Days();
    assert PayDayCount(17913, 21915) == 287;
    ScheduleEntry(o, 17913, 21915, 285);
    ScheduleEntry(o, 17913, 21915, 286);
  }

  /** The key of the last default pay date before 2030 is "Thu Dec 20 2029". */
  lemma DefaultLastBefore2030(o: PayrollOptions)
    requires o.startYear == DefaultOptions.startYear && o.maxYear == DefaultOptions.maxYear
    requires o.payDay == DefaultOptions.payDay
    ensures 285 < |PaySchedule(o)| && PaySchedule(o)[285] < YearStart(o.maxYear)
    ensures FormatDate(PaySchedule(o)[285]) == DateKey(4, 12, 20, 2029)
  {
    DefaultScheduleDays(o);
    FormatDateOfCivil(PaySchedule(o)[285], Date(2029, 12, 20), 4);
  }

  /** The default list runs on to "Thu Jan 03 2030", its last entry: the first pay
      date on or after 1 January 2030. */
  lemma DefaultLastEntry(o: PayrollOptions)
    requires o.startYear == DefaultOptions.startYear && o.maxYear == DefaultOptions.maxYear
    requires o.payDay == DefaultOptions.payDay
    ensures |PaySchedule(o)| == 287
    ensures FormatDate(PaySchedule(o)[286]) == DateKey(4, 1, 3, 2030)
  {
    DefaultScheduleDays(o);
    FormatDateOfCivil(PaySchedule(o)[286], Date(2030, 1, 3), 4);
  }
}
