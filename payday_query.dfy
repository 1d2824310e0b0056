/** The pay-day query (src/components/calander.js, lines 120-170): the memoised
    list, the lens that stores it in the options, the membership test and the
    calendar tile marker.

    The module's own state (the `R.memoizeWith` cache and the list read back
    through the lens when the module loads) is a `PayCalendar` object: its
    constructor is the module load, and `isPayDay`/`markPayDate` read the list
    it holds.
 */
module PayDayQuery {
  import opened Calendar
  import opened DateMath
  import opened PayDates

  datatype Option<T> = None | Some(value: T)

  /** `arr.indexOf(ele, k)`: the first index at or after `k` holding `ele`, or -1. */
  function IndexFrom<T(==)>(arr: seq<T>, ele: T, k: nat): (i: int)
    requires k <= |arr|
    ensures i == -1 || k <= i < |arr|
    ensures i == -1 <==> ele !in arr[k..]
    ensures 0 <= i ==> arr[i] == ele && ele !in arr[k..i]
    decreases |arr| - k
  {
    if k == |arr| then -1
    else if arr[k] == ele then k
    else
      var i := IndexFrom(arr, ele, k + 1);
      assert arr[k..] == [arr[k]] + arr[k + 1..];
      assert 0 <= i ==> arr[k..i] == [arr[k]] + arr[k + 1..i];
      i
  }

  /** `arr.indexOf(ele)`: the first index holding `ele`, or -1 when there is none. */
  function IndexOf<T(==)>(arr: seq<T>, ele: T): (i: int)
    ensures -1 <= i < |arr|
    ensures i == -1 <==> ele !in arr
    ensures 0 <= i ==> arr[i] == ele && ele !in arr[..i]
  {
    assert arr[0..] == arr;
    IndexFrom(arr, ele, 0)
  }

  /** `arrContainsElement(arr)(ele)`: `indexOf` is not -1. */
  function ArrContainsElement<T(==)>(arr: seq<T>, ele: T): (b: bool)
    ensures b <==> ele in arr
  {
    IndexOf(arr, ele) != -1
  }

  /** The module-level state of the pay-date engine. */
  class PayCalendar {
    /** `payrollOptions`, the configuration the module is written with. */
    const payrollOptions: PayrollOptions
    /** The `R.memoizeWith` cache of `allPayDates`: empty until the first call. */
    var memo: Option<seq<DateKey>>
    /** The clock reading at the call that filled the cache. */
    ghost var memoClock: Day
    /** `calculatedPayDates`: the list read back through the lens. */
    var calculatedPayDates: seq<DateKey>

    /** A filled cache holds what `allPayDates` produced at its clock reading. */
    ghost predicate MemoValid()
      reads this`memo, this`memoClock
    {
      memo.Some? ==> memo.value == PayDateKeys(payrollOptions, memoClock)
    }

    /** After loading: the cache is filled and the list read back is its value. */
    ghost predicate Valid()
      reads this
    {
      MemoValid() && memo == Some(calculatedPayDates)
    }

    /** Loading the module at clock reading `clock`: `calculatePayDates` applies
        the memoised generator through the lens, and `calculatedPayDates` views
        the result. */
    constructor (options: PayrollOptions, clock: Day)
      ensures payrollOptions == options && memoClock == clock && Valid()
      ensures calculatedPayDates == PayDateKeys(options, clock)
    {
      payrollOptions := options;
      memo := None;
      memoClock := clock;
      calculatedPayDates := [];
      new;
      assert MemoValid();
      var calculated := CalculatePayDates(clock);
      assert calculated.payDates == PayDateKeys(options, clock);
      calculatedPayDates := calculated.payDates;
    }

    /** `memoizedPayDates`: the first call computes `allPayDates` at the current
        clock reading and stores it; every later call returns the stored list
        without computing again, whatever the clock reads by then. */
    method MemoizedPayDates(clock: Day) returns (payDates: seq<DateKey>)
      requires MemoValid()
      modifies this`memo, this`memoClock
      ensures MemoValid() && memo == Some(payDates)
      ensures old(memo).None? ==> payDates == PayDateKeys(payrollOptions, clock) && memoClock == clock
      ensures old(memo).Some? ==> payDates == old(memo).value && memoClock == old(memoClock)
    {
      match memo
      case Some(stored) =>
        payDates := stored;
      case None =>
        payDates := AllPayDates(payrollOptions, clock);
        memo := Some(payDates);
        memoClock := clock;
    }

    /** `calculatePayDates`: a copy of the options whose `payDates` is the memoised
        list, set through the `payDates` lens. The lens
        hands the memoised function the options' own `payDates` (an empty array),
        which moment reads as the current time: the clock reading `clock`. */
    method CalculatePayDates(clock: Day) returns (options: PayrollOptions)
      requires MemoValid()
      modifies this`memo, this`memoClock
      ensures MemoValid() && memo == Some(options.payDates)
      ensures options == payrollOptions.(payDates := options.payDates)
      ensures old(memo).None? ==> options.payDates == PayDateKeys(payrollOptions, clock) && memoClock == clock
      ensures old(memo).Some? ==> options.payDates == old(memo).value && memoClock == old(memoClock)
    {
      var payDates := MemoizedPayDates(clock);
      options := payrollOptions.(payDates := payDates);
    }

    /** `isPayDay(date)`: the key of the date is in the loaded list; so a date is a
        pay day exactly when the module was loaded before `maxYear` began and the
        date is in the schedule. */
    function IsPayDay(date: Day): (b: bool)
      reads this
      requires Valid()
      ensures b <==> memoClock < YearStart(payrollOptions.maxYear) && date in PaySchedule(payrollOptions)
    {
      PayDateKeysMember(payrollOptions, memoClock, date);
      ArrContainsElement(calculatedPayDates, FormatDate(date))
    }

    /** `markPayDate({date, view})`: "*" for a pay day shown in the month view,
        nothing otherwise. */
    function MarkPayDate(date: Day, view: string): (mark: Option<string>)
      reads this
      requires Valid()
      ensures mark.Some? <==> view == "month" && memoClock < YearStart(payrollOptions.maxYear)
                              && date in PaySchedule(payrollOptions)
      ensures mark.Some? ==> mark.value == "*"
    {
      if IsPayDay(date) && view == "month" then Some("*") else None
    }
  }

  // ---------------------------------------------------------------- worked values

  /** Loaded before 2030 with the default options, 17 January 2019 is a pay day
      and 24 January 2019 is not. */
  lemma DefaultPayDays(c: PayCalendar)
    requires c.Valid() && c.payrollOptions == DefaultOptions
    requires c.memoClock < YearStart(2030)
    ensures c.IsPayDay(DaysFromCivil(Date(2019, 1, 17)))
    ensures !c.IsPayDay(DaysFromCivil(Date(2019, 1, 24)))
  {
    var o := c.payrollOptions;
    PayrollDays2019();
    DefaultScheduleDays(o);
    PayScheduleMember(o, DaysFromCivil(Date(2019, 1, 17)));
    PayScheduleMember(o, DaysFromCivil(Date(2019, 1, 24)));
  }

  /** 14, 21 and 28 January 2021 as day numbers. */
  lemma January2021Days()
    ensures DaysFromCivil(Date(2021, 1, 14)) == 18641
    ensures DaysFromCivil(Date(2021, 1, 21)) == 18648
    ensures DaysFromCivil(Date(2021, 1, 28)) == 18655
  {
    assert YearStart(2021) == 18628;
  }

  /** A schedule started in 2021 and stopped at 2030 holds 14 and 28 January
      2021 but not 21 January. */
  lemma Schedule2021(o: PayrollOptions)
    requires o.startYear == 2021 && o.maxYear == 2030 && o.payDay == 4
    ensures 18641 in PaySchedule(o) && 18648 !in PaySchedule(o) && 18655 in PaySchedule(o)
  {
    PayrollDays2021();
    January2021Days();
    assert YearStart(2030) == 21915;
    PayScheduleMember(o, 18641);
    PayScheduleMember(o, 18648);
    PayScheduleMember(o, 18655);
  }

  /** The default options with payroll starting in 2021. */
  const Options2021 := PayrollOptions(2021, 2030, [], 4)

  /** Started in 2021 and loaded before 2030, 14 and 28 January 2021 are pay days. */
  lemma PayDays2021(c: PayCalendar)
    requires c.Valid() && c.payrollOptions == Options2021
    requires c.memoClock < YearStart(2030)
    ensures c.IsPayDay(DaysFromCivil(Date(2021, 1, 14)))
    ensures c.IsPayDay(DaysFromCivil(Date(2021, 1, 28)))
  {
    January2021Days();
    Schedule2021(c.payrollOptions);
  }

  /** Under the same load, 21 January 2021, the Thursday between them, is not. */
  lemma NotPayDay2021(c: PayCalendar)
    requires c.Valid() && c.payrollOptions == Options2021
    requires c.memoClock < YearStart(2030)
    ensures !c.IsPayDay(DaysFromCivil(Date(2021, 1, 21)))
  {
    January2021Days();
    Schedule2021(c.payrollOptions);
  }
}
