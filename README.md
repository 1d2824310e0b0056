# Biweekly pay-date engine

A Dafny model of the pay-date engine in `src/components/calander.js`. The engine
computes every other Thursday from the first pay day of 2019 up to 2030. It keeps
that list in a memoised cache. A calendar widget asks it whether a date is a pay
day, and it marks a pay day shown in the month view with `*`.

Dates are whole days: integers counting from 1 January 1970, a Thursday, in the
proleptic Gregorian calendar. The weekday of day `d` is `(d + 4) % 7`, with
0 = Sunday, as in moment.js. Four modules follow the engine's parts:

- `Calendar` holds the civil-calendar arithmetic moment.js does for the engine. It
  has year starts, weekdays, Sunday-started weeks and the day-number ↔
  (year, month, day) conversion, proved to be inverse to each other.
- `DateMath` holds the moment steps. A mutable moment is a `Moment` object whose
  field is its day. `getStartDateOfPayrollByStartYear`, `weeksFromDate` and
  `addDaysToDate` are methods that change it in place, as the source does. Each is
  specified by a pure function on days (`StartOfPayroll`, `WeeksFrom`,
  `OnWeekday`). The `'ddd MMM DD YYYY'` key is the `DateKey` tuple
  (weekday, month, day of month, year).
- `PayDates` holds the options record, `firstPayDayOfYear`, `nextPayDay` and the
  generator. `PaySchedule` is the reference definition of the list as days. The
  generator `AllPayDates` runs the source's recursion as a loop, is proved to
  produce exactly the formatted `PaySchedule`, and is pinned to the configured
  constants by worked values.
- `PayDayQuery` holds `indexOf`, `arrContainsElement`, and the module's state as
  a `PayCalendar` object. The object has the memo cache and the list read back
  through the lens. Its constructor is the module load. `isPayDay` and
  `markPayDate` are functions on it.

The generator follows the code on two points:

- The loop tests the previous date against 1 January of `maxYear` before it
  appends the next one. So the list ends with the first pay date on or after
  1 January 2030 (Thursday 3 January 2030), not with the last one before it.
  Every earlier entry is before 2030.
- The first test runs on the clock reading at module load (`moment([])` is "now").
  A module loaded on or after 1 January 2030 would hold an empty list. The model
  keeps the clock as a parameter, and the query results say "loaded before 2030".

The code does not validate its configuration, so the model has no configuration
errors.

## Model

| member | source | states |
|---|---|---|
| `Calendar.CivilFromDays` | src/components/calander.js:94 | the year, month and day a date is formatted with form a valid calendar date that gives the day back |
| `Calendar.CivilFromDaysOfCivil` | src/components/calander.js:94 | converting a valid calendar date to a day and back returns the same date |
| `Calendar.CivilFromDaysInjective` | src/components/calander.js:94 | two days have the same calendar date exactly when they are the same day |
| `DateMath.Moment.constructor` | src/components/calander.js:24-26 | a new moment stands on the given day |
| `DateMath.Moment.Add` | src/components/calander.js:41 | `add` moves the moment itself by the given number of days |
| `DateMath.Moment.SetWeekday` | src/components/calander.js:53 | `day(k)` moves the moment itself to weekday k of its Sunday-started week |
| `DateMath.Moment.Clone` | src/components/calander.js:53 | `clone` gives a fresh moment on the same day |
| `DateMath.OnWeekday` | src/components/calander.js:52-54 | for k in 0..6 the result falls on weekday k, in the same Sunday-to-Saturday week as the input, at most six days either way |
| `DateMath.WeeksFrom` | src/components/calander.js:40-43 | moving n weeks keeps the weekday and moves the week's Sunday by exactly 7·n days |
| `DateMath.StartOfPayroll` | src/components/calander.js:22-32 | the payroll start is a Monday following a Sunday, is the Monday of the week holding 1 January, and is 2 January exactly when 1 January is a Sunday |
| `DateMath.StartOfPayrollBetween` | src/components/calander.js:22-32 | the payroll start lies between 27 December of the previous year and 2 January |
| `DateMath.GetStartDateOfPayrollByStartYear` | src/components/calander.js:22-32 | returns a fresh moment on the payroll start of the year |
| `DateMath.WeeksFromDate` | src/components/calander.js:40-43 | moves the given moment itself n weeks on and returns that same object |
| `DateMath.AddDaysToDate` | src/components/calander.js:52-54 | moves the given moment itself to weekday k of its week and returns a fresh copy on that day |
| `DateMath.FormatDate` | src/components/calander.js:94 | `formatDate`: the key names the day's weekday and a valid calendar date that converts back to the day |
| `DateMath.FormatDateInjective` | src/components/calander.js:94 | two days have the same key exactly when they are the same day |
| `DateMath.FormatDateOfCivil` | src/components/calander.js:94 | the key of the day of a calendar date is made of that date's fields and its weekday |
| `DateMath.IsDateAfterStartDateOfYear` | src/components/calander.js:85-87 | a date is after the start of a year exactly when its own year is that year or later |
| `PayDates.FirstPayDay` | src/components/calander.js:61-71 | the first pay day is 13 + payDay days after the payroll start (17 for Thursday) and falls on the pay weekday |
| `PayDates.FirstPayDayOfYear` | src/components/calander.js:61-71 | the composed moment steps return a fresh moment on the first pay day |
| `PayDates.NextPayDay` | src/components/calander.js:76 | moves the previous pay date itself exactly 14 days on and returns it; the weekday is unchanged |
| `PayDates.IsMaxPayrollYearReached` | src/components/calander.js:99 | a date has reached the max payroll year exactly when its own year is maxYear or later |
| `PayDates.PayDayCount` | src/components/calander.js:110-114 | the number of entries is the least n ≥ 1 whose last entry is on or after the bound |
| `PayDates.PaySchedule` | src/components/calander.js:108-118 | the list starts with the first pay day, steps by 14 days, has every entry but the last before 1 January of maxYear and the last on or after it |
| `PayDates.PayScheduleShape` | src/components/calander.js:108-114 | the list is strictly increasing, entries j − i places apart are 14·(j − i) days apart, and every entry falls on the pay weekday |
| `PayDates.PayScheduleMember` | src/components/calander.js:108-118 | a day is a pay date exactly when it lies between the first and last entries and a whole number of fortnights after the first |
| `PayDates.Formatted` | src/components/calander.js:94 | the keys of a list of days have its length, and entry i is the key of day i |
| `PayDates.PayDateKeys` | src/components/calander.js:108-118 | the list `allPayDates` returns at load is empty exactly when the clock's year is maxYear or later; otherwise entry i is the key of schedule entry i |
| `PayDates.FormattedMember` | src/components/calander.js:114 | a day's key is among the keys of a list of days exactly when the day is in the list |
| `PayDates.PayDateKeysMember` | src/components/calander.js:108-118 | a day's key is in the generated list exactly when the clock was before maxYear at load and the day is in the schedule |
| `PayDates.AllPayDates` | src/components/calander.js:108-118 | the generator returns the formatted schedule, or the empty list when the clock already reads maxYear or later |
| `PayDates.ScheduleExtend` | src/components/calander.js:110-114 | one round of the generator extends a prefix of the schedule by its next entry |
| `PayDates.ScheduleComplete` | src/components/calander.js:110-117 | when the loop guard fails, the entries produced are the whole schedule |
| `PayDates.PayrollDays2019` | src/components/calander.js:10-71 | for 2019 the payroll start is Monday 31 December 2018 and the first pay day 17 January 2019 |
| `PayDates.FirstPayDay2019` | src/components/calander.js:66-71 | the first default pay date is "Thu Jan 17 2019" |
| `PayDates.PayrollDays2021` | src/components/calander.js:22-71 | for 2021 the payroll start is Monday 28 December 2020 and the first pay day 14 January 2021 |
| `PayDates.FirstPayDay2021` | src/components/calander.js:66-71 | started in 2021 the first pay date is "Thu Jan 14 2021" |
| `PayDates.DefaultScheduleDays` | src/components/calander.js:10-15 | with the default options (`DefaultOptions`: 2019 to 2030, paid on Thursday 4) the list has 287 entries; the last two are 20 December 2029 and 3 January 2030 |
| `PayDates.DefaultLastBefore2030` | src/components/calander.js:110-114 | the last default entry before 2030 is "Thu Dec 20 2029" |
| `PayDates.DefaultLastEntry` | src/components/calander.js:110-114 | the default list ends with "Thu Jan 03 2030", the first pay date on or after 1 January 2030 |
| `PayDayQuery.IndexFrom` | src/components/calander.js:129 | the search from k returns the first index at or after k holding the element, or −1 exactly when there is none |
| `PayDayQuery.IndexOf` | src/components/calander.js:129 | `indexOf` returns the first index holding the element, or −1 exactly when it is absent |
| `PayDayQuery.ArrContainsElement` | src/components/calander.js:128-130 | true exactly when the element is in the array |
| `PayDayQuery.PayCalendar.constructor` | src/components/calander.js:140-145 | loading the module fills the cache once and reads back exactly the generated list |
| `PayDayQuery.PayCalendar.MemoizedPayDates` | src/components/calander.js:120 | the first call computes and stores the list; a later call returns the stored list unchanged and computes nothing |
| `PayDayQuery.PayCalendar.CalculatePayDates` | src/components/calander.js:140 | the lens returns the options with `payDates` replaced by the memoised list and every other field unchanged |
| `PayDayQuery.PayCalendar.IsPayDay` | src/components/calander.js:157-159 | a date is a pay day exactly when the module was loaded before maxYear and the date is in the schedule |
| `PayDayQuery.PayCalendar.MarkPayDate` | src/components/calander.js:166-170 | the marker is "*" exactly when the date is a pay day and the view is "month"; otherwise there is none |
| `PayDayQuery.DefaultPayDays` | src/components/calander.js:150-159 | with the default options, 17 January 2019 is a pay day and 24 January 2019 is not |
| `PayDayQuery.Schedule2021` | src/components/calander.js:108-118 | a schedule from 2021 to 2030 holds 14 and 28 January 2021 but not 21 January |
| `PayDayQuery.PayDays2021` | src/components/calander.js:157-159 | started in 2021, 14 and 28 January 2021 are pay days |
| `PayDayQuery.NotPayDay2021` | src/components/calander.js:157-159 | started in 2021, 21 January 2021 is not a pay day |

## Left out

- Time of day: `hour`, `minute` and `second` (src/components/calander.js:28, 42) are not modelled. Every pay date stands at 23:59:59 of its day. So "after the start of maxYear" is "on or after 1 January of maxYear", and days are whole integers.
- Local time zones and daylight-saving shifts are not modelled. Every step has its whole-day effect.
- `add('day', 1)` (src/components/calander.js:27) and `add('week', weeks)` (src/components/calander.js:41) pass their arguments in the deprecated reversed order. moment swaps them back, so the model adds one day and `7 * weeks` days.
- The years are the strings `'2019'` and `'2030'` in the source. The model uses integers, since moment reads those strings as those years.
- The clock: `moment()` and `moment([])` read the current time. The clock reading at module load is a parameter (`now`, `clock`). The current year set by `moment().year(year)` is overwritten at once, so it plays no part.
- `IsPayDay` takes a day number. Turning the widget's date value into a moment (`moment(date)`) does not apply, because the value is already a date.
- The key's text: day and month names, and two-digit zero padding of the day, are not modelled. The key is the tuple (weekday, month, day of month, year). It determines the text and the text determines it.
- Ramda machinery: `R.compose`, `R.identity`, `R.lensProp`, `R.over`, `R.view`, and the string key of `R.memoizeWith`. The lens is a record update, and the cache is a field holding an optional list.
- `PayCalendar.IsPayDay` and `PayCalendar.MarkPayDate` read the list the object holds and do not call the cache again. The source also reads the list once, at module load.
- The React `Calendar` tile wiring (src/components/calander.js:172-181) and the page `src/pages/index.js` are presentation, with no logic.
