/**
 * The local calendar as the views read it from `new Date()`: the current instant
 * and the midnights it is measured against. Timestamps are integer milliseconds;
 * a day is taken to be exactly 86400000 ms.
 */
module Calendar {

  const DayMs: int := 86400000

  /** What the views ask of `new Date()`: `now` (`Date.now()`), local midnight
      today, `getDay()` (0 = Sunday), and the local midnights starting the current
      and previous month and year. */
  datatype Clock = Clock(
    now: int,
    startOfToday: int,
    weekday: int,
    startOfMonth: int,
    startOfPrevMonth: int,
    startOfYear: int,
    startOfPrevYear: int)

  /** The relations a real calendar guarantees between those instants. */
  predicate Valid(c: Clock) {
    && 0 <= c.weekday < 7
    && c.startOfPrevYear < c.startOfYear <= c.startOfMonth <= c.startOfToday
    && c.startOfPrevMonth < c.startOfMonth
    && c.startOfToday <= c.now < c.startOfToday + DayMs
  }

  /** How many days back the Monday of this week is: `getDate() - day + (day === 0 ? -6 : 1)`
      steps back `day - 1` days, or 6 days from a Sunday. */
  function DaysSinceMonday(weekday: int): (d: int)
    requires 0 <= weekday < 7
    ensures 0 <= d < 7
    ensures (weekday - d) % 7 == 1
  {
    if weekday == 0 then 6 else weekday - 1
  }

  /** Local midnight of the Monday of the current week. */
  function StartOfWeek(c: Clock): (t: int)
    requires 0 <= c.weekday < 7
    ensures c.startOfToday - 6 * DayMs <= t <= c.startOfToday
  {
    c.startOfToday - DaysSinceMonday(c.weekday) * DayMs
  }

  /** An inclusive interval of instants, `[start, end]`. */
  datatype Window = Window(start: int, end: int)

  /** `t >= start && t <= end` */
  predicate InWindow(t: int, w: Window) {
    w.start <= t <= w.end
  }
}
