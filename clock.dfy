/**
 * Wall-clock time as the agent sees it. A `datetime` is naive local time with
 * microsecond resolution; here it is an integer count of microseconds, so a
 * calendar day is a block of `DayLength` consecutive instants and the date of
 * an instant is the number of its block.
 */
module Clock {

  const MicrosPerSecond: int := 1_000_000
  const DayLength: int := 86_400 * MicrosPerSecond

  /** The calendar day an instant falls on (`datetime.date()`). */
  function Day(t: int): int
  {
    t / DayLength
  }

  /** How far into its day an instant lies (`datetime.time()`). */
  function TimeOfDay(t: int): (tod: int)
    ensures 0 <= tod < DayLength
  {
    t % DayLength
  }

  /**
   * The instant on day `day` at time of day `tod`: what `replace(year=…,
   * month=…, day=…)` produces from a time of day and a date.
   */
  function At(day: int, tod: int): (t: int)
    requires 0 <= tod < DayLength
    ensures Day(t) == day && TimeOfDay(t) == tod
  {
    day * DayLength + tod
  }

  /**
   * On one day, instants are ordered as their times of day are: what
   * comparing a freshly scheduled instant with `datetime.now()` amounts to.
   */
  lemma SameDayOrder(now: int, tod: int)
    requires 0 <= tod < DayLength
    ensures At(Day(now), tod) < now <==> tod < TimeOfDay(now)
  {
  }

  /**
   * The daily window `TIME_WINDOW_START`–`TIME_WINDOW_END`, each bound a
   * time of day. Nothing orders the two bounds: `random.uniform(a, b)`
   * accepts `a > b`, so the window is whatever lies between them.
   */
  datatype Window = Window(start: int, end: int)
  {
    /** Both bounds are times of day, as parsing "%H:%M" guarantees. */
    predicate Valid()
    {
      0 <= start < DayLength && 0 <= end < DayLength
    }

    function Low(): int
    {
      if start <= end then start else end
    }

    function High(): int
    {
      if start <= end then end else start
    }

    /** The values `random.uniform(start, end)` can draw, as times of day. */
    predicate Admits(tod: int)
    {
      Low() <= tod <= High()
    }
  }
}
