/**
 * Calendar dates and naive date-times, as the two scripts use them.
 *
 * A date is its day number in the proleptic Gregorian calendar, counted from
 * 1970-01-01 (day 0); Python's `date` arithmetic (`date - timedelta(days=n)`)
 * is arithmetic on this number. A date-time is a wall-clock instant in
 * seconds from 1970-01-01T00:00, so that its date component (`.date()`) is
 * the floor of the seconds divided by the length of a day.
 */
module Calendar {

  const SecondsPerDay: int := 86400

  datatype Date = Date(epochDay: int)

  datatype DateTime = DateTime(epochSecond: int)

  /**
   * The seconds count of 00:00 on `d`. For the query windows this is the Unix
   * timestamp of midnight UTC; for a parsed date-time it is midnight on the
   * wall clock, since those counts are naive.
   */
  function Midnight(d: Date): int
  {
    d.epochDay * SecondsPerDay
  }

  /** The calendar-date component of a date-time, `dt.date()`. */
  function DateOf(dt: DateTime): (d: Date)
    ensures Midnight(d) <= dt.epochSecond < Midnight(d) + SecondsPerDay
  {
    Date(dt.epochSecond / SecondsPerDay)
  }

  /** `d - timedelta(days=n)`. */
  function DaysBefore(d: Date, n: int): (r: Date)
    ensures r.epochDay + n == d.epochDay
  {
    Date(d.epochDay - n)
  }

  /**
   * Moving an instant back by whole days moves its date back by as many
   * days: `(now - timedelta(days=n)).date()` is `now.date() - timedelta(days=n)`.
   */
  lemma ShiftThenDate(t: int, n: int)
    ensures DateOf(DateTime(t - n * SecondsPerDay)) == DaysBefore(DateOf(DateTime(t)), n)
  {
    var d := DateOf(DateTime(t));
    var e := DaysBefore(d, n);
    assert Midnight(e) == Midnight(d) - n * SecondsPerDay;
    SameDay(DateOf(DateTime(t - n * SecondsPerDay)), e, t - n * SecondsPerDay);
  }

  /** The query window of one UTC day: the `after` and `before` timestamps. */
  datatype Window = Window(after: int, before: int)

  /**
   * `after` is `int(start_of_day.timestamp())` for midnight UTC of `d` and
   * `before` is the same one day later. The window lasts exactly one day and
   * holds exactly the instants whose UTC date is `d`.
   */
  function DayWindow(d: Date): (w: Window)
    ensures w.after == Midnight(d)
    ensures w.before - w.after == SecondsPerDay
    ensures forall t :: w.after <= t < w.before <==> DateOf(DateTime(t)) == d
  {
    var start := Midnight(d);
    DayHoldsItsInstants(d);
    Window(start, start + SecondsPerDay)
  }

  lemma DayHoldsItsInstants(d: Date)
    ensures forall t :: Midnight(d) <= t < Midnight(d) + SecondsPerDay <==> DateOf(DateTime(t)) == d
  {
    forall t | Midnight(d) <= t < Midnight(d) + SecondsPerDay
      ensures DateOf(DateTime(t)) == d
    {
      SameDay(d, DateOf(DateTime(t)), t);
    }
  }

  /** Two dates whose one-day spans share an instant are the same date. */
  lemma SameDay(d: Date, e: Date, t: int)
    requires Midnight(d) <= t < Midnight(d) + SecondsPerDay
    requires Midnight(e) <= t < Midnight(e) + SecondsPerDay
    ensures d == e
  {
    if d.epochDay < e.epochDay {
      MidnightMonotone(d.epochDay + 1, e.epochDay);
    } else if e.epochDay < d.epochDay {
      MidnightMonotone(e.epochDay + 1, d.epochDay);
    }
  }

  lemma MidnightMonotone(a: int, b: int)
    requires a <= b
    ensures a * SecondsPerDay <= b * SecondsPerDay
  {
  }

  /** Consecutive days have abutting windows: no gap and no overlap. */
  lemma WindowsAbut(d: Date)
    ensures DayWindow(DaysBefore(d, 1)).before == DayWindow(d).after
  {
  }
}
