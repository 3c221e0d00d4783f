/**
 * Calendar arithmetic on integer time, standing in for pytz and datetime.
 *
 * An instant is a whole number of minutes since a UTC epoch whose day 0 is a
 * Monday; a day is a whole number of days since that epoch. Asia/Taipei is
 * modelled as the fixed offset UTC+8 it has had since 1980.
 */
module Clock {

  const MinutesPerDay: int := 1440
  const MinutesPerHour: int := 60
  /** Asia/Taipei is UTC+8. */
  const TaipeiOffset: int := 480

  /** The Taipei calendar day that contains instant t (`t.astimezone(TAIPEI).date()`). */
  function TaipeiDay(t: int): int {
    (t + TaipeiOffset) / MinutesPerDay
  }

  /** The UTC calendar day of instant t (SQLite's `date()` of a UTC-stored timestamp). */
  function UtcDay(t: int): int {
    t / MinutesPerDay
  }

  /**
   * How a Taipei datetime is stored in a SQLite DATETIME column: the wall
   * clock is kept and the offset dropped, so the column, read back as a naive
   * UTC value, holds the instant eight hours later.
   */
  function TaipeiWallTime(t: int): (s: int)
    ensures UtcDay(s) == TaipeiDay(t)
    ensures s > t
  {
    t + TaipeiOffset
  }

  /** The instant of Taipei midnight at the start of day d. */
  function TaipeiMidnight(d: int): int {
    d * MinutesPerDay - TaipeiOffset
  }

  /** The instant of UTC midnight at the start of day d (a bare date parsed as UTC). */
  function UtcMidnight(d: int): int {
    d * MinutesPerDay
  }

  /** Python's `weekday()`: 0 for Monday through 6 for Sunday. */
  function Weekday(d: int): (w: int)
    ensures 0 <= w < 7
  {
    d % 7
  }

  /** The Monday of the week that contains day d (`d - timedelta(days=d.weekday())`). */
  function WeekStart(d: int): int {
    d - Weekday(d)
  }

  /** The Taipei wall-clock time of instant t, in minutes after midnight. */
  function TaipeiMinuteOfDay(t: int): (m: int)
    ensures 0 <= m < MinutesPerDay
  {
    (t + TaipeiOffset) % MinutesPerDay
  }

  /** An instant lies in Taipei day d exactly when it lies between that day's midnight and the next. */
  lemma TaipeiDayWindow(t: int, d: int)
    ensures TaipeiDay(t) == d <==> TaipeiMidnight(d) <= t < TaipeiMidnight(d + 1)
  {
    var q := TaipeiDay(t);
    assert q * MinutesPerDay <= t + TaipeiOffset < q * MinutesPerDay + MinutesPerDay;
  }

  /** An instant is before Taipei midnight of day d exactly when its Taipei day is earlier than d. */
  lemma BeforeTaipeiMidnight(t: int, d: int)
    ensures t < TaipeiMidnight(d) <==> TaipeiDay(t) < d
  {
    var q := TaipeiDay(t);
    assert q * MinutesPerDay <= t + TaipeiOffset < q * MinutesPerDay + MinutesPerDay;
    if TaipeiDay(t) < d {
      assert (q + 1) * MinutesPerDay <= d * MinutesPerDay;
    } else {
      assert d * MinutesPerDay <= q * MinutesPerDay;
    }
  }

  /** The UTC day of a UTC midnight is that day. */
  lemma UtcDayOfMidnight(d: int)
    ensures UtcDay(UtcMidnight(d)) == d
  {
  }

  /** The week of day d runs from a Monday to the Sunday six days later and contains d. */
  lemma WeekStartIsMonday(d: int)
    ensures Weekday(WeekStart(d)) == 0
    ensures WeekStart(d) <= d <= WeekStart(d) + 6
    ensures Weekday(WeekStart(d) + 6) == 6
  {
  }

  /** Every day of a week has the same week start. */
  lemma SameWeek(d: int, e: int)
    requires WeekStart(d) <= e <= WeekStart(d) + 6
    ensures WeekStart(e) == WeekStart(d)
  {
    var s := WeekStart(d);
    assert s % 7 == 0;
    assert (s + (e - s)) % 7 == e - s;
  }
}
