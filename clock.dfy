/**
 * Calendar days, times of day and the clock.
 *
 * The service keeps dates as `YYYY-MM-DD` and times as zero-padded `HH:mm`
 * strings; for well-formed values their text order is their numeric order,
 * so a date is a day number and a time is a count of minutes since midnight.
 */
module Clock {

  const MinutesPerDay := 1440
  const MinutesPerHour := 60
  const MsPerMinute := 60_000
  const MsPerHour := 3_600_000
  const MsPerDay := 86_400_000

  /** A calendar day, as a day number. */
  type Date = int

  /** An `HH:mm` time of day, in minutes since midnight. */
  type Minute = m: int | 0 <= m < 1440

  /** A time of day with millisecond precision, as the clock reads it. */
  type DayMs = t: int | 0 <= t < 86_400_000

  /** The server's clock: the current local day and the time into that day. */
  datatype Now = Now(today: Date, ms: DayMs)

  /**
   * The end of a one-hour booking, as `moment(start, 'HH:mm').add(1, 'hour')
   * .format('HH:mm')` computes it: one hour later, wrapping past midnight.
   */
  function EndTime(start: Minute): (end: Minute)
    ensures NonWrapping(start) ==> end == start + MinutesPerHour
    ensures !NonWrapping(start) ==> end == start + MinutesPerHour - MinutesPerDay && end < start
  {
    (start + MinutesPerHour) % MinutesPerDay
  }

  /** A booking that starts at `start` ends on the same day (it starts at 22:59 at the latest). */
  predicate NonWrapping(start: Minute)
  {
    start + MinutesPerHour < MinutesPerDay
  }

  /** The instant a booking starts, in milliseconds. */
  function StartInstant(date: Date, start: Minute): int
  {
    date * MsPerDay + start * MsPerMinute
  }

  /** The clock's instant, in milliseconds. */
  function NowInstant(now: Now): int
  {
    now.today * MsPerDay + now.ms
  }

  /**
   * `moment(date + ' ' + start).diff(moment(), 'hours')`: the millisecond
   * difference divided by an hour and truncated toward zero.
   */
  function HoursUntil(date: Date, start: Minute, now: Now): int
  {
    var delta := StartInstant(date, start) - NowInstant(now);
    if delta >= 0 then delta / MsPerHour else -((-delta) / MsPerHour)
  }

  /** The cancel/reschedule rule `horasRestantes <= 24`: the slot is too close to change. */
  predicate InsideLockIn(date: Date, start: Minute, now: Now)
  {
    HoursUntil(date, start, now) <= 24
  }

  /**
   * Because the hour count is truncated, the lock-in covers every start less
   * than 25 hours away (and every start already past), not 24.
   */
  lemma LockInIsTwentyFiveHours(date: Date, start: Minute, now: Now)
    ensures InsideLockIn(date, start, now) <==> StartInstant(date, start) - NowInstant(now) < 25 * MsPerHour
  {
    var delta := StartInstant(date, start) - NowInstant(now);
    if delta >= 0 {
      var q := delta / MsPerHour;
      assert q * MsPerHour <= delta < (q + 1) * MsPerHour;
    } else {
      var q := (-delta) / MsPerHour;
      assert q >= 0;
    }
  }
}
