/**
 * The overlap test the booking handlers run against the `reservas` table.
 *
 * The query asks for an active row on the same court and date with
 * `(hora_inicio <= ns AND hora_fin > ns) OR (hora_inicio < ne AND hora_fin >= ne)`,
 * where `ns`/`ne` are the requested start and end. This is not the textbook
 * half-open test, and the stored end wraps past midnight; the lemmas below say
 * where the two agree and where they do not.
 */
module Conflict {
  import opened Clock

  /** The query's two-clause test between a stored slot and a requested one. */
  predicate SqlOverlap(start: Minute, end: Minute, newStart: Minute, newEnd: Minute)
  {
    (start <= newStart && end > newStart) || (start < newEnd && end >= newEnd)
  }

  /** Half-open intervals `[s1, e1)` and `[s2, e2)` share a point. */
  predicate Overlap(s1: int, e1: int, s2: int, e2: int)
  {
    s1 < e2 && s2 < e1
  }

  /** Two one-hour bookings, measured on the day they start (not wrapped), share a minute. */
  predicate HoursOverlap(s1: Minute, s2: Minute)
  {
    Overlap(s1, s1 + MinutesPerHour, s2, s2 + MinutesPerHour)
  }

  /**
   * For one-hour slots that end on the day they start, the query's test is
   * exactly the half-open overlap test.
   */
  lemma SqlTestIsHalfOpenOverlap(start: Minute, newStart: Minute)
    requires NonWrapping(start) && NonWrapping(newStart)
    ensures SqlOverlap(start, EndTime(start), newStart, EndTime(newStart)) <==> HoursOverlap(start, newStart)
  {
  }

  /**
   * The same slot booked twice is a conflict; slots that only touch
   * (09:00-10:00 and 10:00-11:00, up to 22:00-23:00 and 23:00-00:00) are not.
   */
  lemma SameSlotConflictsTouchingDoesNot(start: Minute)
    requires NonWrapping(start)
    ensures SqlOverlap(start, EndTime(start), start, EndTime(start))
    ensures !SqlOverlap(start, EndTime(start), start + MinutesPerHour, EndTime(start + MinutesPerHour))
    ensures !SqlOverlap(start + MinutesPerHour, EndTime(start + MinutesPerHour), start, EndTime(start))
  {
  }

  /**
   * A stored booking whose end wrapped past midnight (it starts at 23:00 or
   * later) never matches the query, whatever is requested, even the same slot.
   */
  lemma WrappedSlotNeverConflicts(start: Minute, newStart: Minute, newEnd: Minute)
    requires !NonWrapping(start)
    ensures !SqlOverlap(start, EndTime(start), newStart, newEnd)
  {
  }

  /**
   * A stored booking from 23:00 on lets through a request that really
   * overlaps it: with 23:00-00:00 stored, a request for 22:30 (any start in
   * the hour before it) passes the query although the two share half an hour.
   */
  lemma WrappedSlotMissesOverlap(start: Minute, newStart: Minute)
    requires !NonWrapping(start) && start - MinutesPerHour < newStart < start
    ensures !SqlOverlap(start, EndTime(start), newStart, EndTime(newStart))
    ensures HoursOverlap(start, newStart)
  {
    WrappedSlotNeverConflicts(start, newStart, EndTime(newStart));
  }

  /**
   * A requested slot whose end wraps can be refused by a slot it does not
   * overlap: a stored 00:00-01:00 booking blocks a request for 23:30.
   */
  lemma WrappedRequestFalseConflict()
    ensures SqlOverlap(0, EndTime(0), 1410, EndTime(1410))
    ensures !HoursOverlap(0, 1410)
  {
  }
}
