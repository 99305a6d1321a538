/**
 * Sequences of handler calls on small stores, with their outcomes proved: the
 * one-booking-per-day rule, the half-open overlap test, the 25-hour lead that
 * cancelling needs, and three consequences of the code as written (a second
 * 23:00 booking of the same court, a 22:30 booking overlapping a 23:00 one,
 * and a reschedule into the past).
 */
module Scenarios {
  import opened Wrappers
  import opened Clock
  import opened Conflict
  import opened Tables
  import opened Validation
  import opened Store

  /** A booking request from `dni` for court `courtId` on `date` at `start`. */
  function Request(dni: string, courtId: int, date: Date, start: Minute): BookingRequest
  {
    BookingRequest(dni, "Ana", "1155550000", "ana@mail.com", courtId, Some(date), Some(start))
  }

  /**
   * On an empty store, booking 10:00 succeeds and the row ends at 11:00; the
   * same DNI then cannot book again that day, even another court and hour.
   */
  method OneBookingPerDay() returns (first: Result<int, Error>, again: Result<int, Error>, s: Store)
    ensures first == Success(1)
    ensures |s.bookings| == 1 && s.bookings[0].start == 600 && s.bookings[0].end == 660
    ensures s.bookings[0].status == Active
    ensures again == Failure(DuplicateBooking)
  {
    FieldExamples();
    var day := 20_000;
    s := new Store();
    first := s.Book(Request("12345678", 1, day, 600), day);
    assert BooksDay(s.bookings[0], "12345678", day, None);
    again := s.Book(Request("12345678", 2, day, 720), day);
  }

  /** With 10:00-11:00 booked on court 1, another DNI cannot take 10:00 there. */
  method SameSlotRefused() returns (first: Result<int, Error>, taken: Result<int, Error>)
    ensures first == Success(1)
    ensures taken == Failure(SlotUnavailable)
  {
    FieldExamples();
    var day := 20_000;
    var s := new Store();
    first := s.Book(Request("12345678", 1, day, 600), day);
    assert "1234567" != "12345678";
    assert ClashesWith(s.bookings[0], 1, day, 600, EndTime(600), None);
    taken := s.Book(Request("1234567", 1, day, 600), day);
  }

  /**
   * With 10:00-11:00 booked on court 1, another DNI can take 09:00 there,
   * which only touches it, and both bookings are active.
   */
  method TouchingAccepted() returns (first: Result<int, Error>, touching: Result<int, Error>, s: Store)
    ensures first == Success(1) && touching == Success(2)
    ensures |s.bookings| == 2 && s.bookings[0].status == Active && s.bookings[1].status == Active
    ensures s.bookings[0].start == 600 && s.bookings[1].start == 540
  {
    FieldExamples();
    var day := 20_000;
    s := new Store();
    first := s.Book(Request("12345678", 1, day, 600), day);
    assert "1234567" != "12345678";
    touching := s.Book(Request("1234567", 1, day, 540), day);
  }

  /**
   * A booking for tomorrow at 10:00: at 09:01 today it is 24 h 59 min away and
   * cannot be cancelled; at 09:00 it is 25 h away and can, and the row is kept
   * as cancelled.
   */
  method CancelNeedsTwentyFiveHours() returns (late: Outcome<Error>, inTime: Outcome<Error>, s: Store)
    ensures late == Fail(TooLate)
    ensures inTime == Pass
    ensures |s.bookings| == 1 && s.bookings[0].status == Cancelled
  {
    FieldExamples();
    var day := 20_000;
    s := new Store();
    var booked := s.Book(Request("12345678", 1, day + 1, 600), day);
    assert s.bookings[0].start == 600;
    assert HoldsSlot(s.bookings[0], "12345678", day + 1, 600);
    late := s.Cancel("12345678", Some(day + 1), Some(600), Now(day, 9 * MsPerHour + MsPerMinute));
    inTime := s.Cancel("12345678", Some(day + 1), Some(600), Now(day, 9 * MsPerHour));
  }

  /**
   * Two DNIs book the same court for 23:00 on the same day and both succeed:
   * the stored end of the first is 00:00, so the conflict query misses it.
   */
  method MidnightDoubleBooking() returns (first: Result<int, Error>, second: Result<int, Error>, s: Store)
    ensures first.Success? && second.Success?
    ensures |s.bookings| == 2
    ensures s.bookings[0].status == Active && s.bookings[1].status == Active
    ensures s.bookings[0].courtId == s.bookings[1].courtId && s.bookings[0].date == s.bookings[1].date
    ensures s.bookings[0].start == s.bookings[1].start == 1380
  {
    FieldExamples();
    var day := 20_000;
    s := new Store();
    first := s.Book(Request("12345678", 1, day, 1380), day);
    assert s.bookings[0].end == 0;
    assert "1234567" != "12345678";
    second := s.Book(Request("1234567", 1, day, 1380), day);
  }

  /**
   * With 23:00 booked on court 1, another DNI books 22:30 on the same court
   * and day and succeeds, although the two slots share half an hour.
   */
  method LateOverlapAccepted() returns (first: Result<int, Error>, second: Result<int, Error>, s: Store)
    ensures first.Success? && second.Success?
    ensures |s.bookings| == 2
    ensures s.bookings[0].status == Active && s.bookings[1].status == Active
    ensures s.bookings[0].courtId == s.bookings[1].courtId && s.bookings[0].date == s.bookings[1].date
    ensures s.bookings[0].start == 1380 && s.bookings[1].start == 1350
    ensures HoursOverlap(s.bookings[0].start, s.bookings[1].start)
  {
    FieldExamples();
    var day := 20_000;
    s := new Store();
    first := s.Book(Request("12345678", 1, day, 1380), day);
    assert s.bookings[0].end == 0;
    assert "1234567" != "12345678";
    second := s.Book(Request("1234567", 1, day, 1350), day);
  }

  /** A booking two days ahead can be moved to yesterday: the new date is never compared with today. */
  method RescheduleIntoThePast() returns (moved: Outcome<Error>, s: Store)
    ensures moved == Pass
    ensures |s.bookings| == 1 && s.bookings[0].status == Active && s.bookings[0].date == 19_999
  {
    FieldExamples();
    var day := 20_000;
    s := new Store();
    var booked := s.Book(Request("12345678", 1, day + 2, 600), day);
    assert HoldsSlot(s.bookings[0], "12345678", day + 2, 600);
    moved := s.Reschedule(MoveRequest("12345678", Some(day + 2), Some(600), Some(day - 1), Some(600), 0),
                          Now(day, 9 * MsPerHour));
  }
}
