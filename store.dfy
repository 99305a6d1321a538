/**
 * The booking service's handlers as operations on one store holding the
 * `canchas` and `reservas` tables and their AUTOINCREMENT counters. Each
 * handler runs as one step: its checks, in the order the handler makes them,
 * and then its INSERT or UPDATE.
 */
module Store {
  import opened Wrappers
  import opened Clock
  import opened Tables
  import opened Validation
  import opened Invariants

  /**
   * The body of `POST /api/reservas`. An empty string stands for a text field
   * that is missing or empty, a court id of 0 for a missing one: both are
   * falsy in JavaScript.
   */
  datatype BookingRequest = BookingRequest(
    dni: string,
    name: string,
    phone: string,
    email: string,
    courtId: int,
    date: Option<Date>,
    start: Option<Minute>)

  /** Every field of a booking request is present and truthy. */
  predicate Complete(req: BookingRequest)
  {
    && req.dni != "" && req.name != "" && req.phone != "" && req.email != ""
    && req.courtId != 0 && req.date.Some? && req.start.Some?
  }

  /** The row a successful booking request inserts as row `id`: active, ending one hour after it starts. */
  function NewBooking(id: int, req: BookingRequest): Booking
    requires Complete(req)
  {
    Booking(id, req.dni, req.name, req.phone, req.email, req.courtId, req.date.value, req.start.value,
            EndTime(req.start.value), Active)
  }

  /** The body of `PUT /api/reservas/reprogramar`; a court id of 0 means "keep the current court". */
  datatype MoveRequest = MoveRequest(
    dni: string,
    date: Option<Date>,
    start: Option<Minute>,
    newDate: Option<Date>,
    newStart: Option<Minute>,
    courtId: int)

  /** Every required field of a reschedule request is present and truthy. */
  predicate MoveComplete(req: MoveRequest)
  {
    req.dni != "" && req.date.Some? && req.start.Some? && req.newDate.Some? && req.newStart.Some?
  }

  /** `cancha_id || reservaActual.cancha_id`: the requested court, or else the current one. */
  function TargetCourt(req: MoveRequest, current: Booking): int
  {
    if req.courtId != 0 then req.courtId else current.courtId
  }

  class Store {
    /** The `canchas` table, in rowid order. */
    var courts: seq<Court>
    /** The `reservas` table, in rowid order. */
    var bookings: seq<Booking>
    /** The id the next inserted court gets. */
    var nextCourtId: int
    /** The id the next inserted booking gets. */
    var nextBookingId: int

    /** The properties every handler keeps. */
    ghost predicate Valid()
      reads this
    {
      && 1 <= nextCourtId && 1 <= nextBookingId
      && CourtIdsBelow(courts, nextCourtId)
      && BookingIdsBelow(bookings, nextBookingId)
      && EndsFollowStarts(bookings)
      && OnePerDay(bookings)
      && SlotsSound(bookings)
    }

    /** Empty tables. */
    constructor ()
      ensures Valid()
      ensures courts == [] && bookings == [] && nextCourtId == 1 && nextBookingId == 1
    {
      courts := [];
      bookings := [];
      nextCourtId := 1;
      nextBookingId := 1;
    }

    /** `POST /api/admin/canchas`. */
    method CreateCourt(name: string, typeText: string, capacity: int) returns (res: Result<int, Error>)
      requires Valid()
      modifies this
      ensures Valid()
      ensures
        if name == "" || typeText == "" || capacity == 0 then res == Failure(MissingField)
        else if ParseType(typeText).None? then res == Failure(InvalidCourtType)
        else if ActiveCourtNamed(old(courts), name, ParseType(typeText).value) then res == Failure(DuplicateCourt)
        else
          && res == Success(old(nextCourtId))
          && courts == old(courts) + [Court(old(nextCourtId), name, ParseType(typeText).value, capacity, true)]
          && nextCourtId == old(nextCourtId) + 1
      ensures res.Failure? ==> courts == old(courts) && nextCourtId == old(nextCourtId)
      ensures bookings == old(bookings) && nextBookingId == old(nextBookingId)
      ensures old(ActiveCourtsDistinct(courts)) ==> ActiveCourtsDistinct(courts)
    {
      if name == "" || typeText == "" || capacity == 0 {
        return Failure(MissingField);
      }
      var t := ParseType(typeText);
      if t.None? {
        return Failure(InvalidCourtType);
      }
      if ActiveCourtNamed(courts, name, t.value) {
        return Failure(DuplicateCourt);
      }
      var c := Court(nextCourtId, name, t.value, capacity, true);
      if ActiveCourtsDistinct(courts) {
        AppendCourtKeepsDistinct(courts, c);
      }
      courts := courts + [c];
      res := Success(nextCourtId);
      nextCourtId := nextCourtId + 1;
    }

    /** `PUT /api/admin/canchas/:id`: refused while the court has active bookings dated today or later. */
    method UpdateCourt(id: int, name: string, t: CourtType, capacity: int, today: Date) returns (res: Outcome<Error>)
      requires Valid()
      modifies this
      ensures Valid()
      ensures
        if FutureBookings(bookings, id, today) then res == Fail(CourtHasFutureBookings) && courts == old(courts)
        else res == Pass && courts == ReviseById(old(courts), id, name, t, capacity)
      ensures bookings == old(bookings) && nextCourtId == old(nextCourtId) && nextBookingId == old(nextBookingId)
    {
      if FutureBookings(bookings, id, today) {
        return Fail(CourtHasFutureBookings);
      }
      courts := ReviseById(courts, id, name, t, capacity);
      res := Pass;
    }

    /** `DELETE /api/admin/canchas/:id`: a soft delete that only clears the active flag. */
    method DeleteCourt(id: int)
      requires Valid()
      modifies this
      ensures Valid()
      ensures courts == DeactivateById(old(courts), id)
      ensures bookings == old(bookings) && nextCourtId == old(nextCourtId) && nextBookingId == old(nextBookingId)
      ensures old(ActiveCourtsDistinct(courts)) ==> ActiveCourtsDistinct(courts)
    {
      courts := DeactivateById(courts, id);
    }

    /** `PUT /api/admin/reservas/:id/cancelar`: cancels with no time check; an unknown id changes nothing. */
    method CancelByAdmin(id: int)
      requires Valid()
      modifies this
      ensures Valid()
      ensures bookings == CancelById(old(bookings), id)
      ensures Evolves(old(bookings), bookings)
      ensures courts == old(courts) && nextCourtId == old(nextCourtId) && nextBookingId == old(nextBookingId)
    {
      CancelKeepsInvariants(bookings, id, nextBookingId);
      bookings := CancelById(bookings, id);
    }

    /**
     * `POST /api/reservas`. The court is neither looked up nor required to be
     * active.
     */
    method Book(req: BookingRequest, today: Date) returns (res: Result<int, Error>)
      requires Valid()
      modifies this
      ensures Valid()
      ensures
        if !Complete(req) then res == Failure(MissingField)
        else if !DniValid(req.dni) then res == Failure(InvalidDni)
        else if !EmailValid(req.email) then res == Failure(InvalidEmail)
        else if req.date.value < today then res == Failure(PastDate)
        else if SameDayBooking(old(bookings), req.dni, req.date.value, None) then res == Failure(DuplicateBooking)
        else if Clashes(old(bookings), req.courtId, req.date.value, req.start.value, EndTime(req.start.value), None)
        then res == Failure(SlotUnavailable)
        else
          && res == Success(old(nextBookingId))
          && bookings == old(bookings) + [NewBooking(old(nextBookingId), req)]
          && nextBookingId == old(nextBookingId) + 1
      ensures res.Failure? ==> bookings == old(bookings) && nextBookingId == old(nextBookingId)
      ensures courts == old(courts) && nextCourtId == old(nextCourtId)
      ensures Evolves(old(bookings), bookings)
    {
      if !Complete(req) {
        return Failure(MissingField);
      }
      if !DniValid(req.dni) {
        return Failure(InvalidDni);
      }
      if !EmailValid(req.email) {
        return Failure(InvalidEmail);
      }
      var date, start := req.date.value, req.start.value;
      if date < today {
        return Failure(PastDate);
      }
      if SameDayBooking(bookings, req.dni, date, None) {
        return Failure(DuplicateBooking);
      }
      var end := EndTime(start);
      if Clashes(bookings, req.courtId, date, start, end, None) {
        return Failure(SlotUnavailable);
      }
      var b := NewBooking(nextBookingId, req);
      AppendKeepsOnePerDay(bookings, b);
      AppendKeepsSlotsSound(bookings, b);
      bookings := bookings + [b];
      res := Success(nextBookingId);
      nextBookingId := nextBookingId + 1;
    }

    /**
     * `DELETE /api/reservas`: cancels the caller's active booking of that date
     * and start, unless it starts inside the 24-hour lock-in. The row is kept.
     */
    method Cancel(dni: string, date: Option<Date>, start: Option<Minute>, now: Now) returns (res: Outcome<Error>)
      requires Valid()
      modifies this
      ensures Valid()
      ensures
        if dni == "" || date.None? || start.None? then res == Fail(MissingField)
        else
          var found := FindActive(old(bookings), dni, date.value, start.value);
          if found.None? then res == Fail(NotFound)
          else if InsideLockIn(date.value, start.value, now) then res == Fail(TooLate)
          else
            && res == Pass
            && bookings == old(bookings)[found.value := old(bookings)[found.value].(status := Cancelled)]
      ensures res.Fail? ==> bookings == old(bookings)
      ensures courts == old(courts) && nextCourtId == old(nextCourtId) && nextBookingId == old(nextBookingId)
      ensures Evolves(old(bookings), bookings)
    {
      if dni == "" || date.None? || start.None? {
        return Fail(MissingField);
      }
      var found := FindActive(bookings, dni, date.value, start.value);
      if found.None? {
        return Fail(NotFound);
      }
      if InsideLockIn(date.value, start.value, now) {
        return Fail(TooLate);
      }
      var i := found.value;
      CancelByIdTouchesOneRow(bookings, i, nextBookingId);
      CancelKeepsInvariants(bookings, bookings[i].id, nextBookingId);
      bookings := CancelById(bookings, bookings[i].id);
      res := Pass;
    }

    /**
     * `PUT /api/reservas/reprogramar`: moves the caller's active booking to a
     * new date, start and (optionally) court. The lock-in is checked against
     * the current slot, and the new date is not checked against today.
     */
    method Reschedule(req: MoveRequest, now: Now) returns (res: Outcome<Error>)
      requires Valid()
      modifies this
      ensures Valid()
      ensures
        if !MoveComplete(req) then res == Fail(MissingField)
        else
          var found := FindActive(old(bookings), req.dni, req.date.value, req.start.value);
          if found.None? then res == Fail(NotFound)
          else
            var b := old(bookings)[found.value];
            var newStart := req.newStart.value;
            if InsideLockIn(req.date.value, req.start.value, now) then res == Fail(TooLate)
            else if SameDayBooking(old(bookings), req.dni, req.newDate.value, Some(b.id)) then res == Fail(DuplicateBooking)
            else if Clashes(old(bookings), TargetCourt(req, b), req.newDate.value, newStart, EndTime(newStart), Some(b.id))
            then res == Fail(SlotUnavailable)
            else
              && res == Pass
              && bookings == old(bookings)[found.value := b.(courtId := TargetCourt(req, b), date := req.newDate.value,
                                                              start := newStart, end := EndTime(newStart))]
      ensures res.Fail? ==> bookings == old(bookings)
      ensures courts == old(courts) && nextCourtId == old(nextCourtId) && nextBookingId == old(nextBookingId)
      ensures Evolves(old(bookings), bookings)
    {
      if !MoveComplete(req) {
        return Fail(MissingField);
      }
      var found := FindActive(bookings, req.dni, req.date.value, req.start.value);
      if found.None? {
        return Fail(NotFound);
      }
      var i := found.value;
      var b := bookings[i];
      if InsideLockIn(req.date.value, req.start.value, now) {
        return Fail(TooLate);
      }
      if SameDayBooking(bookings, req.dni, req.newDate.value, Some(b.id)) {
        return Fail(DuplicateBooking);
      }
      var newStart := req.newStart.value;
      var newEnd := EndTime(newStart);
      var target := TargetCourt(req, b);
      if Clashes(bookings, target, req.newDate.value, newStart, newEnd, Some(b.id)) {
        return Fail(SlotUnavailable);
      }
      MoveByIdTouchesOneRow(bookings, i, nextBookingId, target, req.newDate.value, newStart, newEnd);
      MoveKeepsOnePerDay(bookings, i, nextBookingId, target, req.newDate.value, newStart);
      MoveKeepsSlotsSound(bookings, i, nextBookingId, target, req.newDate.value, newStart);
      bookings := MoveById(bookings, b.id, target, req.newDate.value, newStart, newEnd);
      res := Pass;
    }
  }
}
