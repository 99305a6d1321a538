/**
 * The two tables of the booking service, `canchas` (courts) and `reservas`
 * (bookings), and the SQL queries and updates its handlers run on them,
 * each written as a function of the table contents.
 */
module Tables {
  import opened Wrappers
  import opened Clock
  import opened Conflict

  /** Court sizes (`tipo`): five-, seven- and eleven-a-side. */
  datatype CourtType = F5 | F7 | F11

  /** The text stored in the `tipo` column. */
  function TypeName(t: CourtType): string
  {
    match t
    case F5 => "F5"
    case F7 => "F7"
    case F11 => "F11"
  }

  /** `['F5', 'F7', 'F11'].includes(tipo)`, giving the type it names. */
  function ParseType(text: string): (r: Option<CourtType>)
    ensures r.Some? ==> TypeName(r.value) == text
    ensures r.None? ==> forall t: CourtType :: TypeName(t) != text
  {
    if text == "F5" then Some(F5)
    else if text == "F7" then Some(F7)
    else if text == "F11" then Some(F11)
    else None
  }

  /** A row of `canchas`; `active` is the soft-delete flag `activa`. */
  datatype Court = Court(id: int, name: string, courtType: CourtType, capacity: int, active: bool)

  /** `estado`: 'activa' or 'cancelada'. */
  datatype Status = Active | Cancelled

  /** A row of `reservas` (the `created_at` timestamp is not modelled). */
  datatype Booking = Booking(
    id: int,
    dni: string,
    name: string,
    phone: string,
    email: string,
    courtId: int,
    date: Date,
    start: Minute,
    end: Minute,
    status: Status)

  /** The rejections the handlers answer with (the HTTP 400 and 404 replies). */
  datatype Error =
    | MissingField            // a required field is absent or empty
    | InvalidDni              // the DNI is not 7 or 8 digits
    | InvalidEmail            // the email has no `x@y.z` part
    | PastDate                // the date is before today
    | DuplicateBooking        // the DNI already holds an active booking that day
    | SlotUnavailable         // the conflict query found a row
    | NotFound                // no active booking has that DNI, date and start
    | TooLate                 // the booking starts inside the 24-hour lock-in
    | InvalidCourtType        // `tipo` is not F5, F7 or F11
    | DuplicateCourt          // an active court already has that name and type
    | CourtHasFutureBookings  // the court has active bookings from today on

  /** A row passes the optional `AND id != ?` filter. */
  predicate Kept(id: int, exclude: Option<int>)
  {
    exclude.None? || id != exclude.value
  }

  /** `b` is a row of `SELECT id FROM reservas WHERE dni = ? AND fecha = ? AND estado = 'activa' [AND id != ?]`. */
  predicate BooksDay(b: Booking, dni: string, date: Date, exclude: Option<int>)
  {
    b.status == Active && b.dni == dni && b.date == date && Kept(b.id, exclude)
  }

  /** The same-day query finds a row: the DNI already holds an active booking on `date`. */
  predicate SameDayBooking(bs: seq<Booking>, dni: string, date: Date, exclude: Option<int>)
  {
    exists i | 0 <= i < |bs| :: BooksDay(bs[i], dni, date, exclude)
  }

  /** `b` is a row of the conflict query for the requested court, date, start and end. */
  predicate ClashesWith(b: Booking, courtId: int, date: Date, start: Minute, end: Minute, exclude: Option<int>)
  {
    && b.courtId == courtId
    && b.date == date
    && SqlOverlap(b.start, b.end, start, end)
    && b.status == Active
    && Kept(b.id, exclude)
  }

  /** The conflict query finds a row. */
  predicate Clashes(bs: seq<Booking>, courtId: int, date: Date, start: Minute, end: Minute, exclude: Option<int>)
  {
    exists i | 0 <= i < |bs| :: ClashesWith(bs[i], courtId, date, start, end, exclude)
  }

  /** `b` is a row of `SELECT * FROM reservas WHERE dni = ? AND fecha = ? AND hora_inicio = ? AND estado = 'activa'`. */
  predicate HoldsSlot(b: Booking, dni: string, date: Date, start: Minute)
  {
    b.status == Active && b.dni == dni && b.date == date && b.start == start
  }

  /** The row `db.get` returns for that lookup: the first match in table order, if any. */
  function FindActive(bs: seq<Booking>, dni: string, date: Date, start: Minute): (r: Option<nat>)
    ensures r.Some? ==> r.value < |bs| && HoldsSlot(bs[r.value], dni, date, start)
    ensures r.Some? ==> forall k | 0 <= k < r.value :: !HoldsSlot(bs[k], dni, date, start)
    ensures r.None? ==> forall k | 0 <= k < |bs| :: !HoldsSlot(bs[k], dni, date, start)
  {
    if |bs| == 0 then None
    else if HoldsSlot(bs[0], dni, date, start) then Some(0)
    else match FindActive(bs[1..], dni, date, start)
      case None => None
      case Some(k) => Some(k + 1)
  }

  /** `SELECT COUNT(*) FROM reservas WHERE cancha_id = ? AND fecha >= ? AND estado = 'activa'` is positive. */
  predicate FutureBookings(bs: seq<Booking>, courtId: int, today: Date)
  {
    exists i | 0 <= i < |bs| :: bs[i].courtId == courtId && bs[i].date >= today && bs[i].status == Active
  }

  /** `SELECT id FROM canchas WHERE nombre = ? AND tipo = ? AND activa = 1` finds a row. */
  predicate ActiveCourtNamed(cs: seq<Court>, name: string, t: CourtType)
  {
    exists i | 0 <= i < |cs| :: cs[i].active && cs[i].name == name && cs[i].courtType == t
  }

  /** `UPDATE reservas SET estado = 'cancelada' WHERE id = ?` */
  function CancelById(bs: seq<Booking>, id: int): seq<Booking>
  {
    seq(|bs|, k requires 0 <= k < |bs| => if bs[k].id == id then bs[k].(status := Cancelled) else bs[k])
  }

  /** `UPDATE reservas SET cancha_id = ?, fecha = ?, hora_inicio = ?, hora_fin = ? WHERE id = ?` */
  function MoveById(bs: seq<Booking>, id: int, courtId: int, date: Date, start: Minute, end: Minute): seq<Booking>
  {
    seq(|bs|, k requires 0 <= k < |bs| =>
      if bs[k].id == id then bs[k].(courtId := courtId, date := date, start := start, end := end) else bs[k])
  }

  /** `UPDATE canchas SET activa = 0 WHERE id = ?` */
  function DeactivateById(cs: seq<Court>, id: int): seq<Court>
  {
    seq(|cs|, k requires 0 <= k < |cs| => if cs[k].id == id then cs[k].(active := false) else cs[k])
  }

  /** `UPDATE canchas SET nombre = ?, tipo = ?, capacidad = ? WHERE id = ?` */
  function ReviseById(cs: seq<Court>, id: int, name: string, t: CourtType, capacity: int): seq<Court>
  {
    seq(|cs|, k requires 0 <= k < |cs| =>
      if cs[k].id == id then cs[k].(name := name, courtType := t, capacity := capacity) else cs[k])
  }
}
