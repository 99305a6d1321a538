# Football-court booking: a verified model of the scheduling rules

This project models the rules of a football-court booking service. The service is an Express
server over two SQLite tables: `canchas`, the courts, and `reservas`, the bookings. The model
keeps each handler's checks, their order and their table writes. It drops HTTP, SQL text and
JSON. What remains is a sequential rule engine:

- **Availability** (`Availability.Query`). A missing or past date is refused. Otherwise the
  query returns every active court, optionally only those of one type, in `ORDER BY tipo,
  nombre` order. Each court comes with the hourly starts from 08:00 to 23:00 at which no
  active booking of that court and date starts (a 10:30 booking leaves both 10:00 and 11:00
  listed).
- **Conflict test** (`Conflict.SqlOverlap`, `Tables.Clashes`). This is the query's two-clause
  test against the stored `hora_fin`. `hora_fin` is computed as start + 1 h, and past 23:00 it
  wraps to the next day's `HH:mm`.
- **Client handlers** (`Store.Store.Book`, `Cancel`, `Reschedule`). They check fields, DNI,
  email, past date, one booking per DNI per day, the 24-hour lock-in and conflicts, in the
  order the handlers make them. Then they insert or update one row.
- **Admin handlers** (`CreateCourt`, `UpdateCourt`, `DeleteCourt`, `CancelByAdmin`).

Dates are day numbers and `HH:mm` times are minutes since midnight. For zero-padded text,
string order is numeric order, which is how the SQL compares these values. The clock is a
parameter: `today` for the date checks, and `Now(today, ms)` for the lock-in. The lock-in is
computed the way `moment#diff(…, 'hours')` computes it: a millisecond difference truncated
toward zero.

The model follows the code as written; in particular:
- Booking does not check that the court exists or is active.
- The conflict test is not the textbook half-open test, and a stored booking from 23:00 on,
  whose end wraps to the next day, matches no request. A second 23:00 booking of the same
  court gets through (`Scenarios.MidnightDoubleBooking`), and so does any request starting
  in the hour before it, which really overlaps it (`Conflict.WrappedSlotMissesOverlap`,
  `Scenarios.LateOverlapAccepted`). So "no two active bookings overlap" is proved for every
  pair of active bookings of a court and date that both start before 23:00, whatever other
  bookings the table holds (`SlotsSound`, part of `Valid()`).
- Editing a court does not re-check the uniqueness of (name, type) among active courts
  (`Invariants.ReviseCanDuplicateCourt`).
- Reschedule never compares the new date with today (`Scenarios.RescheduleIntoThePast`).
- Availability also refuses a missing date.

Every store method keeps `Valid()`. That covers ids below the counters and increasing, each
stored end following its start, at most one active booking per (DNI, date), and no overlap
between active bookings of a court and date that both start before 23:00. Every method
also keeps `Evolves`: no booking row is deleted or reordered, and no cancelled booking becomes
active again.

## Model

| member | source | states |
|---|---|---|
| Clock.EndTime | server.js:331 | the end is one hour after the start, except from 23:00 on, where it wraps to the next day's time and lies before the start |
| Clock.LockInIsTwentyFiveHours | server.js:405-414 | "whole hours left <= 24", with truncated hours, holds exactly when the start is less than 25 hours away (or already past) |
| Conflict.SqlTestIsHalfOpenOverlap | server.js:334-338 | for one-hour slots that end on their own day, the two-clause SQL test holds iff the half-open intervals overlap |
| Conflict.SameSlotConflictsTouchingDoesNot | server.js:336-337 | for every start up to 22:59, an identical slot conflicts and the slot starting one hour later, which only touches it, does not, in either order (up to 22:00-23:00 against 23:00-00:00) |
| Conflict.WrappedSlotNeverConflicts | server.js:331-338 | a stored booking starting at 23:00 or later, whose end wrapped, matches no request at all, not even the same slot |
| Conflict.WrappedSlotMissesOverlap | server.js:331-338 | a request starting in the hour before a stored booking from 23:00 on passes the query although the two slots overlap |
| Conflict.WrappedRequestFalseConflict | server.js:474-482 | a request whose end wraps (23:30) is blocked by a stored 00:00-01:00 booking it does not overlap |
| Tables.ParseType | server.js:118 | a type text is accepted exactly when it is the stored name of one of F5, F7, F11, and then it names that type |
| Tables.FindActive | server.js:393-395 | the lookup returns the first row that is active with that DNI, date and start, or reports that none is |
| Validation.EmailValidIffPatternOccurs | server.js:307 | the email check accepts exactly the values containing `x@y.z` with x, y, z non-empty and free of white space |
| Validation.EmailValidInContext | server.js:307 | the email pattern is unanchored: text around a valid address keeps it valid |
| Validation.FieldExamples | server.js:302-309 | seven or eight digits pass the DNI check and six, nine or a letter fail; sample emails pass or fail |
| Ordering.TypeRankFollowsText | server.js:257 | ranking types F11, F5, F7 is the text order of their stored names |
| Ordering.SortCourtsSorted | server.js:257 | the court list is in (type text, name) order |
| Ordering.SortCourtsPermutes | server.js:257 | sorting neither adds nor drops a court |
| Availability.HourGrid | server.js:265-269 | the loop builds 16 ascending starts, exactly the whole hours 08:00 to 23:00 |
| Availability.FreeSlots | server.js:275-277 | the free list holds exactly the grid starts not occupied, ascending, and the whole grid when none is occupied |
| Availability.ListedCourts | server.js:247-257 | the listed courts are exactly the active ones, of the requested type when a type is given, each as often as it occurs in the table (one row per court) and never more courts than the table holds |
| Availability.Shown | server.js:257 | the returned courts are sorted and are a permutation of the listed ones |
| Availability.Query | server.js:228-290 | a missing date and a date before today are refused; otherwise each shown court gets exactly the grid hours that no active booking of it starts on that date, ascending, all 16 when it has none |
| Invariants.AppendKeepsOnePerDay | server.js:317-355 | inserting a booking whose DNI has no active booking that day keeps at most one active booking per (DNI, date) |
| Invariants.CancelKeepsInvariants | server.js:216 | cancelling by id keeps the id, end and one-per-day properties and the no-overlap property, deletes no row and revives none |
| Invariants.CancelByIdTouchesOneRow | server.js:417 | with distinct ids, cancelling by a row's id changes only that row's status |
| Invariants.MoveByIdTouchesOneRow | server.js:497-500 | with distinct ids, moving by a row's id changes only that row's court, date, start and end |
| Invariants.MoveKeepsOnePerDay | server.js:461-472 | moving a booking to a date on which its DNI has no other active booking keeps the one-per-day rule |
| Invariants.AppendKeepsSlotsSound | server.js:331-355 | inserting any one-hour booking that passes the conflict query keeps active bookings of a court and date that start before 23:00 pairwise disjoint, whatever wrapping rows the table holds |
| Invariants.MoveKeepsSlotsSound | server.js:474-500 | moving an active booking to any slot that passes the self-excluding conflict query keeps active bookings of a court and date that start before 23:00 pairwise disjoint |
| Invariants.AppendCourtKeepsDistinct | server.js:123-135 | inserting a court whose (name, type) no active court has keeps active (name, type) pairs distinct |
| Invariants.ReviseCanDuplicateCourt | server.js:170 | an edit can give an active court the name and type of another active court |
| Store.Store.constructor | server.js:47-72 | the store starts with empty tables and both id counters at 1 |
| Store.Store.CreateCourt | server.js:111-146 | falsy name, type or capacity (a capacity of 0 included) fail first, then an unknown type, then an active court with the same name and type; otherwise one active court is appended with the next id |
| Store.Store.UpdateCourt | server.js:150-179 | refused while the court has an active booking dated today or later; otherwise name, type and capacity of that id are rewritten |
| Store.Store.DeleteCourt | server.js:182-192 | only the active flag of that id is cleared; no row is removed |
| Store.Store.CancelByAdmin | server.js:213-223 | the booking with that id becomes cancelled with no time check; nothing else changes |
| Store.Store.Book | server.js:293-382 | missing field, DNI, email, past date, same-day booking, conflict, in that order; on success exactly one active row with end = start + 1 h is appended and existing rows are unchanged |
| Store.Store.Cancel | server.js:385-426 | missing field, then no active booking with that DNI, date and start, then the lock-in; on success only that row's status becomes cancelled |
| Store.Store.Reschedule | server.js:429-511 | missing field, lookup, lock-in on the current slot, another active booking of the DNI on the new date, conflict on the requested or current court excluding itself; on success only that row's court, date, start and end change and it stays active |
| Scenarios.OneBookingPerDay | server.js:316-355 | a 10:00 booking succeeds and ends at 11:00; the same DNI cannot book again that day on another court |
| Scenarios.SameSlotRefused | server.js:333-349 | after a 10:00 booking on court 1, another DNI is refused the same slot there |
| Scenarios.TouchingAccepted | server.js:333-355 | after a 10:00 booking on court 1, another DNI gets the adjacent 09:00 slot there, and both bookings are active |
| Scenarios.CancelNeedsTwentyFiveHours | server.js:405-417 | a booking 24 h 59 min away cannot be cancelled; at 25 h it can, and the row is kept as cancelled |
| Scenarios.MidnightDoubleBooking | server.js:331-355 | two DNIs both book the same court, date and 23:00 start, and both bookings are active |
| Scenarios.LateOverlapAccepted | server.js:331-355 | after a 23:00 booking, another DNI books 22:30 on the same court and date; both are active and the two slots overlap |
| Scenarios.RescheduleIntoThePast | server.js:474-500 | a booking can be moved to yesterday |
| Conflict.SqlOverlap | server.js:336-337 | the query's two clauses: a stored slot conflicts when it starts at or before the new start and ends after it, or starts before the new end and ends at or after it |
| Tables.ClashesWith | server.js:334-338 | one row conflicts: it is active, on that court and date, passes the two-clause test, and (on reschedule) is not the excluded id |
| Tables.Clashes | server.js:478-482 | some row of the table conflicts with the requested court, date and slot, ignoring the excluded id |
| Tables.SameDayBooking | server.js:461 | some active row other than the excluded id has that DNI and date; with no exclusion it is the query at line 317 |
| Tables.FutureBookings | server.js:156-157 | some active row of that court is dated today or later |
| Tables.ActiveCourtNamed | server.js:123 | some active court has that name and type |
| Tables.CancelById | server.js:417 | the table with every row of that id marked cancelled, as the UPDATE at lines 216 and 417 does |
| Tables.MoveById | server.js:497-500 | the table with the court, date, start and end of every row of that id rewritten |
| Tables.DeactivateById | server.js:185 | the courts table with every court of that id marked inactive |
| Tables.ReviseById | server.js:170 | the courts table with the name, type and capacity of every court of that id rewritten |
| Clock.HoursUntil | server.js:406-408 | whole hours from now to the slot's start, the millisecond difference truncated toward zero |
| Clock.InsideLockIn | server.js:410 | the slot starts at most 24 whole hours from now, so cancelling or moving it is refused |
| Validation.DniValid | server.js:302 | the DNI is seven or eight decimal digits and nothing else |
| Validation.EmailValid | server.js:307 | some `@` lies before a later `.` with at least one character between them, a non-space character just before the `@` and just after the `.`, and no white space from the `@` to the `.` |
| Availability.Occupied | server.js:242-246 | the starts of the active bookings of that court on that date, as the join collects them and line 273 splits them out |
| Availability.Listed | server.js:247-254 | a court is listed when it is active and, if a type is given, of that type |
| Ordering.SortCourts | server.js:257 | the courts in ascending (type text, name) order, by insertion |
| Store.NewBooking | server.js:352-355 | the inserted row: the request's fields, the computed wrapped end, status active |
| Store.Complete | server.js:297 | every booking field is present: the texts non-empty, the court id non-zero, the date and start given (a start of 00:00 counts as given, as the text "00:00" is truthy) |
| Store.MoveComplete | server.js:432 | every reschedule field but the court is present: the DNI non-empty, the current and new dates and starts given; the court may be missing |
| Store.TargetCourt | server.js:475 | the requested court when one is given (non-zero), otherwise the booking's current court |

## Left out

- Express setup, middleware, CORS, rate limiting, static pages and the error middleware: transport, not scheduling.
- Opening SQLite, the in-memory fallback, table creation, seeding the five example courts, and closing on SIGINT. The store starts empty.
- The admin listings `GET /api/admin/canchas` and `GET /api/admin/reservas`: plain reads with no rules.
- Concurrency between interleaved callbacks, where two requests can both pass the checks before either writes. Each handler is one atomic step.
- `moment` parsing, time zones and daylight-saving days. Every day has 24 hours, and malformed or unpadded dates and times are outside the model. For an unparsable date, `moment` would make the past-date check pass.
- JSON replies, status codes and message texts, which map to `Error`. Create returns the new id instead of the joined row (server.js:363-375).
- The `GROUP_CONCAT` text and its splitting. Occupied starts are the set of starts directly.
- Database failures (the 500 replies). These include an edit with a missing field or a type outside F5/F7/F11, which the table's NOT NULL and CHECK constraints reject: `UpdateCourt` takes a typed court type.
- The notification TODO and the `created_at` columns.
- Request values that are not strings (a numeric DNI, for example) are taken as their text.
- Court ids and capacities are numbers, with 0 standing for a missing value. A form-encoded body delivers them as text, and the text "0" is truthy in JavaScript, so the handlers accept it as present (server.js:114, 297, 475); such a value is outside the model.
- Availability.Shown: courts with the same type and name (possible after an edit) come out in the model's insertion-sort order; SQLite leaves their order unspecified.
