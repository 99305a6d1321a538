/**
 * Properties of the two tables that the handlers keep, and the lemmas that
 * show each kind of write keeps them.
 */
module Invariants {
  import opened Wrappers
  import opened Clock
  import opened Conflict
  import opened Tables

  /** Booking ids are positive, below the next AUTOINCREMENT value, and increase along the table. */
  predicate BookingIdsBelow(bs: seq<Booking>, next: int)
  {
    && (forall i | 0 <= i < |bs| :: 1 <= bs[i].id < next)
    && (forall i, j | 0 <= i < j < |bs| :: bs[i].id < bs[j].id)
  }

  /** Court ids are positive, below the next AUTOINCREMENT value, and increase along the table. */
  predicate CourtIdsBelow(cs: seq<Court>, next: int)
  {
    && (forall i | 0 <= i < |cs| :: 1 <= cs[i].id < next)
    && (forall i, j | 0 <= i < j < |cs| :: cs[i].id < cs[j].id)
  }

  /** Every stored `hora_fin` is the one computed from its `hora_inicio`. */
  predicate EndsFollowStarts(bs: seq<Booking>)
  {
    forall i | 0 <= i < |bs| :: bs[i].end == EndTime(bs[i].start)
  }

  /** The one-booking-per-day rule: at most one active booking per (DNI, date). */
  predicate OnePerDay(bs: seq<Booking>)
  {
    forall i, j | 0 <= i < j < |bs| ::
      bs[i].status == Active && bs[j].status == Active && bs[i].dni == bs[j].dni ==> bs[i].date != bs[j].date
  }

  /**
   * No double booking among slots that end on their own day: two active
   * bookings on the same court and date that both start before 23:00 never
   * share a minute. Bookings from 23:00 on are not covered, because their
   * stored end wraps and the conflict query cannot see them.
   */
  predicate SlotsSound(bs: seq<Booking>)
  {
    forall i, j | 0 <= i < j < |bs| ::
      && bs[i].status == Active && bs[j].status == Active && bs[i].courtId == bs[j].courtId && bs[i].date == bs[j].date
      && NonWrapping(bs[i].start) && NonWrapping(bs[j].start)
      ==> !HoursOverlap(bs[i].start, bs[j].start)
  }

  /** The (name, type) pair of each active court is unique among active courts. */
  predicate ActiveCourtsDistinct(cs: seq<Court>)
  {
    forall i, j | 0 <= i < j < |cs| ::
      cs[i].active && cs[j].active ==> cs[i].name != cs[j].name || cs[i].courtType != cs[j].courtType
  }

  /**
   * `after` is a later state of the booking table `before`: no row is deleted
   * or reordered, and no cancelled booking becomes active again.
   */
  predicate Evolves(before: seq<Booking>, after: seq<Booking>)
  {
    && |before| <= |after|
    && forall i | 0 <= i < |before| ::
         after[i].id == before[i].id && (before[i].status == Cancelled ==> after[i].status == Cancelled)
  }

  /** Inserting a booking whose DNI has no active booking that day keeps the one-per-day rule. */
  lemma AppendKeepsOnePerDay(bs: seq<Booking>, b: Booking)
    requires OnePerDay(bs)
    requires !SameDayBooking(bs, b.dni, b.date, None)
    ensures OnePerDay(bs + [b])
  {
    var bs' := bs + [b];
    forall i, j | 0 <= i < j < |bs'| && bs'[i].status == Active && bs'[j].status == Active && bs'[i].dni == bs'[j].dni
      ensures bs'[i].date != bs'[j].date
    {
      if j == |bs| {
        assert !BooksDay(bs[i], b.dni, b.date, None);
      }
    }
  }

  /** Cancelling by id keeps the one-per-day rule and the other table properties, and evolves the table. */
  lemma CancelKeepsInvariants(bs: seq<Booking>, id: int, next: int)
    requires BookingIdsBelow(bs, next) && EndsFollowStarts(bs) && OnePerDay(bs) && SlotsSound(bs)
    ensures BookingIdsBelow(CancelById(bs, id), next)
    ensures EndsFollowStarts(CancelById(bs, id))
    ensures OnePerDay(CancelById(bs, id))
    ensures SlotsSound(CancelById(bs, id))
    ensures Evolves(bs, CancelById(bs, id))
  {
  }

  /** With distinct ids, cancelling by the id of row `i` changes that row's status and nothing else. */
  lemma CancelByIdTouchesOneRow(bs: seq<Booking>, i: nat, next: int)
    requires BookingIdsBelow(bs, next) && i < |bs|
    ensures CancelById(bs, bs[i].id) == bs[i := bs[i].(status := Cancelled)]
  {
    var r := CancelById(bs, bs[i].id);
    forall k | 0 <= k < |bs| ensures r[k] == bs[i := bs[i].(status := Cancelled)][k] {
      if k < i { assert bs[k].id < bs[i].id; }
      if k > i { assert bs[i].id < bs[k].id; }
    }
  }

  /** With distinct ids, moving by the id of row `i` rewrites that row's court, date, start and end and nothing else. */
  lemma MoveByIdTouchesOneRow(bs: seq<Booking>, i: nat, next: int, courtId: int, date: Date, start: Minute, end: Minute)
    requires BookingIdsBelow(bs, next) && i < |bs|
    ensures MoveById(bs, bs[i].id, courtId, date, start, end)
         == bs[i := bs[i].(courtId := courtId, date := date, start := start, end := end)]
  {
    var r := MoveById(bs, bs[i].id, courtId, date, start, end);
    forall k | 0 <= k < |bs| ensures r[k] == bs[i := bs[i].(courtId := courtId, date := date, start := start, end := end)][k] {
      if k < i { assert bs[k].id < bs[i].id; }
      if k > i { assert bs[i].id < bs[k].id; }
    }
  }

  /**
   * Moving an active booking to a date on which its DNI holds no other active
   * booking keeps the one-per-day rule.
   */
  lemma MoveKeepsOnePerDay(bs: seq<Booking>, i: nat, next: int, courtId: int, date: Date, start: Minute)
    requires BookingIdsBelow(bs, next) && OnePerDay(bs) && i < |bs|
    requires !SameDayBooking(bs, bs[i].dni, date, Some(bs[i].id))
    ensures OnePerDay(bs[i := bs[i].(courtId := courtId, date := date, start := start, end := EndTime(start))])
  {
    var bs' := bs[i := bs[i].(courtId := courtId, date := date, start := start, end := EndTime(start))];
    forall a, b | 0 <= a < b < |bs'| && bs'[a].status == Active && bs'[b].status == Active && bs'[a].dni == bs'[b].dni
      ensures bs'[a].date != bs'[b].date
    {
      if a == i {
        assert bs[i].id < bs[b].id;
        assert !BooksDay(bs[b], bs[i].dni, date, Some(bs[i].id));
      } else if b == i {
        assert bs[a].id < bs[i].id;
        assert !BooksDay(bs[a], bs[i].dni, date, Some(bs[i].id));
      }
    }
  }

  /**
   * Inserting a one-hour booking that the conflict query does not reject
   * keeps the no-double-booking property, whatever slots the table holds.
   */
  lemma AppendKeepsSlotsSound(bs: seq<Booking>, b: Booking)
    requires SlotsSound(bs) && EndsFollowStarts(bs)
    requires b.end == EndTime(b.start)
    requires !Clashes(bs, b.courtId, b.date, b.start, b.end, None)
    ensures SlotsSound(bs + [b])
  {
    var bs' := bs + [b];
    forall i, j | 0 <= i < j < |bs'| && bs'[i].status == Active && bs'[j].status == Active
                  && bs'[i].courtId == bs'[j].courtId && bs'[i].date == bs'[j].date
                  && NonWrapping(bs'[i].start) && NonWrapping(bs'[j].start)
      ensures !HoursOverlap(bs'[i].start, bs'[j].start)
    {
      if j == |bs| {
        assert !ClashesWith(bs[i], b.courtId, b.date, b.start, b.end, None);
        SqlTestIsHalfOpenOverlap(bs[i].start, b.start);
      }
    }
  }

  /**
   * Moving active row `i` to a slot that the conflict query (which skips row
   * `i` itself) does not reject keeps the no-double-booking property,
   * whatever slots the table holds.
   */
  lemma MoveKeepsSlotsSound(bs: seq<Booking>, i: nat, next: int, courtId: int, date: Date, start: Minute)
    requires BookingIdsBelow(bs, next) && SlotsSound(bs) && EndsFollowStarts(bs) && i < |bs|
    requires bs[i].status == Active
    requires !Clashes(bs, courtId, date, start, EndTime(start), Some(bs[i].id))
    ensures SlotsSound(bs[i := bs[i].(courtId := courtId, date := date, start := start, end := EndTime(start))])
  {
    var bs' := bs[i := bs[i].(courtId := courtId, date := date, start := start, end := EndTime(start))];
    forall a, b | 0 <= a < b < |bs'| && bs'[a].status == Active && bs'[b].status == Active
                  && bs'[a].courtId == bs'[b].courtId && bs'[a].date == bs'[b].date
                  && NonWrapping(bs'[a].start) && NonWrapping(bs'[b].start)
      ensures !HoursOverlap(bs'[a].start, bs'[b].start)
    {
      if a == i {
        assert bs[i].id < bs[b].id;
        assert !ClashesWith(bs[b], courtId, date, start, EndTime(start), Some(bs[i].id));
        SqlTestIsHalfOpenOverlap(bs[b].start, start);
      } else if b == i {
        assert bs[a].id < bs[i].id;
        assert !ClashesWith(bs[a], courtId, date, start, EndTime(start), Some(bs[i].id));
        SqlTestIsHalfOpenOverlap(bs[a].start, start);
      }
    }
  }

  /** Inserting a court whose (name, type) no active court has keeps active courts distinct. */
  lemma AppendCourtKeepsDistinct(cs: seq<Court>, c: Court)
    requires ActiveCourtsDistinct(cs)
    requires !ActiveCourtNamed(cs, c.name, c.courtType)
    ensures ActiveCourtsDistinct(cs + [c])
  {
    var cs' := cs + [c];
    forall i, j | 0 <= i < j < |cs'| && cs'[i].active && cs'[j].active
      ensures cs'[i].name != cs'[j].name || cs'[i].courtType != cs'[j].courtType
    {
      if j == |cs| {
        assert !(cs[i].active && cs[i].name == c.name && cs[i].courtType == c.courtType);
      }
    }
  }

  /**
   * Editing a court does not look for duplicates, so it can give an active
   * court the name and type of another active court.
   */
  lemma ReviseCanDuplicateCourt()
    ensures ActiveCourtsDistinct([Court(1, "Norte", F7, 14, true), Court(2, "Sur", F7, 14, true)])
    ensures !ActiveCourtsDistinct(ReviseById([Court(1, "Norte", F7, 14, true), Court(2, "Sur", F7, 14, true)], 2, "Norte", F7, 14))
  {
    var cs := [Court(1, "Norte", F7, 14, true), Court(2, "Sur", F7, 14, true)];
    var r := ReviseById(cs, 2, "Norte", F7, 14);
    assert r[0] == cs[0] && r[1] == Court(2, "Norte", F7, 14, true);
    assert "Norte" != "Sur" by { assert "Norte"[0] != "Sur"[0]; }
  }
}
