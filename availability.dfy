/**
 * The availability query (`GET /api/disponibilidad`): for a date not in the
 * past, every active court (optionally of one type) with the hourly starts
 * between 08:00 and 23:00 at which no active booking of that court and date
 * starts.
 */
module Availability {
  import opened Wrappers
  import opened Clock
  import opened Tables
  import opened Ordering

  /** One entry of the reply: a court and its free starts. */
  datatype CourtSlots = CourtSlots(id: int, name: string, courtType: CourtType, capacity: int, free: seq<Minute>)

  /** A start on the hourly grid 08:00, 09:00, ..., 23:00. */
  predicate OnGrid(m: Minute)
  {
    m % MinutesPerHour == 0 && 8 * MinutesPerHour <= m
  }

  /** Strictly ascending times. */
  predicate Ascending(s: seq<Minute>)
  {
    forall i, j | 0 <= i < j < |s| :: s[i] < s[j]
  }

  /** Builds the grid hour by hour, 08:00 to 23:00. */
  method HourGrid() returns (grid: seq<Minute>)
    ensures |grid| == 16
    ensures Ascending(grid)
    ensures forall m: Minute :: m in grid <==> OnGrid(m)
  {
    grid := [];
    var hour := 8;
    while hour < 24
      invariant 8 <= hour <= 24
      invariant |grid| == hour - 8
      invariant forall k | 0 <= k < |grid| :: grid[k] == (8 + k) * MinutesPerHour
    {
      grid := grid + [hour * MinutesPerHour];
      hour := hour + 1;
    }
    forall m: Minute | OnGrid(m) ensures m in grid {
      var k := m / MinutesPerHour - 8;
      assert grid[k] == m;
    }
  }

  /** The starts of the active bookings of a court on a date (the column `horarios_ocupados`). */
  function Occupied(bs: seq<Booking>, courtId: int, date: Date): set<Minute>
  {
    set i | 0 <= i < |bs| && bs[i].courtId == courtId && bs[i].date == date && bs[i].status == Active :: bs[i].start
  }

  /** `horariosCompletos.filter(hora => !horariosOcupados.includes(hora))`: the unoccupied starts, in grid order. */
  function FreeSlots(grid: seq<Minute>, occupied: set<Minute>): (free: seq<Minute>)
    ensures forall m :: m in free <==> m in grid && m !in occupied
    ensures Ascending(grid) ==> Ascending(free)
    ensures (forall k | 0 <= k < |grid| :: grid[k] !in occupied) ==> free == grid
  {
    if |grid| == 0 then []
    else
      var rest := FreeSlots(grid[1..], occupied);
      assert Ascending(grid) ==> forall k | 0 <= k < |rest| :: grid[0] < rest[k] by {
        if Ascending(grid) {
          forall k | 0 <= k < |rest| ensures grid[0] < rest[k] {
            assert rest[k] in grid[1..];
            var j :| 0 <= j < |grid[1..]| && grid[1..][j] == rest[k];
            assert grid[j + 1] == rest[k];
          }
        }
      }
      (if grid[0] in occupied then [] else [grid[0]]) + rest
  }

  /** A court passes `WHERE c.activa = 1 [AND c.tipo = ?]`; an empty type means no type filter. */
  predicate Listed(c: Court, filter: string)
  {
    c.active && (filter == "" || TypeName(c.courtType) == filter)
  }

  /**
   * The courts that pass the filter, in table order: each row of the table
   * that passes appears as often as it occurs there, and no other does.
   */
  function ListedCourts(cs: seq<Court>, filter: string): (r: seq<Court>)
    ensures forall c :: c in r <==> c in cs && Listed(c, filter)
    ensures forall c :: multiset(r)[c] == if Listed(c, filter) then multiset(cs)[c] else 0
    ensures |r| <= |cs|
  {
    if |cs| == 0 then []
    else
      assert cs == [cs[0]] + cs[1..];
      (if Listed(cs[0], filter) then [cs[0]] else []) + ListedCourts(cs[1..], filter)
  }

  /** The courts the query returns, in `ORDER BY c.tipo, c.nombre` order. */
  function Shown(cs: seq<Court>, filter: string): (r: seq<Court>)
    ensures Sorted(r)
    ensures multiset(r) == multiset(ListedCourts(cs, filter))
  {
    SortCourtsSorted(ListedCourts(cs, filter));
    SortCourtsPermutes(ListedCourts(cs, filter));
    SortCourts(ListedCourts(cs, filter))
  }

  /**
   * `entry` reports court `c` on `date`: its columns, and, in ascending
   * order, exactly the grid starts at which no active booking of `c` on
   * `date` starts; all sixteen when it has none.
   */
  predicate Reports(entry: CourtSlots, c: Court, bs: seq<Booking>, date: Date)
  {
    && entry.id == c.id && entry.name == c.name && entry.courtType == c.courtType && entry.capacity == c.capacity
    && Ascending(entry.free)
    && (forall m: Minute :: m in entry.free <==> OnGrid(m) && m !in Occupied(bs, c.id, date))
    && (Occupied(bs, c.id, date) == {} ==> |entry.free| == 16)
  }

  /** The handler: missing and past dates are refused; otherwise one entry per shown court. */
  method Query(courts: seq<Court>, bookings: seq<Booking>, date: Option<Date>, filter: string, today: Date)
    returns (res: Result<seq<CourtSlots>, Error>)
    ensures date.None? ==> res == Failure(MissingField)
    ensures date.Some? && date.value < today ==> res == Failure(PastDate)
    ensures date.Some? && date.value >= today ==> res.Success?
    ensures res.Success? ==>
      && date.Some?
      && |res.value| == |Shown(courts, filter)|
      && forall k | 0 <= k < |res.value| :: Reports(res.value[k], Shown(courts, filter)[k], bookings, date.value)
  {
    if date.None? {
      return Failure(MissingField);
    }
    if date.value < today {
      return Failure(PastDate);
    }
    var grid := HourGrid();
    var shown := Shown(courts, filter);
    var entries := seq(|shown|, k requires 0 <= k < |shown| =>
      CourtSlots(shown[k].id, shown[k].name, shown[k].courtType, shown[k].capacity,
                 FreeSlots(grid, Occupied(bookings, shown[k].id, date.value))));
    res := Success(entries);
  }
}
