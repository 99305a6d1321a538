/**
 * The order `ORDER BY c.tipo, c.nombre` puts courts in: by the text of the
 * type, then by name, both compared as SQLite's default (binary) collation
 * compares text.
 */
module Ordering {
  import opened Tables

  /** Text order: code point by code point, a proper prefix first. */
  predicate TextLe(a: string, b: string)
    decreases |a|
  {
    |a| == 0 || (|b| > 0 && (a[0] < b[0] || (a[0] == b[0] && TextLe(a[1..], b[1..]))))
  }

  /** Any two texts are in order one way or the other. */
  lemma {:induction false} TextLeTotal(a: string, b: string)
    ensures TextLe(a, b) || TextLe(b, a)
    decreases |a|
  {
    if |a| > 0 && |b| > 0 && a[0] == b[0] {
      TextLeTotal(a[1..], b[1..]);
    }
  }

  /** Text order is transitive. */
  lemma {:induction false} TextLeTransitive(a: string, b: string, c: string)
    requires TextLe(a, b) && TextLe(b, c)
    ensures TextLe(a, c)
    decreases |a|
  {
    if |a| > 0 && a[0] == b[0] && b[0] == c[0] {
      TextLeTransitive(a[1..], b[1..], c[1..]);
    }
  }

  /** The position of each type in text order: "F11" < "F5" < "F7". */
  function TypeRank(t: CourtType): nat
  {
    match t
    case F11 => 0
    case F5 => 1
    case F7 => 2
  }

  /** Ranking types by `TypeRank` is ordering their stored text. */
  lemma TypeRankFollowsText(t: CourtType, u: CourtType)
    ensures TypeRank(t) <= TypeRank(u) <==> TextLe(TypeName(t), TypeName(u))
  {
    assert TextLe("F1", "F5") && TextLe("F1", "F7") && TextLe("F5", "F7");
    assert !TextLe("F5", "F1") && !TextLe("F7", "F1") && !TextLe("F7", "F5");
    assert TextLe("F11", "F5") && TextLe("F11", "F7") && TextLe("F5", "F7");
    assert TextLe("F11", "F11") && TextLe("F5", "F5") && TextLe("F7", "F7");
  }

  /** `x` may come before `y` under `ORDER BY tipo, nombre`. */
  predicate CourtLe(x: Court, y: Court)
  {
    TypeRank(x.courtType) < TypeRank(y.courtType)
    || (x.courtType == y.courtType && TextLe(x.name, y.name))
  }

  /** Any two courts are in order one way or the other. */
  lemma CourtLeTotal(x: Court, y: Court)
    ensures CourtLe(x, y) || CourtLe(y, x)
  {
    TextLeTotal(x.name, y.name);
  }

  /** The court order is transitive. */
  lemma CourtLeTransitive(x: Court, y: Court, z: Court)
    requires CourtLe(x, y) && CourtLe(y, z)
    ensures CourtLe(x, z)
  {
    if x.courtType == y.courtType == z.courtType {
      TextLeTransitive(x.name, y.name, z.name);
    }
  }

  /** Every court is in order with every court after it. */
  predicate Sorted(cs: seq<Court>)
  {
    forall i, j | 0 <= i < j < |cs| :: CourtLe(cs[i], cs[j])
  }

  /** Puts `c` in front of the first court it may precede. */
  function Insert(c: Court, cs: seq<Court>): seq<Court>
  {
    if |cs| == 0 then [c]
    else if CourtLe(c, cs[0]) then [c] + cs
    else [cs[0]] + Insert(c, cs[1..])
  }

  /** The courts in `ORDER BY tipo, nombre` order (insertion sort). */
  function SortCourts(cs: seq<Court>): seq<Court>
  {
    if |cs| == 0 then [] else Insert(cs[0], SortCourts(cs[1..]))
  }

  /** Inserting adds exactly the one court. */
  lemma {:induction false} InsertPermutes(c: Court, cs: seq<Court>)
    ensures multiset(Insert(c, cs)) == multiset(cs) + multiset{c}
  {
    if |cs| > 0 && !CourtLe(c, cs[0]) {
      InsertPermutes(c, cs[1..]);
      assert cs == [cs[0]] + cs[1..];
    }
  }

  /** Inserting into a sorted sequence keeps it sorted. */
  lemma {:induction false} InsertKeepsSorted(c: Court, cs: seq<Court>)
    requires Sorted(cs)
    ensures Sorted(Insert(c, cs))
  {
    if |cs| == 0 {
    } else if CourtLe(c, cs[0]) {
      var r := [c] + cs;
      forall i, j | 0 <= i < j < |r| ensures CourtLe(r[i], r[j]) {
        if i == 0 && j > 1 {
          CourtLeTransitive(c, cs[0], cs[j - 1]);
        }
      }
    } else {
      CourtLeTotal(c, cs[0]);
      var tail := Insert(c, cs[1..]);
      InsertKeepsSorted(c, cs[1..]);
      InsertPermutes(c, cs[1..]);
      var r := [cs[0]] + tail;
      forall i, j | 0 <= i < j < |r| ensures CourtLe(r[i], r[j]) {
        if i == 0 {
          assert r[j] in multiset(tail);
          assert r[j] == c || r[j] in multiset(cs[1..]);
          if r[j] != c {
            var k :| 0 <= k < |cs[1..]| && cs[1..][k] == r[j];
            assert CourtLe(cs[0], cs[k + 1]);
          }
        }
      }
    }
  }

  /** Sorting rearranges the courts without adding or dropping any. */
  lemma {:induction false} SortCourtsPermutes(cs: seq<Court>)
    ensures multiset(SortCourts(cs)) == multiset(cs)
  {
    if |cs| > 0 {
      SortCourtsPermutes(cs[1..]);
      InsertPermutes(cs[0], SortCourts(cs[1..]));
      assert cs == [cs[0]] + cs[1..];
    }
  }

  /** Sorting puts the courts in `ORDER BY tipo, nombre` order. */
  lemma {:induction false} SortCourtsSorted(cs: seq<Court>)
    ensures Sorted(SortCourts(cs))
  {
    if |cs| > 0 {
      SortCourtsSorted(cs[1..]);
      InsertKeepsSorted(cs[0], SortCourts(cs[1..]));
    }
  }
}
