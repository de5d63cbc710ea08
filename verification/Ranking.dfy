/** The order of a board: exact average, then review count, then stable driver ID. */
module Ranking {
  import opened Tables

  /** One result row of the ranking query: a score joined with its driver's stable ID. */
  datatype Row = Row(driver: DriverId, stableId: nat, sum: int, count: nat)

  /** The exact fraction; a row without reviews is never eligible. */
  function Average(r: Row): real {
    if r.count == 0 then 0.0 else r.sum as real / r.count as real
  }

  /** `a` is listed before `b`. */
  predicate Above(a: Row, b: Row) {
    || Average(a) > Average(b)
    || (Average(a) == Average(b) && a.count > b.count)
    || (Average(a) == Average(b) && a.count == b.count && a.stableId < b.stableId)
  }

  ghost predicate DistinctDrivers(rows: seq<Row>) {
    forall i, j :: 0 <= i < j < |rows| ==> rows[i].stableId != rows[j].stableId
  }

  ghost predicate Descending(rows: seq<Row>) {
    forall i, j :: 0 <= i < j < |rows| ==> Above(rows[i], rows[j])
  }

  // ---------- ORDER BY ----------

  function Insert(r: Row, rows: seq<Row>): seq<Row> {
    if |rows| == 0 || Above(r, rows[0]) then [r] + rows
    else [rows[0]] + Insert(r, rows[1..])
  }

  function Ranked(rows: seq<Row>): seq<Row> {
    if |rows| == 0 then [] else Insert(rows[0], Ranked(rows[1..]))
  }

  // ---------- LIMIT and numbering ----------

  function EntryAt(rows: seq<Row>, i: nat): Entry
    requires i < |rows|
  {
    Entry(i + 1, rows[i].driver, rows[i].sum, rows[i].count)
  }

  function Limited(rows: seq<Row>): seq<Row> {
    if |rows| <= LEADERBOARD_LIMIT then rows else rows[..LEADERBOARD_LIMIT]
  }

  function Numbered(rows: seq<Row>): seq<Entry> {
    seq(|rows|, i requires 0 <= i < |rows| => EntryAt(rows, i))
  }

  function Board(rows: seq<Row>): seq<Entry> {
    Numbered(Limited(Ranked(rows)))
  }

  // ---------- the order is a strict total order ----------

  lemma AboveIsStrictTotalOrder(a: Row, b: Row, c: Row)
    ensures !Above(a, a)
    ensures Above(a, b) && Above(b, c) ==> Above(a, c)
    ensures Above(a, b) ==> !Above(b, a)
    ensures a.stableId != b.stableId ==> Above(a, b) || Above(b, a)
  {}

  /**
   The order in whole numbers: the larger average, compared as cross products; on equal
   averages more reviews; on equal counts the smaller stable ID.
   */
  ghost predicate Beats(sum: int, count: nat, stableId: nat, otherSum: int, otherCount: nat, otherId: nat) {
    || sum * otherCount > otherSum * count
    || (sum * otherCount == otherSum * count && count > otherCount)
    || (sum * otherCount == otherSum * count && count == otherCount && stableId < otherId)
  }

  lemma CrossProducts(p: real, q: real, r: real, s: real)
    requires q > 0.0 && s > 0.0
    ensures p / q > r / s <==> p * s > r * q
    ensures p / q == r / s <==> p * s == r * q
  {
    var x, y := p / q, r / s;
    assert p == x * q && r == y * s;
    assert p * s - r * q == (x - y) * (q * s);
    assert q * s > 0.0;
    SignOfProduct(x - y, q * s);
  }

  lemma SignOfProduct(a: real, b: real)
    requires b > 0.0
    ensures a * b > 0.0 <==> a > 0.0
    ensures a * b == 0.0 <==> a == 0.0
  {}

  /** Between rows with reviews, listing by exact averages is listing by cross products. */
  lemma AboveIsBeats(a: Row, b: Row)
    requires a.count > 0 && b.count > 0
    ensures Above(a, b) <==> Beats(a.sum, a.count, a.stableId, b.sum, b.count, b.stableId)
  {
    CrossProducts(a.sum as real, a.count as real, b.sum as real, b.count as real);
    assert (a.sum * b.count) as real == a.sum as real * b.count as real;
    assert (b.sum * a.count) as real == b.sum as real * a.count as real;
  }

  // ---------- sorting ----------

  lemma {:induction false} InsertKeepsRows(r: Row, rows: seq<Row>)
    ensures multiset(Insert(r, rows)) == multiset(rows) + multiset{r}
  {
    if |rows| == 0 || Above(r, rows[0]) {
      assert multiset([r] + rows) == multiset([r]) + multiset(rows);
    } else {
      InsertKeepsRows(r, rows[1..]);
      assert rows == [rows[0]] + rows[1..];
    }
  }

  lemma {:induction false} InsertKeepsOrder(r: Row, rows: seq<Row>)
    requires Descending(rows)
    requires forall x :: x in rows ==> x.stableId != r.stableId
    ensures Descending(Insert(r, rows))
  {
    if |rows| == 0 {
    } else if Above(r, rows[0]) {
    } else {
      var tail := rows[1..];
      InsertKeepsOrder(r, tail);
      InsertKeepsRows(r, tail);
      var rest := Insert(r, tail);
      forall i | 0 <= i < |rest| ensures Above(rows[0], rest[i]) {
        assert rest[i] in multiset(rest);
        if rest[i] != r {
          assert rest[i] in multiset(tail);
          var j :| 0 <= j < |tail| && tail[j] == rest[i];
          assert rows[j + 1] == rest[i];
        }
      }
    }
  }

  lemma {:induction false} RankedIsSorted(rows: seq<Row>)
    requires DistinctDrivers(rows)
    ensures Descending(Ranked(rows))
    ensures multiset(Ranked(rows)) == multiset(rows)
  {
    if |rows| > 0 {
      RankedIsSorted(rows[1..]);
      InsertKeepsRows(rows[0], Ranked(rows[1..]));
      assert rows == [rows[0]] + rows[1..];
      forall x | x in Ranked(rows[1..]) ensures x.stableId != rows[0].stableId {
        assert x in multiset(Ranked(rows[1..]));
        assert x in multiset(rows[1..]);
      }
      InsertKeepsOrder(rows[0], Ranked(rows[1..]));
    }
  }

  lemma SameHead(a: seq<Row>, b: seq<Row>)
    requires Descending(a) && Descending(b)
    requires multiset(a) == multiset(b) && |a| > 0
    ensures |b| > 0 && a[0] == b[0]
  {
    assert a[0] in multiset(b);
    var i :| 0 <= i < |b| && b[i] == a[0];
    assert b[0] in multiset(a);
    var j :| 0 <= j < |a| && a[j] == b[0];
    if i > 0 && j > 0 {
      AboveIsStrictTotalOrder(a[0], b[0], a[0]);
      assert false;
    }
  }

  /** Two descending listings of the same rows are the same listing. */
  lemma {:induction false} DescendingIsUnique(a: seq<Row>, b: seq<Row>)
    requires Descending(a) && Descending(b)
    requires multiset(a) == multiset(b)
    ensures a == b
  {
    if |a| == 0 {
      assert |multiset(b)| == 0;
    } else {
      SameHead(a, b);
      assert a == [a[0]] + a[1..] && b == [b[0]] + b[1..];
      assert multiset(a[1..]) == multiset(a) - multiset{a[0]};
      assert multiset(b[1..]) == multiset(b) - multiset{b[0]};
      DescendingIsUnique(a[1..], b[1..]);
    }
  }

  /**
   The board is determined by the set of rows alone: any listing of the same rows in
   descending order is the one `Ranked` computes, so the order in which the query meets
   its rows does not matter.
   */
  lemma RankedIsUnique(rows: seq<Row>, listing: seq<Row>)
    requires DistinctDrivers(rows)
    requires multiset(listing) == multiset(rows)
    ensures Descending(listing) ==> listing == Ranked(rows)
    ensures DistinctDrivers(listing) ==> Board(listing) == Board(rows)
  {
    RankedIsSorted(rows);
    if Descending(listing) {
      DescendingIsUnique(listing, Ranked(rows));
    }
    if DistinctDrivers(listing) {
      RankedIsSorted(listing);
      DescendingIsUnique(Ranked(listing), Ranked(rows));
    }
  }

  ghost predicate Lists(e: Entry, r: Row) {
    e.driver == r.driver && e.sum == r.sum && e.count == r.count
  }

  lemma BoardEntriesAreRows(rows: seq<Row>, i: nat)
    requires DistinctDrivers(rows)
    requires i < |Board(rows)|
    ensures i < |Limited(Ranked(rows))|
    ensures Limited(Ranked(rows))[i] in rows
    ensures Lists(Board(rows)[i], Limited(Ranked(rows))[i])
  {
    RankedIsSorted(rows);
    assert Ranked(rows)[i] in multiset(Ranked(rows));
  }

  lemma OmittedRowsRankBelow(rows: seq<Row>, r: Row, i: nat)
    requires DistinctDrivers(rows)
    requires r in rows && r !in Limited(Ranked(rows))
    requires i < |Limited(Ranked(rows))|
    ensures Above(Limited(Ranked(rows))[i], r)
  {
    RankedIsSorted(rows);
    var all := Ranked(rows);
    assert r in multiset(all);
    var j :| 0 <= j < |all| && all[j] == r;
    var top := Limited(all);
    assert forall m :: 0 <= m < |top| ==> top[m] in top;
  }

  /**
   What a reader of a board may rely on: `min(100, eligible)` entries, ranks 1..n without
   gaps, every entry is an eligible row, entries appear in descending order, and every
   eligible row that is left out ranks below every entry.
   */
  lemma BoardIsTopOfRows(rows: seq<Row>)
    requires DistinctDrivers(rows)
    ensures |Board(rows)| == |Limited(Ranked(rows))| == if |rows| <= LEADERBOARD_LIMIT then |rows| else LEADERBOARD_LIMIT
    ensures forall i :: 0 <= i < |Board(rows)| ==> Board(rows)[i].rank == i + 1
    ensures forall i :: 0 <= i < |Board(rows)| ==> Limited(Ranked(rows))[i] in rows
                                                   && Lists(Board(rows)[i], Limited(Ranked(rows))[i])
    ensures Descending(Limited(Ranked(rows)))
    ensures forall r, i :: r in rows && r !in Limited(Ranked(rows)) && 0 <= i < |Board(rows)|
                           ==> Above(Limited(Ranked(rows))[i], r)
  {
    RankedIsSorted(rows);
    assert |multiset(Ranked(rows))| == |multiset(rows)|;
    forall i | 0 <= i < |Board(rows)| {
      BoardEntriesAreRows(rows, i);
    }
    forall r, i | r in rows && r !in Limited(Ranked(rows)) && 0 <= i < |Board(rows)| {
      OmittedRowsRankBelow(rows, r, i);
    }
  }
}
