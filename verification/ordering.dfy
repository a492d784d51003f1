/** Ordering rows by their Date column, ascending or descending (sort_values('Date')).
    The library sort is not stable, so only the order of dates and the multiset of rows
    are specified; an insertion sort is one sort with that specification. */
module Ordering {
  import opened Ledger
  import opened Aggregation

  /** a may stand before b in a table ordered by date in the given direction. */
  predicate InOrder(ascending: bool, a: Transaction, b: Transaction) {
    if ascending then DateLe(a.date, b.date) else DateLe(b.date, a.date)
  }

  predicate SortedByDate(rows: seq<Transaction>, ascending: bool) {
    forall i, j :: 0 <= i < j < |rows| ==> InOrder(ascending, rows[i], rows[j])
  }

  lemma InOrderTotal(ascending: bool, a: Transaction, b: Transaction)
    ensures InOrder(ascending, a, b) || InOrder(ascending, b, a)
  {
  }

  lemma InOrderTransitive(ascending: bool, a: Transaction, b: Transaction, c: Transaction)
    requires InOrder(ascending, a, b) && InOrder(ascending, b, c)
    ensures InOrder(ascending, a, c)
  {
  }

  /** A row that may precede every row of an ordered table may be put in front of it. */
  lemma SortedCons(x: Transaction, rows: seq<Transaction>, ascending: bool)
    requires SortedByDate(rows, ascending)
    requires forall y :: y in rows ==> InOrder(ascending, x, y)
    ensures SortedByDate([x] + rows, ascending)
  {
    var r := [x] + rows;
    forall i, j | 0 <= i < j < |r| ensures InOrder(ascending, r[i], r[j]) {
      if i == 0 {
        assert r[j] == rows[j - 1];
      } else {
        assert r[i] == rows[i - 1] && r[j] == rows[j - 1];
      }
    }
  }

  function Insert(x: Transaction, rows: seq<Transaction>, ascending: bool): (r: seq<Transaction>)
    requires SortedByDate(rows, ascending)
    ensures SortedByDate(r, ascending)
    ensures multiset(r) == multiset(rows) + multiset{x}
  {
    if rows == [] then [x]
    else if InOrder(ascending, x, rows[0]) then
      assert forall y :: y in rows ==> InOrder(ascending, x, y) by {
        forall y | y in rows ensures InOrder(ascending, x, y) {
          var j :| 0 <= j < |rows| && rows[j] == y;
          if j > 0 {
            InOrderTransitive(ascending, x, rows[0], y);
          }
        }
      }
      SortedCons(x, rows, ascending);
      [x] + rows
    else
      var first, rest := rows[0], Insert(x, rows[1..], ascending);
      assert rows == [first] + rows[1..];
      assert forall y :: y in rest ==> InOrder(ascending, first, y) by {
        forall y | y in rest ensures InOrder(ascending, first, y) {
          assert y in multiset(rest);
          if y == x {
            InOrderTotal(ascending, x, first);
          } else {
            var j :| 0 <= j < |rows[1..]| && rows[1..][j] == y;
            assert rows[j + 1] == y;
          }
        }
      }
      SortedCons(first, rest, ascending);
      [first] + rest
  }

  /** The rows ordered by date in the given direction, as a permutation of the input. */
  function SortByDate(rows: seq<Transaction>, ascending: bool): (r: seq<Transaction>)
    ensures SortedByDate(r, ascending)
    ensures multiset(r) == multiset(rows)
    ensures |r| == |rows|
  {
    if rows == [] then []
    else
      assert rows == [rows[0]] + rows[1..];
      var r := Insert(rows[0], SortByDate(rows[1..], ascending), ascending);
      assert |r| == |multiset(r)|;
      r
  }

  /** Selecting rows from an ordered table leaves it ordered. */
  lemma {:induction false} FilterKeepsOrder(rows: seq<Transaction>, keep: Transaction -> bool, ascending: bool)
    requires SortedByDate(rows, ascending)
    ensures SortedByDate(Filter(rows, keep), ascending)
  {
    if rows != [] {
      var init, last := rows[..|rows| - 1], rows[|rows| - 1];
      FilterKeepsOrder(init, keep, ascending);
      var f := Filter(init, keep);
      forall y | y in f ensures InOrder(ascending, y, last) {
        FilterMember(init, keep, y);
      }
    }
  }
}
