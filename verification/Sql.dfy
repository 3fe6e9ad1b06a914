/** The part of a SELECT the ledger relies on: ORDER BY. */
module Sql {

  function InsertOrdered<T>(rows: seq<T>, row: T, before: (T, T) -> bool): seq<T> {
    if |rows| == 0 || !before(row, rows[|rows| - 1]) then rows + [row]
    else InsertOrdered(rows[..|rows| - 1], row, before) + [rows[|rows| - 1]]
  }

  function OrderBy<T>(rows: seq<T>, before: (T, T) -> bool): seq<T> {
    if |rows| == 0 then []
    else InsertOrdered(OrderBy(rows[..|rows| - 1], before), rows[|rows| - 1], before)
  }

  /** Rows already in order come back as they are. */
  lemma {:induction false} OrderByKeeps<T>(rows: seq<T>, before: (T, T) -> bool)
    requires forall i | 0 < i < |rows| :: !before(rows[i], rows[i - 1])
    ensures OrderBy(rows, before) == rows
  {
    if |rows| > 0 {
      OrderByKeeps(rows[..|rows| - 1], before);
      assert rows == rows[..|rows| - 1] + [rows[|rows| - 1]];
    }
  }

  lemma {:induction false} InsertOrderedMembers<T>(rows: seq<T>, row: T, before: (T, T) -> bool)
    ensures multiset(InsertOrdered(rows, row, before)) == multiset(rows) + multiset{row}
  {
    if |rows| > 0 && before(row, rows[|rows| - 1]) {
      InsertOrderedMembers(rows[..|rows| - 1], row, before);
      assert rows == rows[..|rows| - 1] + [rows[|rows| - 1]];
    }
  }

  /** Ordering loses no row and invents none. */
  lemma {:induction false} OrderByMembers<T>(rows: seq<T>, before: (T, T) -> bool)
    ensures multiset(OrderBy(rows, before)) == multiset(rows)
    ensures |OrderBy(rows, before)| == |rows|
    ensures forall row :: row in OrderBy(rows, before) <==> row in rows
  {
    if |rows| > 0 {
      var init := rows[..|rows| - 1];
      OrderByMembers(init, before);
      InsertOrderedMembers(OrderBy(init, before), rows[|rows| - 1], before);
      assert rows == init + [rows[|rows| - 1]];
    }
    assert |OrderBy(rows, before)| == |multiset(OrderBy(rows, before))| == |multiset(rows)| == |rows|;
    forall row ensures row in OrderBy(rows, before) <==> row in rows {
      assert row in multiset(OrderBy(rows, before)) <==> row in OrderBy(rows, before);
      assert row in multiset(rows) <==> row in rows;
    }
  }
}
