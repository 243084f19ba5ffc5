/** Row cleaning, `df.dropna(subset=["Unit_Cost", "Quantity"])`: a row
    survives when it has a value in every column labelled Unit_Cost or
    Quantity; the survivors keep their order and their cells. */
module Cleaning {
  import opened Frames

  /** A column the cleaning step inspects. */
  predicate Inspected(name: string) {
    name == UNIT_COST || name == QUANTITY
  }

  /** The row has a value in every inspected column (pandas looks at every
      column carrying an inspected label, duplicates included). */
  predicate Complete(columns: seq<string>, row: Row) {
    forall j | 0 <= j < |columns| && j < |row| && Inspected(columns[j]) :: row[j] != NA
  }

  /** The surviving rows, in their original order. */
  function DropIncomplete(columns: seq<string>, rows: seq<Row>): (r: seq<Row>)
    ensures |r| <= |rows|
    ensures forall row :: row in r <==> row in rows && Complete(columns, row)
  {
    if rows == [] then []
    else if Complete(columns, rows[0]) then [rows[0]] + DropIncomplete(columns, rows[1..])
    else DropIncomplete(columns, rows[1..])
  }

  /** Cleaning a table: a KeyError naming every inspected label that is not
      a column, or the same columns with the incomplete rows dropped. */
  function Clean(f: Frame): (r: Result<Frame>)
    requires WellFormed(f)
    ensures r.Err? <==> UNIT_COST !in f.columns || QUANTITY !in f.columns
    ensures r.Err? ==> r.error == MissingColumns(Missing(f.columns, [UNIT_COST, QUANTITY]))
    ensures r.Ok? ==> WellFormed(r.value) && r.value.columns == f.columns
    ensures r.Ok? ==> r.value.rows == DropIncomplete(f.columns, f.rows)
  {
    var missing := Missing(f.columns, [UNIT_COST, QUANTITY]);
    if missing != [] then
      assert missing[0] in missing;
      Err(MissingColumns(missing))
    else
      assert UNIT_COST !in missing && QUANTITY !in missing;
      Ok(Frame(f.columns, DropIncomplete(f.columns, f.rows)))
  }

  /** The positions of the complete rows, in increasing order. */
  function KeptIndices(columns: seq<string>, rows: seq<Row>): (r: seq<nat>)
    ensures forall i :: i in r <==> 0 <= i < |rows| && Complete(columns, rows[i])
    ensures forall a, b | 0 <= a < b < |r| :: r[a] < r[b]
  {
    if rows == [] then []
    else
      var init := rows[..|rows| - 1];
      var r := KeptIndices(columns, init);
      assert forall i | 0 <= i < |init| :: init[i] == rows[i];
      assert forall k | 0 <= k < |r| :: r[k] in r && r[k] < |init|;
      if Complete(columns, rows[|rows| - 1]) then r + [|rows| - 1] else r
  }

  /** Cleaning commutes with concatenation: the rows of one part never move
      past the rows of another. */
  lemma {:induction false} DropIncompleteAppend(columns: seq<string>, a: seq<Row>, b: seq<Row>)
    ensures DropIncomplete(columns, a + b) == DropIncomplete(columns, a) + DropIncomplete(columns, b)
  {
    if a != [] {
      assert (a + b)[1..] == a[1..] + b;
      DropIncompleteAppend(columns, a[1..], b);
    } else {
      assert a + b == b;
    }
  }

  /** Appending one row appends it to the survivors, and its position to
      the kept positions, exactly when it is complete. */
  lemma DropIncompleteSnoc(columns: seq<string>, rows: seq<Row>)
    requires rows != []
    ensures var n := |rows| - 1;
      var tail := if Complete(columns, rows[n]) then [rows[n]] else [];
      && DropIncomplete(columns, rows) == DropIncomplete(columns, rows[..n]) + tail
      && KeptIndices(columns, rows) == KeptIndices(columns, rows[..n]) + (if Complete(columns, rows[n]) then [n] else [])
  {
    var n := |rows| - 1;
    assert rows == rows[..n] + [rows[n]];
    DropIncompleteAppend(columns, rows[..n], [rows[n]]);
    assert DropIncomplete(columns, [rows[n]]) == if Complete(columns, rows[n]) then [rows[n]] else [];
  }

  /** The cleaned rows are exactly the complete raw rows, in their original
      relative order: the k-th cleaned row is the raw row at the k-th
      position holding a complete row. */
  lemma {:induction false} DropIncompleteOrder(columns: seq<string>, rows: seq<Row>)
    ensures |DropIncomplete(columns, rows)| == |KeptIndices(columns, rows)|
    ensures forall k | 0 <= k < |KeptIndices(columns, rows)| ::
      KeptIndices(columns, rows)[k] < |rows| &&
      DropIncomplete(columns, rows)[k] == rows[KeptIndices(columns, rows)[k]]
  {
    if rows != [] {
      var n := |rows| - 1;
      var init, last := rows[..n], rows[n];
      DropIncompleteOrder(columns, init);
      DropIncompleteSnoc(columns, rows);
      var d, idx := DropIncomplete(columns, init), KeptIndices(columns, init);
      var d', idx' := DropIncomplete(columns, rows), KeptIndices(columns, rows);
      if Complete(columns, last) {
        assert d' == d + [last] && idx' == idx + [n];
        forall k | 0 <= k < |idx'|
          ensures idx'[k] < |rows| && d'[k] == rows[idx'[k]]
        {
          if k < |idx| {
            assert d'[k] == d[k] && idx'[k] == idx[k];
          }
        }
      } else {
        assert d' == d && idx' == idx;
        forall k | 0 <= k < |idx'|
          ensures idx'[k] < |rows| && d'[k] == rows[idx'[k]]
        {
          assert idx[k] < |init|;
        }
      }
    }
  }

  /** No row is dropped exactly when every raw row is complete. */
  lemma {:induction false} DropIncompleteKeepsAll(columns: seq<string>, rows: seq<Row>)
    ensures |DropIncomplete(columns, rows)| == |rows| <==> forall row | row in rows :: Complete(columns, row)
  {
    if rows != [] {
      DropIncompleteKeepsAll(columns, rows[1..]);
      assert forall row | row in rows[1..] :: row in rows;
      assert forall row | row in rows :: row == rows[0] || row in rows[1..];
    }
  }

  /** Cleaning an already cleaned table changes nothing. */
  lemma {:induction false} DropIncompleteIdempotent(columns: seq<string>, rows: seq<Row>)
    ensures DropIncomplete(columns, DropIncomplete(columns, rows)) == DropIncomplete(columns, rows)
  {
    if rows != [] {
      DropIncompleteIdempotent(columns, rows[1..]);
      if Complete(columns, rows[0]) {
        var r := DropIncomplete(columns, rows);
        assert r[0] == rows[0] && r[1..] == DropIncomplete(columns, rows[1..]);
      }
    }
  }

  /** When Unit_Cost and Quantity each label one column, a row is complete
      exactly when both of its cells there hold a value. */
  lemma CompleteAt(columns: seq<string>, row: Row)
    requires |row| == |columns|
    requires Unique(columns, UNIT_COST) && Unique(columns, QUANTITY)
    ensures Complete(columns, row) <==>
      row[Locate(columns, UNIT_COST).value] != NA && row[Locate(columns, QUANTITY).value] != NA
  {
  }
}
