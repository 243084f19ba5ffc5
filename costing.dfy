/** The derived column, `df_clean["Total_Cost"] = df_clean["Unit_Cost"] *
    df_clean["Quantity"]`: each row gains (or has overwritten) a Total_Cost
    cell holding the product of its unit cost and its quantity. */
module Costing {
  import opened Frames
  import Cleaning

  /** Elementwise multiplication of two numeric cells; a missing factor
      gives a missing product, as NaN arithmetic does. */
  function Product(a: Cell, b: Cell): (r: Cell)
    requires !a.Text? && !b.Text?
    ensures r != NA <==> a != NA && b != NA
    ensures r.Num? ==> r.value == a.value * b.value
  {
    if a.Num? && b.Num? then Num(a.value * b.value) else NA
  }

  /** The columns after the assignment: an existing Total_Cost column is
      reused, otherwise the new column goes last. */
  function WithTotalColumn(columns: seq<string>): seq<string> {
    if TOTAL_COST in columns then columns else columns + [TOTAL_COST]
  }

  /** A row after the assignment, with `v` in every Total_Cost cell. */
  function WithTotal(columns: seq<string>, row: Row, v: Cell): (r: Row)
    requires |row| == |columns|
    ensures |r| == |WithTotalColumn(columns)|
    ensures forall j | 0 <= j < |r| ::
      && (WithTotalColumn(columns)[j] == TOTAL_COST ==> r[j] == v)
      && (WithTotalColumn(columns)[j] != TOTAL_COST ==> j < |columns| && r[j] == row[j])
  {
    if TOTAL_COST in columns then
      seq(|row|, j requires 0 <= j < |row| => if columns[j] == TOTAL_COST then v else row[j])
    else
      row + [v]
  }

  /** Some row holds text in column `c`. */
  predicate TextIn(rows: seq<Row>, c: nat) {
    exists i | 0 <= i < |rows| :: c < |rows[i]| && rows[i][c].Text?
  }

  /** Every row with its product assigned. */
  function TotalRows(columns: seq<string>, rows: seq<Row>, u: nat, q: nat): (r: seq<Row>)
    requires u < |columns| && q < |columns|
    requires forall row: Row | row in rows :: |row| == |columns| && !row[u].Text? && !row[q].Text?
    ensures |r| == |rows|
    ensures forall i | 0 <= i < |rows| ::
      r[i] == WithTotal(columns, rows[i], Product(rows[i][u], rows[i][q]))
    ensures forall row | row in r :: |row| == |WithTotalColumn(columns)|
  {
    if rows == [] then []
    else [WithTotal(columns, rows[0], Product(rows[0][u], rows[0][q]))] + TotalRows(columns, rows[1..], u, q)
  }

  /** Adding the Total_Cost column. Selecting Unit_Cost and Quantity fails
      when a label is absent or names several columns, and multiplying fails
      on text; otherwise every row gets its product. */
  function AddTotalCost(f: Frame): (r: Result<Frame>)
    requires WellFormed(f)
    ensures r.Ok? ==> WellFormed(r.value) && |r.value.rows| == |f.rows|
    ensures r.Ok? ==> r.value.columns == WithTotalColumn(f.columns)
  {
    var u :- Locate(f.columns, UNIT_COST);
    var q :- Locate(f.columns, QUANTITY);
    if TextIn(f.rows, u) then Err(NonNumeric(UNIT_COST))
    else if TextIn(f.rows, q) then Err(NonNumeric(QUANTITY))
    else
      assert forall i | 0 <= i < |f.rows| :: f.rows[i] in f.rows;
      var rows := TotalRows(f.columns, f.rows, u, q);
      Ok(Frame(WithTotalColumn(f.columns), rows))
  }

  /** The assignment fails exactly when Unit_Cost or Quantity does not name
      a single column, or one of those columns holds text. */
  lemma AddTotalCostFails(f: Frame)
    requires WellFormed(f)
    ensures AddTotalCost(f).Err? <==>
      || !Unique(f.columns, UNIT_COST)
      || !Unique(f.columns, QUANTITY)
      || TextIn(f.rows, Locate(f.columns, UNIT_COST).value)
      || TextIn(f.rows, Locate(f.columns, QUANTITY).value)
  {
  }

  /** Reading the new table by label: in every row the Total_Cost cells
      hold the product of the row's Unit_Cost and Quantity cells, and the
      cell in every other column is the one the row had before. */
  lemma AddTotalCostRow(f: Frame, i: nat)
    requires WellFormed(f) && AddTotalCost(f).Ok? && i < |f.rows|
    ensures var g := AddTotalCost(f).value;
      var u, q := Locate(f.columns, UNIT_COST).value, Locate(f.columns, QUANTITY).value;
      && !f.rows[i][u].Text? && !f.rows[i][q].Text?
      && forall j | 0 <= j < |g.columns| ::
           && (g.columns[j] == TOTAL_COST ==> g.rows[i][j] == Product(f.rows[i][u], f.rows[i][q]))
           && (g.columns[j] != TOTAL_COST ==> j < |f.columns| && g.rows[i][j] == f.rows[i][j])
  {
    assert f.rows[i] in f.rows;
  }

  /** A label other than Total_Cost selects the same column after the
      assignment as before, and fails the same way when it does not name a
      single column. */
  lemma LocateWithTotal(columns: seq<string>, name: string)
    requires name != TOTAL_COST
    ensures Locate(WithTotalColumn(columns), name) == Locate(columns, name)
  {
    if TOTAL_COST !in columns {
      assert (columns + [TOTAL_COST])[..|columns|] == columns;
      assert IndicesOf(columns + [TOTAL_COST], name) == IndicesOf(columns, name);
    }
  }

  /** The rows of a successful assignment are the products computed row by
      row. */
  lemma AddTotalCostUnfold(f: Frame)
    requires WellFormed(f) && AddTotalCost(f).Ok?
    ensures var u, q := Locate(f.columns, UNIT_COST), Locate(f.columns, QUANTITY);
      && u.Ok? && q.Ok? && !TextIn(f.rows, u.value) && !TextIn(f.rows, q.value)
      && (forall row: Row | row in f.rows :: |row| == |f.columns| && !row[u.value].Text? && !row[q.value].Text?)
      && AddTotalCost(f).value.rows == TotalRows(f.columns, f.rows, u.value, q.value)
  {
    var u, q := Locate(f.columns, UNIT_COST).value, Locate(f.columns, QUANTITY).value;
    forall row: Row | row in f.rows ensures !row[u].Text? && !row[q].Text? {
      var i :| 0 <= i < |f.rows| && f.rows[i] == row;
      assert !TextIn(f.rows, u) && !TextIn(f.rows, q);
    }
  }

  /** In a cleaned row (one with both inspected cells present) the
      Unit_Cost and Quantity cells are numbers and every Total_Cost cell
      holds their product, which is itself a number. */
  lemma CleanedTotalCost(c: Frame, i: nat)
    requires WellFormed(c) && AddTotalCost(c).Ok? && i < |c.rows|
    requires Cleaning.Complete(c.columns, c.rows[i])
    ensures var g := AddTotalCost(c).value;
      var u, q := Locate(g.columns, UNIT_COST), Locate(g.columns, QUANTITY);
      && u.Ok? && q.Ok? && TOTAL_COST in g.columns
      && g.rows[i][u.value].Num? && g.rows[i][q.value].Num?
      && Product(g.rows[i][u.value], g.rows[i][q.value]).Num?
      && forall j | 0 <= j < |g.columns| && g.columns[j] == TOTAL_COST ::
           g.rows[i][j] == Product(g.rows[i][u.value], g.rows[i][q.value])
  {
    var g := AddTotalCost(c).value;
    AddTotalCostFails(c);
    var u, q := Locate(c.columns, UNIT_COST).value, Locate(c.columns, QUANTITY).value;
    LocateWithTotal(c.columns, UNIT_COST);
    LocateWithTotal(c.columns, QUANTITY);
    var row := c.rows[i];
    assert row in c.rows;
    Cleaning.CompleteAt(c.columns, row);
    AddTotalCostRow(c, i);
  }
}
