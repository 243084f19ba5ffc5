/** The report script from loading to the supplier summary: the loaded
    table's headers are normalised in place, the incomplete rows are
    dropped into a copy, the copy gains its Total_Cost column in place, and
    the copy is grouped into the supplier summary. Both the cleaned table
    and the summary go into the workbook. */
module Report {
  import opened Frames
  import Headers
  import Cleaning
  import Costing
  import Summary

  /** The two sheets of the workbook: the cleaned data and the summary. */
  datatype Output = Output(cleaned: Frame, summary: seq<Summary.SupplierTotal>)

  /** A pandas DataFrame the script updates in place. */
  class DataFrame {
    var columns: seq<string>
    var rows: seq<Row>

    constructor (f: Frame)
      ensures columns == f.columns && rows == f.rows
    {
      columns := f.columns;
      rows := f.rows;
    }

    function Value(): Frame
      reads this
    {
      Frame(columns, rows)
    }

    /** `df.columns = df.columns.str.strip().str.replace(" ", "_")`. */
    method NormalizeColumns()
      modifies this
      ensures columns == Headers.NormalizeColumns(old(columns)) && rows == old(rows)
      ensures WellFormed(old(Value())) ==> WellFormed(Value())
    {
      columns := Headers.NormalizeColumns(columns);
    }

    /** `df_clean["Total_Cost"] = df_clean["Unit_Cost"] * df_clean["Quantity"]`:
        on success the table is the one with the products assigned; on an
        error it is left as it was. */
    method SetTotalCost() returns (err: Option<Error>)
      requires WellFormed(Value())
      modifies this
      ensures var r := Costing.AddTotalCost(old(Value()));
        && (r.Ok? ==> err == None && Value() == r.value)
        && (r.Err? ==> err == Some(r.error) && Value() == old(Value()))
    {
      var r := Costing.AddTotalCost(Value());
      if r.Err? {
        return Some(r.error);
      }
      columns, rows := r.value.columns, r.value.rows;
      return None;
    }
  }

  /** The table after the header step. */
  function Normalized(raw: Frame): (r: Frame)
    requires WellFormed(raw)
    ensures WellFormed(r)
  {
    var f := Frame(Headers.NormalizeColumns(raw.columns), raw.rows);
    assert forall row | row in f.rows :: |row| == |f.columns|;
    f
  }

  /** What the script computes from the loaded table, or the error that
      stops it. */
  function Report(raw: Frame): (r: Result<Output>)
    requires WellFormed(raw)
    ensures r.Ok? ==> Summary.SortedByTotalCost(r.value.summary)
  {
    var c :- Cleaning.Clean(Normalized(raw));
    var g :- Costing.AddTotalCost(c);
    var summary :- Summary.Summarize(g);
    Ok(Output(g, summary))
  }

  /** Steps 3 to 6 of the script, run on the loaded table. */
  method GenerateReport(raw: Frame) returns (r: Result<Output>)
    requires WellFormed(raw)
    ensures r == Report(raw)
  {
    var df := new DataFrame(raw);
    df.NormalizeColumns();
    var c :- Cleaning.Clean(df.Value());
    var clean := new DataFrame(c);
    var err := clean.SetTotalCost();
    if err.Some? {
      return Err(err.value);
    }
    var summary :- Summary.Summarize(clean.Value());
    return Ok(Output(clean.Value(), summary));
  }

  /** The cost of one row: its unit cost times its quantity, or nothing
      when either is missing. */
  function Cost(unitCost: Cell, quantity: Cell): real {
    if unitCost.Num? && quantity.Num? then unitCost.value * quantity.value else 0.0
  }

  /** What one loaded row adds to the summary's costs: its cost when it
      has a supplier, nothing otherwise. */
  function RowCost(row: Row, s: nat, u: nat, q: nat): real
    requires s < |row| && u < |row| && q < |row|
  {
    if row[s] != NA then Cost(row[u], row[q]) else 0.0
  }

  /** The cost of the loaded rows that reach the summary: the cost of every
      row that has a supplier. */
  function RawCost(rows: seq<Row>, s: nat, u: nat, q: nat): real
    requires forall row | row in rows :: s < |row| && u < |row| && q < |row|
  {
    if rows == [] then 0.0
    else
      assert forall r | r in rows[1..] :: r in rows;
      RowCost(rows[0], s, u, q) + RawCost(rows[1..], s, u, q)
  }

  /** One costed row contributes to the Total_Cost sum what the row costs. */
  lemma CostShare(columns: seq<string>, row: Row, s: nat, u: nat, q: nat, t: nat)
    requires u < |columns| && q < |columns| && s < |columns| && columns[s] == SUPPLIER
    requires |row| == |columns| && !row[u].Text? && !row[q].Text?
    requires t < |Costing.WithTotalColumn(columns)| && Costing.WithTotalColumn(columns)[t] == TOTAL_COST
    ensures var w := Costing.WithTotal(columns, row, Costing.Product(row[u], row[q]));
      && s < |w| && t < |w|
      && (if w[s] != NA then Amount(w[t]) else 0.0) == RowCost(row, s, u, q)
  {
    assert Costing.WithTotalColumn(columns)[s] == SUPPLIER;
  }

  /** Costing the first row adds its cost to the Total_Cost sum of the
      others. */
  lemma CostStep(columns: seq<string>, rows: seq<Row>, s: nat, u: nat, q: nat, t: nat)
    requires u < |columns| && q < |columns| && s < |columns| && columns[s] == SUPPLIER
    requires forall r: Row | r in rows :: |r| == |columns| && !r[u].Text? && !r[q].Text?
    requires t < |Costing.WithTotalColumn(columns)| && Costing.WithTotalColumn(columns)[t] == TOTAL_COST
    requires rows != []
    ensures |rows[0]| == |columns|
    ensures forall r: Row | r in rows[1..] :: |r| == |columns| && !r[u].Text? && !r[q].Text?
    ensures var costed, tail := Costing.TotalRows(columns, rows, u, q), Costing.TotalRows(columns, rows[1..], u, q);
      && (forall r | r in costed :: s < |r| && t < |r|)
      && (forall r | r in tail :: s < |r| && t < |r|)
      && Summary.GroupedSum(costed, s, t) == RowCost(rows[0], s, u, q) + Summary.GroupedSum(tail, s, t)
  {
    var row, rest := rows[0], rows[1..];
    assert row in rows;
    assert forall r | r in rest :: r in rows;
    assert |columns| <= |Costing.WithTotalColumn(columns)|;
    CostShare(columns, row, s, u, q, t);
    var w := Costing.WithTotal(columns, row, Costing.Product(row[u], row[q]));
    var tail := Costing.TotalRows(columns, rest, u, q);
    assert Costing.TotalRows(columns, rows, u, q) == [w] + tail;
    Summary.GroupedSumCons(w, tail, s, t);
  }

  /** Summing the assigned Total_Cost column over the rows with a supplier
      gives their cost. */
  lemma {:induction false} CostAssigned(columns: seq<string>, rows: seq<Row>, s: nat, u: nat, q: nat, t: nat)
    requires u < |columns| && q < |columns| && s < |columns| && columns[s] == SUPPLIER
    requires forall row: Row | row in rows :: |row| == |columns| && !row[u].Text? && !row[q].Text?
    requires t < |Costing.WithTotalColumn(columns)| && Costing.WithTotalColumn(columns)[t] == TOTAL_COST
    ensures var costed := Costing.TotalRows(columns, rows, u, q);
      && (forall row | row in costed :: s < |row| && t < |row|)
      && Summary.GroupedSum(costed, s, t) == RawCost(rows, s, u, q)
  {
    if rows == [] {
      assert Costing.TotalRows(columns, rows, u, q) == [];
    } else {
      CostStep(columns, rows, s, u, q, t);
      CostAssigned(columns, rows[1..], s, u, q, t);
    }
  }

  /** Dropping the incomplete rows loses no cost: a row without a unit cost
      or a quantity costs nothing. */
  lemma {:induction false} CostKept(columns: seq<string>, rows: seq<Row>, s: nat, u: nat, q: nat)
    requires Locate(columns, UNIT_COST) == Ok(u) && Locate(columns, QUANTITY) == Ok(q)
    requires s < |columns|
    requires forall row | row in rows :: |row| == |columns|
    ensures forall row | row in Cleaning.DropIncomplete(columns, rows) :: s < |row| && u < |row| && q < |row|
    ensures RawCost(Cleaning.DropIncomplete(columns, rows), s, u, q) == RawCost(rows, s, u, q)
  {
    if rows != [] {
      var row, rest := rows[0], rows[1..];
      assert forall r | r in rest :: r in rows;
      assert row in rows;
      CostKept(columns, rest, s, u, q);
      Cleaning.CompleteAt(columns, row);
      var kept := Cleaning.DropIncomplete(columns, rest);
      if Cleaning.Complete(columns, row) {
        assert Cleaning.DropIncomplete(columns, rows) == [row] + kept;
        assert ([row] + kept)[1..] == kept;
      } else {
        assert Cost(row[u], row[q]) == 0.0;
      }
    }
  }

  /** A successful run cleans the normalised table into `c`, assigns its
      costs into `g` and summarises `g`. */
  lemma ReportUnfold(raw: Frame) returns (c: Frame, g: Frame)
    requires WellFormed(raw) && Report(raw).Ok?
    ensures Cleaning.Clean(Normalized(raw)) == Ok(c) && WellFormed(c)
    ensures Costing.AddTotalCost(c) == Ok(g) && WellFormed(g)
    ensures Summary.Summarize(g).Ok? && Report(raw).value == Output(g, Summary.Summarize(g).value)
  {
    c := Cleaning.Clean(Normalized(raw)).value;
    g := Costing.AddTotalCost(c).value;
  }

  /** The summary's Total_Cost column adds up to the unit cost times the
      quantity of every loaded row that has a supplier, a unit cost and a
      quantity: no cost is lost or counted twice between the loaded table
      and the summary. */
  lemma ReportConservesTotal(raw: Frame)
    requires WellFormed(raw) && Report(raw).Ok?
    ensures var columns := Headers.NormalizeColumns(raw.columns);
      var s, u, q := Locate(columns, SUPPLIER), Locate(columns, UNIT_COST), Locate(columns, QUANTITY);
      && s.Ok? && u.Ok? && q.Ok?
      && (forall row | row in raw.rows :: s.value < |row| && u.value < |row| && q.value < |row|)
      && Summary.SumTotals(Report(raw).value.summary) == RawCost(raw.rows, s.value, u.value, q.value)
  {
    var c, g := ReportUnfold(raw);
    var f := Normalized(raw);
    Costing.AddTotalCostUnfold(c);
    Summary.SummarizeFails(g);
    var u, q := Locate(c.columns, UNIT_COST).value, Locate(c.columns, QUANTITY).value;
    var s, q', t, l :=
      Locate(g.columns, SUPPLIER).value, Locate(g.columns, QUANTITY).value,
      Locate(g.columns, TOTAL_COST).value, Locate(g.columns, LEAD_TIME).value;
    Costing.LocateWithTotal(c.columns, SUPPLIER);
    assert Locate(f.columns, SUPPLIER) == Ok(s);
    Summary.SummarizeConservesTotal(g, s, q', t, l);
    CostKept(f.columns, f.rows, s, u, q);
    CostAssigned(c.columns, c.rows, s, u, q, t);
  }
}
