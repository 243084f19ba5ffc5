/** A worked run of the report on a small supplier table: supplier A has
    two complete rows, B one, and C's only row has no quantity. The rows are
    given by their cells, so that each step reads them cell by cell. */
module Sample {
  import opened Frames
  import Headers
  import Cleaning
  import Costing
  import Summary
  import Report

  const A: Cell := Text("A")
  const B: Cell := Text("B")
  const C: Cell := Text("C")

  const Columns: seq<string> := ["Supplier", "Unit_Cost", "Quantity", "Lead_Time"]

  /** `row` holds the four cells given, in the order of `Columns`. */
  predicate Cells(row: Row, supplier: Cell, unitCost: Cell, quantity: Cell, leadTime: Cell) {
    |row| == 4 && row[0] == supplier && row[1] == unitCost && row[2] == quantity && row[3] == leadTime
  }

  /** The loaded rows: A (10 x 2, lead time 5), A (5 x 4, lead time 7),
      B (100 x 1, lead time 3) and C (20 x missing, lead time 2). */
  predicate SampleRows(rows: seq<Row>) {
    && |rows| == 4
    && Cells(rows[0], A, Num(10.0), Num(2.0), Num(5.0))
    && Cells(rows[1], A, Num(5.0), Num(4.0), Num(7.0))
    && Cells(rows[2], B, Num(100.0), Num(1.0), Num(3.0))
    && Cells(rows[3], C, Num(20.0), NA, Num(2.0))
  }

  /** `costed` is the first three loaded rows, each with its product,
      10 x 2, 5 x 4 and 100 x 1, as a new last cell. */
  predicate CostedRows(costed: seq<Row>, rows: seq<Row>)
    requires |rows| >= 3
  {
    && |costed| == 3
    && costed[0] == rows[0] + [Num(20.0)]
    && costed[1] == rows[1] + [Num(20.0)]
    && costed[2] == rows[2] + [Num(100.0)]
  }

  const Expected: seq<Summary.SupplierTotal> := [
    Summary.SupplierTotal(B, 1.0, 100.0, Some(3.0)),
    Summary.SupplierTotal(A, 6.0, 40.0, Some(6.0))
  ]

  /** The five labels the report refers to are different strings. */
  lemma LabelsDistinct()
    ensures SUPPLIER != UNIT_COST && SUPPLIER != QUANTITY && SUPPLIER != LEAD_TIME && SUPPLIER != TOTAL_COST
    ensures UNIT_COST != QUANTITY && UNIT_COST != LEAD_TIME && UNIT_COST != TOTAL_COST
    ensures QUANTITY != LEAD_TIME && QUANTITY != TOTAL_COST && LEAD_TIME != TOTAL_COST
  {
    assert SUPPLIER[0] == 'S' && UNIT_COST[0] == 'U' && QUANTITY[0] == 'Q';
    assert LEAD_TIME[0] == 'L' && TOTAL_COST[0] == 'T';
  }

  /** When `name` labels column `i` and no other, selecting it gives `i`. */
  lemma LocateAt(columns: seq<string>, name: string, i: nat)
    requires i < |columns| && columns[i] == name
    requires forall j | 0 <= j < |columns| && j != i :: columns[j] != name
    ensures Locate(columns, name) == Ok(i)
  {
  }

  /** The headers are already normal, so the header step changes nothing. */
  lemma SampleHeaders(rows: seq<Row>)
    requires SampleRows(rows)
    ensures WellFormed(Frame(Columns, rows)) && Report.Normalized(Frame(Columns, rows)) == Frame(Columns, rows)
  {
    forall i | 0 <= i < |Columns| ensures Headers.NormalizeHeader(Columns[i]) == Columns[i] {
      Headers.NormalizeHeaderKeeps(Columns[i]);
    }
  }

  /** Unit_Cost and Quantity are the second and third columns, and Total_Cost
      is not yet one. */
  lemma SampleColumns()
    ensures Locate(Columns, UNIT_COST) == Ok(1) && Locate(Columns, QUANTITY) == Ok(2)
    ensures TOTAL_COST !in Columns
  {
    LabelsDistinct();
    LocateAt(Columns, UNIT_COST, 1);
    LocateAt(Columns, QUANTITY, 2);
  }

  /** Cleaning drops C's row, which has no quantity, and keeps the others
      in order. */
  lemma SampleClean(rows: seq<Row>)
    requires SampleRows(rows)
    ensures WellFormed(Frame(Columns, rows))
    ensures Cleaning.Clean(Frame(Columns, rows)) == Ok(Frame(Columns, rows[..3]))
  {
    SampleColumns();
    Cleaning.CompleteAt(Columns, rows[0]);
    Cleaning.CompleteAt(Columns, rows[1]);
    Cleaning.CompleteAt(Columns, rows[2]);
    Cleaning.CompleteAt(Columns, rows[3]);
    assert Cleaning.DropIncomplete(Columns, rows[3..]) == [];
    assert Cleaning.DropIncomplete(Columns, rows[2..]) == [rows[2]] by {
      assert rows[2..][1..] == rows[3..];
    }
    assert Cleaning.DropIncomplete(Columns, rows[1..]) == [rows[1], rows[2]] by {
      assert rows[1..][1..] == rows[2..];
    }
    assert Cleaning.DropIncomplete(Columns, rows) == [rows[0], rows[1], rows[2]];
    assert rows[..3] == [rows[0], rows[1], rows[2]];
    assert Missing(Columns, [UNIT_COST, QUANTITY]) == [];
  }

  /** A row whose labels do not include Total_Cost gains its product as a
      new last cell. */
  lemma CostedRow(columns: seq<string>, row: Row, unitCost: real, quantity: real)
    requires |columns| == 4 && TOTAL_COST !in columns
    requires |row| == 4 && row[1] == Num(unitCost) && row[2] == Num(quantity)
    ensures Costing.WithTotal(columns, row, Costing.Product(row[1], row[2])) == row + [Num(unitCost * quantity)]
  {
    assert Costing.Product(row[1], row[2]) == Num(unitCost * quantity);
  }

  /** The complete rows are four cells wide and hold numbers where they
      are multiplied. */
  lemma KeptNumeric(rows: seq<Row>)
    requires SampleRows(rows)
    ensures forall row: Row | row in rows[..3] :: |row| == |Columns| && !row[1].Text? && !row[2].Text?
  {
    forall row: Row | row in rows[..3] ensures |row| == |Columns| && !row[1].Text? && !row[2].Text? {
      var i :| 0 <= i < 3 && rows[..3][i] == row;
    }
  }

  /** Each complete row gains its product as a new last column. */
  lemma SampleTotalRows(rows: seq<Row>)
    requires SampleRows(rows)
    ensures forall row: Row | row in rows[..3] :: |row| == |Columns| && !row[1].Text? && !row[2].Text?
    ensures CostedRows(Costing.TotalRows(Columns, rows[..3], 1, 2), rows)
  {
    SampleColumns();
    KeptNumeric(rows);
    var kept := rows[..3];
    assert kept[0] == rows[0] && kept[1] == rows[1] && kept[2] == rows[2];
    CostedRow(Columns, rows[0], 10.0, 2.0);
    CostedRow(Columns, rows[1], 5.0, 4.0);
    CostedRow(Columns, rows[2], 100.0, 1.0);
  }

  /** Assigning Total_Cost succeeds and gives the costed rows. */
  lemma SampleCost(rows: seq<Row>)
    requires SampleRows(rows)
    ensures WellFormed(Frame(Columns, rows[..3]))
    ensures var g := Costing.AddTotalCost(Frame(Columns, rows[..3]));
      g.Ok? && g.value.columns == Columns + [TOTAL_COST] && CostedRows(g.value.rows, rows)
  {
    SampleColumns();
    var f := Frame(Columns, rows[..3]);
    SampleTotalRows(rows);
    assert !Costing.TextIn(f.rows, 1) && !Costing.TextIn(f.rows, 2);
    Costing.AddTotalCostUnfold(f);
  }

  const EntryA1: Summary.Entry := Summary.Entry(A, 2.0, 20.0, Some(5.0))
  const EntryA2: Summary.Entry := Summary.Entry(A, 4.0, 20.0, Some(7.0))
  const EntryB: Summary.Entry := Summary.Entry(B, 1.0, 100.0, Some(3.0))

  /** Every costed row has five cells. */
  lemma CostedWidth(costed: seq<Row>, rows: seq<Row>)
    requires SampleRows(rows) && CostedRows(costed, rows)
    ensures forall row | row in costed :: |row| == 5
  {
    forall row | row in costed ensures |row| == 5 {
      var i :| 0 <= i < 3 && costed[i] == row;
      assert |rows[i]| == 4;
    }
  }

  /** The grouped entries, one per costed row. */
  lemma SampleProject(costed: seq<Row>, rows: seq<Row>)
    requires SampleRows(rows) && CostedRows(costed, rows)
    ensures Summary.Spans(costed, 0, 2, 4, 3)
    ensures Summary.Project(costed, 0, 2, 4, 3) == [EntryA1, EntryA2, EntryB]
  {
    assert Summary.Spans(costed, 0, 2, 4, 3);
    assert Summary.Project(costed[..1], 0, 2, 4, 3) == [EntryA1] by {
      assert costed[..1][..0] == [];
    }
    assert Summary.Project(costed[..2], 0, 2, 4, 3) == [EntryA1, EntryA2] by {
      assert costed[..2][..1] == costed[..1];
    }
    assert costed[..3] == costed;
    assert costed[..3][..2] == costed[..2];
  }

  /** The suppliers in first-seen order. */
  lemma SampleSuppliers()
    ensures Summary.Suppliers([EntryA1, EntryA2, EntryB]) == [A, B]
  {
    var es := [EntryA1, EntryA2, EntryB];
    assert [EntryA1][..0] == [];
    assert Summary.Suppliers([EntryA1]) == [A];
    assert [EntryA1, EntryA2][..1] == [EntryA1];
    assert Summary.Suppliers([EntryA1, EntryA2]) == [A];
    assert es[..2] == [EntryA1, EntryA2];
  }

  /** Supplier A's aggregates: quantity 2 + 4, cost 20 + 20, lead time the
      mean of 5 and 7. */
  lemma SampleGroupA()
    ensures Summary.GroupRow([EntryA1, EntryA2, EntryB], A) == Expected[1]
  {
    var es := [EntryA1, EntryA2, EntryB];
    assert es[..2] == [EntryA1, EntryA2] && [EntryA1, EntryA2][..1] == [EntryA1] && [EntryA1][..0] == [];
    assert Summary.QuantityOf([EntryA1], A) == 2.0;
    assert Summary.QuantityOf([EntryA1, EntryA2], A) == 6.0;
    assert Summary.TotalOf([EntryA1], A) == 20.0;
    assert Summary.TotalOf([EntryA1, EntryA2], A) == 40.0;
    assert Summary.LeadTimeSum([EntryA1], A) == 5.0;
    assert Summary.LeadTimeSum([EntryA1, EntryA2], A) == 12.0;
    assert Summary.LeadTimeCount([EntryA1], A) == 1;
    assert Summary.LeadTimeCount([EntryA1, EntryA2], A) == 2;
  }

  /** Supplier B's aggregates: its single row. */
  lemma SampleGroupB()
    ensures Summary.GroupRow([EntryA1, EntryA2, EntryB], B) == Expected[0]
  {
    var es := [EntryA1, EntryA2, EntryB];
    assert es[..2] == [EntryA1, EntryA2] && [EntryA1, EntryA2][..1] == [EntryA1] && [EntryA1][..0] == [];
    assert Summary.QuantityOf([EntryA1], B) == 0.0;
    assert Summary.QuantityOf([EntryA1, EntryA2], B) == 0.0;
    assert Summary.TotalOf([EntryA1], B) == 0.0;
    assert Summary.TotalOf([EntryA1, EntryA2], B) == 0.0;
    assert Summary.LeadTimeSum([EntryA1], B) == 0.0;
    assert Summary.LeadTimeSum([EntryA1, EntryA2], B) == 0.0;
    assert Summary.LeadTimeCount([EntryA1], B) == 0;
    assert Summary.LeadTimeCount([EntryA1, EntryA2], B) == 0;
  }

  /** The two groups, in first-seen order. */
  lemma SampleGroups()
    ensures Summary.Groups([EntryA1, EntryA2, EntryB]) == [Expected[1], Expected[0]]
  {
    SampleSuppliers();
    SampleGroupA();
    SampleGroupB();
  }

  /** The Supplier, Quantity, Total_Cost and Lead_Time columns of the costed
      table. */
  lemma SampleCostedColumns()
    ensures var cols := Columns + [TOTAL_COST];
      && Locate(cols, SUPPLIER) == Ok(0) && Locate(cols, QUANTITY) == Ok(2)
      && Locate(cols, TOTAL_COST) == Ok(4) && Locate(cols, LEAD_TIME) == Ok(3)
  {
    LabelsDistinct();
    var cols := Columns + [TOTAL_COST];
    LocateAt(cols, SUPPLIER, 0);
    LocateAt(cols, QUANTITY, 2);
    LocateAt(cols, TOTAL_COST, 4);
    LocateAt(cols, LEAD_TIME, 3);
  }

  /** Sorting the groups puts B (100) before A (40). */
  lemma SampleSort()
    ensures Summary.SortByTotalCost([Expected[1], Expected[0]]) == Expected
  {
    assert Summary.SortByTotalCost([Expected[0]]) == [Expected[0]];
    assert [Expected[1], Expected[0]][1..] == [Expected[0]];
  }

  /** No costed row holds text in a summed or averaged column. */
  lemma SampleNumeric(costed: seq<Row>, rows: seq<Row>)
    requires SampleRows(rows) && CostedRows(costed, rows)
    ensures !Summary.GroupedText(costed, 0, 2) && !Summary.GroupedText(costed, 0, 4)
    ensures !Summary.GroupedText(costed, 0, 3)
  {
  }

  /** The summary of the costed rows under any five labels that put
      Supplier, Quantity, Total_Cost and Lead_Time where the costed table
      has them: the groups of A and B, sorted. */
  lemma SummaryOf(columns: seq<string>, costed: seq<Row>, rows: seq<Row>)
    requires SampleRows(rows) && CostedRows(costed, rows) && |columns| == 5
    requires Locate(columns, SUPPLIER) == Ok(0) && Locate(columns, QUANTITY) == Ok(2)
    requires Locate(columns, TOTAL_COST) == Ok(4) && Locate(columns, LEAD_TIME) == Ok(3)
    ensures WellFormed(Frame(columns, costed))
    ensures Summary.Summarize(Frame(columns, costed)) == Ok(Expected)
  {
    SampleProject(costed, rows);
    SampleGroups();
    SampleNumeric(costed, rows);
    SampleSort();
    var f := Frame(columns, costed);
    CostedWidth(costed, rows);
    Summary.SummarizeIsAggregate(f, 0, 2, 4, 3);
    var es := Summary.Project(costed, 0, 2, 4, 3);
    assert Summary.Groups(es) == [Expected[1], Expected[0]];
    assert Summary.Aggregate(costed, 0, 2, 4, 3) == Ok(Summary.SortByTotalCost(Summary.Groups(es)));
  }

  /** The summary of the costed table. */
  lemma SampleSummary(costed: seq<Row>, rows: seq<Row>)
    requires SampleRows(rows) && CostedRows(costed, rows)
    ensures WellFormed(Frame(Columns + [TOTAL_COST], costed))
    ensures Summary.Summarize(Frame(Columns + [TOTAL_COST], costed)) == Ok(Expected)
  {
    SampleCostedColumns();
    SummaryOf(Columns + [TOTAL_COST], costed, rows);
  }

  /** The whole run: the cleaned sheet holds the three complete rows, each
      with its total cost, and the summary exactly two rows, B (total 100)
      before A (total 40). */
  lemma SampleReport(rows: seq<Row>)
    requires SampleRows(rows)
    ensures WellFormed(Frame(Columns, rows))
    ensures var r := Report.Report(Frame(Columns, rows));
      && r.Ok? && r.value.summary == Expected
      && r.value.cleaned.columns == Columns + [TOTAL_COST] && CostedRows(r.value.cleaned.rows, rows)
  {
    SampleHeaders(rows);
    SampleClean(rows);
    SampleCost(rows);
    var g := Costing.AddTotalCost(Frame(Columns, rows[..3])).value;
    SampleSummary(g.rows, rows);
  }
}
