/** The supplier summary, `df_clean.groupby("Supplier").agg({"Quantity":
    "sum", "Total_Cost": "sum", "Lead_Time": "mean"}).sort_values(by=
    "Total_Cost", ascending=False)`: one row per supplier with its summed
    quantity, its summed total cost and its mean lead time, the rows ordered
    by total cost, largest first. Rows without a supplier take no part. */
module Summary {
  import opened Frames

  /** A grouped table row as the aggregations read it: its supplier and the
      value each aggregation takes from it (sums skip a missing value, the
      mean skips a missing lead time). */
  datatype Entry = Entry(supplier: Cell, quantity: real, totalCost: real, leadTime: Option<real>)

  /** One row of the summary. `leadTime` is `None` where pandas gives NaN:
      the supplier has no lead time at all. */
  datatype SupplierTotal = SupplierTotal(supplier: Cell, quantity: real, totalCost: real, leadTime: Option<real>)

  // ---------------------------------------------------------------------
  // Grouping, on entries

  predicate HasSupplier(es: seq<Entry>, k: Cell) {
    exists i | 0 <= i < |es| :: es[i].supplier == k
  }

  predicate Distinct(ks: seq<Cell>) {
    forall a, b | 0 <= a < b < |ks| :: ks[a] != ks[b]
  }

  /** The group keys, each once, in the order they first occur. */
  function Suppliers(es: seq<Entry>): (r: seq<Cell>)
    ensures forall k :: k in r <==> HasSupplier(es, k)
    ensures Distinct(r)
  {
    if es == [] then []
    else
      var init, e := es[..|es| - 1], es[|es| - 1];
      var ks := Suppliers(init);
      assert forall k | HasSupplier(init, k) :: HasSupplier(es, k) by {
        forall k | HasSupplier(init, k) ensures HasSupplier(es, k) {
          var i :| 0 <= i < |init| && init[i].supplier == k;
          assert es[i] == init[i];
        }
      }
      assert forall k | HasSupplier(es, k) :: HasSupplier(init, k) || k == e.supplier by {
        forall k | HasSupplier(es, k) ensures HasSupplier(init, k) || k == e.supplier {
          var i :| 0 <= i < |es| && es[i].supplier == k;
          if i < |init| { assert init[i] == es[i]; }
        }
      }
      if e.supplier in ks then ks else ks + [e.supplier]
  }

  /** The sum of the quantities of the entries with supplier `k`. */
  function QuantityOf(es: seq<Entry>, k: Cell): real {
    if es == [] then 0.0
    else
      var e := es[|es| - 1];
      QuantityOf(es[..|es| - 1], k) + (if e.supplier == k then e.quantity else 0.0)
  }

  /** The sum of the total costs of the entries with supplier `k`. */
  function TotalOf(es: seq<Entry>, k: Cell): real {
    if es == [] then 0.0
    else
      var e := es[|es| - 1];
      TotalOf(es[..|es| - 1], k) + (if e.supplier == k then e.totalCost else 0.0)
  }

  /** The sum of the lead times present among the entries with supplier `k`. */
  function LeadTimeSum(es: seq<Entry>, k: Cell): real {
    if es == [] then 0.0
    else
      var e := es[|es| - 1];
      LeadTimeSum(es[..|es| - 1], k) + (if e.supplier == k && e.leadTime.Some? then e.leadTime.value else 0.0)
  }

  /** How many entries with supplier `k` have a lead time. */
  function LeadTimeCount(es: seq<Entry>, k: Cell): nat {
    if es == [] then 0
    else
      var e := es[|es| - 1];
      LeadTimeCount(es[..|es| - 1], k) + (if e.supplier == k && e.leadTime.Some? then 1 else 0)
  }

  /** The arithmetic mean of `count` values summing to `sum`; none of no values. */
  function Mean(sum: real, count: nat): (r: Option<real>)
    ensures r.None? <==> count == 0
    ensures r.Some? ==> r.value * count as real == sum
  {
    if count == 0 then None else Some(sum / count as real)
  }

  /** The aggregate row of supplier `k`: its summed quantity and total
      cost, and the mean of its lead times (none when it has none). */
  function GroupRow(es: seq<Entry>, k: Cell): (r: SupplierTotal)
    ensures r.supplier == k && r.quantity == QuantityOf(es, k) && r.totalCost == TotalOf(es, k)
    ensures r.leadTime.None? <==> LeadTimeCount(es, k) == 0
    ensures r.leadTime.Some? ==> r.leadTime.value * LeadTimeCount(es, k) as real == LeadTimeSum(es, k)
  {
    SupplierTotal(k, QuantityOf(es, k), TotalOf(es, k), Mean(LeadTimeSum(es, k), LeadTimeCount(es, k)))
  }

  function GroupRows(es: seq<Entry>, ks: seq<Cell>): (r: seq<SupplierTotal>)
    ensures |r| == |ks|
    ensures forall i | 0 <= i < |ks| :: r[i] == GroupRow(es, ks[i])
  {
    if ks == [] then [] else [GroupRow(es, ks[0])] + GroupRows(es, ks[1..])
  }

  /** `groupby(...).agg(...)` before sorting: one aggregate row per supplier. */
  function Groups(es: seq<Entry>): (r: seq<SupplierTotal>)
    ensures DistinctSuppliers(r)
    ensures forall x | x in r :: HasSupplier(es, x.supplier) && x == GroupRow(es, x.supplier)
  {
    GroupRows(es, Suppliers(es))
  }

  // ---------------------------------------------------------------------
  // Sorting by total cost, largest first

  predicate SortedByTotalCost(rows: seq<SupplierTotal>) {
    forall a, b | 0 <= a < b < |rows| :: rows[a].totalCost >= rows[b].totalCost
  }

  function Insert(x: SupplierTotal, rows: seq<SupplierTotal>): (r: seq<SupplierTotal>)
    ensures multiset(r) == multiset(rows) + multiset{x}
  {
    if rows == [] || x.totalCost >= rows[0].totalCost then [x] + rows
    else
      assert rows == [rows[0]] + rows[1..];
      [rows[0]] + Insert(x, rows[1..])
  }

  /** `sort_values(by="Total_Cost", ascending=False)`: a permutation of the
      rows in which total cost never increases. Rows with equal total cost
      may come in any order. */
  function SortByTotalCost(rows: seq<SupplierTotal>): (r: seq<SupplierTotal>)
    ensures multiset(r) == multiset(rows)
    ensures SortedByTotalCost(r)
  {
    if rows == [] then []
    else
      assert rows == [rows[0]] + rows[1..];
      var r := SortByTotalCost(rows[1..]);
      InsertSorted(rows[0], r);
      Insert(rows[0], r)
  }

  lemma {:induction false} InsertSorted(x: SupplierTotal, rows: seq<SupplierTotal>)
    requires SortedByTotalCost(rows)
    ensures SortedByTotalCost(Insert(x, rows))
  {
    if rows != [] && x.totalCost < rows[0].totalCost {
      var rest := Insert(x, rows[1..]);
      InsertSorted(x, rows[1..]);
      forall y | y in rest ensures rows[0].totalCost >= y.totalCost {
        assert y in multiset(rest);
        assert y == x || y in multiset(rows[1..]);
      }
    }
  }

  predicate DistinctSuppliers(rows: seq<SupplierTotal>) {
    forall a, b | 0 <= a < b < |rows| :: rows[a].supplier != rows[b].supplier
  }

  lemma {:induction false} InsertDistinct(x: SupplierTotal, rows: seq<SupplierTotal>)
    requires DistinctSuppliers(rows)
    requires forall y | y in rows :: y.supplier != x.supplier
    ensures DistinctSuppliers(Insert(x, rows))
  {
    if rows != [] && x.totalCost < rows[0].totalCost {
      var rest := Insert(x, rows[1..]);
      InsertDistinct(x, rows[1..]);
      forall y | y in rest ensures rows[0].supplier != y.supplier {
        assert y in multiset(rest);
        assert y == x || y in multiset(rows[1..]);
      }
    }
  }

  /** Sorting keeps the suppliers pairwise distinct. */
  lemma {:induction false} SortDistinct(rows: seq<SupplierTotal>)
    requires DistinctSuppliers(rows)
    ensures DistinctSuppliers(SortByTotalCost(rows))
  {
    if rows != [] {
      var r := SortByTotalCost(rows[1..]);
      SortDistinct(rows[1..]);
      forall y | y in r ensures y.supplier != rows[0].supplier {
        assert y in multiset(rows[1..]);
      }
      InsertDistinct(rows[0], r);
    }
  }

  function SumTotals(rows: seq<SupplierTotal>): real {
    if rows == [] then 0.0 else rows[0].totalCost + SumTotals(rows[1..])
  }

  lemma {:induction false} InsertSum(x: SupplierTotal, rows: seq<SupplierTotal>)
    ensures SumTotals(Insert(x, rows)) == x.totalCost + SumTotals(rows)
  {
    if rows != [] && x.totalCost < rows[0].totalCost {
      InsertSum(x, rows[1..]);
    }
  }

  /** Sorting neither adds nor loses cost. */
  lemma {:induction false} SortSum(rows: seq<SupplierTotal>)
    ensures SumTotals(SortByTotalCost(rows)) == SumTotals(rows)
  {
    if rows != [] {
      SortSum(rows[1..]);
      InsertSum(rows[0], SortByTotalCost(rows[1..]));
    }
  }

  // ---------------------------------------------------------------------
  // What grouping computes

  /** The summed total cost of all entries. */
  function EntryTotal(es: seq<Entry>): real {
    if es == [] then 0.0 else EntryTotal(es[..|es| - 1]) + es[|es| - 1].totalCost
  }

  /** A supplier with no entry has a zero total. */
  lemma {:induction false} TotalOfAbsent(es: seq<Entry>, k: Cell)
    requires !HasSupplier(es, k)
    ensures TotalOf(es, k) == 0.0
  {
    if es != [] {
      var init := es[..|es| - 1];
      assert forall i | 0 <= i < |init| :: init[i] == es[i];
      TotalOfAbsent(init, k);
    }
  }

  /** Appending one entry adds its cost to the group it joins, if that group
      is among `ks`. */
  lemma {:induction false} GroupRowsAppend(es: seq<Entry>, e: Entry, ks: seq<Cell>)
    requires Distinct(ks)
    ensures SumTotals(GroupRows(es + [e], ks))
         == SumTotals(GroupRows(es, ks)) + (if e.supplier in ks then e.totalCost else 0.0)
  {
    if ks != [] {
      assert (es + [e])[..|es|] == es;
      assert Distinct(ks[1..]);
      GroupRowsAppend(es, e, ks[1..]);
      assert e.supplier in ks <==> e.supplier == ks[0] || e.supplier in ks[1..];
      assert e.supplier == ks[0] ==> e.supplier !in ks[1..];
    }
  }

  /** Adding a key at the end adds its group's total. */
  lemma {:induction false} GroupRowsSnoc(es: seq<Entry>, ks: seq<Cell>, k: Cell)
    ensures SumTotals(GroupRows(es, ks + [k])) == SumTotals(GroupRows(es, ks)) + TotalOf(es, k)
  {
    if ks != [] {
      assert (ks + [k])[1..] == ks[1..] + [k];
      GroupRowsSnoc(es, ks[1..], k);
    }
  }

  /** Grouping conserves cost: the group totals add up to the total of all
      entries. */
  lemma {:induction false} GroupsConserveTotal(es: seq<Entry>)
    ensures SumTotals(Groups(es)) == EntryTotal(es)
  {
    if es != [] {
      var init, e := es[..|es| - 1], es[|es| - 1];
      assert es == init + [e];
      GroupsConserveTotal(init);
      var ks := Suppliers(init);
      GroupRowsAppend(init, e, ks);
      if e.supplier !in ks {
        GroupRowsSnoc(es, ks, e.supplier);
        TotalOfAbsent(init, e.supplier);
        assert TotalOf(es, e.supplier) == e.totalCost;
      }
    }
  }

  /** The grouped rows: one per supplier that occurs, none for any other,
      no supplier twice, and each row the aggregate of its own supplier. */
  lemma GroupsShape(es: seq<Entry>)
    ensures DistinctSuppliers(Groups(es))
    ensures forall k :: HasSupplier(es, k) <==> exists i | 0 <= i < |Groups(es)| :: Groups(es)[i].supplier == k
    ensures forall x | x in Groups(es) :: x == GroupRow(es, x.supplier)
  {
    var ks := Suppliers(es);
    var g := Groups(es);
    forall k | HasSupplier(es, k)
      ensures exists i | 0 <= i < |g| :: g[i].supplier == k
    {
      assert k in ks;
      var i :| 0 <= i < |ks| && ks[i] == k;
      assert g[i].supplier == k;
    }
  }

  // ---------------------------------------------------------------------
  // From the table to entries

  function LeadOf(c: Cell): Option<real> {
    if c.Num? then Some(c.value) else None
  }

  /** Every row has the cells the summary reads. */
  predicate Spans(rows: seq<Row>, s: nat, q: nat, t: nat, l: nat) {
    forall row | row in rows :: s < |row| && q < |row| && t < |row| && l < |row|
  }

  /** The entries of the grouped rows: a row whose supplier is missing is
      left out, as `groupby` leaves out missing keys. */
  function Project(rows: seq<Row>, s: nat, q: nat, t: nat, l: nat): (r: seq<Entry>)
    requires Spans(rows, s, q, t, l)
    ensures |r| <= |rows|
    ensures forall i | 0 <= i < |r| :: r[i].supplier != NA
  {
    if rows == [] then []
    else
      var init, row := rows[..|rows| - 1], rows[|rows| - 1];
      assert forall r | r in init :: r in rows;
      Project(init, s, q, t, l)
        + (if row[s] == NA then [] else [Entry(row[s], Amount(row[q]), Amount(row[t]), LeadOf(row[l]))])
  }

  // Specifications over the table itself

  /** Some row has supplier `k`. */
  predicate SupplierPresent(rows: seq<Row>, s: nat, k: Cell) {
    exists i | 0 <= i < |rows| :: s < |rows[i]| && rows[i][s] == k
  }

  /** The sum of column `c` over the rows whose supplier is `k`, missing
      values adding nothing. */
  function ColumnSum(rows: seq<Row>, s: nat, k: Cell, c: nat): real
    requires forall row | row in rows :: s < |row| && c < |row|
  {
    if rows == [] then 0.0
    else
      var row := rows[|rows| - 1];
      assert forall r | r in rows[..|rows| - 1] :: r in rows;
      ColumnSum(rows[..|rows| - 1], s, k, c) + (if row[s] == k then Amount(row[c]) else 0.0)
  }

  /** The number of rows with supplier `k` that have a number in column `c`. */
  function PresentCount(rows: seq<Row>, s: nat, k: Cell, c: nat): nat
    requires forall row | row in rows :: s < |row| && c < |row|
  {
    if rows == [] then 0
    else
      var row := rows[|rows| - 1];
      assert forall r | r in rows[..|rows| - 1] :: r in rows;
      PresentCount(rows[..|rows| - 1], s, k, c) + (if row[s] == k && row[c].Num? then 1 else 0)
  }

  /** The sum of column `c` over all rows that have a supplier. */
  function GroupedSum(rows: seq<Row>, s: nat, c: nat): real
    requires forall row | row in rows :: s < |row| && c < |row|
  {
    if rows == [] then 0.0
    else
      var row := rows[|rows| - 1];
      assert forall r | r in rows[..|rows| - 1] :: r in rows;
      GroupedSum(rows[..|rows| - 1], s, c) + (if row[s] != NA then Amount(row[c]) else 0.0)
  }

  /** The grouped sum read from the front: the first row's share, then the
      rest. */
  lemma {:induction false} GroupedSumCons(row: Row, rows: seq<Row>, s: nat, c: nat)
    requires s < |row| && c < |row|
    requires forall r | r in rows :: s < |r| && c < |r|
    ensures forall r | r in [row] + rows :: s < |r| && c < |r|
    ensures GroupedSum([row] + rows, s, c) ==
      (if row[s] != NA then Amount(row[c]) else 0.0) + GroupedSum(rows, s, c)
  {
    if rows != [] {
      var init := rows[..|rows| - 1];
      assert forall r | r in init :: r in rows;
      GroupedSumCons(row, init, s, c);
      assert ([row] + rows)[..|rows|] == [row] + init;
    }
  }

  /** Appending one row to the table appends at most one entry: the row's
      own, when it has a supplier. */
  lemma ProjectSnoc(rows: seq<Row>, s: nat, q: nat, t: nat, l: nat)
    requires Spans(rows, s, q, t, l) && rows != []
    ensures Spans(rows[..|rows| - 1], s, q, t, l)
    ensures var row, es := rows[|rows| - 1], Project(rows, s, q, t, l);
      var pre := Project(rows[..|rows| - 1], s, q, t, l);
      if row[s] == NA then es == pre
      else (es != [] && es[..|es| - 1] == pre
            && es[|es| - 1] == Entry(row[s], Amount(row[q]), Amount(row[t]), LeadOf(row[l])))
  {
    assert forall r | r in rows[..|rows| - 1] :: r in rows;
  }

  /** The entries of supplier `k` carry the sums of Quantity and Total_Cost
      that the table's rows with supplier `k` do. */
  lemma {:induction false} ProjectSums(rows: seq<Row>, s: nat, q: nat, t: nat, l: nat, k: Cell)
    requires Spans(rows, s, q, t, l) && k != NA
    ensures QuantityOf(Project(rows, s, q, t, l), k) == ColumnSum(rows, s, k, q)
    ensures TotalOf(Project(rows, s, q, t, l), k) == ColumnSum(rows, s, k, t)
  {
    if rows != [] {
      var init, row := rows[..|rows| - 1], rows[|rows| - 1];
      ProjectSnoc(rows, s, q, t, l);
      ProjectSums(init, s, q, t, l, k);
      var pre, es := Project(init, s, q, t, l), Project(rows, s, q, t, l);
      var dq := if row[s] == k then Amount(row[q]) else 0.0;
      var dt := if row[s] == k then Amount(row[t]) else 0.0;
      if row[s] != NA {
        assert QuantityOf(es, k) == QuantityOf(pre, k) + dq;
        assert TotalOf(es, k) == TotalOf(pre, k) + dt;
      }
      assert ColumnSum(rows, s, k, q) == ColumnSum(init, s, k, q) + dq;
      assert ColumnSum(rows, s, k, t) == ColumnSum(init, s, k, t) + dt;
    }
  }

  /** The entries of supplier `k` carry the lead-time sum and count that
      the table's rows with supplier `k` do. */
  lemma {:induction false} ProjectLeadTimes(rows: seq<Row>, s: nat, q: nat, t: nat, l: nat, k: Cell)
    requires Spans(rows, s, q, t, l) && k != NA
    ensures LeadTimeSum(Project(rows, s, q, t, l), k) == ColumnSum(rows, s, k, l)
    ensures LeadTimeCount(Project(rows, s, q, t, l), k) == PresentCount(rows, s, k, l)
  {
    if rows != [] {
      var init, row := rows[..|rows| - 1], rows[|rows| - 1];
      ProjectSnoc(rows, s, q, t, l);
      ProjectLeadTimes(init, s, q, t, l, k);
      var pre, es := Project(init, s, q, t, l), Project(rows, s, q, t, l);
      var dl := if row[s] == k then Amount(row[l]) else 0.0;
      var dn := if row[s] == k && row[l].Num? then 1 else 0;
      if row[s] != NA {
        assert LeadTimeSum(es, k) == LeadTimeSum(pre, k) + dl;
        assert LeadTimeCount(es, k) == LeadTimeCount(pre, k) + dn;
      }
      assert ColumnSum(rows, s, k, l) == ColumnSum(init, s, k, l) + dl;
      assert PresentCount(rows, s, k, l) == PresentCount(init, s, k, l) + dn;
    }
  }

  /** A supplier is present in a table exactly when it is present in all
      but the last row or in the last row. */
  lemma SupplierPresentSnoc(rows: seq<Row>, s: nat, k: Cell)
    requires rows != [] && s < |rows[|rows| - 1]|
    ensures SupplierPresent(rows, s, k) <==>
      SupplierPresent(rows[..|rows| - 1], s, k) || rows[|rows| - 1][s] == k
  {
    var init := rows[..|rows| - 1];
    if SupplierPresent(rows, s, k) {
      var i :| 0 <= i < |rows| && s < |rows[i]| && rows[i][s] == k;
      if i < |init| {
        assert init[i] == rows[i];
      }
    }
    if SupplierPresent(init, s, k) {
      var i :| 0 <= i < |init| && s < |init[i]| && init[i][s] == k;
      assert rows[i] == init[i];
    }
  }

  /** A supplier has entries exactly when it is present and some row has it. */
  lemma {:induction false} ProjectSuppliers(rows: seq<Row>, s: nat, q: nat, t: nat, l: nat, k: Cell)
    requires Spans(rows, s, q, t, l)
    ensures HasSupplier(Project(rows, s, q, t, l), k) <==> k != NA && SupplierPresent(rows, s, k)
  {
    if rows != [] {
      var init, row := rows[..|rows| - 1], rows[|rows| - 1];
      ProjectSnoc(rows, s, q, t, l);
      ProjectSuppliers(init, s, q, t, l, k);
      var pre, es := Project(init, s, q, t, l), Project(rows, s, q, t, l);
      SupplierPresentSnoc(rows, s, k);
      if HasSupplier(es, k) {
        var i :| 0 <= i < |es| && es[i].supplier == k;
        if i < |pre| {
          assert pre[i] == es[i];
        }
      }
      if HasSupplier(pre, k) {
        var i :| 0 <= i < |pre| && pre[i].supplier == k;
        assert es[i] == pre[i];
      }
    }
  }

  /** The entries' total cost is the total cost of the rows that have a
      supplier. */
  lemma {:induction false} ProjectTotal(rows: seq<Row>, s: nat, q: nat, t: nat, l: nat)
    requires Spans(rows, s, q, t, l)
    ensures EntryTotal(Project(rows, s, q, t, l)) == GroupedSum(rows, s, t)
  {
    if rows != [] {
      ProjectSnoc(rows, s, q, t, l);
      ProjectTotal(rows[..|rows| - 1], s, q, t, l);
    }
  }

  // ---------------------------------------------------------------------
  // The summary of a table

  /** A grouped row (one with a supplier) holds text in column `c`. */
  predicate GroupedText(rows: seq<Row>, s: nat, c: nat) {
    exists i | 0 <= i < |rows| :: s < |rows[i]| && c < |rows[i]| && rows[i][s] != NA && rows[i][c].Text?
  }

  /** The summary. Grouping by a Supplier label that is absent raises a
      KeyError, and so does aggregating absent columns (all of them are
      named); a label that names several columns, or text in a column that
      is summed or averaged, stops the aggregation too. */
  function Summarize(f: Frame): (r: Result<seq<SupplierTotal>>)
    requires WellFormed(f)
    ensures r.Ok? ==> SortedByTotalCost(r.value)
  {
    var s :- Locate(f.columns, SUPPLIER);
    var missing := Missing(f.columns, [QUANTITY, TOTAL_COST, LEAD_TIME]);
    if missing != [] then
      Err(MissingColumns(missing))
    else
      assert QUANTITY !in missing && TOTAL_COST !in missing && LEAD_TIME !in missing;
      var q :- Locate(f.columns, QUANTITY);
      var t :- Locate(f.columns, TOTAL_COST);
      var l :- Locate(f.columns, LEAD_TIME);
      assert forall row | row in f.rows :: |row| == |f.columns|;
      Aggregate(f.rows, s, q, t, l)
  }

  /** Aggregating the located columns and sorting the groups. */
  function Aggregate(rows: seq<Row>, s: nat, q: nat, t: nat, l: nat): (r: Result<seq<SupplierTotal>>)
    requires Spans(rows, s, q, t, l)
    ensures r.Ok? ==> SortedByTotalCost(r.value)
  {
    if GroupedText(rows, s, q) then Err(NonNumeric(QUANTITY))
    else if GroupedText(rows, s, t) then Err(NonNumeric(TOTAL_COST))
    else if GroupedText(rows, s, l) then Err(NonNumeric(LEAD_TIME))
    else Ok(SortByTotalCost(Groups(Project(rows, s, q, t, l))))
  }

  /** The summary fails exactly when one of the four labels does not name a
      single column or a grouped row holds text where a number is summed or
      averaged. */
  lemma SummarizeFails(f: Frame)
    requires WellFormed(f)
    ensures Summarize(f).Err? <==>
      || !Unique(f.columns, SUPPLIER) || !Unique(f.columns, QUANTITY)
      || !Unique(f.columns, TOTAL_COST) || !Unique(f.columns, LEAD_TIME)
      || (var s := Locate(f.columns, SUPPLIER).value;
          || GroupedText(f.rows, s, Locate(f.columns, QUANTITY).value)
          || GroupedText(f.rows, s, Locate(f.columns, TOTAL_COST).value)
          || GroupedText(f.rows, s, Locate(f.columns, LEAD_TIME).value))
  {
    if Unique(f.columns, SUPPLIER) && Unique(f.columns, QUANTITY) && Unique(f.columns, TOTAL_COST) && Unique(f.columns, LEAD_TIME) {
      assert Missing(f.columns, [QUANTITY, TOTAL_COST, LEAD_TIME]) == [];
    }
  }

  /** The summary of a table whose Supplier, Quantity, Total_Cost and
      Lead_Time columns are at `s`, `q`, `t` and `l`. */
  lemma SummarizeIsAggregate(f: Frame, s: nat, q: nat, t: nat, l: nat)
    requires WellFormed(f)
    requires Locate(f.columns, SUPPLIER) == Ok(s) && Locate(f.columns, QUANTITY) == Ok(q)
    requires Locate(f.columns, TOTAL_COST) == Ok(t) && Locate(f.columns, LEAD_TIME) == Ok(l)
    ensures Spans(f.rows, s, q, t, l)
    ensures Summarize(f) == Aggregate(f.rows, s, q, t, l)
  {
    assert Missing(f.columns, [QUANTITY, TOTAL_COST, LEAD_TIME]) == [];
  }

  /** A successful summary is the sorted groups of the table's entries. */
  lemma SummarizeUnfold(f: Frame, s: nat, q: nat, t: nat, l: nat)
    requires WellFormed(f) && Summarize(f).Ok?
    requires Locate(f.columns, SUPPLIER) == Ok(s) && Locate(f.columns, QUANTITY) == Ok(q)
    requires Locate(f.columns, TOTAL_COST) == Ok(t) && Locate(f.columns, LEAD_TIME) == Ok(l)
    ensures Spans(f.rows, s, q, t, l)
    ensures Summarize(f).value == SortByTotalCost(Groups(Project(f.rows, s, q, t, l)))
  {
    SummarizeIsAggregate(f, s, q, t, l);
    var a := Aggregate(f.rows, s, q, t, l);
    assert a.Ok?;
    assert !GroupedText(f.rows, s, q) && !GroupedText(f.rows, s, t) && !GroupedText(f.rows, s, l);
  }

  /** One summary row per supplier: every summary row belongs to a supplier
      some row has, every supplier some row has gets a summary row, and no
      supplier appears twice. */
  lemma SummarizeSuppliers(f: Frame, s: nat, q: nat, t: nat, l: nat)
    requires WellFormed(f) && Summarize(f).Ok?
    requires Locate(f.columns, SUPPLIER) == Ok(s) && Locate(f.columns, QUANTITY) == Ok(q)
    requires Locate(f.columns, TOTAL_COST) == Ok(t) && Locate(f.columns, LEAD_TIME) == Ok(l)
    ensures var r := Summarize(f).value;
      && DistinctSuppliers(r)
      && (forall x | x in r :: x.supplier != NA && SupplierPresent(f.rows, s, x.supplier))
      && (forall k | k != NA && SupplierPresent(f.rows, s, k) :: exists x | x in r :: x.supplier == k)
  {
    SummarizeUnfold(f, s, q, t, l);
    var es := Project(f.rows, s, q, t, l);
    var g := Groups(es);
    var r := Summarize(f).value;
    GroupsShape(es);
    SortDistinct(g);
    forall x | x in r ensures x.supplier != NA && SupplierPresent(f.rows, s, x.supplier) {
      assert x in multiset(g);
      var i :| 0 <= i < |g| && g[i] == x;
      assert HasSupplier(es, x.supplier);
      ProjectSuppliers(f.rows, s, q, t, l, x.supplier);
    }
    forall k | k != NA && SupplierPresent(f.rows, s, k) ensures exists x | x in r :: x.supplier == k {
      ProjectSuppliers(f.rows, s, q, t, l, k);
      var i :| 0 <= i < |g| && g[i].supplier == k;
      assert g[i] in multiset(r);
    }
  }

  /** Each summary row holds its supplier's aggregates over the table: the
      sum of Quantity, the sum of Total_Cost, and the mean of the Lead_Time
      values present (none when there is none). */
  lemma SummarizeAggregates(f: Frame, s: nat, q: nat, t: nat, l: nat)
    requires WellFormed(f) && Summarize(f).Ok?
    requires Locate(f.columns, SUPPLIER) == Ok(s) && Locate(f.columns, QUANTITY) == Ok(q)
    requires Locate(f.columns, TOTAL_COST) == Ok(t) && Locate(f.columns, LEAD_TIME) == Ok(l)
    ensures Spans(f.rows, s, q, t, l)
    ensures forall x | x in Summarize(f).value ::
      && x.quantity == ColumnSum(f.rows, s, x.supplier, q)
      && x.totalCost == ColumnSum(f.rows, s, x.supplier, t)
      && x.leadTime == Mean(ColumnSum(f.rows, s, x.supplier, l), PresentCount(f.rows, s, x.supplier, l))
  {
    SummarizeUnfold(f, s, q, t, l);
    var es := Project(f.rows, s, q, t, l);
    var g := Groups(es);
    GroupsShape(es);
    forall x | x in Summarize(f).value
      ensures && x.quantity == ColumnSum(f.rows, s, x.supplier, q)
              && x.totalCost == ColumnSum(f.rows, s, x.supplier, t)
              && x.leadTime == Mean(ColumnSum(f.rows, s, x.supplier, l), PresentCount(f.rows, s, x.supplier, l))
    {
      assert x in multiset(g);
      var i :| 0 <= i < |g| && g[i] == x;
      assert HasSupplier(es, x.supplier);
      ProjectSuppliers(f.rows, s, q, t, l, x.supplier);
      assert x == GroupRow(es, x.supplier);
      ProjectSums(f.rows, s, q, t, l, x.supplier);
      ProjectLeadTimes(f.rows, s, q, t, l, x.supplier);
    }
  }

  /** The summary conserves cost: its Total_Cost column adds up to the
      Total_Cost of every row that has a supplier. */
  lemma SummarizeConservesTotal(f: Frame, s: nat, q: nat, t: nat, l: nat)
    requires WellFormed(f) && Summarize(f).Ok?
    requires Locate(f.columns, SUPPLIER) == Ok(s) && Locate(f.columns, QUANTITY) == Ok(q)
    requires Locate(f.columns, TOTAL_COST) == Ok(t) && Locate(f.columns, LEAD_TIME) == Ok(l)
    ensures Spans(f.rows, s, q, t, l)
    ensures SumTotals(Summarize(f).value) == GroupedSum(f.rows, s, t)
  {
    SummarizeUnfold(f, s, q, t, l);
    var es := Project(f.rows, s, q, t, l);
    SortSum(Groups(es));
    GroupsConserveTotal(es);
    ProjectTotal(f.rows, s, q, t, l);
  }
}
