/** The data model shared by every stage of the report: a parsed table whose
    cells may be missing, the column names the pipeline refers to, and the
    errors a stage raises instead of producing a table. */
module Frames {

  datatype Option<+T> = None | Some(value: T)

  /** Why a stage stops: a referenced column label is absent, a label the
      stage needs as a single column occurs more than once, or a column that
      is multiplied or aggregated holds text. */
  datatype Error =
    | MissingColumns(names: seq<string>)
    | DuplicateColumn(name: string)
    | NonNumeric(column: string)

  datatype Result<+T> = Ok(value: T) | Err(error: Error) {
    predicate IsFailure() { Err? }

    function PropagateFailure<U>(): Result<U>
      requires Err?
    {
      Err(error)
    }

    function Extract(): T
      requires Ok?
    {
      value
    }
  }

  /** One cell of the table as the CSV reader types it; `NA` is a missing
      value (an empty field, read as NaN). */
  datatype Cell = NA | Num(value: real) | Text(text: string)

  type Row = seq<Cell>

  datatype Frame = Frame(columns: seq<string>, rows: seq<Row>)

  /** Every row has one cell per column, as the CSV reader produces. */
  predicate WellFormed(f: Frame) {
    forall row | row in f.rows :: |row| == |f.columns|
  }

  const SUPPLIER: string := "Supplier"
  const UNIT_COST: string := "Unit_Cost"
  const QUANTITY: string := "Quantity"
  const LEAD_TIME: string := "Lead_Time"
  const TOTAL_COST: string := "Total_Cost"

  /** The value a numeric aggregation adds for a cell: sums skip missing
      values, so a missing cell adds nothing. */
  function Amount(c: Cell): real {
    if c.Num? then c.value else 0.0
  }

  /** `name` labels exactly one column. */
  predicate Unique(columns: seq<string>, name: string) {
    && name in columns
    && forall i, j | 0 <= i < |columns| && 0 <= j < |columns| && columns[i] == name && columns[j] == name :: i == j
  }

  /** The positions of the columns labelled `name`, in increasing order. */
  function IndicesOf(columns: seq<string>, name: string): (r: seq<nat>)
    ensures forall i :: i in r <==> 0 <= i < |columns| && columns[i] == name
    ensures forall a, b | 0 <= a < b < |r| :: r[a] < r[b]
  {
    if columns == [] then []
    else
      var init := columns[..|columns| - 1];
      var r := IndicesOf(init, name);
      assert forall i | 0 <= i < |init| :: init[i] == columns[i];
      assert forall k | 0 <= k < |r| :: r[k] in r && r[k] < |init|;
      if columns[|columns| - 1] == name then r + [|columns| - 1] else r
  }

  /** Selecting one column by label: pandas raises a KeyError when the label
      is absent, and the single-column operations of the report cannot work
      on a label that names several columns. */
  function Locate(columns: seq<string>, name: string): (r: Result<nat>)
    ensures r.Ok? <==> Unique(columns, name)
    ensures r.Ok? ==> r.value < |columns| && columns[r.value] == name
    ensures r.Err? ==> r.error == if name in columns then DuplicateColumn(name) else MissingColumns([name])
  {
    var found := IndicesOf(columns, name);
    if |found| == 0 then
      assert name in columns ==> exists i :: i in found;
      Err(MissingColumns([name]))
    else if |found| > 1 then
      assert found[0] in found && found[1] in found;
      Err(DuplicateColumn(name))
    else
      assert found[0] in found;
      Ok(found[0])
  }

  /** The labels of `names` that are not columns, in the order asked for. */
  function Missing(columns: seq<string>, names: seq<string>): (r: seq<string>)
    ensures forall n :: n in r <==> n in names && n !in columns
    ensures r == [] <==> forall n | n in names :: n in columns
  {
    if names == [] then []
    else if names[0] in columns then Missing(columns, names[1..])
    else [names[0]] + Missing(columns, names[1..])
  }
}
