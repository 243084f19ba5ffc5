# Supplier cost and performance report — a verified model of its data pipeline

The report script `cbom_supplier_cost_performance_report_generator.py` loads a
table of supplier purchases and turns it into a supplier summary. It does so in
four steps:

1. It normalises the column headers: surrounding whitespace is stripped and
   each space becomes `_`.
2. It drops every row that lacks a unit cost or a quantity (`dropna` on
   `Unit_Cost`, `Quantity`).
3. It adds a `Total_Cost` column, the unit cost times the quantity.
4. It groups the cleaned rows by `Supplier`. For each supplier it sums
   `Quantity` and `Total_Cost` and averages `Lead_Time`. The groups are then
   ordered by total cost, largest first.

The script writes the cleaned table and the summary to a workbook and draws
charts from them. This project models the four steps in Dafny and proves what
each one promises.

The modules follow the steps:

- `Frames`: the parsed table and the errors.
  - A `Frame` has column labels and rows of cells.
  - A cell is a number, text, or `NA` (a missing value, pandas' NaN).
  - Selecting a column by label is `Locate`. It fails with a KeyError-like
    `MissingColumns` when the label is absent. It fails with `DuplicateColumn`
    when the label names several columns.
- `Headers`: Python's `str.strip()` and `str.replace(" ", "_")` on a label, and
  on all labels.
- `Cleaning`: `dropna(subset=["Unit_Cost", "Quantity"])`.
  - A row is kept when every column labelled Unit_Cost or Quantity holds a
    value.
  - If either label is absent, the result is the KeyError naming the missing
    labels.
- `Costing`: the column assignment `df_clean["Total_Cost"] = ...`.
  - A new last column is added, or every existing Total_Cost column is
    overwritten.
  - A missing factor gives a missing product.
  - Text in a factor column is an error.
- `Summary`: `groupby("Supplier").agg(...).sort_values(...)`. It is stated
  twice:
  - as the computation: entries, groups in first-seen order, then an
    insertion sort;
  - as independent reference definitions over the table: per-supplier column
    sums, present-value counts, and the supplier being present in some row.
- `Report`: the script from the loaded table to its two outputs.
  - The pandas DataFrames the script updates in place are a class,
    `DataFrame`. Its methods rename the columns (line 16) and assign
    Total_Cost (line 22) in place.
  - `GenerateReport` runs the steps on those objects. It is proved equal to
    the pure pipeline `Report`.
  - The pipeline conserves cost: the summary's Total_Cost column adds up to
    the unit cost times the quantity of every loaded row that has a supplier.
- `Sample`: the worked example.
  - Supplier A has two rows (10 × 2 and 5 × 4), B one (100 × 1), and C one
    with no quantity.
  - Cleaning drops C's row.
  - The summary has exactly two rows, B (100) before A (40).

## Model

| member | source | states |
|---|---|---|
| Frames.IndicesOf | cbom_supplier_cost_performance_report_generator.py:22 | the positions holding a label are exactly the columns carrying it, in increasing order |
| Frames.Locate | cbom_supplier_cost_performance_report_generator.py:22 | selecting a column by label succeeds exactly when the label names one column, and then gives that column; otherwise the error says whether the label is absent (KeyError) or duplicated |
| Frames.Missing | cbom_supplier_cost_performance_report_generator.py:19 | the labels reported missing are exactly the asked-for labels that are not columns; none is reported exactly when all are present |
| Headers.Strip | cbom_supplier_cost_performance_report_generator.py:16 | `str.strip()` never lengthens the label; the result has no whitespace at either end, and a label that has none is kept as it is (the exact slice is in `StripCut`) |
| Headers.Underscores | cbom_supplier_cost_performance_report_generator.py:16 | `replace(" ", "_")` keeps the length (which characters change is in `UnderscoresAt`) |
| Headers.NormalizeHeader | cbom_supplier_cost_performance_report_generator.py:16 | one normalised label contains no space and has no whitespace at either end (the full shape is in `NormalizeHeaderShape`) |
| Headers.NormalizeColumns | cbom_supplier_cost_performance_report_generator.py:16 | the new header has one label per old label, each the normalised old label at the same position |
| Headers.StripCut | cbom_supplier_cost_performance_report_generator.py:16 | `str.strip()` keeps a contiguous slice of the label; everything cut off on either side is whitespace; the result has no whitespace at either end |
| Headers.UnderscoresAt | cbom_supplier_cost_performance_report_generator.py:16 | `replace(" ", "_")` keeps the length, turns each space into `_` and keeps every other character |
| Headers.NormalizeHeaderShape | cbom_supplier_cost_performance_report_generator.py:16 | a normalised label is the stripped label with spaces turned into `_` and every other character unchanged; it contains no space and has no surrounding whitespace |
| Headers.NormalizeHeaderKeeps | cbom_supplier_cost_performance_report_generator.py:16 | a label without spaces or surrounding whitespace is left unchanged |
| Headers.NormalizeHeaderIdempotent | cbom_supplier_cost_performance_report_generator.py:16 | normalising a label twice gives the same result as normalising it once |
| Headers.NormalizeHeaderExample | cbom_supplier_cost_performance_report_generator.py:16 | the exported header " Unit Cost\t" becomes "Unit_Cost", the label the later steps select |
| Cleaning.DropIncomplete | cbom_supplier_cost_performance_report_generator.py:19 | the kept rows are no more than the raw rows, and a row is kept exactly when it is a raw row with a value in every Unit_Cost and Quantity column |
| Cleaning.Clean | cbom_supplier_cost_performance_report_generator.py:19 | `dropna(subset=...)` fails exactly when Unit_Cost or Quantity is not a column, naming the missing labels; otherwise the columns are unchanged and the rows are `DropIncomplete` of the raw rows, the complete rows in their original order (proved in `DropIncompleteOrder`) |
| Cleaning.KeptIndices | cbom_supplier_cost_performance_report_generator.py:19 | the positions of the complete raw rows, exactly those, in increasing order |
| Cleaning.DropIncompleteAppend | cbom_supplier_cost_performance_report_generator.py:19 | cleaning a concatenation cleans each part and concatenates the results, so no row moves past another |
| Cleaning.DropIncompleteSnoc | cbom_supplier_cost_performance_report_generator.py:19 | one more raw row adds itself to the kept rows, and its position to the kept positions, exactly when it is complete |
| Cleaning.DropIncompleteOrder | cbom_supplier_cost_performance_report_generator.py:19 | the k-th cleaned row is the raw row at the k-th complete position: the complete rows, in their original order, and nothing else |
| Cleaning.DropIncompleteKeepsAll | cbom_supplier_cost_performance_report_generator.py:19 | the cleaned table is as long as the raw one exactly when every raw row is complete |
| Cleaning.DropIncompleteIdempotent | cbom_supplier_cost_performance_report_generator.py:19 | cleaning a cleaned table changes nothing |
| Cleaning.CompleteAt | cbom_supplier_cost_performance_report_generator.py:19 | with one Unit_Cost and one Quantity column, a row is kept exactly when both of its cells there hold a value |
| Costing.Product | cbom_supplier_cost_performance_report_generator.py:22 | the product of two numeric cells is missing exactly when a factor is, and otherwise is the product of the values |
| Costing.WithTotal | cbom_supplier_cost_performance_report_generator.py:22 | an assigned row fits the new columns; it holds the product in every Total_Cost column and the old cell in every other column |
| Costing.TotalRows | cbom_supplier_cost_performance_report_generator.py:22 | one assigned row per row, in order, each with its own product |
| Costing.AddTotalCost | cbom_supplier_cost_performance_report_generator.py:22 | on success, the table keeps its row count, has the Total_Cost column added (or reused) and is well formed |
| Costing.AddTotalCostFails | cbom_supplier_cost_performance_report_generator.py:22 | the assignment fails exactly when Unit_Cost or Quantity does not name one column, or when one of those columns holds text |
| Costing.AddTotalCostRow | cbom_supplier_cost_performance_report_generator.py:22 | read by label, every row's Total_Cost cells hold Unit_Cost times Quantity, and every other cell is what the row held before |
| Costing.LocateWithTotal | cbom_supplier_cost_performance_report_generator.py:22 | after the assignment, every label other than Total_Cost selects the same column, or fails the same way, as before |
| Costing.AddTotalCostUnfold | cbom_supplier_cost_performance_report_generator.py:22 | a successful assignment located both factor columns, found no text in them, and produced exactly the row-by-row products |
| Costing.CleanedTotalCost | cbom_supplier_cost_performance_report_generator.py:19-22 | in a cleaned row the Unit_Cost and Quantity cells are numbers, and every Total_Cost cell holds their product, which is a number |
| Summary.Suppliers | cbom_supplier_cost_performance_report_generator.py:25 | the group keys are exactly the suppliers of the grouped entries, each once |
| Summary.Mean | cbom_supplier_cost_performance_report_generator.py:28 | the `"mean"` aggregation: none exactly when there is no value, otherwise the value that multiplied by the count gives the sum |
| Summary.GroupRow | cbom_supplier_cost_performance_report_generator.py:25-28 | a supplier's aggregate row carries that supplier, its summed quantity and total cost, and a lead time that is missing exactly when none of its lead times is present and otherwise is their mean |
| Summary.Groups | cbom_supplier_cost_performance_report_generator.py:25-28 | `groupby(...).agg(...)` before sorting: no supplier twice, every row belongs to a supplier that has entries and is that supplier's aggregate (that every such supplier gets a row is in `GroupsShape`) |
| Summary.GroupRows | cbom_supplier_cost_performance_report_generator.py:25-28 | one aggregate row per key, in key order, each aggregating its own key |
| Summary.Insert | cbom_supplier_cost_performance_report_generator.py:29 | inserting adds exactly the one row, as a multiset |
| Summary.SortByTotalCost | cbom_supplier_cost_performance_report_generator.py:29 | `sort_values(by="Total_Cost", ascending=False)` gives a permutation of the rows whose total cost never increases |
| Summary.InsertSorted | cbom_supplier_cost_performance_report_generator.py:29 | inserting into a descending sequence keeps it descending |
| Summary.InsertDistinct | cbom_supplier_cost_performance_report_generator.py:29 | inserting a row whose supplier is new keeps the suppliers distinct |
| Summary.SortDistinct | cbom_supplier_cost_performance_report_generator.py:29 | sorting keeps the suppliers pairwise distinct |
| Summary.InsertSum | cbom_supplier_cost_performance_report_generator.py:29 | inserting a row adds its total cost to the sum of totals |
| Summary.SortSum | cbom_supplier_cost_performance_report_generator.py:29 | sorting neither adds nor loses total cost |
| Summary.TotalOfAbsent | cbom_supplier_cost_performance_report_generator.py:27 | a supplier without entries sums to zero |
| Summary.GroupRowsAppend | cbom_supplier_cost_performance_report_generator.py:25-27 | one more entry adds its cost to the group totals exactly when its supplier is among the keys |
| Summary.GroupRowsSnoc | cbom_supplier_cost_performance_report_generator.py:25-27 | one more key adds its group's total |
| Summary.GroupsConserveTotal | cbom_supplier_cost_performance_report_generator.py:25-27 | the group totals add up to the total cost of all entries |
| Summary.GroupsShape | cbom_supplier_cost_performance_report_generator.py:25-28 | one group per supplier with entries and none for any other supplier; no supplier appears twice; each group is its own supplier's aggregate |
| Summary.GroupedSumCons | cbom_supplier_cost_performance_report_generator.py:27 | the summed column read from the front: the first row's share plus the rest |
| Summary.Project | cbom_supplier_cost_performance_report_generator.py:25 | the grouped entries are at most one per table row, and none has a missing supplier, as `groupby` drops missing keys (which suppliers appear is in `ProjectSuppliers`) |
| Summary.ProjectSnoc | cbom_supplier_cost_performance_report_generator.py:25 | one more table row adds one entry when it has a supplier, and none otherwise |
| Summary.ProjectSums | cbom_supplier_cost_performance_report_generator.py:25-27 | a supplier's entries sum to the table's Quantity and Total_Cost sums over that supplier's rows |
| Summary.ProjectLeadTimes | cbom_supplier_cost_performance_report_generator.py:25-28 | a supplier's entries carry the sum and the count of the Lead_Time values present in that supplier's rows |
| Summary.SupplierPresentSnoc | cbom_supplier_cost_performance_report_generator.py:25 | a supplier occurs in a table exactly when it occurs before the last row or in the last row |
| Summary.ProjectSuppliers | cbom_supplier_cost_performance_report_generator.py:25 | a supplier has entries exactly when it is not missing and some row has it, so rows with a missing supplier form no group |
| Summary.ProjectTotal | cbom_supplier_cost_performance_report_generator.py:25-27 | the entries' total cost is the Total_Cost sum over the rows that have a supplier |
| Summary.Summarize | cbom_supplier_cost_performance_report_generator.py:25-29 | a successful summary is ordered by total cost, largest first |
| Summary.Aggregate | cbom_supplier_cost_performance_report_generator.py:25-29 | aggregation that succeeds is ordered by total cost, largest first |
| Summary.SummarizeFails | cbom_supplier_cost_performance_report_generator.py:25-29 | the summary fails exactly when one of Supplier, Quantity, Total_Cost, Lead_Time does not name one column, or a grouped row holds text in a summed or averaged column |
| Summary.SummarizeIsAggregate | cbom_supplier_cost_performance_report_generator.py:25-29 | with the four labels located, the summary is the aggregation of those columns |
| Summary.SummarizeUnfold | cbom_supplier_cost_performance_report_generator.py:25-29 | a successful summary is the sorted groups of the table's entries |
| Summary.SummarizeSuppliers | cbom_supplier_cost_performance_report_generator.py:25-29 | one summary row per distinct non-missing supplier of the table: every row belongs to such a supplier, every such supplier has a row, and none has two |
| Summary.SummarizeAggregates | cbom_supplier_cost_performance_report_generator.py:25-28 | each summary row holds, over its supplier's table rows, the sum of Quantity, the sum of Total_Cost, and the mean of the Lead_Time values present (none when no value is present) |
| Summary.SummarizeConservesTotal | cbom_supplier_cost_performance_report_generator.py:25-29 | the summary's total costs add up to the Total_Cost of every table row that has a supplier |
| Report.DataFrame.constructor | cbom_supplier_cost_performance_report_generator.py:19 | a new DataFrame (the `.copy()`) holds the given columns and rows |
| Report.DataFrame.NormalizeColumns | cbom_supplier_cost_performance_report_generator.py:16 | the assignment to `df.columns` replaces the labels by their normalised forms and leaves the rows unchanged |
| Report.DataFrame.SetTotalCost | cbom_supplier_cost_performance_report_generator.py:22 | the column assignment updates the frame to the assigned table, or reports the error and leaves the frame unchanged |
| Report.Normalized | cbom_supplier_cost_performance_report_generator.py:16 | renaming the columns keeps the table well formed |
| Report.Report | cbom_supplier_cost_performance_report_generator.py:16-29 | the run's summary is ordered by total cost, largest first |
| Report.GenerateReport | cbom_supplier_cost_performance_report_generator.py:16-29 | the in-place steps on DataFrame objects compute exactly the pipeline's outputs, or its error |
| Report.CostShare | cbom_supplier_cost_performance_report_generator.py:22 | an assigned row adds its own unit cost times quantity to the Total_Cost sum when it has a supplier |
| Report.CostStep | cbom_supplier_cost_performance_report_generator.py:22-27 | the assigned Total_Cost sum of a table is its first row's cost plus the sum of the rest |
| Report.CostAssigned | cbom_supplier_cost_performance_report_generator.py:22-27 | summing the assigned Total_Cost column over the rows with a supplier gives their unit cost times quantity |
| Report.CostKept | cbom_supplier_cost_performance_report_generator.py:19 | dropping incomplete rows loses no cost, since such a row costs nothing |
| Report.ReportUnfold | cbom_supplier_cost_performance_report_generator.py:16-29 | a successful run is clean, then assign, then summarise |
| Report.ReportConservesTotal | cbom_supplier_cost_performance_report_generator.py:16-29 | the summary's Total_Cost column adds up to unit cost times quantity over every loaded row that has a supplier, so no cost is lost or counted twice |
| Sample.LabelsDistinct | cbom_supplier_cost_performance_report_generator.py:19-29 | the five labels the script refers to are different |
| Sample.LocateAt | cbom_supplier_cost_performance_report_generator.py:22 | a label at one position only is selected at that position |
| Sample.SampleHeaders | cbom_supplier_cost_performance_report_generator.py:16 | the example's headers are already normal, so renaming changes nothing |
| Sample.SampleColumns | cbom_supplier_cost_performance_report_generator.py:19-22 | in the example, Unit_Cost and Quantity are the second and third columns, and Total_Cost is not yet a column |
| Sample.SampleClean | cbom_supplier_cost_performance_report_generator.py:19 | cleaning the example drops C's row and keeps the other three in order |
| Sample.CostedRow | cbom_supplier_cost_performance_report_generator.py:22 | a row gains its product as a new last cell |
| Sample.KeptNumeric | cbom_supplier_cost_performance_report_generator.py:22 | the kept example rows hold numbers in both factor columns |
| Sample.SampleTotalRows | cbom_supplier_cost_performance_report_generator.py:22 | the kept example rows gain 20, 20 and 100 |
| Sample.SampleCost | cbom_supplier_cost_performance_report_generator.py:22 | assigning Total_Cost to the cleaned example succeeds with those rows |
| Sample.CostedWidth | cbom_supplier_cost_performance_report_generator.py:22 | every assigned example row has five cells |
| Sample.SampleProject | cbom_supplier_cost_performance_report_generator.py:25-28 | the example's entries are A (2, 20, 5), A (4, 20, 7) and B (1, 100, 3) |
| Sample.SampleSuppliers | cbom_supplier_cost_performance_report_generator.py:25 | the example's groups are A then B |
| Sample.SampleGroupA | cbom_supplier_cost_performance_report_generator.py:25-28 | A's aggregate is quantity 6, total 40, mean lead time 6 |
| Sample.SampleGroupB | cbom_supplier_cost_performance_report_generator.py:25-28 | B's aggregate is quantity 1, total 100, mean lead time 3 |
| Sample.SampleGroups | cbom_supplier_cost_performance_report_generator.py:25-28 | the example's groups are A's aggregate, then B's |
| Sample.SampleCostedColumns | cbom_supplier_cost_performance_report_generator.py:25-28 | after the assignment, Supplier, Quantity, Lead_Time and Total_Cost are columns 0, 2, 3 and 4 |
| Sample.SampleSort | cbom_supplier_cost_performance_report_generator.py:29 | sorting puts B (100) before A (40) |
| Sample.SampleNumeric | cbom_supplier_cost_performance_report_generator.py:25-28 | no assigned example row holds text in a summed or averaged column |
| Sample.SummaryOf | cbom_supplier_cost_performance_report_generator.py:25-29 | the example's assigned rows summarise to exactly two rows, B then A |
| Sample.SampleSummary | cbom_supplier_cost_performance_report_generator.py:25-29 | the summary of the assigned example table is B (1, 100, 3) then A (6, 40, 6) |
| Sample.SampleReport | cbom_supplier_cost_performance_report_generator.py:16-29 | the whole example run: the cleaned sheet holds the three complete rows, with costs 20, 20 and 100; the summary holds exactly two rows, B (total 100) before A (total 40) |

## Left out

- Lines 1-13: the output folder, the clock timestamp and `read_csv` are left out. The model starts from the parsed table, so CSV type inference is left out too: each cell is given as a number, a text or missing.
- Lines 31-81: the Excel workbook, its conditional formatting, the three charts and the printed messages are left out. `Report.Output` holds the two tables the workbook receives.
- Floating point is modelled as exact reals. NaN is the cell `NA`. Sums skip missing values, so an all-missing group sums to 0. A mean over no present value is `None`, where pandas gives NaN. Rounding is not modelled.
- Summary.SortByTotalCost: the contract states only "sorted, largest first, and a permutation", not where rows with equal total cost end up. `sort_values` uses an unstable quicksort by default, so the source fixes no tie order either. The model's insertion sort picks one order.
- Summary.Groups: groups are formed in first-seen supplier order. `groupby` sorts its keys first. After the sort by total cost, the two differ only in the order of ties, which is not stated (see the line above).
- `reset_index()` (line 29) is not modelled as a separate step. The supplier is the first field of each `SupplierTotal`, so there is no index to reset.
- Text in a column that is multiplied, summed or averaged is an error (`NonNumeric`). pandas would instead do different things depending on the types: repeat strings for a text times an integer, concatenate strings in a `sum`, or raise a TypeError. Only the error path is modelled.
- A label that names several columns stops a single-column selection with `DuplicateColumn`. This approximates pandas, whose behaviour there depends on the operation. `dropna` looks at every column carrying an inspected label, and the Total_Cost assignment overwrites every Total_Cost column, as pandas does.
- Integer columns (`int64` quantities) are modelled as reals. Integer overflow is not modelled.
- Aliasing between DataFrames is not modelled. The `.copy()` on line 19 is a fresh `DataFrame` object, and the loaded frame is not touched after it.
