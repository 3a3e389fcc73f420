/** The report normaliser: turns one loosely typed ERP report out of the
    dashboard payload into a `NormalizedReport` record with table columns,
    table rows, 2D chart points, 3D chart values and labels.

    The pure parts (title table, row pipelines, chart extraction) are
    functions; the record itself is the class `NormalizedReport`, which the
    two processing methods fill in place, as the source does. The functions
    `FinancialStatement`, `AgingReport` and `Normalize` state, as values,
    what the methods leave in the record. */
module DataProcessor {
  import opened Strings
  import opened JsValue
  import opened Optional
  import opened ReportIds
  import opened AccountName

  datatype Column = Column(key: string, header: string, isNumeric: bool, isAccountName: bool)

  /** A normalised table row: a financial statement line, or one party of an
      aging report with its five aging buckets. */
  datatype Row =
    | AccountRow(accountName: string, amount: Number, percentage: Number)
    | AgingRow(name: string, amount: Number, aging0to30: Number, aging30to60: Number,
               aging60to90: Number, aging90to120: Number, aging120Plus: Number)

  /** A 2D chart point `{ name, value }`; the name is the chart label as it
      came. */
  datatype Point = Point(name: Value, value: Number)

  /** The contents of a `NormalizedReport` record. */
  datatype Report = Report(
    title: string,
    currency: string,
    columns: seq<Column>,
    rows: seq<Row>,
    chart2DData: seq<Point>,
    chart3DData: seq<real>,
    chart3DLabels: seq<Value>,
    rawReport: Value)

  /** `getTitleForReport` */
  function TitleForReport(id: ReportId): string {
    match id
    case Overview => "Dashboard Overview"
    case Pl => "Profit & Loss Statement"
    case Balance => "Balance Sheet"
    case Cashflow => "Cash Flow Analysis"
    case Receivables => "Accounts Receivable Aging"
    case Payables => "Accounts Payable Aging"
    case Insights => "AI Insights"
  }

  /** Every report has its own, non-empty title. */
  lemma TitlesDistinct(a: ReportId, b: ReportId)
    ensures TitleForReport(a) != ""
    ensures TitleForReport(a) == TitleForReport(b) <==> a == b
  {
  }

  /** The key of the payload that holds each report; empty for the two
      sections that have no report of their own. */
  function ReportKey(id: ReportId): (k: string)
    ensures k == "" <==> id == Overview || id == Insights
  {
    match id
    case Overview => ""
    case Pl => "profitAndLoss"
    case Balance => "balanceSheet"
    case Cashflow => "cashFlow"
    case Receivables => "receivables"
    case Payables => "payables"
    case Insights => ""
  }

  /** The record every successful normalisation starts from. */
  function InitialReport(id: ReportId, report: Value): Report {
    Report(TitleForReport(id), "USD", [], [], [], [], [], report)
  }

  // ---------------------------------------------------------------------
  // Financial statements

  /** Account names containing one of these mark subtotal and heading lines,
      which the table leaves out. */
  const ExcludePatterns: seq<string> := ["Total", "Profit for the year", "Asset", "Liability", "Funds"]

  /** `excludePatterns.some((pattern) => accountName.includes(pattern))` */
  predicate Excluded(accountName: string) {
    exists p :: p in ExcludePatterns && Contains(accountName, p)
  }

  const FinancialColumns: seq<Column> := [
    Column("account_name", "Account", false, true),
    Column("amount", "Amount", true, false),
    Column("percentage", "%", true, false)
  ]

  /** `String(row[i] || "")` */
  function CellText(row: Value, i: nat, co: Coercion): string {
    ToStr(Or(Elem(row, i), Str("")), co)
  }

  /** `Number(row[i] || 0)` */
  function CellNumber(row: Value, i: nat, co: Coercion): Number {
    ToNumber(Or(Elem(row, i), Num(0.0)), co)
  }

  /** The filter of the financial table: a row survives when it is a
      non-empty array whose first cell names no excluded pattern. */
  predicate KeepRow(row: Value, co: Coercion) {
    row.Arr? && |row.items| > 0 && !Excluded(CellText(row, 0, co))
  }

  /** `rows.filter(KeepRow)` */
  function KeptRows(rows: seq<Value>, co: Coercion): (r: seq<Value>)
    ensures |r| <= |rows|
    ensures forall k :: 0 <= k < |r| ==> KeepRow(r[k], co)
    decreases |rows|
  {
    if rows == [] then []
    else if KeepRow(rows[0], co) then [rows[0]] + KeptRows(rows[1..], co)
    else KeptRows(rows[1..], co)
  }

  /** The positions, in increasing order, of the rows the filter keeps. */
  ghost function KeptPositions(rows: seq<Value>, co: Coercion): (r: seq<nat>)
    ensures |r| <= |rows|
    ensures forall k :: 0 <= k < |r| ==> r[k] < |rows|
    ensures forall k, l :: 0 <= k < l < |r| ==> r[k] < r[l]
    decreases |rows|
  {
    if rows == [] then []
    else
      var rest := KeptPositions(rows[1..], co);
      var shifted := seq(|rest|, k requires 0 <= k < |rest| => rest[k] + 1);
      if KeepRow(rows[0], co) then [0] + shifted else shifted
  }

  /** The filter's result is the input read at the positions
      `KeptPositions`. */
  lemma {:induction false} KeptRowsAtPositions(rows: seq<Value>, co: Coercion)
    ensures var pos := KeptPositions(rows, co); var kept := KeptRows(rows, co);
      && |pos| == |kept|
      && (forall k :: 0 <= k < |pos| ==> kept[k] == rows[pos[k]])
    decreases |rows|
  {
    if rows != [] {
      KeptRowsAtPositions(rows[1..], co);
      var rest := KeptPositions(rows[1..], co);
      var keptRest := KeptRows(rows[1..], co);
      var shifted := seq(|rest|, k requires 0 <= k < |rest| => rest[k] + 1);
      var pos := KeptPositions(rows, co);
      var kept := KeptRows(rows, co);
      forall k | 0 <= k < |rest| ensures keptRest[k] == rows[shifted[k]] {
        assert rows[rest[k] + 1] == rows[1..][rest[k]];
      }
      if KeepRow(rows[0], co) {
        assert pos == [0] + shifted && kept == [rows[0]] + keptRest;
        forall k | 0 <= k < |pos| ensures kept[k] == rows[pos[k]] {
          if k > 0 {
            assert kept[k] == keptRest[k - 1] && pos[k] == shifted[k - 1];
          }
        }
      } else {
        assert pos == shifted && kept == keptRest;
      }
    }
  }

  /** A position is among `KeptPositions` exactly when the row there passes
      `KeepRow`. */
  lemma {:induction false} KeptPositionsArePassing(rows: seq<Value>, co: Coercion)
    ensures forall j :: 0 <= j < |rows| ==> (j in KeptPositions(rows, co) <==> KeepRow(rows[j], co))
    decreases |rows|
  {
    if rows != [] {
      KeptPositionsArePassing(rows[1..], co);
      var rest := KeptPositions(rows[1..], co);
      var shifted := seq(|rest|, k requires 0 <= k < |rest| => rest[k] + 1);
      var pos := KeptPositions(rows, co);
      assert pos == if KeepRow(rows[0], co) then [0] + shifted else shifted;
      forall j | 0 <= j < |rows| ensures (j in pos <==> KeepRow(rows[j], co)) {
        if j > 0 {
          assert rows[j] == rows[1..][j - 1];
          if j in shifted {
            var k :| 0 <= k < |shifted| && shifted[k] == j;
            assert rest[k] == j - 1;
          }
          if j - 1 in rest {
            var k :| 0 <= k < |rest| && rest[k] == j - 1;
            assert shifted[k] == j;
          }
        } else {
          assert 0 !in shifted;
        }
      }
    }
  }

  /** The filter keeps exactly the rows that pass `KeepRow`, each once, in
      their original order: its result is the input at increasing positions,
      and a position is among them exactly when the row there passes. */
  lemma KeptRowsAreThePassingRows(rows: seq<Value>, co: Coercion)
    ensures exists pos: seq<nat> ::
      && |pos| == |KeptRows(rows, co)|
      && (forall k :: 0 <= k < |pos| ==> pos[k] < |rows| && KeptRows(rows, co)[k] == rows[pos[k]])
      && (forall k, l :: 0 <= k < l < |pos| ==> pos[k] < pos[l])
      && (forall j :: 0 <= j < |rows| ==> (j in pos <==> KeepRow(rows[j], co)))
  {
    KeptRowsAtPositions(rows, co);
    KeptPositionsArePassing(rows, co);
    var pos := KeptPositions(rows, co);
    assert forall k :: 0 <= k < |pos| ==> pos[k] < |rows|;
  }

  /** One financial table row: `{ account_name, amount, percentage }`. */
  function AccountRowOf(row: Value, co: Coercion): Row {
    AccountRow(Sanitize(CellText(row, 0, co)), CellNumber(row, 1, co), CellNumber(row, 2, co))
  }

  /** `result.slice(0, 10).filter(KeepRow).map(AccountRowOf)`: at most ten
      rows, each built from a row among the first ten that passes the
      filter. */
  function FinancialRows(result: seq<Value>, co: Coercion): (r: seq<Row>)
    ensures |r| <= 10 && |r| <= |result|
    ensures |r| == |KeptRows(Take(result, 10), co)|
    ensures forall k :: 0 <= k < |r| ==> r[k] == AccountRowOf(KeptRows(Take(result, 10), co)[k], co)
  {
    var kept := KeptRows(Take(result, 10), co);
    seq(|kept|, k requires 0 <= k < |kept| => AccountRowOf(kept[k], co))
  }

  /** `report.chart?.data` */
  function ChartBlock(report: Value): Value {
    Member(Member(report, "chart"), "data")
  }

  /** `report.chart?.data?.datasets` */
  function Datasets(report: Value): Value {
    Member(ChartBlock(report), "datasets")
  }

  /** `report.chart?.data?.labels || []` */
  function Labels(report: Value): Value {
    Or(Member(ChartBlock(report), "labels"), Arr([]))
  }

  /** `report.chart?.data?.datasets?.[0]?.values` */
  function FirstValues(report: Value): Value {
    Member(Elem(Datasets(report), 0), "values")
  }

  /** A defined `datasets?.[0]?.values` means `datasets` is truthy: every
      reader of the 3D values has passed the guard of the 2D branch. */
  lemma ValuesNeedDatasets(report: Value)
    requires Truthy(FirstValues(report))
    ensures Truthy(Datasets(report))
  {
    ElemDefinedMeansTruthy(Datasets(report), 0);
  }

  /** Building the 2D points of a chart whose datasets are present throws:
      `labels.map` on labels that are not an array, or `dataset.values` on a
      missing first dataset when there is a label to read it for. */
  predicate PointsThrow(report: Value) {
    Truthy(Datasets(report)) &&
      (!Labels(report).Arr? || (|Labels(report).items| > 0 && Nullish(Elem(Datasets(report), 0))))
  }

  /** `Number(dataset.values?.[idx] || 0)` */
  function DatasetValue(dataset: Value, idx: nat, co: Coercion): Number {
    ToNumber(Or(Elem(Member(dataset, "values"), idx), Num(0.0)), co)
  }

  /** `Math.abs(Number(dataset.values?.[idx] || 0))` */
  function PointValue(dataset: Value, idx: nat, co: Coercion): (r: Number)
    ensures r.NaN? || r.r >= 0.0
  {
    Abs(DatasetValue(dataset, idx, co))
  }

  /** `labels.map((label, idx) => ({ name: label, value: PointValue }))`.
      `dataset.values` is read once per label, so an absent dataset throws
      exactly when there is at least one label. */
  function ChartPoints(labels: seq<Value>, dataset: Value, co: Coercion): (r: Completion<seq<Point>>)
    ensures r.Throw? <==> |labels| > 0 && Nullish(dataset)
    ensures r.Normal? ==> |r.value| == |labels|
    ensures r.Normal? ==> forall i :: 0 <= i < |labels| ==>
      && r.value[i].name == labels[i]
      && r.value[i].value == PointValue(dataset, i, co)
  {
    if |labels| > 0 && Nullish(dataset) then Throw
    else Normal(seq(|labels|, i requires 0 <= i < |labels| => Point(labels[i], PointValue(dataset, i, co))))
  }

  /** `values.map((v) => Number(v) || 0)` */
  function NumbersOrZero(values: seq<Value>, co: Coercion): (r: seq<real>)
    ensures |r| == |values|
    ensures forall i :: 0 <= i < |values| ==> r[i] == NumberOrZero(values[i], co)
  {
    seq(|values|, i requires 0 <= i < |values| => NumberOrZero(values[i], co))
  }

  /** `values.map((v) => Math.abs(Number(v) || 0))`: one non-negative value
      per input value, the magnitude of its `Number(v) || 0`. */
  function AbsValues(values: seq<Value>, co: Coercion): (r: seq<real>)
    ensures |r| == |values|
    ensures forall i :: 0 <= i < |values| ==> r[i] >= 0.0 && r[i] == AbsReal(NumbersOrZero(values, co)[i])
  {
    seq(|values|, i requires 0 <= i < |values| => AbsReal(NumberOrZero(values[i], co)))
  }

  /** The table part of `processFinancialStatement`: only an array `result`
      sets columns and rows. */
  function WithFinancialTable(r: Report, result: Value, co: Coercion): Report {
    if result.Arr? then r.(columns := FinancialColumns, rows := FinancialRows(result.items, co)) else r
  }

  /** What `processFinancialStatement` leaves in the record `r`, or `Throw`
      for the TypeErrors it can raise: `report.chart` on an absent report,
      the two of `PointsThrow`, and `values.map` on 3D values that are not an
      array. */
  function FinancialStatement(r: Report, report: Value, co: Coercion): Completion<Report> {
    var _ :- Prop(report, "chart");
    if PointsThrow(report) || BadValues(report) then Throw
    else Normal(WithFinancialTable(With3D(WithPoints(r, report, co), report, co), Member(report, "result"), co))
  }

  /** The 3D values are truthy but not an array: `values.map` throws. */
  predicate BadValues(report: Value) {
    Truthy(FirstValues(report)) && !FirstValues(report).Arr?
  }

  /** The 2D part of `processFinancialStatement`: with datasets present, one
      point per chart label. */
  function WithPoints(r: Report, report: Value, co: Coercion): Report
    requires !PointsThrow(report)
  {
    var datasets := Datasets(report);
    if Truthy(datasets) then r.(chart2DData := ChartPoints(Labels(report).items, Elem(datasets, 0), co).value)
    else r
  }

  /** The 3D part of `processFinancialStatement`: with values present, their
      magnitudes, labelled by the chart labels. */
  function With3D(r: Report, report: Value, co: Coercion): Report
    requires !PointsThrow(report) && !BadValues(report)
  {
    var values := FirstValues(report);
    if Truthy(values) then
      ValuesNeedDatasets(report);
      r.(chart3DData := AbsValues(values.items, co), chart3DLabels := Labels(report).items)
    else r
  }

  /** `processFinancialStatement` throws exactly when the report is absent,
      when building the 2D points throws, or when the 3D values are truthy
      but not an array. */
  lemma FinancialStatementThrows(r: Report, report: Value, co: Coercion)
    ensures FinancialStatement(r, report, co).Throw? <==>
      Nullish(report) || PointsThrow(report) || (Truthy(FirstValues(report)) && !FirstValues(report).Arr?)
  {
  }

  /** When `processFinancialStatement` completes: the rows are at most ten
      of the first ten source rows, filtered, in order, under the three fixed
      columns; there is one 2D point per chart label, named by the label,
      whose value is non-negative or NaN; the 3D values are the absolute
      coerced dataset values with the labels beside them; the title,
      currency and raw report are untouched. */
  lemma FinancialStatementShape(r: Report, report: Value, co: Coercion)
    requires FinancialStatement(r, report, co).Normal?
    ensures var n := FinancialStatement(r, report, co).value;
      var datasets := Datasets(report);
      var labels := Labels(report);
      var values := FirstValues(report);
      var result := Member(report, "result");
      && n.title == r.title && n.currency == r.currency && n.rawReport == r.rawReport
      && (result.Arr? ==> n.columns == FinancialColumns && n.rows == FinancialRows(result.items, co))
      && (!result.Arr? ==> n.columns == r.columns && n.rows == r.rows)
      && (Truthy(datasets) ==>
            && labels.Arr? && |n.chart2DData| == |labels.items|
            && forall i :: 0 <= i < |labels.items| ==>
                 n.chart2DData[i].name == labels.items[i] && n.chart2DData[i].value == PointValue(Elem(datasets, 0), i, co))
      && (!Truthy(datasets) ==> n.chart2DData == r.chart2DData)
      && (Truthy(values) ==>
            && values.Arr? && labels.Arr?
            && n.chart3DData == AbsValues(values.items, co)
            && n.chart3DLabels == labels.items)
      && (!Truthy(values) ==> n.chart3DData == r.chart3DData && n.chart3DLabels == r.chart3DLabels)
  {
    if Truthy(FirstValues(report)) {
      ValuesNeedDatasets(report);
    }
  }

  // ---------------------------------------------------------------------
  // Aging reports

  /** The seven columns of an aging table; the first names the customer for
      receivables, the supplier for payables. */
  function AgingColumns(id: ReportId): (r: seq<Column>)
    ensures |r| == 7
    ensures r[0].header == if id == Receivables then "Customer" else "Supplier"
    ensures r[0].isAccountName && !r[0].isNumeric
    ensures forall k :: 1 <= k < 7 ==> r[k].isNumeric && !r[k].isAccountName
  {
    [
      Column("name", if id == Receivables then "Customer" else "Supplier", false, true),
      Column("amount", "Amount", true, false),
      Column("aging_0_30", "0-30 Days", true, false),
      Column("aging_30_60", "30-60 Days", true, false),
      Column("aging_60_90", "60-90 Days", true, false),
      Column("aging_90_120", "90-120 Days", true, false),
      Column("aging_120_plus", "120+ Days", true, false)
    ]
  }

  /** The names of the five aging buckets, in order. */
  const BucketLabels: seq<Value> := [Str("0-30"), Str("30-60"), Str("60-90"), Str("90-120"), Str("120+")]

  /** An aging report's last row, when it is an array whose first cell is the
      string "Total", holds the bucket totals in cells 11 to 15. */
  predicate IsTotalRow(row: Value) {
    row.Arr? && Elem(row, 0) == Str("Total")
  }

  /** `totalRow.slice(11, 16).map((v) => Number(v) || 0)` */
  function BucketTotals(row: seq<Value>, co: Coercion): (r: seq<real>)
    ensures |r| <= 5
    ensures |r| == if |row| <= 11 then 0 else if |row| < 16 then |row| - 11 else 5
    ensures forall k :: 0 <= k < |r| ==> r[k] == NumberOrZero(row[11 + k], co)
  {
    var cells := Slice(row, 11, 16);
    seq(|cells|, k requires 0 <= k < |cells| => NumberOrZero(cells[k], co))
  }

  /** The bucket totals of an aging result, when its last row is a total
      row. */
  function AgingTotals(result: seq<Value>, co: Coercion): (r: Option<seq<real>>)
    ensures r.Some? <==> IsTotalRow(LastOf(Arr(result), co))
    ensures r.Some? ==> r.value == BucketTotals(result[|result| - 1].items, co)
  {
    var totalRow := LastOf(Arr(result), co);
    if IsTotalRow(totalRow) then Some(BucketTotals(totalRow.items, co)) else None
  }

  /** One aging table row: cell 0 sanitised as the name, cell 1 the amount,
      cells 11 to 15 the buckets. Reading `row[0]` throws on a `null` or
      missing row. */
  function AgingRowOf(row: Value, co: Coercion): (r: Completion<Row>)
    ensures r.Throw? <==> Nullish(row)
    ensures r.Normal? ==> r.value.AgingRow? && r.value.name == Sanitize(CellText(row, 0, co))
    ensures r.Normal? ==>
      && r.value.amount == CellNumber(row, 1, co)
      && r.value.aging0to30 == CellNumber(row, 11, co)
      && r.value.aging30to60 == CellNumber(row, 12, co)
      && r.value.aging60to90 == CellNumber(row, 13, co)
      && r.value.aging90to120 == CellNumber(row, 14, co)
      && r.value.aging120Plus == CellNumber(row, 15, co)
  {
    var first :- Index(row, 0);
    Normal(AgingRow(
      Sanitize(ToStr(Or(first, Str("")), co)),
      CellNumber(row, 1, co),
      CellNumber(row, 11, co), CellNumber(row, 12, co), CellNumber(row, 13, co),
      CellNumber(row, 14, co), CellNumber(row, 15, co)))
  }

  /** `rows.map(AgingRowOf)`: every row in order, unfiltered; throws when any
      row is `null` or missing. */
  function AgingRows(rows: seq<Value>, co: Coercion): (r: Completion<seq<Row>>)
    ensures r.Throw? <==> exists i :: 0 <= i < |rows| && Nullish(rows[i])
    ensures r.Normal? ==> |r.value| == |rows|
    ensures r.Normal? ==> forall i :: 0 <= i < |rows| ==> r.value[i] == AgingRowOf(rows[i], co).value
    decreases |rows|
  {
    if rows == [] then Normal([])
    else
      NullishShift(rows);
      var head :- AgingRowOf(rows[0], co);
      var tail :- AgingRows(rows[1..], co);
      assert forall i :: 1 <= i < |rows| ==> rows[i] == rows[1..][i - 1];
      Normal([head] + tail)
  }

  /** Some row is `null` or missing exactly when the first one is or one of
      the others is. */
  lemma NullishShift(rows: seq<Value>)
    requires rows != []
    ensures (exists i :: 0 <= i < |rows| && Nullish(rows[i])) <==>
      Nullish(rows[0]) || exists j :: 0 <= j < |rows[1..]| && Nullish(rows[1..][j])
  {
    if exists i :: 0 <= i < |rows| && Nullish(rows[i]) {
      var i :| 0 <= i < |rows| && Nullish(rows[i]);
      if i > 0 {
        assert rows[1..][i - 1] == rows[i];
      }
    }
    if exists j :: 0 <= j < |rows[1..]| && Nullish(rows[1..][j]) {
      var j :| 0 <= j < |rows[1..]| && Nullish(rows[1..][j]);
      assert rows[j + 1] == rows[1..][j];
    }
  }

  /** What `processAgingReport` leaves in the record `r`: nothing changes
      unless `result` is an array; then `AgingTable` says what it becomes. */
  function AgingReport(r: Report, report: Value, id: ReportId, co: Coercion): (n: Completion<Report>)
    ensures n.Throw? <==> Nullish(report) || (Member(report, "result").Arr? && AgingTable(r, Member(report, "result").items, id, co).Throw?)
    ensures n.Normal? && !Member(report, "result").Arr? ==> n.value == r
  {
    var result :- Prop(report, "result");
    if !result.Arr? then Normal(r) else AgingTable(r, result.items, id, co)
  }

  /** The aging table built from an array `result`: the seven aging
      columns, the bucket totals of a trailing total row as 3D data (with the
      five bucket names as labels), and the first fifteen source rows. */
  function AgingTable(r: Report, result: seq<Value>, id: ReportId, co: Coercion): (n: Completion<Report>)
    ensures n.Normal? ==>
      && n.value.title == r.title && n.value.currency == r.currency
      && n.value.rawReport == r.rawReport && n.value.chart2DData == r.chart2DData
  {
    var withColumns := r.(columns := AgingColumns(id));
    var withTotals := match AgingTotals(result, co)
      case Some(t) => withColumns.(chart3DData := t, chart3DLabels := BucketLabels)
      case None => withColumns;
    var rows :- AgingRows(Take(result, 15), co);
    Normal(withTotals.(rows := rows))
  }

  /** The aging table throws exactly when one of the first fifteen rows is
      `null` or missing. */
  lemma AgingTableThrows(r: Report, result: seq<Value>, id: ReportId, co: Coercion)
    ensures AgingTable(r, result, id, co).Throw? <==>
      exists i :: 0 <= i < |result| && i < 15 && Nullish(result[i])
  {
    var first := Take(result, 15);
    assert forall i :: 0 <= i < |first| ==> first[i] == result[i];
  }

  /** A completed aging table: seven columns; exactly the first
      `min(15, |result|)` rows, mapped one for one in order; either the at
      most five bucket totals of the trailing total row with the five bucket
      names, or the 3D fields unchanged; everything else untouched. */
  lemma AgingTableShape(r: Report, result: seq<Value>, id: ReportId, co: Coercion)
    requires AgingTable(r, result, id, co).Normal?
    ensures var n := AgingTable(r, result, id, co).value;
      && n.title == r.title && n.currency == r.currency && n.rawReport == r.rawReport
      && n.chart2DData == r.chart2DData
      && n.columns == AgingColumns(id)
      && |n.rows| == (if |result| < 15 then |result| else 15)
      && (forall i :: 0 <= i < |n.rows| ==> n.rows[i] == AgingRowOf(result[i], co).value)
  {
    var first := Take(result, 15);
    assert forall i :: 0 <= i < |first| ==> first[i] == result[i];
  }

  /** The 3D data of a completed aging table come from the last row exactly
      when it is a total row. */
  lemma AgingTableTotals(r: Report, result: seq<Value>, id: ReportId, co: Coercion)
    requires AgingTable(r, result, id, co).Normal?
    ensures var n := AgingTable(r, result, id, co).value;
      var last := if |result| > 0 then result[|result| - 1] else Undefined;
      && (IsTotalRow(last) ==>
            && n.chart3DData == BucketTotals(last.items, co)
            && |n.chart3DData| <= 5
            && n.chart3DLabels == BucketLabels)
      && (!IsTotalRow(last) ==>
            n.chart3DData == r.chart3DData && n.chart3DLabels == r.chart3DLabels)
  {
    var totals := AgingTotals(result, co);
    var n := AgingTable(r, result, id, co).value;
    var withColumns := r.(columns := AgingColumns(id));
    var withTotals := match totals
      case Some(t) => withColumns.(chart3DData := t, chart3DLabels := BucketLabels)
      case None => withColumns;
    assert n.chart3DData == withTotals.chart3DData && n.chart3DLabels == withTotals.chart3DLabels;
  }

  // ---------------------------------------------------------------------
  // The whole normalisation

  /** What `normalizeReport` returns, `None` standing for `null`: no report
      for the overview and insights sections, none when the payload has no
      truthy entry under the report's key, and none when processing throws
      (the source catches every exception and returns `null`). Reading the
      key of a `null` or missing payload throws too. */
  function Normalize(id: ReportId, rawData: Value, co: Coercion): (r: Option<Report>)
    ensures id == Overview || id == Insights ==> r.None?
    ensures ReportKey(id) != "" && Nullish(rawData) ==> r.None?
    ensures !Truthy(Member(rawData, ReportKey(id))) ==> r.None?
    ensures r.Some? ==>
      && r.value.title == TitleForReport(id)
      && r.value.currency == "USD"
      && r.value.rawReport == Member(rawData, ReportKey(id))
  {
    var key := ReportKey(id);
    if key == "" then None
    else match Prop(rawData, key)
      case Throw => None
      case Normal(report) =>
        if !Truthy(report) then None
        else
          match Process(id, report, co)
          case Throw => None
          case Normal(n) =>
            if IsStatement(id) then FinancialStatementShape(InitialReport(id, report), report, co); Some(n)
            else Some(n)
  }

  /** The processing step for the report's kind, applied to the fresh
      record. */
  function Process(id: ReportId, report: Value, co: Coercion): Completion<Report> {
    var init := InitialReport(id, report);
    if IsStatement(id) then FinancialStatement(init, report, co)
    else if IsAging(id) then AgingReport(init, report, id, co)
    else Normal(init)
  }

  /** A normalised financial statement has at most ten rows, no 3D labels
      without 3D values from the same chart, and either no columns (no array
      `result`) or the three fixed columns. */
  lemma NormalizeStatement(id: ReportId, rawData: Value, co: Coercion)
    requires IsStatement(id) && Normalize(id, rawData, co).Some?
    ensures var n := Normalize(id, rawData, co).value;
      var report := Member(rawData, ReportKey(id));
      && FinancialStatement(InitialReport(id, report), report, co) == Normal(n)
      && |n.rows| <= 10
      && (n.columns == [] || n.columns == FinancialColumns)
      && (forall i :: 0 <= i < |n.chart2DData| ==> n.chart2DData[i].value.NaN? || n.chart2DData[i].value.r >= 0.0)
      && (forall i :: 0 <= i < |n.chart3DData| ==> n.chart3DData[i] >= 0.0)
  {
    var report := Member(rawData, ReportKey(id));
    var init := InitialReport(id, report);
    FinancialStatementShape(init, report, co);
  }

  /** A statement the normaliser can process: its 2D points can be built
      and its 3D values, when present, are an array. */
  predicate StatementWellFormed(report: Value) {
    !PointsThrow(report) && (!Truthy(FirstValues(report)) || FirstValues(report).Arr?)
  }

  /** An aging report the normaliser can process: when its result is an
      array, none of the first fifteen rows is `null` or missing. */
  predicate AgingWellFormed(report: Value) {
    var result := Member(report, "result");
    result.Arr? ==> forall i :: 0 <= i < |result.items| && i < 15 ==> !Nullish(result.items[i])
  }

  /** For a report that is present, `normalizeReport` returns a record
      exactly when the report is well formed for its kind; otherwise the
      exception it catches turns into `null`. */
  lemma NormalizeSucceeds(id: ReportId, rawData: Value, co: Coercion)
    requires ReportKey(id) != "" && Truthy(Member(rawData, ReportKey(id)))
    ensures var report := Member(rawData, ReportKey(id));
      Normalize(id, rawData, co).Some? <==>
        (IsStatement(id) ==> StatementWellFormed(report)) && (IsAging(id) ==> AgingWellFormed(report))
  {
    var report := Member(rawData, ReportKey(id));
    var init := InitialReport(id, report);
    NormalizeIsProcess(id, rawData, co);
    if IsStatement(id) {
      FinancialStatementThrows(init, report, co);
    } else if IsAging(id) {
      var result := Member(report, "result");
      if result.Arr? {
        AgingTableThrows(init, result.items, id, co);
      }
    }
  }

  /** For a report that is present, `normalizeReport` returns the processed
      record, or `null` when processing throws. */
  lemma NormalizeIsProcess(id: ReportId, rawData: Value, co: Coercion)
    requires ReportKey(id) != "" && Truthy(Member(rawData, ReportKey(id)))
    ensures var p := Process(id, Member(rawData, ReportKey(id)), co);
      Normalize(id, rawData, co) == if p.Normal? then Some(p.value) else None
  {
    assert Prop(rawData, ReportKey(id)) == Normal(Member(rawData, ReportKey(id)));
  }

  /** A normalised aging report has at most fifteen rows, at most five 3D
      values, and the bucket names as 3D labels whenever it has 3D values. */
  lemma NormalizeAging(id: ReportId, rawData: Value, co: Coercion)
    requires IsAging(id) && Normalize(id, rawData, co).Some?
    ensures var n := Normalize(id, rawData, co).value;
      var report := Member(rawData, ReportKey(id));
      && AgingReport(InitialReport(id, report), report, id, co) == Normal(n)
      && |n.rows| <= 15
      && |n.chart3DData| <= 5
      && (n.chart3DData != [] ==> n.chart3DLabels == BucketLabels)
      && (n.columns == [] || n.columns == AgingColumns(id))
  {
    var report := Member(rawData, ReportKey(id));
    var result := Member(report, "result");
    if result.Arr? {
      AgingTableShape(InitialReport(id, report), result.items, id, co);
      AgingTableTotals(InitialReport(id, report), result.items, id, co);
    }
  }

  // ---------------------------------------------------------------------
  // The record, filled in place

  /** The `NormalizedReport` record that `normalizeReport` builds. */
  class NormalizedReport {
    var title: string
    var currency: string
    var columns: seq<Column>
    var rows: seq<Row>
    var chart2DData: seq<Point>
    var chart3DData: seq<real>
    var chart3DLabels: seq<Value>
    var rawReport: Value

    /** The record's current contents. */
    function Contents(): Report
      reads this
    {
      Report(title, currency, columns, rows, chart2DData, chart3DData, chart3DLabels, rawReport)
    }

    /** The freshly initialised record: title and raw report set, currency
        "USD", every list empty. */
    constructor (title: string, rawReport: Value)
      ensures Contents() == Report(title, "USD", [], [], [], [], [], rawReport)
    {
      this.title := title;
      this.currency := "USD";
      this.columns := [];
      this.rows := [];
      this.chart2DData := [];
      this.chart3DData := [];
      this.chart3DLabels := [];
      this.rawReport := rawReport;
    }

    /** `processFinancialStatement(normalized, report, reportId)`: the 2D
        points, the 3D values and the table, in that order. */
    method ProcessFinancialStatement(report: Value, co: Coercion) returns (c: Completion<()>)
      modifies this
      ensures c.Normal? <==> FinancialStatement(old(Contents()), report, co).Normal?
      ensures c.Normal? ==> Contents() == FinancialStatement(old(Contents()), report, co).value
    {
      var chart :- Prop(report, "chart");
      c := SetPoints(report, co);
      if c.Throw? {
        return;
      }
      c := SetValues(report, co);
      if c.Throw? {
        return;
      }
      SetTable(report, co);
    }

    /** The 2D block of `processFinancialStatement`. */
    method SetPoints(report: Value, co: Coercion) returns (c: Completion<()>)
      modifies this
      ensures c.Throw? <==> PointsThrow(report)
      ensures c.Normal? ==> Contents() == WithPoints(old(Contents()), report, co)
    {
      var data := Member(Member(report, "chart"), "data");
      var datasets := Member(data, "datasets");
      if Truthy(datasets) {
        var dataset := Elem(datasets, 0);
        var labels := Or(Member(data, "labels"), Arr([]));
        if !labels.Arr? {
          return Throw;
        }
        var points :- ChartPoints(labels.items, dataset, co);
        chart2DData := points;
      }
      return Normal(());
    }

    /** The 3D block of `processFinancialStatement`. */
    method SetValues(report: Value, co: Coercion) returns (c: Completion<()>)
      requires !PointsThrow(report)
      modifies this
      ensures c.Throw? <==> BadValues(report)
      ensures c.Normal? ==> Contents() == With3D(old(Contents()), report, co)
    {
      var data := Member(Member(report, "chart"), "data");
      var values := Member(Elem(Member(data, "datasets"), 0), "values");
      if Truthy(values) {
        if !values.Arr? {
          return Throw;
        }
        chart3DData := AbsValues(values.items, co);
        ValuesNeedDatasets(report);
        var labels := Or(Member(data, "labels"), Arr([]));
        chart3DLabels := labels.items;
      }
      return Normal(());
    }

    /** The table block of `processFinancialStatement`. */
    method SetTable(report: Value, co: Coercion)
      modifies this
      ensures Contents() == WithFinancialTable(old(Contents()), Member(report, "result"), co)
    {
      var result := Member(report, "result");
      if result.Arr? {
        columns := FinancialColumns;
        rows := FinancialRows(result.items, co);
      }
    }

    /** `processAgingReport(normalized, report, reportId)` */
    method ProcessAgingReport(report: Value, id: ReportId, co: Coercion) returns (c: Completion<()>)
      modifies this
      ensures c.Normal? <==> AgingReport(old(Contents()), report, id, co).Normal?
      ensures c.Normal? ==> Contents() == AgingReport(old(Contents()), report, id, co).value
    {
      ghost var r0 := Contents();
      var result :- Prop(report, "result");
      if !result.Arr? {
        return Normal(());
      }
      assert AgingReport(r0, report, id, co) == AgingTable(r0, result.items, id, co);
      columns := AgingColumns(id);
      var totalRow := LastOf(result, co);
      ghost var withTotals := Contents();
      if IsTotalRow(totalRow) {
        chart3DData := BucketTotals(totalRow.items, co);
        chart3DLabels := BucketLabels;
      }
      assert Contents() == match AgingTotals(result.items, co)
        case Some(t) => withTotals.(chart3DData := t, chart3DLabels := BucketLabels)
        case None => withTotals;
      var mapped :- AgingRows(Take(result.items, 15), co);
      rows := mapped;
      return Normal(());
    }
  }

  /** `normalizeReport(reportId, rawData, companyName)`: a new record, or
      `null`. The company name is not used. */
  method NormalizeReport(id: ReportId, rawData: Value, companyName: string, co: Coercion)
    returns (n: NormalizedReport?)
    ensures n == null <==> Normalize(id, rawData, co).None?
    ensures n != null ==> fresh(n) && n.Contents() == Normalize(id, rawData, co).value
  {
    var key := ReportKey(id);
    if key == "" {
      return null;
    }
    var lookup := Prop(rawData, key);
    if lookup.Throw? {
      return null;
    }
    var report := lookup.value;
    if !Truthy(report) {
      return null;
    }
    NormalizeIsProcess(id, rawData, co);
    n := new NormalizedReport(TitleForReport(id), report);
    assert n.Contents() == InitialReport(id, report);
    if IsStatement(id) {
      var c := n.ProcessFinancialStatement(report, co);
      if c.Throw? {
        return null;
      }
    } else if IsAging(id) {
      var c := n.ProcessAgingReport(report, id, co);
      if c.Throw? {
        return null;
      }
    }
    assert n.Contents() == Process(id, report, co).value;
  }
}
