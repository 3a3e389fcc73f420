/** The single-report page of the dashboard: for one section it shows a
    title and a description, a 2D chart, a 3D chart and a data table, each
    read straight from the raw dashboard payload (not from the normaliser's
    record). Rendering is modelled as the value the page is built from:
    `Render` yields a `Page`, or `Throw` when building it raises a
    TypeError and the component fails. */
module SingleReportView {
  import opened JsValue
  import opened ReportIds
  import DP = DataProcessor
  import RD = ReportDescription

  /** The chart styles the page can ask for; `Radar` is declared but never
      chosen. */
  datatype ChartKind = Bar | Pie | Line | Column | Radar

  /** What the page shows. An empty chart or table is shown as "No data
      available". */
  datatype Page = Page(
    title: string,
    description: string,
    kind: ChartKind,
    chart2D: seq<DP.Point>,
    chart3D: seq<real>,
    headers: seq<string>,
    rows: seq<seq<Value>>)

  /** `getReportTitle` */
  function GetReportTitle(id: ReportId): string {
    match id
    case Overview => "Dashboard Overview"
    case Pl => "Profit & Loss Statement"
    case Balance => "Balance Sheet"
    case Cashflow => "Cash Flow Analysis"
    case Receivables => "Accounts Receivable Aging"
    case Payables => "Accounts Payable Aging"
    case Insights => "AI Insights"
  }

  /** The page's own title table agrees with the normaliser's. */
  lemma TitlesAgree(id: ReportId)
    ensures GetReportTitle(id) == DP.TitleForReport(id)
  {
  }

  /** `getReportDescription` */
  function GetReportDescription(id: ReportId): string {
    match id
    case Overview => "Complete financial overview and key metrics"
    case Pl => "Revenue, expenses, and profit analysis"
    case Balance => "Assets, liabilities, and equity snapshot"
    case Cashflow => "Cash inflows and outflows tracking"
    case Receivables => "Customer payment aging analysis"
    case Payables => "Vendor payment aging analysis"
    case Insights => "AI-powered financial insights"
  }

  /** The page's own description table agrees with the shared one. */
  lemma DescriptionsAgree(id: ReportId)
    ensures GetReportDescription(id) == RD.GetReportDescription(id)
  {
  }

  /** `getChartType`: one style per statement, columns for both aging
      reports, bars otherwise; never a radar. */
  function ChartType(id: ReportId): (r: ChartKind)
    ensures r != Radar
    ensures IsAging(id) ==> r == Column
    ensures !IsStatement(id) && !IsAging(id) ==> r == Bar
    ensures IsStatement(id) ==> r in {Bar, Pie, Line}
  {
    match id
    case Pl => Bar
    case Balance => Pie
    case Cashflow => Line
    case Receivables => Column
    case Payables => Column
    case _ => Bar
  }

  /** The three statements get three different chart styles. */
  lemma StatementKindsDistinct(a: ReportId, b: ReportId)
    requires IsStatement(a) && IsStatement(b) && a != b
    ensures ChartType(a) != ChartType(b)
  {
  }

  /** `getFinancialChartData`: the 2D points of a statement, one per chart
      label, each the label with `Number(dataset.values?.[idx] || 0)`. It
      reads `data.<key>` without optional chaining, so an absent payload
      throws, and it throws where the normaliser's point building does. */
  function FinancialChartData(id: ReportId, data: Value, co: Coercion): (r: Completion<seq<DP.Point>>)
    ensures var report := Member(data, DP.ReportKey(id));
      r.Throw? <==> IsStatement(id) && (Nullish(data) || DP.PointsThrow(report))
    ensures var report := Member(data, DP.ReportKey(id));
      r.Normal? && IsStatement(id) && Truthy(DP.Datasets(report)) ==>
        var labels := DP.Labels(report).items;
        && |r.value| == |labels|
        && forall i :: 0 <= i < |labels| ==>
             r.value[i].name == labels[i] && r.value[i].value == DP.DatasetValue(Elem(DP.Datasets(report), 0), i, co)
    ensures r.Normal? && (!IsStatement(id) || !Truthy(DP.Datasets(Member(data, DP.ReportKey(id))))) ==> r.value == []
  {
    if !IsStatement(id) then Normal([])
    else
      var report :- Prop(data, DP.ReportKey(id));
      var datasets := DP.Datasets(report);
      if !Truthy(datasets) then Normal([])
      else
        var labels := DP.Labels(report);
        var dataset := Elem(datasets, 0);
        if !labels.Arr? || (|labels.items| > 0 && Nullish(dataset)) then Throw
        else Normal(seq(|labels.items|, i requires 0 <= i < |labels.items| =>
          DP.Point(labels.items[i], DP.DatasetValue(dataset, i, co))))
  }

  /** `result[result.length - 1]`, when it is an array starting with
      "Total", gives the at most five bucket totals in its cells 11 to 15.
      On an array result this is the normaliser's rule. */
  function TotalRowValues(result: Value, co: Coercion): (r: seq<real>)
    ensures |r| <= 5
    ensures !DP.IsTotalRow(LastOf(result, co)) ==> r == []
    ensures result.Arr? ==> r == match DP.AgingTotals(result.items, co) case Some(t) => t case None => []
  {
    var totalRow := LastOf(result, co);
    if DP.IsTotalRow(totalRow) then DP.BucketTotals(totalRow.items, co) else []
  }

  /** `get3DChartData`: for a statement its first dataset's values as
      `Number(v) || 0`; for an aging report the totals of a trailing total
      row; nothing otherwise. An absent payload throws for every report
      section, and 3D values that are truthy but not an array throw at
      `.map`. */
  function Chart3DData(id: ReportId, data: Value, co: Coercion): (r: Completion<seq<real>>)
    ensures var report := Member(data, DP.ReportKey(id));
      r.Throw? <==>
        ((IsStatement(id) || IsAging(id)) && Nullish(data)) ||
        (IsStatement(id) && Truthy(DP.FirstValues(report)) && !DP.FirstValues(report).Arr?)
    ensures r.Normal? && IsAging(id) ==> |r.value| <= 5
    ensures r.Normal? && !IsStatement(id) && !IsAging(id) ==> r.value == []
    ensures r.Normal? && IsStatement(id) ==>
      var values := DP.FirstValues(Member(data, DP.ReportKey(id)));
      r.value == if Truthy(values) && values.Arr? then DP.NumbersOrZero(values.items, co) else []
    ensures r.Normal? && IsAging(id) ==>
      var result := Member(Member(data, DP.ReportKey(id)), "result");
      r.value == if Truthy(result) then TotalRowValues(result, co) else []
  {
    if IsStatement(id) then
      var report :- Prop(data, DP.ReportKey(id));
      var values := DP.FirstValues(report);
      if !Truthy(values) then Normal([])
      else if !values.Arr? then Throw
      else Normal(DP.NumbersOrZero(values.items, co))
    else if IsAging(id) then
      var report :- Prop(data, DP.ReportKey(id));
      var result := Member(report, "result");
      if !Truthy(result) then Normal([]) else Normal(TotalRowValues(result, co))
    else Normal([])
  }

  /** How many source rows the table shows: fifteen for aging, ten
      otherwise. */
  function TableLimit(id: ReportId): nat {
    if IsAging(id) then 15 else 10
  }

  /** `getTableData`: the first rows of the report's `result`. `slice`
      exists on arrays and strings only, so any other truthy result throws,
      as does an absent payload for a report section. */
  function TableData(id: ReportId, data: Value): (r: Completion<Value>)
    ensures var result := Member(Member(data, DP.ReportKey(id)), "result");
      r.Throw? <==> DP.ReportKey(id) != "" && (Nullish(data) || (Truthy(result) && !result.Arr? && !result.Str?))
    ensures var result := Member(Member(data, DP.ReportKey(id)), "result");
      r.Normal? ==>
        && (r.value.Arr? || r.value.Str?)
        && (r.value.Arr? && result.Arr? && DP.ReportKey(id) != "" ==> r.value.items == Take(result.items, TableLimit(id)))
        && (r.value.Arr? ==> |r.value.items| <= TableLimit(id))
        && (r.value.Str? ==> |r.value.s| <= TableLimit(id))
    ensures DP.ReportKey(id) == "" ==> r == Normal(Arr([]))
    ensures var result := Member(Member(data, DP.ReportKey(id)), "result");
      DP.ReportKey(id) != "" && !Nullish(data) ==>
        && (!Truthy(result) ==> r == Normal(Arr([])))
        && (result.Arr? ==> r == Normal(Arr(Take(result.items, TableLimit(id)))))
        && (Truthy(result) && result.Str? ==> r == Normal(Str(Take(result.s, TableLimit(id)))))
  {
    var key := DP.ReportKey(id);
    if key == "" then Normal(Arr([]))
    else
      var report :- Prop(data, key);
      var result := Member(report, "result");
      if !Truthy(result) then Normal(Arr([]))
      else match result
        case Arr(xs) => Normal(Arr(Take(xs, TableLimit(id))))
        case Str(s) => Normal(Str(Take(s, TableLimit(id))))
        case _ => Throw
  }

  /** The column headings of the table. */
  function TableHeaders(id: ReportId): (r: seq<string>)
    ensures |r| == if IsAging(id) then |DP.AgingColumns(id)| else |DP.FinancialColumns|
  {
    if IsAging(id) then ["Name", "Amount", "0-30 Days", "30-60 Days", "60-90 Days", "90-120 Days", "120+ Days"]
    else ["Account", "Amount", "Percentage"]
  }

  /** The cells of one table row: an array row is cut to as many cells as
      there are headings; any other row shows as a single cell holding its
      text. */
  function RowCells(id: ReportId, row: Value, co: Coercion): (r: seq<Value>)
    ensures 1 <= |TableHeaders(id)| && |r| <= |TableHeaders(id)|
    ensures row.Arr? ==> r == Take(row.items, |TableHeaders(id)|)
    ensures !row.Arr? ==> r == [Str(ToStr(row, co))]
  {
    if row.Arr? then Take(row.items, |TableHeaders(id)|) else [Str(ToStr(row, co))]
  }

  /** What React accepts as the content of a cell: text, a number, a
      boolean, `null` or `undefined` (the last three show nothing), a
      function (shown as nothing), or an array of such values. A plain
      object makes React throw ("Objects are not valid as a React child"). */
  predicate RenderableChild(v: Value)
    decreases v
  {
    match v
    case Obj(_) => false
    case Arr(xs) => forall i :: 0 <= i < |xs| ==> RenderableChild(xs[i])
    case _ => true
  }

  /** Every cell of a row can be shown. */
  predicate CellsRenderable(cells: seq<Value>) {
    forall k :: 0 <= k < |cells| ==> RenderableChild(cells[k])
  }

  /** The table body: with `tableData.length > 0` each row is mapped to its
      cells. A non-empty string has a length but no `map`, so it throws; a
      shown cell holding a plain object throws when React renders it. */
  function RenderedRows(id: ReportId, table: Value, co: Coercion): (r: Completion<seq<seq<Value>>>)
    ensures r.Throw? <==>
      || (table.Str? && table.s != "")
      || (table.Arr? && exists i :: 0 <= i < |table.items| && !CellsRenderable(RowCells(id, table.items[i], co)))
    ensures r.Normal? && table.Arr? ==>
      |r.value| == |table.items| && forall i :: 0 <= i < |table.items| ==> r.value[i] == RowCells(id, table.items[i], co)
    ensures r.Normal? ==> forall i :: 0 <= i < |r.value| ==> CellsRenderable(r.value[i])
    ensures r.Normal? && !table.Arr? ==> r.value == []
  {
    match table
    case Arr(rows) =>
      if exists i :: 0 <= i < |rows| && !CellsRenderable(RowCells(id, rows[i], co)) then Throw
      else Normal(seq(|rows|, i requires 0 <= i < |rows| => RowCells(id, rows[i], co)))
    case Str(s) => if s == "" then Normal([]) else Throw
    case _ => Normal([])
  }

  /** `SingleReportView({ sectionId, data })`: the 2D data, the 3D data and
      the table data are computed in that order, each able to throw. */
  function Render(id: ReportId, data: Value, co: Coercion): Completion<Page> {
    var chart2D :- FinancialChartData(id, data, co);
    var chart3D :- Chart3DData(id, data, co);
    var table :- TableData(id, data);
    var rows :- RenderedRows(id, table, co);
    Normal(Page(GetReportTitle(id), GetReportDescription(id), ChartType(id), chart2D, chart3D, TableHeaders(id), rows))
  }

  /** The overview and insights sections render a header and nothing else,
      whatever the payload, even an absent one. */
  lemma RenderWithoutReport(id: ReportId, data: Value, co: Coercion)
    requires id == Overview || id == Insights
    ensures Render(id, data, co).Normal?
    ensures var p := Render(id, data, co).value;
      p.chart2D == [] && p.chart3D == [] && p.rows == [] && p.kind == Bar
  {
  }

  /** A report section of an absent payload makes the page throw. */
  lemma RenderNeedsData(id: ReportId, data: Value, co: Coercion)
    requires id != Overview && id != Insights && Nullish(data)
    ensures Render(id, data, co).Throw?
  {
  }

  /** The rows the table shows for an array `result`: its first rows, up
      to the section's limit; none for any other `result`. */
  function ShownRows(id: ReportId, data: Value): (r: seq<Value>)
    ensures |r| <= TableLimit(id)
  {
    var result := Member(Member(data, DP.ReportKey(id)), "result");
    if result.Arr? then Take(result.items, TableLimit(id)) else []
  }

  /** The rows the table shows can all be rendered: none of their shown
      cells is a plain object. */
  predicate TableRenderable(id: ReportId, data: Value, co: Coercion) {
    var shown := ShownRows(id, data);
    forall i :: 0 <= i < |shown| ==> CellsRenderable(RowCells(id, shown[i], co))
  }

  /** Helper of `RenderWellFormed`: the parts of the page that come before
      the table body succeed on a well-formed payload, and the table holds
      the shown rows. */
  lemma WellFormedParts(id: ReportId, data: Value, co: Coercion)
    requires !Nullish(data) && id != Overview && id != Insights
    requires var report := Member(data, DP.ReportKey(id));
      && (IsStatement(id) ==> DP.StatementWellFormed(report))
      && (!Truthy(Member(report, "result")) || Member(report, "result").Arr?)
    ensures FinancialChartData(id, data, co).Normal? && Chart3DData(id, data, co).Normal?
    ensures TableData(id, data) == Normal(Arr(ShownRows(id, data)))
  {
  }

  /** A payload whose report is well formed for the normaliser, and whose
      `result` is an array or absent, renders exactly when no shown cell is
      a plain object; then every row shows at most as many cells as there
      are headings, and there are at most as many rows as the section's
      limit. */
  lemma RenderWellFormed(id: ReportId, data: Value, co: Coercion)
    requires !Nullish(data) && id != Overview && id != Insights
    requires var report := Member(data, DP.ReportKey(id));
      && (IsStatement(id) ==> DP.StatementWellFormed(report))
      && (!Truthy(Member(report, "result")) || Member(report, "result").Arr?)
    ensures Render(id, data, co).Normal? <==> TableRenderable(id, data, co)
    ensures Render(id, data, co).Normal? ==>
      var p := Render(id, data, co).value;
      && |p.rows| <= TableLimit(id)
      && (forall i :: 0 <= i < |p.rows| ==> |p.rows[i]| <= |p.headers|)
  {
    WellFormedParts(id, data, co);
    RenderThroughRows(id, data, co);
    RowsRenderable(id, ShownRows(id, data), co);
  }

  /** Helper of `RenderWellFormed`: a table of rows renders exactly when
      every row's shown cells can be rendered, one rendered row per row,
      none wider than the headings. */
  lemma RowsRenderable(id: ReportId, shown: seq<Value>, co: Coercion)
    ensures var rows := RenderedRows(id, Arr(shown), co);
      && (rows.Normal? <==> forall i :: 0 <= i < |shown| ==> CellsRenderable(RowCells(id, shown[i], co)))
      && (rows.Normal? ==> |rows.value| == |shown|)
      && (rows.Normal? ==> forall i :: 0 <= i < |rows.value| ==> |rows.value[i]| <= |TableHeaders(id)|)
  {
  }

  /** Helper of `RenderWellFormed`: once the charts and the table data are
      computed, the page renders exactly when its table body does, and shows
      that body. */
  lemma RenderThroughRows(id: ReportId, data: Value, co: Coercion)
    requires FinancialChartData(id, data, co).Normal? && Chart3DData(id, data, co).Normal?
    requires TableData(id, data).Normal?
    ensures var rows := RenderedRows(id, TableData(id, data).value, co);
      && (Render(id, data, co).Normal? <==> rows.Normal?)
      && (rows.Normal? ==> Render(id, data, co).value.rows == rows.value)
      && (rows.Normal? ==> Render(id, data, co).value.headers == TableHeaders(id))
  {
  }

  /** A statement whose first result row holds a plain object in its first
      cell does not render, although the normaliser accepts it. */
  lemma ObjectCellThrows(id: ReportId, data: Value, co: Coercion, m: map<string, Value>)
    requires IsStatement(id) && !Nullish(data)
    requires DP.StatementWellFormed(Member(data, DP.ReportKey(id)))
    requires Member(Member(data, DP.ReportKey(id)), "result") == Arr([Arr([Obj(m)])])
    ensures Render(id, data, co).Throw?
  {
    var shown := ShownRows(id, data);
    assert shown == [Arr([Obj(m)])];
    var cells := RowCells(id, shown[0], co);
    assert cells[0] == Obj(m) && !RenderableChild(cells[0]);
    assert !TableRenderable(id, data, co);
    RenderWellFormed(id, data, co);
  }

  /** The normaliser's 2D chart of a statement is the page's 2D chart with
      every value replaced by its magnitude: same labels, same order. */
  lemma Chart2DAgrees(id: ReportId, data: Value, co: Coercion)
    requires IsStatement(id) && DP.Normalize(id, data, co).Some?
    requires Truthy(DP.Datasets(Member(data, DP.ReportKey(id))))
    ensures FinancialChartData(id, data, co).Normal?
    ensures var view := FinancialChartData(id, data, co).value;
      var n := DP.Normalize(id, data, co).value;
      && |n.chart2DData| == |view|
      && forall i :: 0 <= i < |view| ==>
           n.chart2DData[i].name == view[i].name && n.chart2DData[i].value == Abs(view[i].value)
  {
    var report := Member(data, DP.ReportKey(id));
    DP.NormalizeStatement(id, data, co);
    DP.FinancialStatementShape(DP.InitialReport(id, report), report, co);
    DP.FinancialStatementThrows(DP.InitialReport(id, report), report, co);
  }

  /** The normaliser's 3D values of a statement are the magnitudes of the
      page's 3D values. */
  lemma Chart3DStatementAgrees(id: ReportId, data: Value, co: Coercion)
    requires IsStatement(id) && DP.Normalize(id, data, co).Some?
    requires Truthy(DP.FirstValues(Member(data, DP.ReportKey(id))))
    ensures Chart3DData(id, data, co).Normal?
    ensures var view := Chart3DData(id, data, co).value;
      var n := DP.Normalize(id, data, co).value;
      && |n.chart3DData| == |view|
      && forall i :: 0 <= i < |view| ==> n.chart3DData[i] == AbsReal(view[i])
  {
    var report := Member(data, DP.ReportKey(id));
    DP.NormalizeStatement(id, data, co);
    DP.FinancialStatementShape(DP.InitialReport(id, report), report, co);
  }

  /** For an aging report with an array result, the page's 3D values are
      exactly the normaliser's, and both tables hold the same number of
      rows. */
  lemma AgingAgrees(id: ReportId, data: Value, co: Coercion)
    requires IsAging(id) && DP.Normalize(id, data, co).Some?
    requires Member(Member(data, DP.ReportKey(id)), "result").Arr?
    ensures Chart3DData(id, data, co).Normal? && TableData(id, data).Normal?
    ensures var n := DP.Normalize(id, data, co).value;
      && Chart3DData(id, data, co).value == n.chart3DData
      && TableData(id, data).value.Arr?
      && |TableData(id, data).value.items| == |n.rows|
  {
    var report := Member(data, DP.ReportKey(id));
    var result := Member(report, "result");
    var init := DP.InitialReport(id, report);
    DP.NormalizeAging(id, data, co);
    assert DP.AgingReport(init, report, id, co) == DP.AgingTable(init, result.items, id, co);
    DP.AgingTableShape(init, result.items, id, co);
    DP.AgingTableTotals(init, result.items, id, co);
    assert Chart3DData(id, data, co) == Normal(TotalRowValues(result, co));
    assert TableData(id, data) == Normal(Arr(Take(result.items, 15)));
  }

  /** For a statement with an array result, the normaliser keeps at most as
      many rows as the page shows. */
  lemma StatementTableAgrees(id: ReportId, data: Value, co: Coercion)
    requires IsStatement(id) && DP.Normalize(id, data, co).Some?
    requires Member(Member(data, DP.ReportKey(id)), "result").Arr?
    ensures TableData(id, data).Normal? && TableData(id, data).value.Arr?
    ensures |DP.Normalize(id, data, co).value.rows| <= |TableData(id, data).value.items|
  {
    var report := Member(data, DP.ReportKey(id));
    DP.NormalizeStatement(id, data, co);
    DP.FinancialStatementShape(DP.InitialReport(id, report), report, co);
  }
}
