/** The overview grid of five 3D chart cards. Each card looks up its data
    in the raw payload with optional chaining throughout, so an absent
    payload shows every card as loading instead of failing. */
module ChartsGrid {
  import opened JsValue
  import opened Optional
  import opened ReportIds
  import DP = DataProcessor
  import View = SingleReportView

  /** One entry of the grid's chart list. */
  datatype Chart = Chart(id: string, title: string, kind: View.ChartKind)

  /** A rendered card: its title, its caption, and its data, `None` when
      the card shows "Loading..." because there is nothing to plot. */
  datatype Card = Card(title: string, caption: string, data: Option<seq<real>>)

  const Charts: seq<Chart> := [
    Chart("pl", "Profit & Loss Overview", View.Bar),
    Chart("balance", "Balance Sheet Summary", View.Pie),
    Chart("cashflow", "Cash Flow Movement", View.Line),
    Chart("araging", "Accounts Receivable Aging", View.Column),
    Chart("apaging", "Accounts Payable Aging", View.Column)
  ]

  /** The report section whose data a chart of the grid plots. */
  function SectionOf(chartId: string): (r: Option<ReportId>)
    ensures r.Some? ==> r.value != Overview && r.value != Insights
  {
    match chartId
    case "pl" => Some(Pl)
    case "balance" => Some(Balance)
    case "cashflow" => Some(Cashflow)
    case "araging" => Some(Receivables)
    case "apaging" => Some(Payables)
    case _ => None
  }

  /** Every chart of the grid plots its own report section, in the style the
      single-report page uses for that section. */
  lemma ChartsMatchSections()
    ensures forall i :: 0 <= i < |Charts| ==>
      SectionOf(Charts[i].id).Some? && Charts[i].kind == View.ChartType(SectionOf(Charts[i].id).value)
    ensures forall i, j :: 0 <= i < j < |Charts| ==> SectionOf(Charts[i].id) != SectionOf(Charts[j].id)
  {
  }

  /** `getChartData(chartId)`: a statement's first dataset values as
      `Number(v) || 0`, or the totals of an aging report's trailing total
      row, or nothing. The only TypeError left is `.map` on 3D values that
      are truthy but not an array. */
  function ChartData(chartId: string, data: Value, co: Coercion): (r: Completion<seq<real>>)
    ensures Nullish(data) ==> r == Normal([])
    ensures SectionOf(chartId).None? ==> r == Normal([])
    ensures r.Normal? && (chartId == "araging" || chartId == "apaging") ==> |r.value| <= 5
    ensures r.Normal? && SectionOf(chartId).Some? && IsStatement(SectionOf(chartId).value) ==>
      var values := DP.FirstValues(Member(data, DP.ReportKey(SectionOf(chartId).value)));
      r.value == if Truthy(values) && values.Arr? then DP.NumbersOrZero(values.items, co) else []
    ensures r.Normal? && SectionOf(chartId).Some? && IsAging(SectionOf(chartId).value) ==>
      var result := Member(Member(data, DP.ReportKey(SectionOf(chartId).value)), "result");
      r.value == if Truthy(result) then View.TotalRowValues(result, co) else []
  {
    match SectionOf(chartId)
    case None => Normal([])
    case Some(id) =>
      var report := Member(data, DP.ReportKey(id));
      if IsStatement(id) then
        var values := DP.FirstValues(report);
        if !Truthy(values) then Normal([])
        else if !values.Arr? then Throw
        else Normal(DP.NumbersOrZero(values.items, co))
      else
        var result := Member(report, "result");
        if !Truthy(result) then Normal([]) else Normal(View.TotalRowValues(result, co))
  }

  /** On a payload that is present, a grid card plots exactly the 3D data
      of the single-report page of its section. */
  lemma ChartDataAgreesWithView(chartId: string, data: Value, co: Coercion)
    requires !Nullish(data) && SectionOf(chartId).Some?
    ensures ChartData(chartId, data, co) == View.Chart3DData(SectionOf(chartId).value, data, co)
  {
  }

  /** `chart.type.toUpperCase()` */
  function KindName(kind: View.ChartKind): string {
    match kind
    case Bar => "BAR"
    case Pie => "PIE"
    case Line => "LINE"
    case Column => "COLUMN"
    case Radar => "RADAR"
  }

  /** The card of one chart: the chart is drawn when there is at least one
      value. */
  function CardOf(chart: Chart, data: Value, co: Coercion): (r: Completion<Card>)
    ensures r.Throw? <==> ChartData(chart.id, data, co).Throw?
    ensures r.Normal? ==> r.value.title == chart.title && r.value.caption == KindName(chart.kind) + " 3D Chart"
    ensures r.Normal? ==> (r.value.data.Some? <==> ChartData(chart.id, data, co).value != [])
  {
    var values :- ChartData(chart.id, data, co);
    Normal(Card(chart.title, KindName(chart.kind) + " 3D Chart", if |values| > 0 then Some(values) else None))
  }

  /** `charts.map(...)`: the cards in the order of `Charts`, failing when a
      card fails. */
  function CardsOf(charts: seq<Chart>, data: Value, co: Coercion): (r: Completion<seq<Card>>)
    ensures r.Throw? <==> exists i :: 0 <= i < |charts| && CardOf(charts[i], data, co).Throw?
    ensures r.Normal? ==>
      && |r.value| == |charts|
      && forall i :: 0 <= i < |charts| ==> r.value[i] == CardOf(charts[i], data, co).value
    decreases |charts|
  {
    if charts == [] then Normal([])
    else
      var head :- CardOf(charts[0], data, co);
      var tail :- CardsOf(charts[1..], data, co);
      assert forall i :: 1 <= i < |charts| ==> charts[i] == charts[1..][i - 1];
      Normal([head] + tail)
  }

  /** `ChartsGrid({ data })` */
  function Grid(data: Value, co: Coercion): Completion<seq<Card>> {
    CardsOf(Charts, data, co)
  }

  /** An absent payload shows all five cards, each loading. */
  lemma GridWithoutData(data: Value, co: Coercion)
    requires Nullish(data)
    ensures Grid(data, co).Normal?
    ensures var cards := Grid(data, co).value;
      |cards| == 5 && forall i :: 0 <= i < 5 ==> cards[i].data.None? && cards[i].title == Charts[i].title
  {
  }

  /** A statement whose 3D values are truthy but not an array: reading
      them with `.map` throws. */
  predicate BadValues(data: Value, id: ReportId) {
    var values := DP.FirstValues(Member(data, DP.ReportKey(id)));
    Truthy(values) && !values.Arr?
  }

  /** The grid fails exactly when one of the three statements has 3D values
      that are truthy but not an array. */
  lemma GridThrows(data: Value, co: Coercion)
    ensures Grid(data, co).Throw? <==> BadValues(data, Pl) || BadValues(data, Balance) || BadValues(data, Cashflow)
  {
    ChartSections();
    CardThrows(Charts[0], Pl, data, co);
    CardThrows(Charts[1], Balance, data, co);
    CardThrows(Charts[2], Cashflow, data, co);
    CardThrows(Charts[3], Receivables, data, co);
    CardThrows(Charts[4], Payables, data, co);
    SomeOfFive(Charts, data, co);
  }

  /** The sections the five charts plot, in order. */
  lemma ChartSections()
    ensures SectionOf(Charts[0].id) == Some(Pl) && SectionOf(Charts[1].id) == Some(Balance)
    ensures SectionOf(Charts[2].id) == Some(Cashflow) && SectionOf(Charts[3].id) == Some(Receivables)
    ensures SectionOf(Charts[4].id) == Some(Payables)
  {
  }

  /** Five cards fail together when one of them fails. */
  lemma SomeOfFive(charts: seq<Chart>, data: Value, co: Coercion)
    requires |charts| == 5
    ensures CardsOf(charts, data, co).Throw? <==>
      || CardOf(charts[0], data, co).Throw? || CardOf(charts[1], data, co).Throw?
      || CardOf(charts[2], data, co).Throw? || CardOf(charts[3], data, co).Throw?
      || CardOf(charts[4], data, co).Throw?
  {
    if CardsOf(charts, data, co).Throw? {
      var i :| 0 <= i < |charts| && CardOf(charts[i], data, co).Throw?;
      assert i == 0 || i == 1 || i == 2 || i == 3 || i == 4;
    }
  }

  /** One card fails exactly when it plots a statement whose 3D values are
      truthy but not an array. */
  lemma CardThrows(chart: Chart, id: ReportId, data: Value, co: Coercion)
    requires SectionOf(chart.id) == Some(id)
    ensures CardOf(chart, data, co).Throw? <==> IsStatement(id) && BadValues(data, id)
  {
  }
}
