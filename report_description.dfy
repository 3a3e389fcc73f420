/** The one-line description shown under each report's title. */
module ReportDescription {
  import opened ReportIds

  function GetReportDescription(id: ReportId): (r: string)
    ensures r != ""
  {
    match id
    case Overview => "Complete financial overview and key metrics"
    case Pl => "Revenue, expenses, and profit analysis"
    case Balance => "Assets, liabilities, and equity snapshot"
    case Cashflow => "Cash inflows and outflows tracking"
    case Receivables => "Customer payment aging analysis"
    case Payables => "Vendor payment aging analysis"
    case Insights => "AI-powered financial insights"
  }
}
