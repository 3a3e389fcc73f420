/** The dashboard's report sections (`ReportId` of the sidebar). */
module ReportIds {
  datatype ReportId = Overview | Pl | Balance | Cashflow | Receivables | Payables | Insights

  /** The three financial statements: profit & loss, balance sheet, cash
      flow. */
  predicate IsStatement(id: ReportId) {
    id == Pl || id == Balance || id == Cashflow
  }

  /** The two aging reports. */
  predicate IsAging(id: ReportId) {
    id == Receivables || id == Payables
  }
}
