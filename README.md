# Financial dashboard core, modelled in Dafny

The dashboard is a Next.js front end over an ERPNext back end. It shows
financial statements (profit and loss, balance sheet, cash flow) and aging
reports (receivables, payables) as tables, 2D charts and 3D charts. It also
exports the data as CSV, JSON and plain text, and it is meant to guard its
pages and API routes with a session cookie (the route matcher leaves the
API routes unguarded; see "## Findings"). This project models the logic behind
those features and proves properties of it:

- `ReportIds` (`report_id.dfy`): the seven report sections.
- `AccountName` (`account_name.dfy`): the account-name sanitiser.
- `DataProcessor` (`data_processor.dfy`): the report normaliser. Two
  processing methods fill a `NormalizedReport` record in place. The pure
  functions `FinancialStatement`, `AgingReport` and `Normalize` state, as
  values, what those methods leave in the record.
- `SingleReportView` (`single_report_view.dfy`): what the single-report page
  computes from the raw payload. This covers the title, description, chart
  type, 2D points, 3D values, table rows and cells. Lemmas relate these to
  the normaliser.
- `ChartsGrid` (`charts_grid.dfy`): the overview grid of five 3D chart
  cards.
- `ReportDescription` (`report_description.dfy`): the shared description
  table.
- `Middleware` (`middleware.dfy`): the session gate and its route matcher.
- `Export` (`export.dfy`): the three export texts and their file names.
- `Utils` (`utils.dfy`): the fiscal-year label.
- `AppConfig` (`config.dfy`): the configuration defaults and the start-up
  check for missing secrets.

The loosely typed JavaScript values are modelled in `JsValue`
(`js_value.dfy`). A value is `undefined`, `null`, a boolean, a number, a
string, an array, an object or a built-in function. `JsValue` also models:

- truthiness and `||`;
- optional chaining, which yields `undefined` on a nullish value;
- plain member access, which throws a `TypeError` on a nullish value, as a
  `Completion`;
- `Number(...)`, `String(...)`, `Math.abs` and `slice`.

Two engine conversions are not spelled out: parsing a string as a number
and writing a finite number as text. They are a `Coercion` parameter
(`parse`, `format`), and every property holds for any such coercion whose
numbers are finite or NaN (see "## Left out" on numbers). The
rest of `String(...)` and `Number(...)` is written out: `null`, booleans,
arrays (joined with ","), objects (`"[object Object]"`) and built-in
functions. `Strings` (`strings.dfy`) holds the
string functions: `join`, `trim`, `startsWith`, `slice` and decimal
formatting.

In the source, `normalizeReport` wraps all its work in a `try`. A
`TypeError` inside (for example `.map` on a value that is not an array)
makes it return `null`. The model carries that error as `Throw` and turns
it into `None` at the top.

## Model

| member | source | states |
|---|---|---|
| AccountName.StripTags | lib/data-processor.ts:29 | removing `<...>` tags leaves no `<` followed later by `>`, keeps only characters of the input, never lengthens |
| AccountName.CollapseSingleSpaced | lib/data-processor.ts:30 | after collapsing white-space runs, every white-space character is a lone plain space |
| AccountName.CollapseKeepsChars | lib/data-processor.ts:30 | collapsing introduces no visible character that was not in the input |
| AccountName.CollapseKeepsNoTag | lib/data-processor.ts:29-30 | collapsing white space cannot create a tag |
| AccountName.StripTagsUntouched | lib/data-processor.ts:29 | text without tags passes tag stripping unchanged |
| AccountName.CollapseUntouched | lib/data-processor.ts:30 | single-spaced text passes collapsing unchanged |
| AccountName.TrimKeepsShape | lib/data-processor.ts:31 | trimming keeps text single-spaced and tag-free and adds no character |
| AccountName.SanitizeShape | lib/data-processor.ts:26-32 | empty name gives ""; the result has no white space at either end, is single-spaced, tag-free, no longer than the input, and takes each visible character from the input |
| AccountName.SanitizeIdempotent | lib/data-processor.ts:26-32 | sanitising a sanitised name changes nothing |
| DataProcessor.TitlesDistinct | lib/data-processor.ts:155-166 | every title is non-empty and the seven titles are pairwise different |
| DataProcessor.ReportKey | lib/data-processor.ts:37-48 | the payload key is empty exactly for overview and insights, which therefore normalise to null |
| DataProcessor.KeptRows | lib/data-processor.ts:108-112 | the filter keeps only rows that are non-empty arrays whose account name contains no excluded pattern, and never adds rows |
| DataProcessor.KeptPositions | lib/data-processor.ts:108-112 | the positions of kept rows are strictly increasing and in range |
| DataProcessor.KeptRowsAtPositions | lib/data-processor.ts:108-112 | kept row k is the input row at the k-th kept position |
| DataProcessor.KeptPositionsArePassing | lib/data-processor.ts:108-112 | a position is kept exactly when its row passes the filter |
| DataProcessor.KeptRowsAreThePassingRows | lib/data-processor.ts:108-112 | the filter result is exactly the passing rows, in their original order |
| DataProcessor.FinancialRows | lib/data-processor.ts:106-117 | at most 10 rows, taken from the first 10 only; row k is the k-th kept row mapped to name, amount and percentage |
| DataProcessor.ValuesNeedDatasets | lib/data-processor.ts:81-94 | truthy 3D values imply truthy datasets, so the 3D branch never runs without the 2D branch |
| DataProcessor.PointValue | lib/data-processor.ts:86 | every 2D value is `Math.abs` of a number: NaN or non-negative |
| DataProcessor.ChartPoints | lib/data-processor.ts:82-87 | one point per label, in label order; throws exactly when there are labels and the first dataset is nullish |
| DataProcessor.NumbersOrZero | lib/data-processor.ts:139 | one number per value, `Number(v) \|\| 0` |
| DataProcessor.AbsValues | lib/data-processor.ts:92 | one value per input value, each non-negative and equal to the absolute value of `Number(v) \|\| 0` |
| DataProcessor.FinancialStatementThrows | lib/data-processor.ts:79-119 | processing a statement fails exactly when the report is nullish, the points throw, or the 3D values are truthy but not an array |
| DataProcessor.FinancialStatementShape | lib/data-processor.ts:79-119 | on success: title, currency and raw report kept; columns are the fixed three or none; rows at most 10; 2D values NaN or non-negative; 3D values non-negative |
| DataProcessor.AgingColumns | lib/data-processor.ts:124-132 | seven columns; the first is headed "Customer" for receivables and "Supplier" for payables and is the name column; the other six are numeric |
| DataProcessor.BucketTotals | lib/data-processor.ts:139 | at most five values, from cells 11 to 15 of the total row |
| DataProcessor.AgingTotals | lib/data-processor.ts:137-141 | totals exist exactly when the last row is an array whose first cell is "Total" |
| DataProcessor.AgingRowOf | lib/data-processor.ts:144-152 | a row converts unless it is nullish; the name is the sanitised first cell, the amount `Number(row[1] \|\| 0)` and the five buckets `Number(row[k] \|\| 0)` for cells 11 to 15 |
| DataProcessor.AgingRows | lib/data-processor.ts:144-152 | conversion fails exactly when some row is nullish; otherwise one converted row per input row |
| DataProcessor.AgingReport | lib/data-processor.ts:121-122 | a non-array result leaves the record unchanged; failure only on a nullish report or a failing table |
| DataProcessor.AgingTable | lib/data-processor.ts:121-153 | on success, title, currency, raw report and 2D points are kept |
| DataProcessor.AgingTableThrows | lib/data-processor.ts:144-152 | the aging table fails exactly when one of its first 15 rows is nullish |
| DataProcessor.AgingTableShape | lib/data-processor.ts:134-152 | seven aging columns; min(15, n) rows, row k converted from input row k |
| DataProcessor.AgingTableTotals | lib/data-processor.ts:136-141 | when the last row is a total row, the 3D data are its (at most five) bucket totals with the five bucket labels; otherwise the 3D fields are unchanged |
| DataProcessor.Normalize | lib/data-processor.ts:34-77 | null for overview and insights, for a nullish payload and for a falsy report; otherwise title, currency "USD" and raw report set |
| DataProcessor.NormalizeStatement | lib/data-processor.ts:66-119 | a normalised statement has at most 10 rows, the fixed columns or none, 2D values NaN or non-negative, 3D values non-negative |
| DataProcessor.NormalizeAging | lib/data-processor.ts:68-153 | a normalised aging report has at most 15 rows and at most 5 3D values; non-empty 3D data comes with the bucket labels |
| DataProcessor.NormalizeSucceeds | lib/data-processor.ts:34-77 | given a truthy report, normalisation succeeds exactly when the report is well formed for its kind |
| DataProcessor.NormalizeIsProcess | lib/data-processor.ts:50-76 | for a truthy report, normalisation gives the processed record when the kind's processing succeeds and null when it throws |
| DataProcessor.NormalizedReport.constructor | lib/data-processor.ts:54-63 | a fresh record holds the title, "USD", empty columns, rows and chart data, and the raw report |
| DataProcessor.NormalizedReport.ProcessFinancialStatement | lib/data-processor.ts:79-119 | fills the record in place; succeeds exactly when `FinancialStatement` does and then leaves its value |
| DataProcessor.NormalizedReport.SetPoints | lib/data-processor.ts:81-88 | the 2D step throws exactly when there are labels and the first dataset is nullish; otherwise the record gains the points and nothing else changes |
| DataProcessor.NormalizedReport.SetValues | lib/data-processor.ts:90-94 | the 3D step throws exactly when the first values are truthy but not an array; otherwise the record gains the absolute values and the labels |
| DataProcessor.NormalizedReport.SetTable | lib/data-processor.ts:96-118 | the table step sets the fixed columns and filtered rows for an array result and leaves the record as it was otherwise |
| DataProcessor.NormalizedReport.ProcessAgingReport | lib/data-processor.ts:121-153 | fills the record in place; succeeds exactly when `AgingReport` does and then leaves its value |
| DataProcessor.NormalizeReport | lib/data-processor.ts:34-77 | returns null exactly when `Normalize` gives nothing, otherwise a fresh record holding `Normalize`'s value |
| ReportDescription.GetReportDescription | lib/report-description.ts:3-14 | every section has a non-empty description |
| SingleReportView.TitlesAgree | components/dashboard/single-report-view.tsx:34-45 | the page's title table is the normaliser's |
| SingleReportView.DescriptionsAgree | components/dashboard/single-report-view.tsx:47-58 | the page's description table is the shared one |
| SingleReportView.ChartType | components/dashboard/single-report-view.tsx:138-144 | never radar; aging reports are column charts; non-report sections are bar charts; statements are bar, pie or line |
| SingleReportView.StatementKindsDistinct | components/dashboard/single-report-view.tsx:139-141 | the three statements get three different chart types |
| SingleReportView.FinancialChartData | components/dashboard/single-report-view.tsx:61-87 | throws exactly for a statement whose payload is nullish or whose points throw; otherwise one point per label, or none when not a statement or without datasets |
| SingleReportView.TotalRowValues | components/dashboard/single-report-view.tsx:104-108 | at most five values; none without a total row; for an array, the normaliser's bucket totals |
| SingleReportView.Chart3DData | components/dashboard/single-report-view.tsx:90-111 | throws exactly on a nullish payload for a report section or on truthy non-array statement values; a statement gives `Number(v) \|\| 0` for each first-dataset value (none when the values are falsy); an aging report gives the bucket totals of a trailing "Total" row of a truthy result, at most 5, and none otherwise; none for non-report sections |
| SingleReportView.TableData | components/dashboard/single-report-view.tsx:114-131 | an array result gives its first 10 or 15 rows as an array, a truthy string its first 10 or 15 characters, any other truthy result throws; a falsy result, overview and insights give the empty array; an absent payload throws for a report section |
| SingleReportView.TableHeaders | components/dashboard/single-report-view.tsx:240-258 | as many headers as the normaliser's columns: 7 for aging, 3 otherwise |
| SingleReportView.RowCells | components/dashboard/single-report-view.tsx:262-279 | an array row shows its first cells, at most one per header; any other row shows one cell, its text |
| SingleReportView.RenderedRows | components/dashboard/single-report-view.tsx:262-279 | rendering fails exactly for a non-empty string table or when a shown cell holds a plain object (React refuses objects as children); otherwise an array gives one row of cells per entry, every cell renderable |
| SingleReportView.RenderWithoutReport | components/dashboard/single-report-view.tsx:133-144 | overview and insights render as a bar-chart page with no chart data and no table, whatever the payload |
| SingleReportView.RenderNeedsData | components/dashboard/single-report-view.tsx:62-115 | a report section with a nullish payload fails to render |
| SingleReportView.RenderWellFormed | components/dashboard/single-report-view.tsx:133-279 | a well-formed report renders exactly when no shown cell is a plain object, and then has no more rows than the section's limit and no row wider than its headers |
| SingleReportView.ObjectCellThrows | components/dashboard/single-report-view.tsx:262-275 | a well-formed statement whose first row starts with a plain object, such as `[[{"a":1}]]`, does not render |
| SingleReportView.Chart2DAgrees | components/dashboard/single-report-view.tsx:61-87 | the normaliser's 2D values are the absolute values of the page's |
| SingleReportView.Chart3DStatementAgrees | components/dashboard/single-report-view.tsx:90-99 | the normaliser's 3D statement values are the absolute values of the page's |
| SingleReportView.AgingAgrees | components/dashboard/single-report-view.tsx:100-129 | for aging reports, page and normaliser have the same 3D data and row count |
| SingleReportView.StatementTableAgrees | components/dashboard/single-report-view.tsx:115-123 | the normaliser's statement rows are no more than the table rows the page shows |
| ChartsGrid.SectionOf | components/dashboard/charts-grid.tsx:12-18 | each chart id names a report section other than overview and insights |
| ChartsGrid.ChartsMatchSections | components/dashboard/charts-grid.tsx:12-18 | the five charts plot five different sections, each in the chart type of its single-report page |
| ChartsGrid.ChartData | components/dashboard/charts-grid.tsx:22-47 | an absent payload or unknown id gives no data; a statement card gives `Number(v) \|\| 0` for each first-dataset value; an aging card gives the bucket totals of a trailing "Total" row, at most 5, and none otherwise |
| ChartsGrid.ChartDataAgreesWithView | components/dashboard/charts-grid.tsx:22-47 | on a present payload a card plots exactly the single-report page's 3D data |
| ChartsGrid.CardOf | components/dashboard/charts-grid.tsx:51-73 | a card fails exactly when its data does; it carries the title and "<TYPE> 3D Chart"; it draws exactly when there is data |
| ChartsGrid.CardsOf | components/dashboard/charts-grid.tsx:51 | the cards fail exactly when one card fails; otherwise one card per chart, in order |
| ChartsGrid.CardThrows | components/dashboard/charts-grid.tsx:22-73 | a card for a section fails exactly when the section is a statement whose 3D values are truthy but not an array |
| ChartsGrid.GridWithoutData | components/dashboard/charts-grid.tsx:23-69 | an absent payload shows all five cards, each loading |
| ChartsGrid.GridThrows | components/dashboard/charts-grid.tsx:22-51 | the grid fails exactly when a statement's 3D values are truthy but not an array |
| Middleware.Decide | middleware.ts:6-25 | the gate only redirects to "/" or "/dashboard" |
| Middleware.DecideCases | middleware.ts:8-24 | redirect to "/" exactly for a protected path without the cookie; to "/dashboard" exactly for a login page with it; through otherwise |
| Middleware.LoginPageNotProtected | middleware.ts:3-19 | neither login page is protected |
| Middleware.NoRedirectLoop | middleware.ts:14-22 | following a redirect with the same cookie is let through |
| Middleware.PrefixIsProtected | middleware.ts:8 | a path merely starting like a protected route is guarded |
| Middleware.GateAsWritten | middleware.ts:27-29 | the middleware runs only on matched paths, others pass |
| Middleware.ApiRoutesUnguarded | middleware.ts:3-29 | with the matcher as written, every "/api..." path passes unguarded |
| Middleware.ApiRouteWithoutCookie | middleware.ts:3-29 | "/api/erp/profit-loss" without cookie: the middleware would redirect, the deployed gate lets it through |
| Middleware.GateCorrected | middleware.ts:27-29 | the corrected matcher's gate runs the middleware on matched paths only |
| Middleware.CorrectedGateGuardsEveryProtectedPath | middleware.ts:3-17 | with the corrected matcher every protected path is guarded and the login pages behave as before |
| Middleware.ProtectedPathsMatched | middleware.ts:3-28 | without `api` in the lookahead, the matcher selects every path starting with a protected route |
| Middleware.LoginPagesMatched | middleware.ts:28 | both matchers select "/" and "/login" |
| Export.Escape | lib/export.ts:61 | doubling quotes never shortens and keeps exactly the characters of the text; a text without quotes, or of unchanged length, is unchanged; a leading quote becomes two quotes, any other leading character stays first |
| Export.UnescapeEscape | lib/export.ts:61 | undoubling recovers every escaped text |
| Export.QuoteRoundTrip | lib/export.ts:61 | the quoted insights field reads back as the insights |
| Export.CsvSections | lib/export.ts:29-63 | six sections in fixed order, each present exactly when its field is truthy |
| Export.CsvBody | lib/export.ts:31 | the body row of a present section is the value's JSON text |
| Export.PushSection | lib/export.ts:29-63 | one block appends the section's three rows when present, nothing otherwise |
| Export.GenerateCSV | lib/export.ts:14-66 | the CSV is the rows header, ",", then the present sections' rows, joined by line breaks |
| Export.PushSixSections | lib/export.ts:29-63 | the six `if` blocks append exactly the present sections' rows, in order, to the rows so far |
| Export.AllSectionRowsArePresentTriples | lib/export.ts:29-63 | the section rows are three rows per present section |
| Export.SectionRowsLayout | lib/export.ts:29-63 | row 3k is the k-th present heading, 3k+1 its body, 3k+2 "," |
| Export.HeaderRowShape | lib/export.ts:15-25 | the header row is the six fields joined by ",", ending in ",," |
| Export.CsvRowsLayout | lib/export.ts:14-66 | 2 + 3p rows: header, ",", then heading, body, "," per present section; the insights body unquotes to the insights |
| Export.InsightsBody | lib/export.ts:59-63 | the body row of the insights section unquotes to the insights text |
| Export.CsvSectionsPresent | lib/export.ts:29-63 | a section appears in the CSV exactly when its field is truthy |
| Export.OnlyPresentIn | lib/export.ts:29-63 | with distinct headings, a section is among those written exactly when present |
| Export.MemberIfDefined | lib/export.ts:76 | JSON writes the member exactly when its value is defined, and then with that value |
| Export.EnvelopeMetadata | lib/export.ts:68-81 | the metadata repeats the report's company and period and records the export time |
| Export.MetadataFields | lib/export.ts:71-75 | the metadata object holds the export time, the company and the period |
| Export.ReportFields | lib/export.ts:76 | the report object holds the company and the period of the export data |
| Export.InsightsText | lib/export.ts:131 | the insights when truthy, else "No insights available" |
| Export.PdfTextShape | lib/export.ts:107-132 | trimming keeps the whole layout with every heading and only trims the insights' trailing white space; without insights the text ends in the default line |
| Export.PdfLayoutEnds | lib/export.ts:109-130 | the layout starts with "F" and ends with "S", so trimming cannot reach into it |
| Export.DefaultInsightsTrimmed | lib/export.ts:131-132 | the default line survives trimming whole |
| Export.FileNamesOfTimestamp | lib/export.ts:97-134 | for an ISO timestamp, each file name carries the date part YYYY-MM-DD and its extension |
| Utils.FiscalStartYear | lib/utils.ts:11-12 | the start year is the year itself from April and the year before until March |
| Utils.FiscalYearShape | lib/utils.ts:13-15 | for four-digit years the label is seven characters: start year's last two digits, "-", whole end year |
| Utils.LabelShape | lib/utils.ts:15 | the written label of a four-digit start year |
| Utils.SameFiscalYear | lib/utils.ts:12-15 | every month from April to the next March has the same label |
| Utils.LabelInjective | lib/utils.ts:15 | different four-digit start years have different labels |
| Utils.FiscalYearDistinguishes | lib/utils.ts:12-15 | two dates share a label exactly when they are in the same fiscal year |
| Utils.FiscalYearAsWritten | lib/utils.ts:14-15 | April 2025 and March 2026 are labelled "25-2026", not "25-26" |
| Utils.FiscalYearShortShape | lib/utils.ts:14 | the corrected label is five characters, the two last digits of start and end year |
| Utils.FiscalYearShortExample | lib/utils.ts:14 | the corrected label of every month from April 2025 through March 2026 is "25-26" |
| AppConfig.LoadConfig | lib/config.ts:1-18 | each setting is its variable when set and non-empty, else its default ("Administrator", "admin", "https://demo.erpnext.com", "gemini-1.5-flash", "development"); the secrets are the raw values |
| AppConfig.OrDefault | lib/config.ts:3-16 | `process.env[name] \|\| fallback`: never empty when the fallback is not |
| AppConfig.ValidateConfig | lib/config.ts:20-36 | the pushed messages are one per unset required variable, in check order |
| AppConfig.NoErrorsIffAllSet | lib/config.ts:20-36 | no messages exactly when all three variables are set |
| AppConfig.ErrorsAreTheMissing | lib/config.ts:23-33 | each message appears exactly when its variable is unset; at most three, none twice |
| AppConfig.ErrorsInOrder | lib/config.ts:23-33 | the messages come in check order: GEMINI, ERP_API_KEY, ERP_API_SECRIT |
| AppConfig.CheckedAreConfigured | lib/config.ts:8-33 | the check asks for the same variables the configuration reads, ERP_API_SECRIT included |

## Left out

- `JSON.stringify`, `Number(string)`, `String(number)` and `toISOString()` are opaque parameters (`stringify`, the `Coercion`'s `parse` and `format`, `now`); properties hold for any of them within the number model below.
- Numbers: JavaScript numbers (`JsValue.Number`) are modelled as exact reals plus NaN, without double-precision rounding and without the two infinities. `Number("Infinity")`, `Number("1e400")` or a JSON `1e400` give Infinity in the program, and the model has no value for it. The core applies only `|| 0` and `Math.abs` to these numbers, and both keep an infinity an infinity (truthy, non-negative after `Math.abs`). So the proved shapes carry over, but their statements do not cover those inputs.
- Key order of JSON objects: the model's objects are maps, so `Envelope` does not fix the order in which `stringify` would write the members.
- The clock: `new Date()` is the parameter `now`.
- `downloadFile` and the browser download (Blob, object URL, DOM link) are I/O and not modelled; the file names it receives are.
- `new Date(dateString)` parsing in `getFiscalYear` depends on the time zone; the model takes the year and month index.
- `cn` (class-name merging) is not part of this model.
- React rendering of a table cell is modelled only as far as it can throw: a plain object, alone or inside an array, throws; a function shows nothing and the warning React prints is not modelled.
- JSX layout, colours and chart components: only the data each view computes is modelled; `toLocaleString` formatting of numeric cells is left as the cell value.
- `console.error` in `normalizeReport` is output only; the model keeps the `null` result.
- The `companyName` parameter of `normalizeReport` and `isPublic` in the middleware are never used by the source, and the model ignores them too.
- The middleware's redirects keep only the target path; the request URL's origin is not modelled.
- The route matcher is modelled as the regular expression's meaning on the path text (`.` any character, `.*` any tail); Next.js path normalisation and percent-decoding are left out.
- Strings are sequences of characters; UTF-16 code units, surrogate pairs and Unicode case rules are not modelled. White space for `trim` and `\s` is a fixed set of common white-space characters.
- Objects inherit no prototype properties: a key absent from the map reads as `undefined`.
- DataProcessor.Normalize: other exceptions than the `TypeError`s modelled here (a getter that throws, a stack overflow) are not modelled.
- Export.CsvSectionsPresent: states which sections appear and that `Present` keeps their order by construction; it does not spell out the six-way concatenation.

## Findings

| source | as written | input that shows it | evidently intended | confidence | as-written member | corrected member |
|---|---|---|---|---|---|---|
| middleware.ts:3-29 | the matcher's lookahead excludes every path starting with "/api", so the middleware never runs for the protected "/api/erp" and "/api/ai" routes | "/api/erp/profit-loss" without the `auth_user` cookie passes, although the middleware would redirect it to "/" | exclude only static assets, so API routes are guarded | not executed | Middleware.ApiRouteWithoutCookie | Middleware.CorrectedGateGuardsEveryProtectedPath |
| lib/utils.ts:14-15 | `slice(2)` drops only the first two characters of "2025-2026", giving "25-2026" | a date in April 2025 | the "YY-YY" label of the comment, "25-26" | not executed | Utils.FiscalYearAsWritten | Utils.FiscalYearShortShape |
