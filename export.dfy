/** The three export formats of the dashboard: a CSV-like text, a JSON
    document and a plain-text report, each with its download file name.
    `JSON.stringify(v, null, 2)` and the clock (`new Date().toISOString()`)
    are parameters: `stringify` gives the text of a value JSON can write, and
    `now` is the timestamp. */
module Export {
  import opened Strings
  import opened JsValue
  import opened Optional

  datatype DateRange = DateRange(start: string, end: string)

  /** `ExportData`: the company, the period, the five raw reports (each
      possibly `undefined`) and the optional insights text. */
  datatype ExportData = ExportData(
    company: string,
    dateRange: DateRange,
    profitAndLoss: Value,
    balanceSheet: Value,
    cashFlow: Value,
    receivables: Value,
    payables: Value,
    insights: Option<string>)

  /** `data.insights` is truthy. */
  predicate HasInsights(data: ExportData) {
    data.insights.Some? && data.insights.value != ""
  }

  /** `JSON.stringify(v, null, 2)` as it appears inside a template:
      `undefined` (and a function) have no JSON text, so the template shows
      "undefined". */
  function JsonText(v: Value, stringify: Value -> string): string {
    if v.Undefined? || v.Builtin? then "undefined" else stringify(v)
  }

  // ---------------------------------------------------------------------
  // Quoting, section 2 item 7 of RFC 4180

  /** `s.replace(/"/g, '""')`: every double quote doubled. */
  function Escape(s: string): (r: string)
    ensures |r| >= |s|
    ensures |r| == |s| ==> r == s
    ensures forall c :: c in r <==> c in s
    ensures '"' !in s ==> r == s
    ensures s != [] && s[0] != '"' ==> r[0] == s[0]
    ensures s != [] && s[0] == '"' ==> |r| >= 2 && r[..2] == "\"\""
    decreases |s|
  {
    if s == [] then []
    else if s[0] == '"' then "\"\"" + Escape(s[1..])
    else [s[0]] + Escape(s[1..])
  }

  /** The inside of a quoted field back to its text: a doubled quote is one
      quote; a lone quote is malformed. */
  function Unescape(t: string): (r: Option<string>)
    decreases |t|
  {
    if t == [] then Some([])
    else if t[0] == '"' then
      if |t| >= 2 && t[1] == '"' then
        match Unescape(t[2..])
        case Some(rest) => Some("\"" + rest)
        case None => None
      else None
    else
      match Unescape(t[1..])
      case Some(rest) => Some([t[0]] + rest)
      case None => None
  }

  /** Unescaping recovers every escaped text. */
  lemma {:induction false} UnescapeEscape(s: string)
    ensures Unescape(Escape(s)) == Some(s)
    decreases |s|
  {
    if s != [] {
      UnescapeEscape(s[1..]);
      var e := Escape(s[1..]);
      assert s == [s[0]] + s[1..];
      if s[0] == '"' {
        assert Escape(s) == "\"\"" + e;
        assert (("\"\"" + e)[2..]) == e;
      } else {
        assert Escape(s) == [s[0]] + e;
        assert ([s[0]] + e)[1..] == e;
      }
    }
  }

  /** The quoted field: `"${text with quotes doubled}"`. */
  function Quote(s: string): string {
    "\"" + Escape(s) + "\""
  }

  /** A quoted field read back: the text between the outer quotes,
      unescaped. */
  function Unquote(t: string): (r: Option<string>) {
    if |t| >= 2 && t[0] == '"' && t[|t| - 1] == '"' then Unescape(t[1..|t| - 1]) else None
  }

  /** Quoting round-trips: the field written for the insights reads back as
      exactly the insights. */
  lemma QuoteRoundTrip(s: string)
    ensures Unquote(Quote(s)) == Some(s)
  {
    var q := Quote(s);
    assert q[1..|q| - 1] == Escape(s);
    UnescapeEscape(s);
  }

  // ---------------------------------------------------------------------
  // CSV

  /** The six header fields; the last two are empty. */
  function HeaderFields(data: ExportData, now: string): seq<string> {
    [
      "Financial Report Export",
      "Company: " + data.company,
      "Period: " + data.dateRange.start + " to " + data.dateRange.end,
      "Generated: " + now,
      "",
      ""
    ]
  }

  /** The quoted title rows of the six sections. */
  const PlHeading: string := "\"Profit & Loss Statement\""
  const BalanceHeading: string := "\"Balance Sheet\""
  const CashFlowHeading: string := "\"Cash Flow Statement\""
  const ReceivablesHeading: string := "\"Accounts Receivable\""
  const PayablesHeading: string := "\"Accounts Payable\""
  const InsightsHeading: string := "\"AI Insights\""

  /** One optional section of the CSV: the quoted title row, whether the
      section is there, and its body row. */
  datatype Section = Section(heading: string, present: bool, body: string)

  /** `JSON.stringify(v, null, 2)` pushed as a row: `join` writes the
      `undefined` it returns for a function as the empty text. */
  function CsvBody(v: Value, stringify: Value -> string): (r: string)
    ensures !v.Undefined? && !v.Builtin? ==> r == JsonText(v, stringify)
  {
    if v.Builtin? then "" else JsonText(v, stringify)
  }

  /** The six sections in their fixed order. */
  function CsvSections(data: ExportData, stringify: Value -> string): (r: seq<Section>)
    ensures |r| == 6
    ensures r[0].present == Truthy(data.profitAndLoss) && r[1].present == Truthy(data.balanceSheet)
    ensures r[2].present == Truthy(data.cashFlow) && r[3].present == Truthy(data.receivables)
    ensures r[4].present == Truthy(data.payables) && r[5].present == HasInsights(data)
  {
    [
      Section(PlHeading, Truthy(data.profitAndLoss), CsvBody(data.profitAndLoss, stringify)),
      Section(BalanceHeading, Truthy(data.balanceSheet), CsvBody(data.balanceSheet, stringify)),
      Section(CashFlowHeading, Truthy(data.cashFlow), CsvBody(data.cashFlow, stringify)),
      Section(ReceivablesHeading, Truthy(data.receivables), CsvBody(data.receivables, stringify)),
      Section(PayablesHeading, Truthy(data.payables), CsvBody(data.payables, stringify)),
      Section(InsightsHeading, HasInsights(data), InsightsCell(data))
    ]
  }

  /** The body row of the insights section: the insights quoted, when
      there are any. */
  function InsightsCell(data: ExportData): string {
    if HasInsights(data) then Quote(data.insights.value) else ""
  }

  /** The three rows of a present section: quoted title, body, ",". */
  function SectionRows(s: Section): seq<string> {
    if s.present then [s.heading, s.body, ","] else []
  }

  /** A section on its own when it is present, nothing otherwise. */
  function Opt(s: Section): seq<Section> {
    if s.present then [s] else []
  }

  /** The rows of a list of sections, in order. */
  function AllSectionRows(secs: seq<Section>): seq<string>
    decreases |secs|
  {
    if secs == [] then [] else SectionRows(secs[0]) + AllSectionRows(secs[1..])
  }

  /** The sections that are present, in order. */
  function Present(secs: seq<Section>): (r: seq<Section>)
    ensures |r| <= |secs|
    ensures forall k :: 0 <= k < |r| ==> r[k].present && r[k] in secs
    decreases |secs|
  {
    if secs == [] then [] else Opt(secs[0]) + Present(secs[1..])
  }

  /** Three rows per section: heading, body, ",". */
  function TripleRows(p: seq<Section>): (r: seq<string>)
    ensures |r| == 3 * |p|
    decreases |p|
  {
    if p == [] then [] else [p[0].heading, p[0].body, ","] + TripleRows(p[1..])
  }

  /** The rows of the sections are the three rows of each present one. */
  lemma {:induction false} AllSectionRowsArePresentTriples(secs: seq<Section>)
    ensures AllSectionRows(secs) == TripleRows(Present(secs))
    decreases |secs|
  {
    if secs != [] {
      AllSectionRowsArePresentTriples(secs[1..]);
      var p := Present(secs[1..]);
      if secs[0].present {
        assert Present(secs) == [secs[0]] + p;
        assert ([secs[0]] + p)[1..] == p;
      } else {
        assert Present(secs) == [] + p == p;
      }
    }
  }

  /** Row `3k` is the heading of section `k`, row `3k + 1` its body, row
      `3k + 2` the separator ",". */
  lemma {:induction false} TripleRowsAt(p: seq<Section>)
    ensures forall k :: 0 <= k < |p| ==>
      TripleRows(p)[3 * k] == p[k].heading && TripleRows(p)[3 * k + 1] == p[k].body && TripleRows(p)[3 * k + 2] == ","
    decreases |p|
  {
    if p != [] {
      TripleRowsAt(p[1..]);
      var rest := TripleRows(p[1..]);
      assert TripleRows(p) == [p[0].heading, p[0].body, ","] + rest;
      forall k | 1 <= k < |p|
        ensures TripleRows(p)[3 * k] == p[k].heading
        ensures TripleRows(p)[3 * k + 1] == p[k].body && TripleRows(p)[3 * k + 2] == ","
      {
        assert p[k] == p[1..][k - 1];
        assert 3 * k == 3 * (k - 1) + 3;
      }
    }
  }

  /** The section rows are three per present section: its quoted title, its
      body and ",", in the order of the sections. */
  lemma SectionRowsLayout(secs: seq<Section>)
    ensures var rows := AllSectionRows(secs); var p := Present(secs);
      && |rows| == 3 * |p|
      && forall k :: 0 <= k < |p| ==>
           rows[3 * k] == p[k].heading && rows[3 * k + 1] == p[k].body && rows[3 * k + 2] == ","
  {
    AllSectionRowsArePresentTriples(secs);
    TripleRowsAt(Present(secs));
  }

  /** The rows `generateCSV` pushes: the joined header, ",", then the
      present sections. */
  function CsvRows(data: ExportData, now: string, stringify: Value -> string): seq<string> {
    [Join(HeaderFields(data, now), ","), ","] + AllSectionRows(CsvSections(data, stringify))
  }

  /** One of the six blocks of `generateCSV`: when the section's field is
      truthy, push its quoted title, its body and ",". */
  method PushSection(rows: seq<string>, s: Section) returns (r: seq<string>)
    ensures r == rows + SectionRows(s)
  {
    r := rows;
    if s.present {
      r := r + [s.heading];
      r := r + [s.body];
      r := r + [","];
    }
  }

  /** `generateCSV(data)`: the joined header and ",", then the six blocks in
      their fixed order; the rows are joined with "\n". */
  method GenerateCSV(data: ExportData, now: string, stringify: Value -> string) returns (csv: string)
    ensures csv == Join(CsvRows(data, now, stringify), "\n")
  {
    var secs := CsvSections(data, stringify);
    var headers := HeaderFields(data, now);
    var rows: seq<string> := [];
    rows := rows + [Join(headers, ",")];
    rows := rows + [","];
    assert rows == [Join(HeaderFields(data, now), ","), ","];
    rows := PushSixSections(rows, secs);
    assert rows == CsvRows(data, now, stringify);
    csv := Join(rows, "\n");
  }

  /** The six blocks of `generateCSV`, one after the other. */
  method PushSixSections(rows: seq<string>, secs: seq<Section>) returns (r: seq<string>)
    requires |secs| == 6
    ensures r == rows + AllSectionRows(secs)
  {
    assert secs[..0] == [];
    r := rows;
    RowsStep(rows, r, secs, 0);
    r := PushSection(r, secs[0]);
    RowsStep(rows, r, secs, 1);
    r := PushSection(r, secs[1]);
    RowsStep(rows, r, secs, 2);
    r := PushSection(r, secs[2]);
    RowsStep(rows, r, secs, 3);
    r := PushSection(r, secs[3]);
    RowsStep(rows, r, secs, 4);
    r := PushSection(r, secs[4]);
    RowsStep(rows, r, secs, 5);
    r := PushSection(r, secs[5]);
    assert secs[..6] == secs;
  }

  /** Pushing the rows of the next section keeps the rows equal to the
      header rows followed by the rows of the sections so far. */
  lemma RowsStep(head: seq<string>, rows: seq<string>, secs: seq<Section>, i: nat)
    requires i < |secs| && rows == head + AllSectionRows(secs[..i])
    ensures rows + SectionRows(secs[i]) == head + AllSectionRows(secs[..i + 1])
  {
    SectionsAppend(secs, i);
  }

  /** Adding one section at the end adds its rows at the end, and adds it
      to the present sections when it is present. */
  lemma {:induction false} SectionsSnoc(a: seq<Section>, s: Section)
    ensures AllSectionRows(a + [s]) == AllSectionRows(a) + SectionRows(s)
    decreases |a|
  {
    if a == [] {
      assert [s][1..] == [];
    } else {
      assert (a + [s])[1..] == a[1..] + [s];
      SectionsSnoc(a[1..], s);
    }
  }

  /** Adding one section at the end adds it to the present sections when it
      is present. */
  lemma {:induction false} PresentSnoc(a: seq<Section>, s: Section)
    ensures Present(a + [s]) == Present(a) + Opt(s)
    decreases |a|
  {
    if a == [] {
      assert [s][1..] == [];
    } else {
      assert (a + [s])[1..] == a[1..] + [s];
      PresentSnoc(a[1..], s);
    }
  }

  /** `SectionsSnoc` at position `i` of a list of sections. */
  lemma SectionsAppend(secs: seq<Section>, i: nat)
    requires i < |secs|
    ensures AllSectionRows(secs[..i + 1]) == AllSectionRows(secs[..i]) + SectionRows(secs[i])
    ensures Present(secs[..i + 1]) == Present(secs[..i]) + Opt(secs[i])
  {
    assert secs[..i + 1] == secs[..i] + [secs[i]];
    SectionsSnoc(secs[..i], secs[i]);
    PresentSnoc(secs[..i], secs[i]);
  }

  /** The header row is the six fields joined by ",", so it ends in ",,". */
  lemma HeaderRowShape(data: ExportData, now: string)
    ensures var h := Join(HeaderFields(data, now), ",");
      && h == "Financial Report Export" + "," + ("Company: " + data.company)
              + "," + ("Period: " + data.dateRange.start + " to " + data.dateRange.end)
              + "," + ("Generated: " + now) + "," + ","
      && |h| >= 2 && h[|h| - 2..] == ",,"
  {
    JoinSixEndingEmpty(HeaderFields(data, now), ",");
  }

  /** What the CSV rows are: the header row, the row ",", then three rows
      per present section (quoted title, body, ","), the sections in the
      order P&L, balance sheet, cash flow, receivables, payables, insights,
      each present exactly when its field is truthy. The insights body is
      the quoted field that reads back as the insights. */
  lemma CsvRowsLayout(data: ExportData, now: string, stringify: Value -> string)
    ensures var rows := CsvRows(data, now, stringify);
      var p := Present(CsvSections(data, stringify));
      && |rows| == 2 + 3 * |p|
      && rows[0] == Join(HeaderFields(data, now), ",")
      && rows[1] == ","
      && (forall k :: 0 <= k < |p| ==>
            && rows[2 + 3 * k] == p[k].heading
            && rows[3 + 3 * k] == p[k].body
            && rows[4 + 3 * k] == ",")
      && (forall k :: 0 <= k < |p| && p[k].heading == InsightsHeading ==> Unquote(p[k].body) == data.insights)
  {
    var secs := CsvSections(data, stringify);
    var rows := CsvRows(data, now, stringify);
    var tail := AllSectionRows(secs);
    SectionRowsLayout(secs);
    assert forall i :: 0 <= i < |tail| ==> rows[2 + i] == tail[i];
    var p := Present(secs);
    forall k | 0 <= k < |p| && p[k].heading == InsightsHeading ensures Unquote(p[k].body) == data.insights {
      InsightsBody(data, stringify, p[k]);
    }
  }

  /** The insights section, when written, has the quoted insights as its
      body. */
  lemma InsightsBody(data: ExportData, stringify: Value -> string, s: Section)
    requires s in CsvSections(data, stringify) && s.present && s.heading == InsightsHeading
    ensures Unquote(s.body) == data.insights
  {
    var secs := CsvSections(data, stringify);
    CsvSectionsDistinct(data, stringify);
    var j :| 0 <= j < 6 && secs[j] == s;
    assert j == 5;
    QuoteRoundTrip(data.insights.value);
  }

  /** Which sections the CSV holds: exactly those whose field is truthy,
      in the fixed order. */
  lemma CsvSectionsPresent(data: ExportData, stringify: Value -> string)
    ensures var secs := CsvSections(data, stringify);
      forall i :: 0 <= i < 6 ==> (secs[i] in Present(secs) <==> secs[i].present)
  {
    var secs := CsvSections(data, stringify);
    CsvSectionsDistinct(data, stringify);
    forall i | 0 <= i < 6 ensures secs[i] in Present(secs) <==> secs[i].present {
      OnlyPresentIn(secs, i);
    }
  }

  /** With distinct headings, a section is among the present ones exactly
      when it is present. */
  lemma {:induction false} OnlyPresentIn(secs: seq<Section>, i: nat)
    requires i < |secs|
    requires forall j, k :: 0 <= j < k < |secs| ==> secs[j].heading != secs[k].heading
    ensures secs[i] in Present(secs) <==> secs[i].present
    decreases |secs|
  {
    if i > 0 {
      assert secs[i] == secs[1..][i - 1];
      OnlyPresentIn(secs[1..], i - 1);
      assert secs[i] != secs[0];
    } else if !secs[0].present {
      assert secs[0] !in secs[1..];
    }
  }

  /** The six sections differ in their headings. */
  lemma CsvSectionsDistinct(data: ExportData, stringify: Value -> string)
    ensures var secs := CsvSections(data, stringify);
      forall i, j :: 0 <= i < j < 6 ==> secs[i].heading != secs[j].heading
  {
  }

  // ---------------------------------------------------------------------
  // JSON

  /** A member that JSON writes only when its value is defined. */
  function MemberIfDefined(key: string, v: Value): (m: map<string, Value>)
    ensures key in m <==> !v.Undefined?
    ensures key in m ==> m[key] == v
    ensures m.Keys <= {key}
  {
    if v.Undefined? then map[] else map[key := v]
  }

  function DateRangeValue(d: DateRange): Value {
    Obj(map["start" := Str(d.start), "end" := Str(d.end)])
  }

  /** `data` as a JSON value. */
  function ReportValue(data: ExportData): Value {
    Obj(ReportFront(data) + map["company" := Str(data.company), "dateRange" := DateRangeValue(data.dateRange)])
  }

  /** The sections and insights of `data`, each only when defined. */
  function ReportFront(data: ExportData): map<string, Value> {
    MemberIfDefined("profitAndLoss", data.profitAndLoss)
      + MemberIfDefined("balanceSheet", data.balanceSheet)
      + MemberIfDefined("cashFlow", data.cashFlow)
      + MemberIfDefined("receivables", data.receivables)
      + MemberIfDefined("payables", data.payables)
      + MemberIfDefined("insights", match data.insights case Some(s) => Str(s) case None => Undefined)
  }

  /** The object `generateJSON` writes: metadata beside the report. */
  function Envelope(data: ExportData, now: string): Value {
    Obj(map["metadata" := MetadataValue(data, now), "report" := ReportValue(data)])
  }

  /** `generateJSON(data)` */
  function GenerateJSON(data: ExportData, now: string, stringify: Value -> string): string {
    stringify(Envelope(data, now))
  }

  /** The metadata repeats the report's company and period, and records the
      export time. */
  lemma EnvelopeMetadata(data: ExportData, now: string)
    ensures var e := Envelope(data, now);
      && Member(Member(e, "metadata"), "company") == Member(Member(e, "report"), "company") == Str(data.company)
      && Member(Member(e, "metadata"), "dateRange") == Member(Member(e, "report"), "dateRange")
           == DateRangeValue(data.dateRange)
      && Member(Member(e, "metadata"), "exportDate") == Str(now)
  {
    EnvelopeParts(data, now);
    MetadataFields(data, now);
    ReportFields(data);
  }

  /** The two members of the envelope. */
  lemma EnvelopeParts(data: ExportData, now: string)
    ensures Member(Envelope(data, now), "metadata") == MetadataValue(data, now)
    ensures Member(Envelope(data, now), "report") == ReportValue(data)
  {
    PairLookup("metadata", MetadataValue(data, now), "report", ReportValue(data));
  }

  /** Both members of a two-member object read back. */
  lemma PairLookup(ka: string, a: Value, kb: string, b: Value)
    requires ka != kb
    ensures Member(Obj(map[ka := a, kb := b]), ka) == a
    ensures Member(Obj(map[ka := a, kb := b]), kb) == b
  {
  }

  /** The metadata object of the envelope. */
  function MetadataValue(data: ExportData, now: string): Value {
    Obj(map["exportDate" := Str(now), "company" := Str(data.company), "dateRange" := DateRangeValue(data.dateRange)])
  }

  /** The three fields of the metadata. */
  lemma MetadataFields(data: ExportData, now: string)
    ensures Member(MetadataValue(data, now), "company") == Str(data.company)
    ensures Member(MetadataValue(data, now), "dateRange") == DateRangeValue(data.dateRange)
    ensures Member(MetadataValue(data, now), "exportDate") == Str(now)
  {
    assert "company" != "dateRange";
    assert "exportDate" != "company" && "exportDate" != "dateRange";
  }

  /** The report keeps its company and period under their own names. */
  lemma ReportFields(data: ExportData)
    ensures Member(ReportValue(data), "company") == Str(data.company)
    ensures Member(ReportValue(data), "dateRange") == DateRangeValue(data.dateRange)
  {
    var tail := map["company" := Str(data.company), "dateRange" := DateRangeValue(data.dateRange)];
    assert "company" != "dateRange";
    assert tail["company"] == Str(data.company) && tail["dateRange"] == DateRangeValue(data.dateRange);
    assert ReportValue(data) == Obj(ReportFront(data) + tail);
    MergedLookup(ReportFront(data), tail, "company");
    MergedLookup(ReportFront(data), tail, "dateRange");
  }

  /** A key of the right-hand map of a merge reads its value there. */
  lemma MergedLookup(front: map<string, Value>, tail: map<string, Value>, key: string)
    requires key in tail
    ensures Member(Obj(front + tail), key) == tail[key]
  {
  }

  // ---------------------------------------------------------------------
  // Plain text

  /** `data.insights || "No insights available"` */
  function InsightsText(data: ExportData): (r: string)
    ensures HasInsights(data) ==> r == data.insights.value
    ensures !HasInsights(data) ==> r == "No insights available"
  {
    if HasInsights(data) then data.insights.value else "No insights available"
  }

  /** The template of `exportAsPDF` up to the last heading: the report
      header and the six sections in fixed order. */
  function PdfLayout(data: ExportData, now: string, stringify: Value -> string): string {
    "FINANCIAL REPORT\n" + PdfSections(data, now, stringify) + "AI INSIGHTS"
  }

  /** The lines between the first line and the last heading. */
  function PdfSections(data: ExportData, now: string, stringify: Value -> string): string {
    "Company: " + data.company + "\n"
    + "Period: " + data.dateRange.start + " to " + data.dateRange.end + "\n"
    + "Generated: " + now + "\n"
    + "\n"
    + "PROFIT & LOSS\n" + JsonText(data.profitAndLoss, stringify) + "\n"
    + "\n"
    + "BALANCE SHEET\n" + JsonText(data.balanceSheet, stringify) + "\n"
    + "\n"
    + "CASH FLOW\n" + JsonText(data.cashFlow, stringify) + "\n"
    + "\n"
    + "RECEIVABLES\n" + JsonText(data.receivables, stringify) + "\n"
    + "\n"
    + "PAYABLES\n" + JsonText(data.payables, stringify) + "\n"
    + "\n"
  }

  /** The whole template literal of `exportAsPDF`, which opens with a line
      break and closes with a line break and two spaces of indentation. */
  function PdfTemplate(data: ExportData, now: string, stringify: Value -> string): string {
    "\n" + PdfLayout(data, now, stringify) + "\n" + InsightsText(data) + "\n  "
  }

  /** The text `exportAsPDF` downloads: the template, trimmed. */
  function PdfText(data: ExportData, now: string, stringify: Value -> string): string {
    Trim(PdfTemplate(data, now, stringify))
  }

  /** Trimming only removes the template's opening line break and the white
      space after the last visible character of the insights: the text is
      the whole layout, with all six headings, followed by the insights
      without their trailing white space. With no insights the text ends in
      the default line. */
  lemma PdfTextShape(data: ExportData, now: string, stringify: Value -> string)
    ensures var layout := PdfLayout(data, now, stringify);
      && PdfText(data, now, stringify) == layout + TrimEnd("\n" + InsightsText(data) + "\n  ")
      && (!HasInsights(data) ==> PdfText(data, now, stringify) == layout + "\nNo insights available")
  {
    PdfLayoutEnds(data, now, stringify);
    TemplateTrimmed(PdfLayout(data, now, stringify), InsightsText(data));
    if !HasInsights(data) {
      DefaultInsightsTrimmed();
    }
  }

  /** Trimming a layout framed by a line break before it and the insights
      after it keeps the whole layout. */
  lemma TemplateTrimmed(layout: string, insights: string)
    requires layout != [] && !IsSpace(layout[0]) && !IsSpace(layout[|layout| - 1])
    ensures Trim("\n" + layout + "\n" + insights + "\n  ") == layout + TrimEnd("\n" + insights + "\n  ")
  {
    var tail := "\n" + insights + "\n  ";
    assert "\n" + layout + "\n" + insights + "\n  " == "\n" + layout + tail;
    TrimFramed(layout, tail);
  }

  /** The layout opens with "F" and closes with "S". */
  lemma PdfLayoutEnds(data: ExportData, now: string, stringify: Value -> string)
    ensures var layout := PdfLayout(data, now, stringify);
      layout != [] && layout[0] == 'F' && layout[|layout| - 1] == 'S'
  {
    var head := "FINANCIAL REPORT\n";
    var mid := PdfSections(data, now, stringify);
    var last := "AI INSIGHTS";
    assert PdfLayout(data, now, stringify) == (head + mid) + last;
    assert ((head + mid) + last)[|head + mid| + |last| - 1] == last[|last| - 1];
    assert (head + mid)[0] == head[0];
  }

  /** The default line loses only the template's closing white space. */
  lemma DefaultInsightsTrimmed()
    ensures TrimEnd("\n" + "No insights available" + "\n  ") == "\nNo insights available"
  {
    var t := "\nNo insights available";
    assert "\n" + "No insights available" + "\n  " == t + "\n  ";
    assert t[|t| - 1] == 'e';
    TrimEndAppend(t, "\n  ");
    assert TrimEnd("\n  ") == "";
  }

  // ---------------------------------------------------------------------
  // File names

  /** `new Date().toISOString().split("T")[0]` */
  function FileDate(now: string): string {
    BeforeFirst(now, 'T')
  }

  /** `financial-report-${data.company}-${date}.${ext}` */
  function FileName(company: string, now: string, ext: string): string {
    "financial-report-" + company + "-" + FileDate(now) + "." + ext
  }

  function CsvFileName(data: ExportData, now: string): string {
    FileName(data.company, now, "csv")
  }

  function JsonFileName(data: ExportData, now: string): string {
    FileName(data.company, now, "json")
  }

  function TextFileName(data: ExportData, now: string): string {
    FileName(data.company, now, "txt")
  }

  /** The shape of `toISOString()`: `YYYY-MM-DDTHH:mm:ss.sssZ`. */
  predicate IsIsoTimestamp(now: string) {
    && |now| == 24
    && (forall k :: 0 <= k < 10 && k != 4 && k != 7 ==> '0' <= now[k] <= '9')
    && now[4] == '-' && now[7] == '-' && now[10] == 'T'
  }

  /** For a timestamp the date part is its first ten characters,
      `YYYY-MM-DD`, and the three names differ only in their extension. */
  lemma FileNamesOfTimestamp(data: ExportData, now: string)
    requires IsIsoTimestamp(now)
    ensures FileDate(now) == now[..10]
    ensures CsvFileName(data, now) == "financial-report-" + data.company + "-" + now[..10] + ".csv"
    ensures JsonFileName(data, now) == "financial-report-" + data.company + "-" + now[..10] + ".json"
    ensures TextFileName(data, now) == "financial-report-" + data.company + "-" + now[..10] + ".txt"
  {
    assert 'T' !in now[..10];
  }
}
