/**
 * The reports page: for the chosen report type it fills in a header row and data rows
 * from the fetched campaigns, metrics or audit entries, then joins them into CSV text
 * with every data cell in double quotes. A preview shows the first few source records.
 */
module Reports {
  import opened Wrappers
  import opened Schema
  import Strings
  import Lists
  import Routes

  const CAMPAIGN_SUMMARY: string := "campaign-summary"
  const BUDGET_ANALYSIS: string := "budget-analysis"
  const PERFORMANCE_METRICS: string := "performance-metrics"
  const AUDIT_TRAIL: string := "audit-trail"

  predicate KnownType(reportType: string) {
    reportType == CAMPAIGN_SUMMARY || reportType == BUDGET_ANALYSIS ||
    reportType == PERFORMANCE_METRICS || reportType == AUDIT_TRAIL
  }

  /**
   * The locale formatting the page calls, taken as given: the `yyyy-MM-dd` rendering of a
   * date string, `formatCurrency` of a budget string, `formatDate` of a timestamp, and
   * `formatCurrency(metrics?.totalBudget || 0)`.
   */
  datatype Formatters = Formatters(
    day: string -> string,
    currency: string -> string,
    dateTime: int -> string,
    totalBudget: string)

  const SUMMARY_HEADERS: seq<string> :=
    ["Campaign Name", "Type", "Status", "Budget", "Progress", "Start Date", "End Date"]
  const BUDGET_HEADERS: seq<string> := ["Campaign Name", "Budget", "Status", "Performance Score"]
  const METRIC_HEADERS: seq<string> := ["Metric", "Value", "Period"]
  const AUDIT_HEADERS: seq<string> := ["Timestamp", "User", "Action", "Resource", "Changes"]
  const PERIOD: string := "Current"
  const PREVIEW_SIZE: int := 5

  function SummaryRow(c: Campaign, fmt: Formatters): (row: seq<string>)
    ensures |row| == |SUMMARY_HEADERS|
    ensures row[0] == c.name && row[1] == c.kind && row[2] == c.status && row[3] == c.budget
    ensures row[4] == Strings.IntToString(c.progress) + "%"
    ensures row[5] == fmt.day(c.startDate) && row[6] == fmt.day(c.endDate)
  {
    [c.name, c.kind, c.status, c.budget, Strings.IntToString(c.progress) + "%",
     fmt.day(c.startDate), fmt.day(c.endDate)]
  }

  function BudgetRow(c: Campaign, fmt: Formatters): (row: seq<string>)
    ensures |row| == |BUDGET_HEADERS|
    ensures row[0] == c.name && row[1] == fmt.currency(c.budget) && row[2] == c.status
    ensures row[3] == Strings.IntToString(c.progress) + "/100"
  {
    [c.name, fmt.currency(c.budget), c.status, Strings.IntToString(c.progress) + "/100"]
  }

  /** A null `changes` is the empty cell. */
  function AuditRow(log: AuditLog, fmt: Formatters): (row: seq<string>)
    ensures |row| == |AUDIT_HEADERS|
    ensures row[0] == fmt.dateTime(log.timestamp) && row[1] == log.userName
    ensures row[2] == log.action && row[3] == log.resource
    ensures row[4] == (if log.changes.Some? then log.changes.value else "")
  {
    [fmt.dateTime(log.timestamp), log.userName, log.action, log.resource, log.changes.GetOr("")]
  }

  function SummaryRows(cs: seq<Campaign>, fmt: Formatters): (rows: seq<seq<string>>)
    ensures |rows| == |cs|
    ensures forall i :: 0 <= i < |cs| ==> rows[i] == SummaryRow(cs[i], fmt)
  {
    seq(|cs|, i requires 0 <= i < |cs| => SummaryRow(cs[i], fmt))
  }

  function BudgetRows(cs: seq<Campaign>, fmt: Formatters): (rows: seq<seq<string>>)
    ensures |rows| == |cs|
    ensures forall i :: 0 <= i < |cs| ==> rows[i] == BudgetRow(cs[i], fmt)
  {
    seq(|cs|, i requires 0 <= i < |cs| => BudgetRow(cs[i], fmt))
  }

  function AuditRows(logs: seq<AuditLog>, fmt: Formatters): (rows: seq<seq<string>>)
    ensures |rows| == |logs|
    ensures forall i :: 0 <= i < |logs| ==> rows[i] == AuditRow(logs[i], fmt)
  {
    seq(|logs|, i requires 0 <= i < |logs| => AuditRow(logs[i], fmt))
  }

  /** A number held in tenths, rendered as JavaScript prints it: `32` is `"3.2"`, `30` is `"3"`. */
  function Tenths(t: int): (r: string)
    decreases if t < 0 then 1 else 0
    ensures t >= 0 && t % 10 == 0 ==> r == Strings.IntToString(t / 10)
    ensures t >= 0 && t % 10 != 0 ==> r == Strings.IntToString(t / 10) + "." + [Strings.Digit(t % 10)]
  {
    if t < 0 then "-" + Tenths(-t)
    else if t % 10 == 0 then Strings.IntToString(t / 10)
    else Strings.IntToString(t / 10) + "." + [Strings.Digit(t % 10)]
  }

  lemma ConversionRateText()
    ensures Tenths(Routes.CONVERSION_RATE_TENTHS) == "3.2"
  {
    assert Strings.IntToString(3) == "3";
  }

  /**
   * The five metric lines shared by the report and the preview. Missing data counts as 0
   * (`x || 0`).
   */
  function MetricValues(campaigns: Option<seq<Campaign>>, metrics: Option<Routes.Metrics>,
                        fmt: Formatters): (r: seq<(string, string)>)
    ensures |r| == 5
    ensures r[0] == ("Total Campaigns", Strings.IntToString(|campaigns.GetOr([])|))
    ensures r[1].0 == "Active Campaigns" && r[2] == ("Total Budget", fmt.totalBudget)
    ensures r[3].0 == "Average ROI" && r[4].0 == "Conversion Rate"
    ensures metrics.None? ==> r[1].1 == "0" && r[3].1 == "0%" && r[4].1 == "0%"
    ensures metrics.Some? ==>
              && r[1].1 == Strings.IntToString(metrics.value.activeCampaigns)
              && r[3].1 == Strings.IntToString(metrics.value.roi) + "%"
              && r[4].1 == Tenths(metrics.value.conversionRateTenths) + "%"
  {
    var active := if metrics.Some? then metrics.value.activeCampaigns else 0;
    var roi := if metrics.Some? then metrics.value.roi else 0;
    var rate := if metrics.Some? then metrics.value.conversionRateTenths else 0;
    assert Strings.IntToString(0) == "0";
    [("Total Campaigns", Strings.IntToString(|campaigns.GetOr([])|)),
     ("Active Campaigns", Strings.IntToString(active)),
     ("Total Budget", fmt.totalBudget),
     ("Average ROI", Strings.IntToString(roi) + "%"),
     ("Conversion Rate", Tenths(rate) + "%")]
  }

  function MetricRows(values: seq<(string, string)>): (rows: seq<seq<string>>)
    ensures |rows| == |values|
    ensures forall i :: 0 <= i < |values| ==> rows[i] == [values[i].0, values[i].1, PERIOD]
  {
    seq(|values|, i requires 0 <= i < |values| => [values[i].0, values[i].1, PERIOD])
  }

  /** A data cell in double quotes; quotes inside the cell are not escaped. */
  function Quote(cell: string): string {
    "\"" + cell + "\""
  }

  function QuotedLine(row: seq<string>): string
  {
    Strings.Join(seq(|row|, j requires 0 <= j < |row| => Quote(row[j])), ",")
  }

  /** The CSV text: the unquoted header line, then one quoted line per data row. */
  function CsvText(headers: seq<string>, rows: seq<seq<string>>): (csv: string)
  {
    Strings.Join([Strings.Join(headers, ",")] + seq(|rows|, i requires 0 <= i < |rows| => QuotedLine(rows[i])), "\n")
  }

  /** With no data rows the text is the header line alone. */
  lemma CsvHeaderOnly(headers: seq<string>)
    ensures CsvText(headers, []) == Strings.Join(headers, ",")
  {
    assert [Strings.Join(headers, ",")] + seq(0, i requires 0 <= i < 0 => QuotedLine([])) == [Strings.Join(headers, ",")];
  }

  predicate NoChar(s: string, c: char) {
    Strings.CountChar(s, c) == 0
  }

  lemma {:induction false} JoinNoChar(parts: seq<string>, sep: string, c: char)
    requires |parts| > 0 && NoChar(sep, c)
    requires forall j :: 0 <= j < |parts| ==> NoChar(parts[j], c)
    ensures NoChar(Strings.Join(parts, sep), c)
  {
    Strings.JoinCount(parts, sep, c);
    Strings.SumCountsZero(parts, c);
  }

  /**
   * A quoted line of cells free of double quotes holds exactly two quotes per cell, so the
   * row's arity can be read back from it.
   */
  lemma {:induction false} QuotedLineQuotes(row: seq<string>)
    requires |row| > 0
    requires forall j :: 0 <= j < |row| ==> NoChar(row[j], '"')
    ensures Strings.CountChar(QuotedLine(row), '"') == 2 * |row|
  {
    var quoted := seq(|row|, j requires 0 <= j < |row| => Quote(row[j]));
    Strings.JoinCount(quoted, ",", '"');
    assert Strings.CountChar(",", '"') == 0;
    QuotedSum(row, quoted);
  }

  lemma {:induction false} QuotedSum(row: seq<string>, quoted: seq<string>)
    requires |quoted| == |row|
    requires forall j :: 0 <= j < |row| ==> quoted[j] == Quote(row[j]) && NoChar(row[j], '"')
    ensures Strings.SumCounts(quoted, '"') == 2 * |row|
  {
    if row != [] {
      QuotedSum(row[1..], quoted[1..]);
      Strings.CountCharAppend("\"", row[0], '"');
      Strings.CountCharAppend("\"" + row[0], "\"", '"');
    }
  }

  /** Quoting adds neither a comma nor a line break: a row free of `c` gives a line free of `c`. */
  lemma {:induction false} QuotedLineNoChar(row: seq<string>, c: char)
    requires c != ',' && c != '"'
    requires forall j :: 0 <= j < |row| ==> NoChar(row[j], c)
    ensures NoChar(QuotedLine(row), c)
  {
    if |row| == 0 {
      assert QuotedLine(row) == "";
    } else {
      var quoted := seq(|row|, j requires 0 <= j < |row| => Quote(row[j]));
      forall j | 0 <= j < |row| ensures NoChar(quoted[j], c) {
        Strings.CountCharAppend("\"", row[j], c);
        Strings.CountCharAppend("\"" + row[j], "\"", c);
      }
      JoinNoChar(quoted, ",", c);
    }
  }

  /**
   * When neither the headers nor any cell holds a line break, the text has exactly one
   * line break per data row.
   */
  lemma CsvLineCount(headers: seq<string>, rows: seq<seq<string>>)
    requires |headers| > 0
    requires forall j :: 0 <= j < |headers| ==> NoChar(headers[j], '\n')
    requires forall i, j :: 0 <= i < |rows| && 0 <= j < |rows[i]| ==> NoChar(rows[i][j], '\n')
    ensures Strings.CountChar(CsvText(headers, rows), '\n') == |rows|
  {
    var lines := [Strings.Join(headers, ",")] + seq(|rows|, i requires 0 <= i < |rows| => QuotedLine(rows[i]));
    assert NoChar(",", '\n');
    JoinNoChar(headers, ",", '\n');
    forall i | 0 <= i < |lines| ensures Strings.CountChar(lines[i], '\n') == 0 {
      if i > 0 {
        QuotedLineNoChar(rows[i - 1], '\n');
      }
    }
    Strings.JoinSeparatorCount(lines, '\n');
  }

  /** A quoted cell with its first and last character removed. */
  function Unquote(s: string): string {
    if |s| >= 2 then s[1..|s| - 1] else s
  }

  function UnquoteCells(parts: seq<string>): (cells: seq<string>)
    ensures |cells| == |parts|
  {
    seq(|parts|, j requires 0 <= j < |parts| => Unquote(parts[j]))
  }

  /**
   * A reader for the text `CsvText` writes, not a general CSV reader: lines split at line
   * breaks, cells at commas, and the data cells lose their surrounding quotes.
   */
  function ParseCsv(text: string): (table: (seq<string>, seq<seq<string>>))
  {
    var lines := Strings.Split(text, '\n');
    (Strings.Split(lines[0], ','),
     seq(|lines| - 1, i requires 0 <= i < |lines| - 1 => UnquoteCells(Strings.Split(lines[i + 1], ','))))
  }

  /** A quoted line of comma-free cells reads back to its cells. */
  lemma {:induction false} QuotedLineRoundTrip(row: seq<string>)
    requires |row| > 0
    requires forall j :: 0 <= j < |row| ==> NoChar(row[j], ',')
    ensures UnquoteCells(Strings.Split(QuotedLine(row), ',')) == row
  {
    var quoted := seq(|row|, j requires 0 <= j < |row| => Quote(row[j]));
    forall j | 0 <= j < |quoted| ensures ',' !in quoted[j] {
      Strings.CountCharZero(row[j], ',');
    }
    Strings.SplitJoin(quoted, ',');
    assert QuotedLine(row) == Strings.Join(quoted, [',']);
    forall j | 0 <= j < |row| ensures Unquote(quoted[j]) == row[j] {
      assert quoted[j][1..|quoted[j]| - 1] == row[j];
    }
  }

  /**
   * When the headers and the cells hold no comma and no line break, and no data row is
   * empty, the report reads back to its headers and rows.
   */
  lemma CsvRoundTrip(headers: seq<string>, rows: seq<seq<string>>)
    requires |headers| > 0
    requires forall j :: 0 <= j < |headers| ==> NoChar(headers[j], '\n') && NoChar(headers[j], ',')
    requires forall i :: 0 <= i < |rows| ==> |rows[i]| > 0
    requires forall i, j :: 0 <= i < |rows| && 0 <= j < |rows[i]| ==> NoChar(rows[i][j], '\n') && NoChar(rows[i][j], ',')
    ensures ParseCsv(CsvText(headers, rows)) == (headers, rows)
  {
    var lines := [Strings.Join(headers, ",")] + seq(|rows|, i requires 0 <= i < |rows| => QuotedLine(rows[i]));
    assert NoChar(",", '\n');
    JoinNoChar(headers, ",", '\n');
    forall i | 0 <= i < |lines| ensures '\n' !in lines[i] {
      if i > 0 {
        QuotedLineNoChar(rows[i - 1], '\n');
      }
      Strings.CountCharZero(lines[i], '\n');
    }
    Strings.SplitJoin(lines, '\n');
    assert CsvText(headers, rows) == Strings.Join(lines, ['\n']);
    forall j | 0 <= j < |headers| ensures ',' !in headers[j] {
      Strings.CountCharZero(headers[j], ',');
    }
    Strings.SplitJoin(headers, ',');
    var table := ParseCsv(CsvText(headers, rows));
    assert table.0 == headers;
    assert |table.1| == |rows|;
    forall i | 0 <= i < |rows| ensures table.1[i] == rows[i] {
      QuotedLineRoundTrip(rows[i]);
    }
    assert table.1 == rows;
  }

  /**
   * `generateReport`: the `switch` assigns `headers`, `reportData` and `filename`, each
   * `campaigns?.map(...) || []` giving no rows while the data is missing; an unknown type
   * leaves all three empty. The download itself is not modelled.
   */
  method GenerateReport(reportType: string, campaigns: Option<seq<Campaign>>,
                        metrics: Option<Routes.Metrics>, auditLogs: Option<seq<AuditLog>>,
                        fmt: Formatters)
    returns (headers: seq<string>, rows: seq<seq<string>>, filename: string, csv: string)
    ensures csv == CsvText(headers, rows)
    ensures forall i :: 0 <= i < |rows| ==> |rows[i]| == |headers|
    ensures reportType == CAMPAIGN_SUMMARY ==>
              headers == SUMMARY_HEADERS && rows == SummaryRows(campaigns.GetOr([]), fmt) &&
              filename == "campaign-summary-report"
    ensures reportType == BUDGET_ANALYSIS ==>
              headers == BUDGET_HEADERS && rows == BudgetRows(campaigns.GetOr([]), fmt) &&
              filename == "budget-analysis-report"
    ensures reportType == PERFORMANCE_METRICS ==>
              headers == METRIC_HEADERS && rows == MetricRows(MetricValues(campaigns, metrics, fmt)) &&
              filename == "performance-metrics-report"
    ensures reportType == AUDIT_TRAIL ==>
              headers == AUDIT_HEADERS && rows == AuditRows(auditLogs.GetOr([]), fmt) &&
              filename == "audit-trail-report"
    ensures !KnownType(reportType) ==> headers == [] && rows == [] && filename == "" && csv == ""
    ensures (reportType == CAMPAIGN_SUMMARY || reportType == BUDGET_ANALYSIS) && campaigns.None? ==>
              csv == Strings.Join(headers, ",")
    ensures reportType == AUDIT_TRAIL && auditLogs.None? ==> csv == Strings.Join(headers, ",")
  {
    headers := [];
    rows := [];
    filename := "";
    if reportType == CAMPAIGN_SUMMARY {
      headers := SUMMARY_HEADERS;
      rows := SummaryRows(campaigns.GetOr([]), fmt);
      filename := "campaign-summary-report";
    } else if reportType == BUDGET_ANALYSIS {
      headers := BUDGET_HEADERS;
      rows := BudgetRows(campaigns.GetOr([]), fmt);
      filename := "budget-analysis-report";
    } else if reportType == PERFORMANCE_METRICS {
      headers := METRIC_HEADERS;
      rows := MetricRows(MetricValues(campaigns, metrics, fmt));
      filename := "performance-metrics-report";
    } else if reportType == AUDIT_TRAIL {
      headers := AUDIT_HEADERS;
      rows := AuditRows(auditLogs.GetOr([]), fmt);
      filename := "audit-trail-report";
    }
    csv := CsvText(headers, rows);
    if rows == [] {
      CsvHeaderOnly(headers);
    }
  }

  /** What the preview table shows. */
  datatype Preview =
    | CampaignPreview(campaigns: seq<Campaign>)
    | MetricPreview(values: seq<(string, string)>)
    | LogPreview(logs: seq<AuditLog>)
    | NoPreview

  /** `previewData`: the first five campaigns or entries, the five metric lines, or nothing. */
  function PreviewData(reportType: string, campaigns: Option<seq<Campaign>>,
                       metrics: Option<Routes.Metrics>, auditLogs: Option<seq<AuditLog>>,
                       fmt: Formatters): (p: Preview)
    ensures (reportType == CAMPAIGN_SUMMARY || reportType == BUDGET_ANALYSIS) ==>
              && p.CampaignPreview?
              && |p.campaigns| == Lists.Min(PREVIEW_SIZE, |campaigns.GetOr([])|)
              && forall i :: 0 <= i < |p.campaigns| ==> p.campaigns[i] == campaigns.GetOr([])[i]
    ensures reportType == PERFORMANCE_METRICS ==> p == MetricPreview(MetricValues(campaigns, metrics, fmt))
    ensures reportType == AUDIT_TRAIL ==>
              && p.LogPreview?
              && |p.logs| == Lists.Min(PREVIEW_SIZE, |auditLogs.GetOr([])|)
              && forall i :: 0 <= i < |p.logs| ==> p.logs[i] == auditLogs.GetOr([])[i]
    ensures !KnownType(reportType) ==> p == NoPreview
  {
    Lists.SliceWindow(campaigns.GetOr([]), 0, PREVIEW_SIZE);
    Lists.SliceWindow(auditLogs.GetOr([]), 0, PREVIEW_SIZE);
    if reportType == CAMPAIGN_SUMMARY || reportType == BUDGET_ANALYSIS then
      CampaignPreview(Lists.Slice(campaigns.GetOr([]), 0, PREVIEW_SIZE))
    else if reportType == PERFORMANCE_METRICS then
      MetricPreview(MetricValues(campaigns, metrics, fmt))
    else if reportType == AUDIT_TRAIL then
      LogPreview(Lists.Slice(auditLogs.GetOr([]), 0, PREVIEW_SIZE))
    else
      NoPreview
  }

  /** The preview of a summary report shows the campaigns behind its first rows. */
  lemma PreviewIsReportPrefix(campaigns: Option<seq<Campaign>>, metrics: Option<Routes.Metrics>,
                              auditLogs: Option<seq<AuditLog>>, fmt: Formatters)
    ensures var p := PreviewData(CAMPAIGN_SUMMARY, campaigns, metrics, auditLogs, fmt);
            var rows := SummaryRows(campaigns.GetOr([]), fmt);
            |p.campaigns| <= |rows| &&
            forall i :: 0 <= i < |p.campaigns| ==> SummaryRow(p.campaigns[i], fmt) == rows[i]
  {
  }
}
