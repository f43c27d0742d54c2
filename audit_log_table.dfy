/**
 * The audit log table: it requests one page of ten entries at a time, narrows the page by
 * an action filter, shows a pager, and exports the filtered rows as comma-separated text.
 */
module AuditLogTable {
  import opened Wrappers
  import opened Schema
  import Strings
  import Lists
  import Storage

  const PAGE_SIZE: int := 10
  const ALL: string := "all"
  const MAX_BUTTONS: int := 5

  /** The `offset` query parameter sent for a page. */
  function Offset(page: int): int {
    (page - 1) * PAGE_SIZE
  }

  /**
   * Every stored entry is on exactly one page: entry `k` of the newest-first list is entry
   * `k % 10` of page `k / 10 + 1`, the window the server returns for that page's offset.
   */
  lemma PageHoldsEntry(logs: seq<AuditLog>, k: int)
    requires 0 <= k < |logs|
    ensures var page := Storage.Page(logs, PAGE_SIZE, Offset(k / PAGE_SIZE + 1));
            k % PAGE_SIZE < |page| && page[k % PAGE_SIZE] == logs[k]
  {
    assert Offset(k / PAGE_SIZE + 1) == k - k % PAGE_SIZE;
  }

  predicate ActionMatches(log: AuditLog, filter: string) {
    filter == ALL || Strings.Includes(Strings.ToLower(log.action), Strings.ToLower(filter))
  }

  /**
   * `filteredLogs` over the fetched page (`None` before it arrives): `"all"` keeps everything,
   * any other filter keeps the entries whose action contains it, ignoring case.
   */
  function FilterLogs(logs: Option<seq<AuditLog>>, filter: string): (r: seq<AuditLog>)
    ensures logs.None? ==> r == []
    ensures filter == ALL ==> r == logs.GetOr([])
    ensures |r| <= |logs.GetOr([])|
    ensures forall i :: 0 <= i < |r| ==> r[i] in logs.GetOr([]) && ActionMatches(r[i], filter)
    ensures forall i :: 0 <= i < |logs.GetOr([])| && ActionMatches(logs.GetOr([])[i], filter) ==>
              logs.GetOr([])[i] in r
    ensures Lists.Subseq(r, logs.GetOr([]))
    ensures forall x :: multiset(r)[x] == if ActionMatches(x, filter) then multiset(logs.GetOr([]))[x] else 0
  {
    var all := logs.GetOr([]);
    var p := (log: AuditLog) => ActionMatches(log, filter);
    Lists.FilterAll(all, p);
    Lists.FilterSpec(all, p);
    Lists.Filter(all, p)
  }

  /** `Math.ceil(total / 10)` for the `total || 0` the server reports. */
  function TotalPages(total: nat): (t: nat)
    ensures total == 0 <==> t == 0
    ensures total > 0 ==> PAGE_SIZE * (t - 1) < total <= PAGE_SIZE * t
  {
    (total + PAGE_SIZE - 1) / PAGE_SIZE
  }

  /** The pager is shown exactly when there are more than ten entries. */
  lemma PagerShown(total: nat)
    ensures TotalPages(total) > 1 <==> total > PAGE_SIZE
  {
  }

  /** "Previous": one page back, never below page 1. */
  function PrevPage(p: int): (q: int)
    ensures q >= 1
    ensures p > 1 ==> q == p - 1
    ensures p <= 1 ==> q == 1
  {
    if p - 1 > 1 then p - 1 else 1
  }

  /** "Next": one page on, never beyond the last page. */
  function NextPage(p: int, totalPages: int): (q: int)
    ensures q <= totalPages
    ensures p < totalPages ==> q == p + 1
    ensures p >= totalPages ==> q == totalPages
  {
    if totalPages < p + 1 then totalPages else p + 1
  }

  /** Inside the pager "Next" then "Previous" returns to the same page, and the page stays in range. */
  lemma NextThenPrev(p: int, totalPages: int)
    requires 1 <= p < totalPages
    ensures 1 <= NextPage(p, totalPages) <= totalPages
    ensures PrevPage(NextPage(p, totalPages)) == p
  {
  }

  /** The "Showing first-last" numbers under the table. */
  function ShowingRange(p: int, total: nat): (range: (int, int))
    ensures range.0 == Offset(p) + 1
    ensures range.1 == Lists.Min(p * PAGE_SIZE, total)
  {
    ((p - 1) * PAGE_SIZE + 1, Lists.Min(p * PAGE_SIZE, total))
  }

  /**
   * On any page that exists, the range counts exactly the entries of the page the server
   * returns: it starts one past the offset and spans the page's length.
   */
  lemma ShowingMatchesPage(logs: seq<AuditLog>, p: int)
    requires 1 <= p <= TotalPages(|logs|)
    ensures var range := ShowingRange(p, |logs|);
            var page := Storage.Page(logs, PAGE_SIZE, Offset(p));
            range.0 <= range.1 && range.1 - range.0 + 1 == |page|
  {
  }

  /** The numbered buttons: 1 up to at most five, never past the last page. */
  function PageButtons(totalPages: nat): (r: seq<int>)
    ensures |r| == Lists.Min(MAX_BUTTONS, totalPages)
    ensures forall i :: 0 <= i < |r| ==> r[i] == i + 1 && 1 <= r[i] <= totalPages
  {
    seq(Lists.Min(MAX_BUTTONS, totalPages), i => i + 1)
  }

  const HEADERS: seq<string> := ["Timestamp", "User", "Action", "Resource", "Changes", "IP Address"]

  /** One exported row; a null `changes` or `ipAddress` becomes the empty cell. */
  function ExportRow(log: AuditLog, formatDate: int -> string): (row: seq<string>)
    ensures |row| == |HEADERS|
    ensures row[0] == formatDate(log.timestamp) && row[1] == log.userName
    ensures row[2] == log.action && row[3] == log.resource
    ensures row[4] == (if log.changes.Some? then log.changes.value else "")
    ensures row[5] == (if log.ipAddress.Some? then log.ipAddress.value else "")
  {
    [formatDate(log.timestamp), log.userName, log.action, log.resource,
     log.changes.GetOr(""), log.ipAddress.GetOr("")]
  }

  /** The lines of the export: the header line, then one line per filtered entry. */
  function ExportLines(logs: seq<AuditLog>, formatDate: int -> string): (lines: seq<string>)
    ensures |lines| == |logs| + 1
    ensures lines[0] == Strings.Join(HEADERS, ",")
    ensures forall i :: 0 <= i < |logs| ==> lines[i + 1] == Strings.Join(ExportRow(logs[i], formatDate), ",")
  {
    [Strings.Join(HEADERS, ",")] +
      seq(|logs|, i requires 0 <= i < |logs| => Strings.Join(ExportRow(logs[i], formatDate), ","))
  }

  /** `handleExport`'s text. Fields are not quoted or escaped. */
  function ExportCsv(logs: seq<AuditLog>, formatDate: int -> string): string {
    Strings.Join(ExportLines(logs, formatDate), "\n")
  }

  predicate NoNewline(s: string) {
    Strings.CountChar(s, '\n') == 0
  }

  /** No cell of the entry's row holds a line break. */
  predicate PlainRow(log: AuditLog, formatDate: int -> string) {
    forall j :: 0 <= j < |HEADERS| ==> NoNewline(ExportRow(log, formatDate)[j])
  }

  /** None of the six headers holds a line break or a comma. */
  lemma HeadersPlain()
    ensures forall j :: 0 <= j < |HEADERS| ==> NoNewline(HEADERS[j]) && ',' !in HEADERS[j]
  {
    forall j | 0 <= j < |HEADERS| ensures NoNewline(HEADERS[j]) && ',' !in HEADERS[j] {
      var h := HEADERS[j];
      assert forall k :: 0 <= k < |h| ==> h[k] != '\n' && h[k] != ',';
      Strings.CountCharZero(h, '\n');
    }
  }

  lemma {:induction false} RowLine(row: seq<string>)
    requires |row| > 0
    requires forall j :: 0 <= j < |row| ==> NoNewline(row[j])
    ensures NoNewline(Strings.Join(row, ","))
  {
    Strings.JoinCount(row, ",", '\n');
    Strings.SumCountsZero(row, '\n');
    assert Strings.CountChar(",", '\n') == 0;
  }

  lemma HeaderLinePlain()
    ensures NoNewline(Strings.Join(HEADERS, ","))
  {
    HeadersPlain();
    RowLine(HEADERS);
  }

  /**
   * When no cell holds a line break, the export has exactly one line break per entry:
   * the header line and the entry lines can be told apart again.
   */
  lemma ExportLineCount(logs: seq<AuditLog>, formatDate: int -> string)
    requires forall i :: 0 <= i < |logs| ==> PlainRow(logs[i], formatDate)
    ensures Strings.CountChar(ExportCsv(logs, formatDate), '\n') == |logs|
  {
    var lines := ExportLines(logs, formatDate);
    HeaderLinePlain();
    forall i | 0 <= i < |lines| ensures Strings.CountChar(lines[i], '\n') == 0 {
      if i > 0 {
        RowLine(ExportRow(logs[i - 1], formatDate));
      }
    }
    Strings.JoinSeparatorCount(lines, '\n');
  }

  /** No cell of the entry's row holds a comma. */
  predicate CommaFreeRow(log: AuditLog, formatDate: int -> string) {
    forall j :: 0 <= j < |HEADERS| ==> ',' !in ExportRow(log, formatDate)[j]
  }

  /**
   * When no cell holds a line break or a comma, the export reads back by splitting: at
   * line breaks into the header line and one line per entry, and each line at commas
   * into its cells.
   */
  lemma ExportRoundTrip(logs: seq<AuditLog>, formatDate: int -> string)
    requires forall i :: 0 <= i < |logs| ==> PlainRow(logs[i], formatDate) && CommaFreeRow(logs[i], formatDate)
    ensures Strings.Split(ExportCsv(logs, formatDate), '\n') == ExportLines(logs, formatDate)
    ensures Strings.Split(ExportLines(logs, formatDate)[0], ',') == HEADERS
    ensures forall i :: 0 <= i < |logs| ==>
      Strings.Split(ExportLines(logs, formatDate)[i + 1], ',') == ExportRow(logs[i], formatDate)
  {
    var lines := ExportLines(logs, formatDate);
    HeaderLinePlain();
    forall i | 0 <= i < |lines| ensures '\n' !in lines[i] {
      if i > 0 {
        RowLine(ExportRow(logs[i - 1], formatDate));
      }
      Strings.CountCharZero(lines[i], '\n');
    }
    Strings.SplitJoin(lines, '\n');
    HeadersPlain();
    Strings.SplitJoin(HEADERS, ',');
    forall i | 0 <= i < |logs| ensures Strings.Split(lines[i + 1], ',') == ExportRow(logs[i], formatDate) {
      Strings.SplitJoin(ExportRow(logs[i], formatDate), ',');
    }
  }

  /** The component's own state: the page number and the action filter. */
  class Table {
    var currentPage: int
    var actionFilter: string

    ghost predicate Valid()
      reads this
    {
      currentPage >= 1
    }

    constructor()
      ensures Valid() && currentPage == 1 && actionFilter == ALL
    {
      currentPage := 1;
      actionFilter := ALL;
    }

    method SetActionFilter(f: string)
      modifies this
      ensures actionFilter == f && currentPage == old(currentPage)
    {
      actionFilter := f;
    }

    method Previous()
      requires Valid()
      modifies this
      ensures Valid() && currentPage == PrevPage(old(currentPage))
      ensures actionFilter == old(actionFilter)
    {
      currentPage := PrevPage(currentPage);
    }

    /** The pager, and with it this button, is shown only when there are at least two pages. */
    method Next(totalPages: int)
      requires Valid() && totalPages > 1
      modifies this
      ensures Valid() && currentPage == NextPage(old(currentPage), totalPages)
      ensures currentPage <= totalPages && actionFilter == old(actionFilter)
    {
      currentPage := NextPage(currentPage, totalPages);
    }

    /** A numbered button. */
    method GoTo(page: int, totalPages: nat)
      requires page in PageButtons(totalPages)
      modifies this
      ensures Valid() && currentPage == page && actionFilter == old(actionFilter)
    {
      currentPage := page;
    }

    function RequestedOffset(): int
      reads this
    {
      Offset(currentPage)
    }
  }
}
