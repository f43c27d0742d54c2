/**
 * The API's business rules over the store: which requests are refused and in which
 * order (404 before validation on update), the one audit entry written by each
 * successful create, update and delete, the update's change summary, the defaulting of
 * the audit page, and the dashboard aggregate. HTTP itself is reduced to an outcome.
 */
module Routes {
  import opened Wrappers
  import opened Schema
  import opened Storage
  import Strings
  import Lists
  import Sorting

  /** 200/201 with a value, 404, 400 with the offending fields, or 500. */
  datatype Outcome<T> = Ok(value: T) | NotFound | BadRequest(fields: seq<CampaignField>) | ServerError

  /** The parts of the request the audit helper looks at: `req.ip` and `req.connection.remoteAddress`. */
  datatype Request = Request(ip: Option<string>, remoteAddress: Option<string>)

  /** The acting user every entry names; there is no session. */
  const ACTOR_ID: string := "user-1"
  const ACTOR_NAME: string := "Sarah Johnson"
  const LOOPBACK: string := "127.0.0.1"

  const ACTION_CREATED: string := "Campaign Created"
  const ACTION_UPDATED: string := "Campaign Updated"
  const ACTION_DELETED: string := "Campaign Deleted"

  /** The arrow and separator of the update summary. */
  const ARROW: string := " → "
  const PART_SEPARATOR: string := ", "

  /** `req?.ip || req?.connection?.remoteAddress || "127.0.0.1"`: the first non-empty address. */
  function ClientIp(req: Request): (ip: string)
    ensures ip != ""
    ensures req.ip.Some? && req.ip.value != "" ==> ip == req.ip.value
    ensures (req.ip.None? || req.ip.value == "") && req.remoteAddress.Some? && req.remoteAddress.value != "" ==>
      ip == req.remoteAddress.value
    ensures (req.ip.None? || req.ip.value == "") && (req.remoteAddress.None? || req.remoteAddress.value == "") ==>
      ip == LOOPBACK
  {
    if req.ip.Some? && req.ip.value != "" then req.ip.value
    else if req.remoteAddress.Some? && req.remoteAddress.value != "" then req.remoteAddress.value
    else LOOPBACK
  }

  /** What the `createAuditLog` helper hands to the store. */
  function AuditEntry(action: string, resource: string, resourceId: string, changes: string, req: Request): (e: InsertAuditLog)
    ensures e.userId == ACTOR_ID && e.userName == ACTOR_NAME && e.action == action && e.resource == resource
    ensures e.resourceId == Some(resourceId) && e.changes == Some(changes) && e.ipAddress == Some(ClientIp(req))
  {
    InsertAuditLog(ACTOR_ID, ACTOR_NAME, action, resource, Some(resourceId), Some(changes), Some(ClientIp(req)))
  }

  /** The entry the store keeps for an action: every entry names the acting user and a non-empty address. */
  lemma StoredEntryShape(action: string, resource: string, resourceId: string, changes: string, req: Request, id: int, now: int)
    ensures var l := NewAuditLog(AuditEntry(action, resource, resourceId, changes, req), id, now);
      && l.userId == ACTOR_ID && l.userName == ACTOR_NAME && l.ipAddress == Some(ClientIp(req))
      && (l.changes.None? <==> changes == "")
      && (resourceId != "" ==> l.resourceId == Some(resourceId))
  {
  }

  /** The `changes` text the create handler logs, as written: `validatedData.status`, `undefined` when left out. */
  function CreatedChangesAsWritten(input: InsertCampaign): string {
    "Budget: $" + input.budget + ", Status: " + (if input.status.Some? then input.status.value else "undefined")
  }

  /** The create summary taken from the stored campaign, whose status is already defaulted. */
  function CreatedChanges(c: Campaign): string {
    "Budget: $" + c.budget + ", Status: " + c.status
  }

  /**
   * A create without a status, or with the empty one, is stored as "draft" but logged, as
   * written, as "Status: undefined" or "Status: " respectively.
   */
  lemma CreatedChangesAsWrittenMisreports(input: InsertCampaign, id: int, now: int)
    requires input.status.None? || input.status == Some("")
    ensures NewCampaign(input, id, now).status == "draft"
    ensures input.status.None? ==> CreatedChangesAsWritten(input) == "Budget: $" + input.budget + ", Status: undefined"
    ensures input.status == Some("") ==> CreatedChangesAsWritten(input) == "Budget: $" + input.budget + ", Status: "
    ensures CreatedChangesAsWritten(input) != CreatedChanges(NewCampaign(input, id, now))
  {
    var stored := NewCampaign(input, id, now);
    var prefix := "Budget: $" + input.budget + ", Status: ";
    assert CreatedChanges(stored) == prefix + "draft";
    if input.status.None? {
      assert CreatedChangesAsWritten(input) == prefix + "undefined";
      assert (prefix + "undefined")[|prefix|] != (prefix + "draft")[|prefix|];
    } else {
      assert CreatedChangesAsWritten(input) == prefix + "";
      assert |prefix + ""| != |prefix + "draft"|;
    }
  }

  /** The corrected summary always reports the status the campaign was stored with. */
  lemma CreatedChangesReportsStoredStatus(input: InsertCampaign, id: int, now: int)
    ensures var c := NewCampaign(input, id, now);
      CreatedChanges(c) == "Budget: $" + input.budget + ", Status: " + c.status
      && (input.status.Some? && input.status.value != "" ==> c.status == input.status.value)
      && (input.status.None? ==> CreatedChanges(c) == "Budget: $" + input.budget + ", Status: draft")
  {
  }

  /** Where the two summaries agree: whenever the client sent a non-empty status. */
  lemma CreatedChangesAgreeWithStatus(input: InsertCampaign, id: int, now: int)
    requires input.status.Some? && input.status.value != ""
    ensures CreatedChangesAsWritten(input) == CreatedChanges(NewCampaign(input, id, now))
  {
  }

  /** A field counts as changed when it was supplied, is non-empty, and differs from the stored one. */
  predicate Changed(supplied: Option<string>, current: string) {
    supplied.Some? && supplied.value != "" && supplied.value != current
  }

  function StatusPart(before: string, after: string): string {
    "Status: " + before + ARROW + after
  }

  function BudgetPart(before: string, after: string): string {
    "Budget: $" + before + " → $" + after
  }

  function NamePart(before: string, after: string): string {
    "Name: " + before + ARROW + after
  }

  /**
   * The parts of the update summary, measured against the stored campaign: one per
   * changed field, in the order Status, Budget, Name.
   */
  function UpdateParts(existing: Campaign, p: CampaignPatch): (parts: seq<string>)
    ensures |parts| == (if Changed(p.status, existing.status) then 1 else 0)
                     + (if Changed(p.budget, existing.budget) then 1 else 0)
                     + (if Changed(p.name, existing.name) then 1 else 0)
    ensures Changed(p.status, existing.status) ==> parts[0] == StatusPart(existing.status, p.status.value)
    ensures Changed(p.budget, existing.budget) ==>
      parts[if Changed(p.status, existing.status) then 1 else 0] == BudgetPart(existing.budget, p.budget.value)
    ensures Changed(p.name, existing.name) ==> parts[|parts| - 1] == NamePart(existing.name, p.name.value)
    ensures forall i :: 0 <= i < |parts| ==> parts[i] != ""
  {
    var status := if Changed(p.status, existing.status) then [StatusPart(existing.status, p.status.value)] else [];
    var budget := if Changed(p.budget, existing.budget) then [BudgetPart(existing.budget, p.budget.value)] else [];
    var name := if Changed(p.name, existing.name) then [NamePart(existing.name, p.name.value)] else [];
    var parts := status + budget + name;
    assert forall i :: 0 <= i < |parts| ==> |parts[i]| >= |"Name: "|;
    parts
  }

  /** `changes.join(", ")`. */
  function UpdateChanges(existing: Campaign, p: CampaignPatch): string {
    Strings.Join(UpdateParts(existing, p), PART_SEPARATOR)
  }

  /** The summary is empty exactly when none of status, budget and name changed. */
  lemma UpdateChangesEmptyIff(existing: Campaign, p: CampaignPatch)
    ensures UpdateChanges(existing, p) == "" <==>
      !Changed(p.status, existing.status) && !Changed(p.budget, existing.budget) && !Changed(p.name, existing.name)
  {
    Strings.JoinEmptyIff(UpdateParts(existing, p), PART_SEPARATOR);
  }

  /** Sending back the stored values changes nothing in the summary. */
  lemma ResendIsNoChange(existing: Campaign, p: CampaignPatch)
    requires p.status.None? || p.status == Some(existing.status)
    requires p.budget.None? || p.budget == Some(existing.budget)
    requires p.name.None? || p.name == Some(existing.name)
    ensures UpdateChanges(existing, p) == ""
  {
    UpdateChangesEmptyIff(existing, p);
  }

  /** A budget-only change is summarised as `Budget: $old → $new`. */
  lemma BudgetOnlySummary(existing: Campaign, p: CampaignPatch)
    requires !Changed(p.status, existing.status) && !Changed(p.name, existing.name)
    requires Changed(p.budget, existing.budget)
    ensures UpdateChanges(existing, p) == "Budget: $" + existing.budget + " → $" + p.budget.value
  {
    var parts := UpdateParts(existing, p);
    assert parts == [BudgetPart(existing.budget, p.budget.value)];
    Strings.JoinSmall(parts[0], "", PART_SEPARATOR);
  }

  /** A status and a name change together: the status part comes first. */
  lemma StatusBeforeName(existing: Campaign, p: CampaignPatch)
    requires Changed(p.status, existing.status) && Changed(p.name, existing.name)
    requires !Changed(p.budget, existing.budget)
    ensures UpdateChanges(existing, p) ==
      "Status: " + existing.status + " → " + p.status.value + ", Name: " + existing.name + " → " + p.name.value
  {
    var a := StatusPart(existing.status, p.status.value);
    var b := NamePart(existing.name, p.name.value);
    assert UpdateParts(existing, p) == [a, b];
    Strings.JoinSmall(a, b, PART_SEPARATOR);
  }

  /** `POST /api/campaigns`: validate, store, log "Campaign Created" with the summary as written. */
  method PostCampaign(store: MemStorage, body: Body, req: Request, now: int) returns (out: Outcome<Campaign>)
    requires store.Valid()
    modifies store
    ensures store.Valid()
    ensures ParseInsertCampaign(body).Failure? ==>
      && out == BadRequest(ParseInsertCampaign(body).error)
      && store.campaigns == old(store.campaigns) && store.auditLogs == old(store.auditLogs)
      && store.currentCampaignId == old(store.currentCampaignId) && store.currentAuditLogId == old(store.currentAuditLogId)
    ensures ParseInsertCampaign(body).Success? ==>
      var c := NewCampaign(ParseInsertCampaign(body).value, old(store.currentCampaignId), now);
      var auditId := old(store.currentAuditLogId);
      && out == Ok(c)
      && store.campaigns == old(store.campaigns)[c.id := c]
      && store.auditLogs == old(store.auditLogs)[auditId :=
           NewAuditLog(AuditEntry(ACTION_CREATED, c.name, Strings.IntToString(c.id), CreatedChangesAsWritten(ParseInsertCampaign(body).value), req), auditId, now)]
      && store.currentCampaignId == old(store.currentCampaignId) + 1
      && store.currentAuditLogId == old(store.currentAuditLogId) + 1
  {
    var parsed := ParseInsertCampaign(body);
    if parsed.Failure? {
      return BadRequest(parsed.error);
    }
    var c := store.CreateCampaign(parsed.value, now);
    var _ := store.CreateAuditLog(
      AuditEntry(ACTION_CREATED, c.name, Strings.IntToString(c.id), CreatedChangesAsWritten(parsed.value), req), now);
    out := Ok(c);
  }

  /** `POST /api/campaigns` with the corrected summary, which names the stored status. */
  method PostCampaignCorrected(store: MemStorage, body: Body, req: Request, now: int) returns (out: Outcome<Campaign>)
    requires store.Valid()
    modifies store
    ensures store.Valid()
    ensures ParseInsertCampaign(body).Failure? ==>
      && out == BadRequest(ParseInsertCampaign(body).error)
      && store.campaigns == old(store.campaigns) && store.auditLogs == old(store.auditLogs)
      && store.currentCampaignId == old(store.currentCampaignId) && store.currentAuditLogId == old(store.currentAuditLogId)
    ensures ParseInsertCampaign(body).Success? ==>
      var c := NewCampaign(ParseInsertCampaign(body).value, old(store.currentCampaignId), now);
      var auditId := old(store.currentAuditLogId);
      && out == Ok(c)
      && store.campaigns == old(store.campaigns)[c.id := c]
      && store.auditLogs == old(store.auditLogs)[auditId :=
           NewAuditLog(AuditEntry(ACTION_CREATED, c.name, Strings.IntToString(c.id), CreatedChanges(c), req), auditId, now)]
      && store.currentCampaignId == old(store.currentCampaignId) + 1
      && store.currentAuditLogId == old(store.currentAuditLogId) + 1
  {
    var parsed := ParseInsertCampaign(body);
    if parsed.Failure? {
      return BadRequest(parsed.error);
    }
    var c := store.CreateCampaign(parsed.value, now);
    var _ := store.CreateAuditLog(
      AuditEntry(ACTION_CREATED, c.name, Strings.IntToString(c.id), CreatedChanges(c), req), now);
    out := Ok(c);
  }

  /** `PUT /api/campaigns/:id`; `id` is `parseInt` of the path segment, `None` when it is not a number. */
  method PutCampaign(store: MemStorage, id: Option<int>, body: Body, req: Request, now: int) returns (out: Outcome<Campaign>)
    requires store.Valid()
    modifies store
    ensures store.Valid()
    ensures store.currentCampaignId == old(store.currentCampaignId)
    ensures id.None? || id.value !in old(store.campaigns) ==>
      && out == NotFound
      && store.campaigns == old(store.campaigns) && store.auditLogs == old(store.auditLogs)
      && store.currentAuditLogId == old(store.currentAuditLogId)
    ensures id.Some? && id.value in old(store.campaigns) && ParseCampaignPatch(body).Failure? ==>
      && out == BadRequest(ParseCampaignPatch(body).error)
      && store.campaigns == old(store.campaigns) && store.auditLogs == old(store.auditLogs)
      && store.currentAuditLogId == old(store.currentAuditLogId)
    ensures id.Some? && id.value in old(store.campaigns) && ParseCampaignPatch(body).Success? ==>
      var existing := old(store.campaigns)[id.value];
      var patch := ParseCampaignPatch(body).value;
      var updated := Merge(existing, patch, now);
      var auditId := old(store.currentAuditLogId);
      && out == Ok(updated)
      && store.campaigns == old(store.campaigns)[id.value := updated]
      && store.auditLogs == old(store.auditLogs)[auditId :=
           NewAuditLog(AuditEntry(ACTION_UPDATED, if updated.name != "" then updated.name else existing.name,
                                  Strings.IntToString(id.value), UpdateChanges(existing, patch), req), auditId, now)]
      && store.currentAuditLogId == old(store.currentAuditLogId) + 1
  {
    if id.None? || store.GetCampaign(id.value).None? {
      return NotFound;
    }
    var existing := store.GetCampaign(id.value).value;
    var parsed := ParseCampaignPatch(body);
    if parsed.Failure? {
      return BadRequest(parsed.error);
    }
    var updated := store.UpdateCampaign(id.value, parsed.value, now);
    var changes := UpdateChanges(existing, parsed.value);
    var resource := if updated.Some? && updated.value.name != "" then updated.value.name else existing.name;
    var _ := store.CreateAuditLog(AuditEntry(ACTION_UPDATED, resource, Strings.IntToString(id.value), changes, req), now);
    out := Ok(updated.value);
  }

  /** `DELETE /api/campaigns/:id`: 404 for an unknown id, otherwise remove and log "Campaign Deleted". */
  method DeleteCampaign(store: MemStorage, id: Option<int>, req: Request, now: int) returns (out: Outcome<bool>)
    requires store.Valid()
    modifies store
    ensures store.Valid()
    ensures store.currentCampaignId == old(store.currentCampaignId)
    ensures id.None? || id.value !in old(store.campaigns) ==>
      && out == NotFound
      && store.campaigns == old(store.campaigns) && store.auditLogs == old(store.auditLogs)
      && store.currentAuditLogId == old(store.currentAuditLogId)
    ensures id.Some? && id.value in old(store.campaigns) ==>
      var gone := old(store.campaigns)[id.value];
      var auditId := old(store.currentAuditLogId);
      && out == Ok(true)
      && store.campaigns == old(store.campaigns) - {id.value}
      && store.auditLogs == old(store.auditLogs)[auditId :=
           NewAuditLog(AuditEntry(ACTION_DELETED, gone.name, Strings.IntToString(id.value), "Budget: $" + gone.budget, req),
                       auditId, now)]
      && store.currentAuditLogId == old(store.currentAuditLogId) + 1
  {
    if id.None? || store.GetCampaign(id.value).None? {
      return NotFound;
    }
    var campaign := store.GetCampaign(id.value).value;
    var deleted := store.DeleteCampaign(id.value);
    if deleted {
      var _ := store.CreateAuditLog(
        AuditEntry(ACTION_DELETED, campaign.name, Strings.IntToString(id.value), "Budget: $" + campaign.budget, req), now);
      out := Ok(true);
    } else {
      out := ServerError;
    }
  }

  /** `GET /api/campaigns/:id`. */
  function GetCampaign(store: MemStorage, id: Option<int>): (out: Outcome<Campaign>)
    reads store
    ensures out.NotFound? <==> id.None? || id.value !in store.campaigns
    ensures out.Ok? ==> id.Some? && out.value == store.campaigns[id.value]
    ensures out.Ok? || out.NotFound?
  {
    if id.None? then NotFound
    else match store.GetCampaign(id.value)
      case Some(c) => Ok(c)
      case None => NotFound
  }

  /** `parseInt(q) || d`: an absent, unparseable or zero parameter falls back to `d`. */
  function OrDefault(param: Option<int>, d: int): (v: int)
    ensures param.None? || param == Some(0) ==> v == d
    ensures param.Some? && param.value != 0 ==> v == param.value
  {
    if param.None? || param.value == 0 then d else param.value
  }

  /** The body of `GET /api/audit-logs`. */
  datatype AuditPage = AuditPage(logs: seq<AuditLog>, total: nat)

  const PAGE_LIMIT_DEFAULT: int := 50

  /** `GET /api/audit-logs?limit&offset`: the defaulted window of the newest-first log, and the full count. */
  function GetAuditLogs(store: MemStorage, limitParam: Option<int>, offsetParam: Option<int>): (page: AuditPage)
    reads store
    requires store.Valid()
    ensures page.total == |store.auditLogs|
    ensures page.logs == Page(store.AuditLogsNewestFirst(), OrDefault(limitParam, PAGE_LIMIT_DEFAULT), OrDefault(offsetParam, 0))
    ensures Sorting.SortedDesc(page.logs, Timestamp)
  {
    AuditPage(store.GetAuditLogs(Some(OrDefault(limitParam, PAGE_LIMIT_DEFAULT)), Some(OrDefault(offsetParam, 0))),
              store.GetAuditLogsCount())
  }

  /** Without parameters the page is the newest 50 entries, and never more than the log holds. */
  lemma DefaultAuditPage(store: MemStorage)
    requires store.Valid()
    ensures var page := GetAuditLogs(store, None, None);
      var all := store.AuditLogsNewestFirst();
      && |page.logs| == Lists.Min(50, |all|)
      && forall i :: 0 <= i < |page.logs| ==> page.logs[i] == all[i]
  {
    var all := store.AuditLogsNewestFirst();
    if |all| == 0 {
      assert Page(all, 50, 0) == [];
    }
  }

  /** The dashboard aggregate; `conversionRate` 3.2 is kept in tenths. The float `totalBudget` is not modelled. */
  datatype Metrics = Metrics(activeCampaigns: nat, totalCampaigns: nat, avgProgress: int,
                             conversionRateTenths: int, roi: int)

  const CONVERSION_RATE_TENTHS: int := 32
  const ROI: int := 245

  predicate IsActive(c: Campaign) {
    c.status == "active"
  }

  function SumProgress(cs: seq<Campaign>): int {
    if cs == [] then 0 else cs[0].progress + SumProgress(cs[1..])
  }

  /** Taking one campaign out of a listing takes its progress out of the total. */
  lemma {:induction false} SumProgressRemove(b: seq<Campaign>, k: int)
    requires 0 <= k < |b|
    ensures SumProgress(b) == b[k].progress + SumProgress(b[..k] + b[k + 1..])
  {
    if k == 0 {
      assert b[..k] + b[k + 1..] == b[1..];
    } else {
      var rest := b[..k] + b[k + 1..];
      SumProgressRemove(b[1..], k - 1);
      assert rest[0] == b[0];
      assert rest[1..] == b[1..][..k - 1] + b[1..][k..];
    }
  }

  /** The progress total depends only on which campaigns are listed, not on their order. */
  lemma {:induction false} SumProgressIgnoresOrder(a: seq<Campaign>, b: seq<Campaign>)
    requires multiset(a) == multiset(b)
    ensures SumProgress(a) == SumProgress(b)
    decreases |a|
  {
    if a == [] {
      assert |b| == |multiset(b)| == 0;
    } else {
      var k := Lists.MatchFirst(a, b);
      SumProgressIgnoresOrder(a[1..], b[..k] + b[k + 1..]);
      SumProgressRemove(b, k);
    }
  }

  /** `Math.round(sum / n)` for `n > 0`: the nearest integer, halves rounded up. */
  function RoundedMean(sum: int, n: int): (m: int)
    requires n > 0
    ensures 2 * n * m - n <= 2 * sum < 2 * n * m + n
  {
    var q := (2 * sum + n) / (2 * n);
    var r := (2 * sum + n) % (2 * n);
    assert 2 * sum + n == 2 * n * q + r && 0 <= r < 2 * n;
    q
  }

  lemma MulMonotone(a: int, x: int, y: int)
    requires a >= 0 && x <= y
    ensures a * x <= a * y
  {
  }

  /** `GET /api/metrics` over the list of campaigns. */
  function ComputeMetrics(cs: seq<Campaign>): (m: Metrics)
    ensures m.totalCampaigns == |cs|
    ensures m.activeCampaigns == Lists.Count(cs, IsActive) <= m.totalCampaigns
    ensures m.activeCampaigns == 0 <==> forall i :: 0 <= i < |cs| ==> cs[i].status != "active"
    ensures |cs| == 0 ==> m.avgProgress == 0
    ensures |cs| > 0 ==> 2 * |cs| * m.avgProgress - |cs| <= 2 * SumProgress(cs) < 2 * |cs| * m.avgProgress + |cs|
    ensures m.conversionRateTenths == CONVERSION_RATE_TENTHS && m.roi == ROI
  {
    Metrics(Lists.Count(cs, IsActive), |cs|,
            if |cs| > 0 then RoundedMean(SumProgress(cs), |cs|) else 0,
            CONVERSION_RATE_TENTHS, ROI)
  }

  /** The metrics do not depend on the order in which the campaigns are listed. */
  lemma MetricsIgnoreOrder(a: seq<Campaign>, b: seq<Campaign>)
    requires multiset(a) == multiset(b)
    ensures ComputeMetrics(a) == ComputeMetrics(b)
  {
    assert |a| == |multiset(a)| == |multiset(b)| == |b|;
    Lists.CountIgnoresOrder(a, b, IsActive);
    SumProgressIgnoresOrder(a, b);
  }

  /** With every progress in 0..100, as the column comment intends, the mean lies in 0..100. */
  lemma {:induction false} SumProgressBounds(cs: seq<Campaign>)
    requires forall i :: 0 <= i < |cs| ==> 0 <= cs[i].progress <= 100
    ensures 0 <= SumProgress(cs) <= 100 * |cs|
  {
    if cs != [] {
      SumProgressBounds(cs[1..]);
    }
  }

  lemma AvgProgressBounds(cs: seq<Campaign>)
    requires forall i :: 0 <= i < |cs| ==> 0 <= cs[i].progress <= 100
    ensures 0 <= ComputeMetrics(cs).avgProgress <= 100
  {
    SumProgressBounds(cs);
    if |cs| > 0 {
      var n, m := |cs|, ComputeMetrics(cs).avgProgress;
      if m < 0 {
        MulMonotone(2 * n, m, -1);
      } else if m > 100 {
        MulMonotone(2 * n, 101, m);
      }
    }
  }

  /** `GET /api/metrics`. */
  function GetMetrics(store: MemStorage): (m: Metrics)
    reads store
    requires store.Valid()
    ensures m.totalCampaigns == |store.campaigns|
    ensures m.activeCampaigns <= m.totalCampaigns
  {
    ComputeMetrics(store.GetCampaigns())
  }

  /** The metrics are those of any listing of the stored campaigns, whatever its order. */
  lemma GetMetricsAnyOrder(store: MemStorage, cs: seq<Campaign>)
    requires store.Valid()
    requires multiset(cs) == multiset(store.GetCampaigns())
    ensures GetMetrics(store) == ComputeMetrics(cs)
  {
    MetricsIgnoreOrder(cs, store.GetCampaigns());
  }
}
