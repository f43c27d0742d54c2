/**
 * `MemStorage`: the in-memory store behind the API. It holds two maps keyed by id and
 * two id counters; a new id is read from its counter, which is then incremented, so ids
 * start at 1, only grow, and are never handed out twice, even after a delete. The clock
 * (`new Date()`) and the random ages of the seeded audit entries are parameters.
 */
module Storage {
  import opened Wrappers
  import opened Schema
  import Strings
  import Sorting
  import Keyed
  import Lists

  const SEED_USER_ID: string := "user-1"
  const SEED_USER_NAME: string := "Sarah Johnson"
  const SEED_IP: string := "192.168.1.100"

  /** Thirty and fifteen days in milliseconds: how far back the seeded entries may lie. */
  const THIRTY_DAYS_MS: nat := 30 * 24 * 60 * 60 * 1000
  const FIFTEEN_DAYS_MS: nat := 15 * 24 * 60 * 60 * 1000

  /** The page `getAuditLogs` returns when no limit or offset is given. */
  const DEFAULT_LIMIT: int := 50
  const DEFAULT_OFFSET: int := 0

  /** A seeded campaign as written in the sample list: every column given. */
  datatype Sample = Sample(
    name: string, description: string, kind: string, status: string, budget: string,
    startDate: string, endDate: string, targetAudience: seq<string>, progress: int)

  const SAMPLE_CAMPAIGNS: seq<Sample> := [
    Sample("Q4 Email Marketing Push", "End-of-year promotional email campaign targeting existing customers",
      "Email Marketing", "active", "15000", "2024-12-01", "2024-12-31", ["26-35", "36-45"], 65),
    Sample("Social Media Brand Awareness", "Instagram and Facebook campaign to increase brand visibility",
      "Social Media", "active", "8500", "2024-11-15", "2025-01-15", ["18-25", "26-35"], 40),
    Sample("Google Ads Holiday Campaign", "PPC campaign targeting holiday shoppers",
      "PPC Advertising", "completed", "25000", "2024-11-01", "2024-12-25", ["26-35", "36-45", "45+"], 100),
    Sample("Content Marketing Initiative", "Blog posts and articles to drive organic traffic",
      "Content Marketing", "draft", "5000", "2025-01-01", "2025-03-31", ["26-35", "36-45"], 10),
    Sample("Influencer Collaboration", "Partnership with industry influencers for product promotion",
      "Influencer Marketing", "paused", "12000", "2024-10-01", "2024-12-31", ["18-25", "26-35"], 30)
  ]

  /** The extra seeded entries: action, resource and changes. */
  datatype SampleLog = SampleLog(action: string, resource: string, changes: string)

  const ADDITIONAL_LOGS: seq<SampleLog> := [
    SampleLog("Campaign Updated", "Q4 Email Marketing Push", "Status: draft → active"),
    SampleLog("Budget Modified", "Social Media Brand Awareness", "Budget: $7500 → $8500"),
    SampleLog("Campaign Updated", "Google Ads Holiday Campaign", "Progress: 85% → 100%, Status: active → completed"),
    SampleLog("Campaign Updated", "Influencer Collaboration", "Status: active → paused")
  ]

  /** The sort keys: `createdAt` and `timestamp` in milliseconds. */
  function CreatedAt(c: Campaign): int {
    c.createdAt
  }

  function Timestamp(l: AuditLog): int {
    l.timestamp
  }

  /** A sample campaign stored under `id`, created and updated at `now`. */
  function SeedCampaign(s: Sample, id: int, now: int): (c: Campaign)
    ensures c.id == id && c.createdAt == now && c.updatedAt == now
  {
    Campaign(id, s.name, s.description, s.kind, s.status, s.budget, s.startDate, s.endDate,
             s.targetAudience, s.progress, now, now)
  }

  /** The "created" entry seeded for a sample campaign. */
  function SeedCreatedLog(s: Sample, auditId: int, campaignId: nat, timestamp: int): (l: AuditLog)
    ensures l.id == auditId && l.timestamp == timestamp && l.resource == s.name
  {
    AuditLog(auditId, SEED_USER_ID, SEED_USER_NAME, "Campaign Created", s.name,
             Some(Strings.NatToString(campaignId)),
             Some("Budget: $" + s.budget + ", Status: " + s.status), Some(SEED_IP), timestamp)
  }

  /** The `index`-th extra seeded entry, stored under `auditId`. */
  function SeedExtraLog(index: nat, auditId: int, timestamp: int): (l: AuditLog)
    requires index < |ADDITIONAL_LOGS|
    ensures l.id == auditId && l.timestamp == timestamp
  {
    var log := ADDITIONAL_LOGS[index];
    AuditLog(auditId, SEED_USER_ID, SEED_USER_NAME, log.action, log.resource,
             Some(Strings.NatToString(index + 1)), Some(log.changes), Some(SEED_IP), timestamp)
  }

  /** The entry seeded under audit id `id`: the five "created" entries, then the four extras. */
  function SeedLog(id: int, now: int, ages: seq<nat>): (l: AuditLog)
    requires 1 <= id <= 9 && |ages| == 9
    ensures l.id == id && l.timestamp == now - ages[id - 1]
  {
    if id <= 5 then SeedCreatedLog(SAMPLE_CAMPAIGNS[id - 1], id, id, now - ages[id - 1])
    else SeedExtraLog(id - 6, id, now - ages[id - 1])
  }

  /** The campaign map after the first `n` sample campaigns were stored. */
  function SeededCampaigns(n: nat, now: int): map<int, Campaign>
    requires n <= |SAMPLE_CAMPAIGNS|
  {
    if n == 0 then map[] else SeededCampaigns(n - 1, now)[n := SeedCampaign(SAMPLE_CAMPAIGNS[n - 1], n, now)]
  }

  /** The audit map after the first `n` seeded entries were stored. */
  function SeededLogs(n: nat, now: int, ages: seq<nat>): map<int, AuditLog>
    requires n <= 9 && |ages| == 9
  {
    if n == 0 then map[] else SeededLogs(n - 1, now, ages)[n := SeedLog(n, now, ages)]
  }

  /** The first `n` sample campaigns sit under ids `1 .. n`. */
  lemma {:induction false} SeededCampaignsShape(n: nat, now: int)
    requires n <= |SAMPLE_CAMPAIGNS|
    ensures forall id :: id in SeededCampaigns(n, now) <==> 1 <= id <= n
    ensures forall id :: 1 <= id <= n ==> SeededCampaigns(n, now)[id] == SeedCampaign(SAMPLE_CAMPAIGNS[id - 1], id, now)
  {
    if n > 0 {
      SeededCampaignsShape(n - 1, now);
    }
  }

  /** The first `n` seeded entries sit under audit ids `1 .. n`. */
  lemma {:induction false} SeededLogsShape(n: nat, now: int, ages: seq<nat>)
    requires n <= 9 && |ages| == 9
    ensures forall id :: id in SeededLogs(n, now, ages) <==> 1 <= id <= n
    ensures forall id :: 1 <= id <= n ==> SeededLogs(n, now, ages)[id] == SeedLog(id, now, ages)
  {
    if n > 0 {
      SeededLogsShape(n - 1, now, ages);
    }
  }

  /** `x || null` for an optional string: absent and empty both become null. */
  function OrNull(x: Option<string>): (r: Option<string>)
    ensures r.Some? <==> x.Some? && x.value != ""
    ensures r.Some? ==> r == x
  {
    if x.Some? && x.value != "" then x else None
  }

  /** The campaign `createCampaign` stores: the input with its id, defaults and timestamps. */
  function NewCampaign(input: InsertCampaign, id: int, now: int): (c: Campaign)
    ensures c.id == id && c.createdAt == now && c.updatedAt == now
    ensures c.name == input.name && c.description == input.description && c.kind == input.kind
    ensures c.budget == input.budget && c.startDate == input.startDate && c.endDate == input.endDate
    ensures c.status == if input.status.Some? && input.status.value != "" then input.status.value else DEFAULT_STATUS
    ensures c.progress == input.progress.GetOr(DEFAULT_PROGRESS)
    ensures c.targetAudience == input.targetAudience.GetOr([])
  {
    Campaign(id, input.name, input.description, input.kind,
             if input.status.Some? && input.status.value != "" then input.status.value else DEFAULT_STATUS,
             input.budget, input.startDate, input.endDate,
             input.targetAudience.GetOr([]), input.progress.GetOr(DEFAULT_PROGRESS), now, now)
  }

  /** A stored campaign never has an empty status: a falsy one falls back to "draft". */
  lemma NewCampaignStatus(input: InsertCampaign, id: int, now: int)
    ensures NewCampaign(input, id, now).status != ""
    ensures NewCampaign(input, id, now).status == DEFAULT_STATUS <==>
      input.status.None? || input.status == Some("") || input.status == Some(DEFAULT_STATUS)
  {
  }

  /**
   * `{...campaign, ...updates, id, updatedAt: now, startDate, endDate}`: every supplied
   * field overwrites the stored one, the dates only when supplied and non-empty.
   */
  function Merge(c: Campaign, p: CampaignPatch, now: int): (r: Campaign)
    ensures r.id == c.id && r.createdAt == c.createdAt && r.updatedAt == now
    ensures r.name == p.name.GetOr(c.name) && r.description == p.description.GetOr(c.description)
    ensures r.kind == p.kind.GetOr(c.kind) && r.status == p.status.GetOr(c.status)
    ensures r.budget == p.budget.GetOr(c.budget)
    ensures r.targetAudience == p.targetAudience.GetOr(c.targetAudience)
    ensures r.progress == p.progress.GetOr(c.progress)
    ensures r.startDate == if p.startDate.Some? && p.startDate.value != "" then p.startDate.value else c.startDate
    ensures r.endDate == if p.endDate.Some? && p.endDate.value != "" then p.endDate.value else c.endDate
  {
    c.(name := p.name.GetOr(c.name), description := p.description.GetOr(c.description),
       kind := p.kind.GetOr(c.kind), status := p.status.GetOr(c.status),
       budget := p.budget.GetOr(c.budget), targetAudience := p.targetAudience.GetOr(c.targetAudience),
       progress := p.progress.GetOr(c.progress),
       startDate := if p.startDate.Some? && p.startDate.value != "" then p.startDate.value else c.startDate,
       endDate := if p.endDate.Some? && p.endDate.value != "" then p.endDate.value else c.endDate,
       updatedAt := now)
  }

  const EMPTY_PATCH: CampaignPatch := CampaignPatch(None, None, None, None, None, None, None, None, None)

  /** An empty update only moves `updatedAt`. */
  lemma MergeEmpty(c: Campaign, now: int)
    ensures Merge(c, EMPTY_PATCH, now) == c.(updatedAt := now)
  {
  }

  /** Applying the same update twice is applying it once. */
  lemma MergeIdempotent(c: Campaign, p: CampaignPatch, now: int)
    ensures Merge(Merge(c, p, now), p, now) == Merge(c, p, now)
  {
  }

  /** A later update wins field by field: merging `p` then `q` keeps `q`'s supplied name, status and budget. */
  lemma MergeLaterWins(c: Campaign, p: CampaignPatch, q: CampaignPatch, t1: int, t2: int)
    requires q.name.Some? && q.status.Some? && q.budget.Some?
    ensures var r := Merge(Merge(c, p, t1), q, t2);
      r.name == q.name.value && r.status == q.status.value && r.budget == q.budget.value
      && r.createdAt == c.createdAt && r.updatedAt == t2
  {
  }

  /** The entry `createAuditLog` stores: id and timestamp from the store, falsy optionals as null. */
  function NewAuditLog(entry: InsertAuditLog, id: int, now: int): (l: AuditLog)
    ensures l.id == id && l.timestamp == now
    ensures l.userId == entry.userId && l.userName == entry.userName
    ensures l.action == entry.action && l.resource == entry.resource
    ensures l.resourceId == OrNull(entry.resourceId)
    ensures l.changes == OrNull(entry.changes)
    ensures l.ipAddress == OrNull(entry.ipAddress)
  {
    AuditLog(id, entry.userId, entry.userName, entry.action, entry.resource,
             OrNull(entry.resourceId), OrNull(entry.changes), OrNull(entry.ipAddress), now)
  }

  /** `logs.slice(offset, offset + limit)`. */
  function Page(logs: seq<AuditLog>, limit: int, offset: int): (r: seq<AuditLog>)
    ensures |r| <= |logs|
    ensures 0 <= offset && 0 <= limit ==>
      && |r| <= limit
      && (offset >= |logs| ==> r == [])
      && (offset < |logs| ==> |r| == Lists.Min(limit, |logs| - offset))
      && forall i :: 0 <= i < |r| ==> offset + i < |logs| && r[i] == logs[offset + i]
  {
    if 0 <= offset && 0 <= limit then
      Lists.SliceWindow(logs, offset, limit);
      Lists.Slice(logs, offset, offset + limit)
    else
      Lists.Slice(logs, offset, offset + limit)
  }

  /** A page of a newest-first log is newest first and holds only entries of the log. */
  lemma PageOfSorted(logs: seq<AuditLog>, limit: int, offset: int)
    requires Sorting.SortedDesc(logs, Timestamp)
    ensures Sorting.SortedDesc(Page(logs, limit, offset), Timestamp)
    ensures forall i :: 0 <= i < |Page(logs, limit, offset)| ==> Page(logs, limit, offset)[i] in logs
  {
    Sorting.SortedSlice(logs, offset, offset + limit, Timestamp);
  }

  class MemStorage {
    var campaigns: map<int, Campaign>
    var auditLogs: map<int, AuditLog>
    var currentCampaignId: int
    var currentAuditLogId: int

    /**
     * Every campaign id lies below the campaign counter and is its own key; the audit
     * log never loses an entry, so its keys are exactly `1 .. currentAuditLogId-1`.
     */
    ghost predicate Valid()
      reads this
    {
      && 1 <= currentCampaignId && 1 <= currentAuditLogId
      && (forall id :: id in campaigns ==> 1 <= id < currentCampaignId && campaigns[id].id == id)
      && (forall id :: id in auditLogs <==> 1 <= id < currentAuditLogId)
      && (forall id :: id in auditLogs ==> auditLogs[id].id == id)
    }

    /**
     * The seeded store: five sample campaigns (ids 1-5) each with its "created" entry,
     * then four more entries (audit ids 1-9). `ages[i]` is how many milliseconds before
     * `now` entry `i + 1` is stamped: at most thirty days for the first five, fifteen
     * for the rest.
     */
    constructor (now: int, ages: seq<nat>)
      requires |ages| == 9
      requires forall i :: 0 <= i < 5 ==> ages[i] <= THIRTY_DAYS_MS
      requires forall i :: 5 <= i < 9 ==> ages[i] <= FIFTEEN_DAYS_MS
      ensures Valid()
      ensures currentCampaignId == 6 && currentAuditLogId == 10
      ensures forall id :: id in campaigns <==> 1 <= id <= 5
      ensures forall id :: 1 <= id <= 5 ==> campaigns[id] == SeedCampaign(SAMPLE_CAMPAIGNS[id - 1], id, now)
      ensures forall id :: 1 <= id <= 5 ==>
        auditLogs[id] == SeedCreatedLog(SAMPLE_CAMPAIGNS[id - 1], id, id, now - ages[id - 1])
      ensures forall id :: 6 <= id <= 9 ==> auditLogs[id] == SeedExtraLog(id - 6, id, now - ages[id - 1])
      ensures forall id :: id in auditLogs ==> now - THIRTY_DAYS_MS <= auditLogs[id].timestamp <= now
    {
      campaigns := map[];
      auditLogs := map[];
      currentCampaignId := 1;
      currentAuditLogId := 1;
      new;
      InitializeSampleData(now, ages);
      SeededCampaignsShape(5, now);
      SeededLogsShape(9, now, ages);
      forall id | id in auditLogs
        ensures now - THIRTY_DAYS_MS <= auditLogs[id].timestamp <= now
      {
        assert auditLogs[id] == SeedLog(id, now, ages);
      }
    }

    /**
     * `initializeSampleData`: each sample campaign with its "created" entry, then the
     * extra entries, every id read from its counter.
     */
    method InitializeSampleData(now: int, ages: seq<nat>)
      requires |ages| == 9
      requires campaigns == map[] && auditLogs == map[] && currentCampaignId == 1 && currentAuditLogId == 1
      modifies this
      ensures currentCampaignId == 6 && currentAuditLogId == 10
      ensures campaigns == SeededCampaigns(5, now)
      ensures auditLogs == SeededLogs(9, now, ages)
    {
      SeedSampleCampaigns(now, ages);
      SeedAdditionalLogs(now, ages);
    }

    /** The `sampleCampaigns.forEach` loop. */
    method SeedSampleCampaigns(now: int, ages: seq<nat>)
      requires |ages| == 9
      requires campaigns == map[] && auditLogs == map[] && currentCampaignId == 1 && currentAuditLogId == 1
      modifies this
      ensures currentCampaignId == 6 && currentAuditLogId == 6
      ensures campaigns == SeededCampaigns(5, now)
      ensures auditLogs == SeededLogs(5, now, ages)
    {
      for i := 0 to 5
        invariant currentCampaignId == i + 1 && currentAuditLogId == i + 1
        invariant campaigns == SeededCampaigns(i, now)
        invariant auditLogs == SeededLogs(i, now, ages)
      {
        var id := currentCampaignId;
        currentCampaignId := currentCampaignId + 1;
        campaigns := campaigns[id := SeedCampaign(SAMPLE_CAMPAIGNS[i], id, now)];
        var auditId := currentAuditLogId;
        currentAuditLogId := currentAuditLogId + 1;
        auditLogs := auditLogs[auditId := SeedCreatedLog(SAMPLE_CAMPAIGNS[i], auditId, id, now - ages[i])];
      }
    }

    /** The `additionalLogs.forEach` loop. */
    method SeedAdditionalLogs(now: int, ages: seq<nat>)
      requires |ages| == 9
      requires auditLogs == SeededLogs(5, now, ages) && currentAuditLogId == 6
      modifies this
      ensures currentAuditLogId == 10 && auditLogs == SeededLogs(9, now, ages)
      ensures campaigns == old(campaigns) && currentCampaignId == old(currentCampaignId)
    {
      for i := 0 to 4
        invariant currentAuditLogId == i + 6
        invariant auditLogs == SeededLogs(i + 5, now, ages)
        invariant campaigns == old(campaigns) && currentCampaignId == old(currentCampaignId)
      {
        var auditId := currentAuditLogId;
        currentAuditLogId := currentAuditLogId + 1;
        auditLogs := auditLogs[auditId := SeedExtraLog(i, auditId, now - ages[i + 5])];
      }
    }

    /** `getCampaign(id)`: the stored record, or nothing. */
    function GetCampaign(id: int): (r: Option<Campaign>)
      reads this
      ensures r.Some? <==> id in campaigns
      ensures r.Some? ==> r.value == campaigns[id]
    {
      if id in campaigns then Some(campaigns[id]) else None
    }

    /** `getCampaigns()`: every stored campaign once, newest first. */
    function GetCampaigns(): (r: seq<Campaign>)
      reads this
      requires Valid()
      ensures |r| == |campaigns|
      ensures forall c :: c in r <==> c.id in campaigns && campaigns[c.id] == c
      ensures Sorting.SortedDesc(r, CreatedAt)
    {
      var listed := Keyed.ValuesBelow(campaigns, currentCampaignId);
      Keyed.AllKeysBelow(campaigns, currentCampaignId);
      var r := Sorting.SortDesc(listed, CreatedAt);
      assert forall c :: c in r <==> c in listed by {
        forall c ensures c in r <==> c in listed {
          assert c in r <==> c in multiset(r);
          assert c in listed <==> c in multiset(listed);
        }
      }
      assert |r| == |multiset(r)| == |multiset(listed)| == |listed|;
      r
    }

    /** `getAuditLogsCount()`: the size of the log, which is the number of ids handed out. */
    function GetAuditLogsCount(): (n: nat)
      reads this
      requires Valid()
      ensures n == |auditLogs| == currentAuditLogId - 1
    {
      Keyed.DenseSize(auditLogs, currentAuditLogId);
      |auditLogs|
    }

    /** Every entry once, newest first: what `getAuditLogs` slices. */
    function AuditLogsNewestFirst(): (r: seq<AuditLog>)
      reads this
      requires Valid()
      ensures |r| == |auditLogs|
      ensures forall l :: l in r <==> l.id in auditLogs && auditLogs[l.id] == l
      ensures Sorting.SortedDesc(r, Timestamp)
    {
      var listed := Keyed.ValuesBelow(auditLogs, currentAuditLogId);
      Keyed.AllKeysBelow(auditLogs, currentAuditLogId);
      var r := Sorting.SortDesc(listed, Timestamp);
      assert forall l :: l in r <==> l in listed by {
        forall l ensures l in r <==> l in listed {
          assert l in r <==> l in multiset(r);
          assert l in listed <==> l in multiset(listed);
        }
      }
      assert |r| == |multiset(r)| == |multiset(listed)| == |listed|;
      r
    }

    /**
     * `getAuditLogs(limit = 50, offset = 0)`: the newest-first log sliced as
     * `slice(offset, offset + limit)`, negative arguments included.
     */
    function GetAuditLogs(limit: Option<int>, offset: Option<int>): (r: seq<AuditLog>)
      reads this
      requires Valid()
      ensures r == Page(AuditLogsNewestFirst(), limit.GetOr(DEFAULT_LIMIT), offset.GetOr(DEFAULT_OFFSET))
      ensures forall i :: 0 <= i < |r| ==> r[i].id in auditLogs && auditLogs[r[i].id] == r[i]
      ensures Sorting.SortedDesc(r, Timestamp)
    {
      var all := AuditLogsNewestFirst();
      PageOfSorted(all, limit.GetOr(DEFAULT_LIMIT), offset.GetOr(DEFAULT_OFFSET));
      Page(all, limit.GetOr(DEFAULT_LIMIT), offset.GetOr(DEFAULT_OFFSET))
    }

    /** `createCampaign(input)` at time `now`: stores the new campaign under the next id. */
    method CreateCampaign(input: InsertCampaign, now: int) returns (c: Campaign)
      requires Valid()
      modifies this
      ensures Valid()
      ensures c == NewCampaign(input, old(currentCampaignId), now)
      ensures forall id :: id in old(campaigns) ==> id < c.id
      ensures currentCampaignId == old(currentCampaignId) + 1
      ensures campaigns == old(campaigns)[c.id := c]
      ensures GetCampaign(c.id) == Some(c)
      ensures auditLogs == old(auditLogs) && currentAuditLogId == old(currentAuditLogId)
    {
      var id := currentCampaignId;
      currentCampaignId := currentCampaignId + 1;
      c := NewCampaign(input, id, now);
      campaigns := campaigns[id := c];
    }

    /** `updateCampaign(id, patch)` at time `now`: nothing for an unknown id, else the merged record. */
    method UpdateCampaign(id: int, patch: CampaignPatch, now: int) returns (r: Option<Campaign>)
      requires Valid()
      modifies this
      ensures Valid()
      ensures id !in old(campaigns) ==> r.None? && campaigns == old(campaigns)
      ensures id in old(campaigns) ==> r == Some(Merge(old(campaigns)[id], patch, now))
      ensures id in old(campaigns) ==> campaigns == old(campaigns)[id := r.value]
      ensures auditLogs == old(auditLogs)
      ensures currentCampaignId == old(currentCampaignId) && currentAuditLogId == old(currentAuditLogId)
    {
      if id !in campaigns {
        return None;
      }
      var updated := Merge(campaigns[id], patch, now);
      campaigns := campaigns[id := updated];
      r := Some(updated);
    }

    /** `deleteCampaign(id)`: whether there was one; the id is not handed out again. */
    method DeleteCampaign(id: int) returns (deleted: bool)
      requires Valid()
      modifies this
      ensures Valid()
      ensures deleted <==> id in old(campaigns)
      ensures campaigns == old(campaigns) - {id}
      ensures id !in campaigns
      ensures auditLogs == old(auditLogs)
      ensures currentCampaignId == old(currentCampaignId) && currentAuditLogId == old(currentAuditLogId)
    {
      deleted := id in campaigns;
      campaigns := campaigns - {id};
    }

    /** `createAuditLog(entry)` at time `now`: appends the entry under the next audit id. */
    method CreateAuditLog(entry: InsertAuditLog, now: int) returns (log: AuditLog)
      requires Valid()
      modifies this
      ensures Valid()
      ensures log == NewAuditLog(entry, old(currentAuditLogId), now)
      ensures forall id :: id in old(auditLogs) ==> id < log.id
      ensures currentAuditLogId == old(currentAuditLogId) + 1
      ensures auditLogs == old(auditLogs)[log.id := log]
      ensures GetAuditLogsCount() == old(GetAuditLogsCount()) + 1
      ensures campaigns == old(campaigns) && currentCampaignId == old(currentCampaignId)
    {
      var id := currentAuditLogId;
      currentAuditLogId := currentAuditLogId + 1;
      log := NewAuditLog(entry, id, now);
      auditLogs := auditLogs[id := log];
    }
  }
}
