/**
 * The shared record shapes: the `campaigns` and `audit_logs` columns, and the two insert
 * validators derived from them. A request body is a JSON object; validation keeps the
 * known keys, checks each one, and either yields a typed record or the list of the
 * offending field names. Keys the validators do not know (among them the server-owned
 * `id`, `createdAt`, `updatedAt` and `timestamp`) are dropped.
 */
module Schema {
  import opened Wrappers

  /** The JSON values a request body can hold (numbers are integers in this model). */
  datatype Json = JNull | JBool(b: bool) | JNum(n: int) | JStr(s: string) | JArr(items: seq<Json>)

  type Body = map<string, Json>

  /** Column defaults of `campaigns`. */
  const DEFAULT_STATUS: string := "draft"
  const DEFAULT_PROGRESS: int := 0

  /**
   * A stored campaign. `kind` is the `type` column. Start and end dates are kept as the
   * strings they were given; timestamps are milliseconds.
   */
  datatype Campaign = Campaign(
    id: int,
    name: string,
    description: string,
    kind: string,
    status: string,
    budget: string,
    startDate: string,
    endDate: string,
    targetAudience: seq<string>,
    progress: int,
    createdAt: int,
    updatedAt: int)

  /** A stored audit entry; the three nullable columns are options. */
  datatype AuditLog = AuditLog(
    id: int,
    userId: string,
    userName: string,
    action: string,
    resource: string,
    resourceId: Option<string>,
    changes: Option<string>,
    ipAddress: Option<string>,
    timestamp: int)

  /** What `insertCampaignSchema` yields: no id and no timestamps, by construction. */
  datatype InsertCampaign = InsertCampaign(
    name: string,
    description: string,
    kind: string,
    status: Option<string>,
    budget: string,
    startDate: string,
    endDate: string,
    targetAudience: Option<seq<string>>,
    progress: Option<int>)

  /** What `insertCampaignSchema.partial()` yields: every field may be missing. */
  datatype CampaignPatch = CampaignPatch(
    name: Option<string>,
    description: Option<string>,
    kind: Option<string>,
    status: Option<string>,
    budget: Option<string>,
    startDate: Option<string>,
    endDate: Option<string>,
    targetAudience: Option<seq<string>>,
    progress: Option<int>)

  /** What `insertAuditLogSchema` describes: no id and no timestamp. */
  datatype InsertAuditLog = InsertAuditLog(
    userId: string,
    userName: string,
    action: string,
    resource: string,
    resourceId: Option<string>,
    changes: Option<string>,
    ipAddress: Option<string>)

  /** The fields of `insertCampaignSchema`, in declaration order. */
  datatype CampaignField =
    | Name | Description | Type | Status | Budget | StartDate | EndDate | TargetAudience | Progress

  const CAMPAIGN_FIELDS: seq<CampaignField> :=
    [Name, Description, Type, Status, Budget, StartDate, EndDate, TargetAudience, Progress]

  /** The JSON key of each field. */
  function Key(f: CampaignField): string {
    match f
    case Name => "name"
    case Description => "description"
    case Type => "type"
    case Status => "status"
    case Budget => "budget"
    case StartDate => "startDate"
    case EndDate => "endDate"
    case TargetAudience => "targetAudience"
    case Progress => "progress"
  }

  lemma AllCampaignFields(f: CampaignField)
    ensures f in CAMPAIGN_FIELDS
  {
  }

  predicate IsString(body: Body, key: string, minLength: nat) {
    key in body && body[key].JStr? && |body[key].s| >= minLength
  }

  predicate OptionalString(body: Body, key: string) {
    key !in body || body[key].JStr?
  }

  predicate AllStrings(items: seq<Json>) {
    forall i :: 0 <= i < |items| ==> items[i].JStr?
  }

  predicate OptionalStringArray(body: Body, key: string) {
    key !in body || (body[key].JArr? && AllStrings(body[key].items))
  }

  predicate OptionalInt(body: Body, key: string) {
    key !in body || body[key].JNum?
  }

  /**
   * The check on one campaign field under the full validator: `name`, `description` and
   * `type` are strings; `budget`, `startDate` and `endDate` are strings of length at
   * least 1; `status` (column default "draft") may be missing or a string;
   * `targetAudience` may be missing or an array of strings; `progress` (column default
   * 0) may be missing or a number, with no range check.
   */
  predicate CampaignFieldOk(body: Body, f: CampaignField) {
    match f
    case Name | Description | Type => IsString(body, Key(f), 0)
    case Budget | StartDate | EndDate => IsString(body, Key(f), 1)
    case Status => OptionalString(body, Key(f))
    case TargetAudience => OptionalStringArray(body, Key(f))
    case Progress => OptionalInt(body, Key(f))
  }

  /** The check under `.partial()`: a missing field is fine, a present one must pass. */
  predicate PatchFieldOk(body: Body, f: CampaignField) {
    Key(f) !in body || CampaignFieldOk(body, f)
  }

  predicate FieldOk(body: Body, f: CampaignField, partial: bool) {
    if partial then PatchFieldOk(body, f) else CampaignFieldOk(body, f)
  }

  predicate ValidInsertBody(body: Body) {
    && CampaignFieldOk(body, Name) && CampaignFieldOk(body, Description) && CampaignFieldOk(body, Type)
    && CampaignFieldOk(body, Status) && CampaignFieldOk(body, Budget) && CampaignFieldOk(body, StartDate)
    && CampaignFieldOk(body, EndDate) && CampaignFieldOk(body, TargetAudience) && CampaignFieldOk(body, Progress)
  }

  predicate ValidPatchBody(body: Body) {
    && PatchFieldOk(body, Name) && PatchFieldOk(body, Description) && PatchFieldOk(body, Type)
    && PatchFieldOk(body, Status) && PatchFieldOk(body, Budget) && PatchFieldOk(body, StartDate)
    && PatchFieldOk(body, EndDate) && PatchFieldOk(body, TargetAudience) && PatchFieldOk(body, Progress)
  }

  /** `[f]` when the check failed, otherwise nothing. */
  function Flag(ok: bool, f: CampaignField): seq<CampaignField> {
    if ok then [] else [f]
  }

  /** The fields among `fields` that fail their check, in the order given. */
  function Offending(body: Body, fields: seq<CampaignField>, partial: bool): (errors: seq<CampaignField>)
    ensures forall f :: f in errors <==> f in fields && !FieldOk(body, f, partial)
  {
    if fields == [] then [] else Flag(FieldOk(body, fields[0], partial), fields[0]) + Offending(body, fields[1..], partial)
  }

  function StringsOf(items: seq<Json>): (r: seq<string>)
    requires AllStrings(items)
    ensures |r| == |items| && forall i :: 0 <= i < |items| ==> r[i] == items[i].s
  {
    if items == [] then [] else [items[0].s] + StringsOf(items[1..])
  }

  function OptString(body: Body, key: string): Option<string>
    requires OptionalString(body, key)
  {
    if key in body then Some(body[key].s) else None
  }

  function OptStrings(body: Body, key: string): Option<seq<string>>
    requires OptionalStringArray(body, key)
  {
    if key in body then Some(StringsOf(body[key].items)) else None
  }

  function OptInt(body: Body, key: string): Option<int>
    requires OptionalInt(body, key)
  {
    if key in body then Some(body[key].n) else None
  }

  /** `insertCampaignSchema.parse(body)`: the typed record, or every offending field in order. */
  function ParseInsertCampaign(body: Body): (r: Result<InsertCampaign, seq<CampaignField>>)
    ensures r.Success? <==> ValidInsertBody(body)
    ensures r.Failure? ==> |r.error| > 0 && forall f :: f in r.error <==> !CampaignFieldOk(body, f)
    ensures r.Success? ==>
      && r.value.name == body["name"].s
      && r.value.description == body["description"].s
      && r.value.kind == body["type"].s
      && r.value.status == OptString(body, "status")
      && r.value.budget == body["budget"].s && |r.value.budget| >= 1
      && r.value.startDate == body["startDate"].s && |r.value.startDate| >= 1
      && r.value.endDate == body["endDate"].s && |r.value.endDate| >= 1
      && r.value.targetAudience == OptStrings(body, "targetAudience")
      && r.value.progress == OptInt(body, "progress")
  {
    var errors := Offending(body, CAMPAIGN_FIELDS, false);
    InsertValidIff(body);
    if errors != [] then
      assert errors[0] in errors;
      Failure(errors)
    else
      Success(InsertRecord(body))
  }

  /** The record a body that passes the full validator describes. */
  function InsertRecord(body: Body): (c: InsertCampaign)
    requires ValidInsertBody(body)
    ensures c.name == body["name"].s && c.description == body["description"].s && c.kind == body["type"].s
    ensures c.status == OptString(body, "status")
    ensures c.budget == body["budget"].s && |c.budget| >= 1
    ensures c.startDate == body["startDate"].s && |c.startDate| >= 1
    ensures c.endDate == body["endDate"].s && |c.endDate| >= 1
    ensures c.targetAudience == OptStrings(body, "targetAudience") && c.progress == OptInt(body, "progress")
  {
    assert CampaignFieldOk(body, Name) && CampaignFieldOk(body, Description) && CampaignFieldOk(body, Type);
    assert CampaignFieldOk(body, Status) && CampaignFieldOk(body, Budget) && CampaignFieldOk(body, StartDate);
    assert CampaignFieldOk(body, EndDate) && CampaignFieldOk(body, TargetAudience) && CampaignFieldOk(body, Progress);
    InsertCampaign(
      body["name"].s, body["description"].s, body["type"].s, OptString(body, "status"),
      body["budget"].s, body["startDate"].s, body["endDate"].s,
      OptStrings(body, "targetAudience"), OptInt(body, "progress"))
  }

  /** `insertCampaignSchema.partial().parse(body)`: the patch, or every offending field in order. */
  function ParseCampaignPatch(body: Body): (r: Result<CampaignPatch, seq<CampaignField>>)
    ensures r.Success? <==> ValidPatchBody(body)
    ensures r.Failure? ==> |r.error| > 0 && forall f :: f in r.error <==> !PatchFieldOk(body, f)
    ensures r.Success? ==>
      && r.value.name == OptString(body, "name")
      && r.value.description == OptString(body, "description")
      && r.value.kind == OptString(body, "type")
      && r.value.status == OptString(body, "status")
      && r.value.budget == OptString(body, "budget")
      && r.value.startDate == OptString(body, "startDate")
      && r.value.endDate == OptString(body, "endDate")
      && r.value.targetAudience == OptStrings(body, "targetAudience")
      && r.value.progress == OptInt(body, "progress")
    ensures r.Success? && r.value.budget.Some? ==> |r.value.budget.value| >= 1
    ensures r.Success? && r.value.startDate.Some? ==> |r.value.startDate.value| >= 1
    ensures r.Success? && r.value.endDate.Some? ==> |r.value.endDate.value| >= 1
  {
    var errors := Offending(body, CAMPAIGN_FIELDS, true);
    PatchValidIff(body);
    if errors != [] then
      assert errors[0] in errors;
      Failure(errors)
    else
      Success(PatchRecord(body))
  }

  /** The patch a body that passes the partial validator describes. */
  function PatchRecord(body: Body): (p: CampaignPatch)
    requires ValidPatchBody(body)
    ensures p.name == OptString(body, "name") && p.description == OptString(body, "description")
    ensures p.kind == OptString(body, "type") && p.status == OptString(body, "status")
    ensures p.budget == OptString(body, "budget") && (p.budget.Some? ==> |p.budget.value| >= 1)
    ensures p.startDate == OptString(body, "startDate") && (p.startDate.Some? ==> |p.startDate.value| >= 1)
    ensures p.endDate == OptString(body, "endDate") && (p.endDate.Some? ==> |p.endDate.value| >= 1)
    ensures p.targetAudience == OptStrings(body, "targetAudience") && p.progress == OptInt(body, "progress")
  {
    assert PatchFieldOk(body, Name) && PatchFieldOk(body, Description) && PatchFieldOk(body, Type);
    assert PatchFieldOk(body, Status) && PatchFieldOk(body, Budget) && PatchFieldOk(body, StartDate);
    assert PatchFieldOk(body, EndDate) && PatchFieldOk(body, TargetAudience) && PatchFieldOk(body, Progress);
    CampaignPatch(
      OptString(body, "name"), OptString(body, "description"), OptString(body, "type"),
      OptString(body, "status"), OptString(body, "budget"), OptString(body, "startDate"),
      OptString(body, "endDate"), OptStrings(body, "targetAudience"), OptInt(body, "progress"))
  }

  /** The full validator passes exactly when no field is offending. */
  lemma InsertValidIff(body: Body)
    ensures ValidInsertBody(body) <==> Offending(body, CAMPAIGN_FIELDS, false) == []
    ensures forall f :: f in Offending(body, CAMPAIGN_FIELDS, false) <==> !CampaignFieldOk(body, f)
  {
    forall f ensures f in CAMPAIGN_FIELDS { AllCampaignFields(f); }
    var errors := Offending(body, CAMPAIGN_FIELDS, false);
    if errors != [] {
      assert errors[0] in errors;
      if ValidInsertBody(body) {
        InsertFieldOfValid(body, errors[0]);
      }
    } else {
      forall f ensures FieldOk(body, f, false) {
        AllCampaignFields(f);
        assert f !in errors;
      }
      assert FieldOk(body, Name, false) && FieldOk(body, Description, false) && FieldOk(body, Type, false);
      assert FieldOk(body, Status, false) && FieldOk(body, Budget, false) && FieldOk(body, StartDate, false);
      assert FieldOk(body, EndDate, false) && FieldOk(body, TargetAudience, false) && FieldOk(body, Progress, false);
    }
  }

  lemma InsertFieldOfValid(body: Body, f: CampaignField)
    requires ValidInsertBody(body)
    ensures CampaignFieldOk(body, f)
  {
    match f
    case Name =>
    case Description =>
    case Type =>
    case Status =>
    case Budget =>
    case StartDate =>
    case EndDate =>
    case TargetAudience =>
    case Progress =>
  }

  /** The partial validator passes exactly when no field is offending. */
  lemma PatchValidIff(body: Body)
    ensures ValidPatchBody(body) <==> Offending(body, CAMPAIGN_FIELDS, true) == []
    ensures forall f :: f in Offending(body, CAMPAIGN_FIELDS, true) <==> !PatchFieldOk(body, f)
  {
    forall f ensures f in CAMPAIGN_FIELDS { AllCampaignFields(f); }
    var errors := Offending(body, CAMPAIGN_FIELDS, true);
    if errors != [] {
      assert errors[0] in errors;
      if ValidPatchBody(body) {
        PatchFieldOfValid(body, errors[0]);
      }
    } else {
      forall f ensures FieldOk(body, f, true) {
        AllCampaignFields(f);
        assert f !in errors;
      }
      assert FieldOk(body, Name, true) && FieldOk(body, Description, true) && FieldOk(body, Type, true);
      assert FieldOk(body, Status, true) && FieldOk(body, Budget, true) && FieldOk(body, StartDate, true);
      assert FieldOk(body, EndDate, true) && FieldOk(body, TargetAudience, true) && FieldOk(body, Progress, true);
    }
  }

  lemma PatchFieldOfValid(body: Body, f: CampaignField)
    requires ValidPatchBody(body)
    ensures PatchFieldOk(body, f)
  {
    match f
    case Name =>
    case Description =>
    case Type =>
    case Status =>
    case Budget =>
    case StartDate =>
    case EndDate =>
    case TargetAudience =>
    case Progress =>
  }

  /** Whatever a body says under a key the campaign validators do not read is dropped. */
  lemma ParseIgnoresUnknownKeys(body: Body, key: string, v: Json)
    requires forall f :: Key(f) != key
    ensures ParseInsertCampaign(body[key := v]) == ParseInsertCampaign(body)
    ensures ParseCampaignPatch(body[key := v]) == ParseCampaignPatch(body)
  {
    ParseCongruence(body[key := v], body);
  }

  /** The parsers look at the known keys only. */
  lemma ParseCongruence(b1: Body, b2: Body)
    requires forall f :: Key(f) in b1 <==> Key(f) in b2
    requires forall f :: Key(f) in b1 ==> b1[Key(f)] == b2[Key(f)]
    ensures ParseInsertCampaign(b1) == ParseInsertCampaign(b2)
    ensures ParseCampaignPatch(b1) == ParseCampaignPatch(b2)
  {
    forall f ensures FieldOk(b1, f, false) == FieldOk(b2, f, false) && FieldOk(b1, f, true) == FieldOk(b2, f, true) {
      SameKey(b1, b2, f);
    }
    InsertCongruence(b1, b2);
    PatchCongruence(b1, b2);
  }

  lemma InsertCongruence(b1: Body, b2: Body)
    requires forall f :: Key(f) in b1 <==> Key(f) in b2
    requires forall f :: Key(f) in b1 ==> b1[Key(f)] == b2[Key(f)]
    requires forall f :: FieldOk(b1, f, false) == FieldOk(b2, f, false)
    ensures ParseInsertCampaign(b1) == ParseInsertCampaign(b2)
  {
    OffendingCongruence(b1, b2, CAMPAIGN_FIELDS, false);
    var r1, r2 := ParseInsertCampaign(b1), ParseInsertCampaign(b2);
    if r2.Success? {
      SameKey(b1, b2, Name);
      SameKey(b1, b2, Description);
      SameKey(b1, b2, Type);
      SameKey(b1, b2, Status);
      SameKey(b1, b2, Budget);
      SameKey(b1, b2, StartDate);
      SameKey(b1, b2, EndDate);
      SameKey(b1, b2, TargetAudience);
      SameKey(b1, b2, Progress);
      assert r1.value == r2.value;
    }
  }

  lemma PatchCongruence(b1: Body, b2: Body)
    requires forall f :: Key(f) in b1 <==> Key(f) in b2
    requires forall f :: Key(f) in b1 ==> b1[Key(f)] == b2[Key(f)]
    requires forall f :: FieldOk(b1, f, true) == FieldOk(b2, f, true)
    ensures ParseCampaignPatch(b1) == ParseCampaignPatch(b2)
  {
    OffendingCongruence(b1, b2, CAMPAIGN_FIELDS, true);
    var r1, r2 := ParseCampaignPatch(b1), ParseCampaignPatch(b2);
    if r2.Success? {
      SameKey(b1, b2, Name);
      SameKey(b1, b2, Description);
      SameKey(b1, b2, Type);
      SameKey(b1, b2, Status);
      SameKey(b1, b2, Budget);
      SameKey(b1, b2, StartDate);
      SameKey(b1, b2, EndDate);
      SameKey(b1, b2, TargetAudience);
      SameKey(b1, b2, Progress);
      assert r1.value == r2.value;
    }
  }

  lemma SameKey(b1: Body, b2: Body, f: CampaignField)
    requires Key(f) in b1 <==> Key(f) in b2
    requires Key(f) in b1 ==> b1[Key(f)] == b2[Key(f)]
    ensures Key(f) in b1 ==> Key(f) in b2 && b1[Key(f)] == b2[Key(f)]
    ensures Key(f) !in b1 ==> Key(f) !in b2
  {
  }

  lemma {:induction false} OffendingCongruence(b1: Body, b2: Body, fields: seq<CampaignField>, partial: bool)
    requires forall f :: FieldOk(b1, f, partial) == FieldOk(b2, f, partial)
    ensures Offending(b1, fields, partial) == Offending(b2, fields, partial)
  {
    if fields != [] {
      OffendingCongruence(b1, b2, fields[1..], partial);
    }
  }

  /** The client can never set the id or the timestamps of a campaign. */
  lemma ServerOwnedFieldsIgnored(body: Body, v: Json)
    ensures ParseInsertCampaign(body["id" := v]) == ParseInsertCampaign(body)
    ensures ParseInsertCampaign(body["createdAt" := v]) == ParseInsertCampaign(body)
    ensures ParseInsertCampaign(body["updatedAt" := v]) == ParseInsertCampaign(body)
    ensures ParseCampaignPatch(body["id" := v]) == ParseCampaignPatch(body)
    ensures ParseCampaignPatch(body["createdAt" := v]) == ParseCampaignPatch(body)
    ensures ParseCampaignPatch(body["updatedAt" := v]) == ParseCampaignPatch(body)
  {
    forall f ensures Key(f) != "id" && Key(f) != "createdAt" && Key(f) != "updatedAt" {
      assert |Key(f)| >= 4 && Key(f) != "createdAt" && Key(f) != "updatedAt";
    }
    ParseIgnoresUnknownKeys(body, "id", v);
    ParseIgnoresUnknownKeys(body, "createdAt", v);
    ParseIgnoresUnknownKeys(body, "updatedAt", v);
  }

  /** Every body the full validator accepts the partial one accepts too, with the required fields present. */
  lemma InsertBodyIsPatchBody(body: Body)
    requires ValidInsertBody(body)
    ensures ParseCampaignPatch(body).Success?
    ensures var p := ParseCampaignPatch(body).value;
      p.name.Some? && p.description.Some? && p.kind.Some? && p.budget.Some? && p.startDate.Some? && p.endDate.Some?
  {
    assert CampaignFieldOk(body, Name) && CampaignFieldOk(body, Description) && CampaignFieldOk(body, Type);
    assert CampaignFieldOk(body, Budget) && CampaignFieldOk(body, StartDate) && CampaignFieldOk(body, EndDate);
  }

  /** The fields of `insertAuditLogSchema`, in declaration order. */
  datatype AuditField = UserId | UserName | Action | Resource | ResourceId | Changes | IpAddress

  const AUDIT_FIELDS: seq<AuditField> := [UserId, UserName, Action, Resource, ResourceId, Changes, IpAddress]

  function AuditKey(f: AuditField): string {
    match f
    case UserId => "userId"
    case UserName => "userName"
    case Action => "action"
    case Resource => "resource"
    case ResourceId => "resourceId"
    case Changes => "changes"
    case IpAddress => "ipAddress"
  }

  lemma AllAuditFields(f: AuditField)
    ensures f in AUDIT_FIELDS
  {
  }

  /** A nullable audit column: missing, `null` or a string. */
  predicate NullableString(body: Body, key: string) {
    key !in body || body[key].JNull? || body[key].JStr?
  }

  function NullableValue(body: Body, key: string): Option<string>
    requires NullableString(body, key)
  {
    if key in body && body[key].JStr? then Some(body[key].s) else None
  }

  /**
   * The check on one audit field: `userId`, `userName`, `action` and `resource` are
   * required strings; `resourceId`, `changes` and `ipAddress` are nullable strings.
   */
  predicate AuditFieldOk(body: Body, f: AuditField) {
    match f
    case UserId | UserName | Action | Resource => IsString(body, AuditKey(f), 0)
    case ResourceId | Changes | IpAddress => NullableString(body, AuditKey(f))
  }

  predicate ValidAuditBody(body: Body) {
    && AuditFieldOk(body, UserId) && AuditFieldOk(body, UserName) && AuditFieldOk(body, Action)
    && AuditFieldOk(body, Resource) && AuditFieldOk(body, ResourceId) && AuditFieldOk(body, Changes)
    && AuditFieldOk(body, IpAddress)
  }

  function OffendingAudit(body: Body, fields: seq<AuditField>): (errors: seq<AuditField>)
    ensures forall f :: f in errors <==> f in fields && !AuditFieldOk(body, f)
  {
    if fields == [] then []
    else (if AuditFieldOk(body, fields[0]) then [] else [fields[0]]) + OffendingAudit(body, fields[1..])
  }

  /** `insertAuditLogSchema.parse(body)`: the typed record, or every offending field in order. */
  function ParseInsertAuditLog(body: Body): (r: Result<InsertAuditLog, seq<AuditField>>)
    ensures r.Success? <==> ValidAuditBody(body)
    ensures r.Failure? ==> |r.error| > 0 && forall f :: f in r.error <==> !AuditFieldOk(body, f)
    ensures r.Success? ==>
      && r.value.userId == body["userId"].s
      && r.value.userName == body["userName"].s
      && r.value.action == body["action"].s
      && r.value.resource == body["resource"].s
      && r.value.resourceId == NullableValue(body, "resourceId")
      && r.value.changes == NullableValue(body, "changes")
      && r.value.ipAddress == NullableValue(body, "ipAddress")
  {
    var errors := OffendingAudit(body, AUDIT_FIELDS);
    assert forall f :: f in AUDIT_FIELDS by {
      forall f ensures f in AUDIT_FIELDS { AllAuditFields(f); }
    }
    if errors != [] then
      assert errors[0] in errors;
      Failure(errors)
    else
      assert AuditFieldOk(body, UserId) && AuditFieldOk(body, UserName);
      assert AuditFieldOk(body, Action) && AuditFieldOk(body, Resource);
      assert AuditFieldOk(body, ResourceId) && AuditFieldOk(body, Changes) && AuditFieldOk(body, IpAddress);
      Success(InsertAuditLog(
        body["userId"].s, body["userName"].s, body["action"].s, body["resource"].s,
        NullableValue(body, "resourceId"), NullableValue(body, "changes"), NullableValue(body, "ipAddress")))
  }

  /** An entry may leave out, or send `null` for, every nullable field. */
  lemma NullableAuditFields(userId: string, userName: string, action: string, resource: string)
    ensures var body := map["userId" := JStr(userId), "userName" := JStr(userName),
                            "action" := JStr(action), "resource" := JStr(resource), "changes" := JNull];
      ParseInsertAuditLog(body) == Success(InsertAuditLog(userId, userName, action, resource, None, None, None))
  {
    var body := map["userId" := JStr(userId), "userName" := JStr(userName),
                    "action" := JStr(action), "resource" := JStr(resource), "changes" := JNull];
    assert AuditFieldOk(body, UserId) && AuditFieldOk(body, UserName) && AuditFieldOk(body, Action);
    assert AuditFieldOk(body, Resource) && AuditFieldOk(body, ResourceId);
    assert AuditFieldOk(body, Changes) && AuditFieldOk(body, IpAddress);
  }

  /** The client can never set the id or the timestamp of an audit entry. */
  lemma AuditServerOwnedFieldsIgnored(body: Body, v: Json)
    ensures ParseInsertAuditLog(body["id" := v]) == ParseInsertAuditLog(body)
    ensures ParseInsertAuditLog(body["timestamp" := v]) == ParseInsertAuditLog(body)
  {
    forall f ensures AuditKey(f) != "id" && AuditKey(f) != "timestamp" {
      assert |AuditKey(f)| >= 6 && AuditKey(f) != "timestamp";
    }
    AuditIgnoresUnknownKey(body, "id", v);
    AuditIgnoresUnknownKey(body, "timestamp", v);
  }

  /** Whatever a body says under a key the audit validator does not read is dropped. */
  lemma AuditIgnoresUnknownKey(body: Body, key: string, v: Json)
    requires forall f :: AuditKey(f) != key
    ensures ParseInsertAuditLog(body[key := v]) == ParseInsertAuditLog(body)
  {
    AuditParseCongruence(body[key := v], body);
  }

  /** The audit parser looks at the known keys only. */
  lemma AuditParseCongruence(b1: Body, b2: Body)
    requires forall f :: AuditKey(f) in b1 <==> AuditKey(f) in b2
    requires forall f :: AuditKey(f) in b1 ==> b1[AuditKey(f)] == b2[AuditKey(f)]
    ensures ParseInsertAuditLog(b1) == ParseInsertAuditLog(b2)
  {
    forall f ensures AuditFieldOk(b1, f) == AuditFieldOk(b2, f) {
      SameAuditKey(b1, b2, f);
    }
    AuditCongruence(b1, b2, AUDIT_FIELDS);
    var r1, r2 := ParseInsertAuditLog(b1), ParseInsertAuditLog(b2);
    if r2.Success? {
      SameAuditKey(b1, b2, UserId);
      SameAuditKey(b1, b2, UserName);
      SameAuditKey(b1, b2, Action);
      SameAuditKey(b1, b2, Resource);
      SameAuditKey(b1, b2, ResourceId);
      SameAuditKey(b1, b2, Changes);
      SameAuditKey(b1, b2, IpAddress);
      assert r1.value == r2.value;
    }
  }

  lemma SameAuditKey(b1: Body, b2: Body, f: AuditField)
    requires AuditKey(f) in b1 <==> AuditKey(f) in b2
    requires AuditKey(f) in b1 ==> b1[AuditKey(f)] == b2[AuditKey(f)]
    ensures AuditKey(f) in b1 ==> AuditKey(f) in b2 && b1[AuditKey(f)] == b2[AuditKey(f)]
    ensures AuditKey(f) !in b1 ==> AuditKey(f) !in b2
  {
  }

  lemma {:induction false} AuditCongruence(b1: Body, b2: Body, fields: seq<AuditField>)
    requires forall f :: AuditFieldOk(b1, f) == AuditFieldOk(b2, f)
    ensures OffendingAudit(b1, fields) == OffendingAudit(b2, fields)
  {
    if fields != [] {
      AuditCongruence(b1, b2, fields[1..]);
    }
  }
}
