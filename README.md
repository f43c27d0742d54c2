# MarketingMaven campaign store and audit trail, in Dafny

MarketingMaven is a small marketing dashboard. Its server holds campaigns and an audit
trail in memory. Every create, update and delete of a campaign through the HTTP routes
appends one audit entry. The browser pages filter, page, colour and export what the
server returns. This project models:

- **`MemStorage`** (module `Storage`): a class holding the two keyed maps and the two
  id counters. Its constructor and the sample-data loops seed 5 campaigns and 9 audit
  entries. The store methods create, update, delete and append. `getCampaigns` and
  `getAuditLogs` are pure sorted and sliced views.
- **The route handlers** (module `Routes`):
  - POST, PUT and DELETE on `/api/campaigns`, as methods over the store. Each returns an
    `Outcome`: `Ok`, `NotFound`, `BadRequest` with the offending fields, or `ServerError`.
  - GET on a single campaign.
  - The defaulting of `limit` and `offset` for `/api/audit-logs`.
  - The `/api/metrics` aggregate.
  - The update summary (`Status: a → b, Budget: $a → $b, Name: a → b`).
- **The validators** (module `Schema`): a request body is a JSON object (`map<string, Json>`).
  `insertCampaignSchema`, its `.partial()` form and `insertAuditLogSchema` become parsers
  that return the typed record or the list of offending fields. A declarative predicate
  over the body is their partner.
- **The client pages**, as pure functions plus a class per component whose state the
  setters replace:
  - notifications: filter, mark, delete, select, and the time-ago label (`Notifications`, `TimeAgo`);
  - the header drop-down (`NotificationsDropdown`);
  - the audit table: paging arithmetic, the action filter and the CSV export (`AuditLogTable`);
  - the report generator and its preview (`Reports`);
  - the chart reductions on the analytics page (`Analytics`);
  - the colour lookups (`Utils`, `RecentActivity`).

Helper modules:

- `Wrappers`: `Option`, `Result`.
- `Lists`: filter, count, and JavaScript `slice` with negative indices.
- `Keyed`: `Map` iteration order for counter-assigned keys.
- `Sorting`: the stable sort newest first.
- `Strings`: ASCII case mapping, `includes`, `join`, decimal rendering and parsing.

Clock readings (`new Date()`, `Date.now()`) are an integer `now` in milliseconds, taken
as a parameter. The `Math.random()` ages of the seeded audit entries are a parameter
`ages` as well. Dates and budgets are opaque strings. The date and currency formatters
of the client are parameters.

## Model

| member | source | states |
|---|---|---|
| Storage.MemStorage.constructor | server/storage.ts:29-39 | the store starts with campaigns 1..5 and audit entries 1..9, exactly the seeded records; the next ids are 6 and 10; every seeded entry lies within 30 days before `now` |
| Storage.MemStorage.InitializeSampleData | server/storage.ts:41-169 | from the empty store, the campaign map becomes the five sample campaigns under ids 1..5 and the audit map the nine seeded entries under ids 1..9; the counters end at 6 and 10 |
| Storage.MemStorage.SeedSampleCampaigns | server/storage.ts:101-128 | the `forEach` over the samples stores campaign i and its "Campaign Created" entry under id i; both counters end at 6 |
| Storage.MemStorage.SeedAdditionalLogs | server/storage.ts:154-168 | the second `forEach` adds the four extra entries under audit ids 6..9; the campaign map and its counter are unchanged |
| Storage.SeededCampaignsShape | server/storage.ts:101-112 | after n samples the map holds exactly the keys 1..n, key i holding sample i with id i |
| Storage.SeededLogsShape | server/storage.ts:115-127 | after n seeded entries the audit map holds exactly the keys 1..n, key i holding entry i, stamped `now - ages[i-1]` |
| Storage.SeedLog | server/storage.ts:116-126 | the seeded entry under audit id i has id i and timestamp `now` minus its age |
| Storage.MemStorage.GetCampaign | server/storage.ts:194-196 | a result exactly when the id is stored, and then the stored record |
| Storage.MemStorage.GetCampaigns | server/storage.ts:188-192 | every stored campaign exactly once, nothing else, sorted newest `createdAt` first |
| Storage.MemStorage.CreateCampaign | server/storage.ts:198-215 | the new campaign takes the current counter as id, which exceeds every stored id; the counter rises by one; the map gains exactly that record, which `getCampaign` then returns; the audit log is unchanged |
| Storage.NewCampaign | server/storage.ts:201-212 | the input's fields; a status of "draft" when the input's is missing or empty; progress 0 and audience `[]` when missing; `createdAt == updatedAt == now` |
| Storage.NewCampaignStatus | server/storage.ts:208 | a stored status is never empty, and it is "draft" exactly when none or "" or "draft" was given |
| Storage.MemStorage.UpdateCampaign | server/storage.ts:217-232 | nothing for an unknown id, with the map unchanged; otherwise the merged record replaces that one entry only; counters and log unchanged |
| Storage.Merge | server/storage.ts:221-228 | keeps id and `createdAt`; a supplied field overwrites, a missing one keeps; start and end dates change only when supplied non-empty; `updatedAt` is `now` |
| Storage.MergeEmpty | server/storage.ts:221-228 | an empty update moves only `updatedAt` |
| Storage.MergeIdempotent | server/storage.ts:221-228 | applying an update twice is applying it once |
| Storage.MergeLaterWins | server/storage.ts:221-228 | of two updates, the later one's supplied name, status and budget win |
| Storage.MemStorage.DeleteCampaign | server/storage.ts:234-236 | true exactly when the id was stored; afterwards the id is absent, the other campaigns and the whole log are untouched, and the counter does not move back |
| Storage.MemStorage.AuditLogsNewestFirst | server/storage.ts:239-240 | every stored entry exactly once, newest timestamp first |
| Storage.MemStorage.GetAuditLogs | server/storage.ts:238-243 | the `slice(offset, offset + limit)` of the newest-first list, with defaults 50 and 0; only stored entries, still newest first |
| Storage.Page | server/storage.ts:241 | JavaScript `slice` semantics: for non-negative arguments the window `[offset, offset + limit)` clipped to the list, so at most `limit` entries and none when `offset` is at least the count |
| Storage.PageOfSorted | server/storage.ts:238-243 | a window of a newest-first list is newest first and holds only entries of the list |
| Storage.MemStorage.CreateAuditLog | server/storage.ts:245-257 | the entry takes the next audit id, which exceeds every stored one; the log gains exactly that entry and `getAuditLogsCount` rises by one; campaigns untouched |
| Storage.NewAuditLog | server/storage.ts:247-254 | id and timestamp from the store; `resourceId`, `changes` and `ipAddress` become null when missing or empty |
| Storage.OrNull | server/storage.ts:250-252 | `x \|\| null`: a value exactly when a non-empty string was given |
| Storage.MemStorage.GetAuditLogsCount | server/storage.ts:259-261 | the size of the log, which equals the number of audit ids handed out |
| Routes.ClientIp | server/routes.ts:23 | `req.ip`, else `remoteAddress`, else "127.0.0.1"; never empty |
| Routes.AuditEntry | server/routes.ts:9-25 | the helper's entry names user "user-1" / "Sarah Johnson" and passes action, resource, id, changes and the client address through |
| Routes.StoredEntryShape | server/routes.ts:9-25 | the stored entry keeps the acting user and always has a non-null address; its `changes` is null exactly when the summary is empty, as for a PUT that changed nothing |
| Routes.PostCampaign | server/routes.ts:54-74 | an invalid body gives 400 with the offending fields, and the store and log are unchanged; otherwise the campaign is stored under the next id and exactly one "Campaign Created" entry is appended, for its name and id, whose summary interpolates the validated status as written (`undefined` when it was left out) |
| Routes.PostCampaignCorrected | server/routes.ts:54-74 | the same handler with the corrected summary: the appended entry names the status the campaign was stored with |
| Routes.CreatedChangesReportsStoredStatus | server/routes.ts:59-65 | the create summary `Budget: $b, Status: s` names the status the stored campaign has |
| Routes.CreatedChangesAsWrittenMisreports | server/routes.ts:63 | a create without a status, or with the empty one, is stored as "draft" but logged, as written, as "Status: undefined" or "Status: " |
| Routes.CreatedChangesAgreeWithStatus | server/routes.ts:63 | when the client does send a non-empty status, the as-written summary equals the corrected one |
| Routes.PutCampaign | server/routes.ts:77-116 | an unparseable or unknown id gives 404 before the body is validated, and nothing changes; an invalid body gives 400, and nothing changes; otherwise the merge is stored and exactly one "Campaign Updated" entry is appended, naming the updated name (the old one when that is empty) |
| Routes.UpdateParts | server/routes.ts:90-99 | one part per changed field, in the order status, budget, name; a field counts only when supplied, non-empty and different from the stored value; each part has its fixed text |
| Routes.UpdateChangesEmptyIff | server/routes.ts:90-105 | the summary is empty exactly when none of status, budget and name changed |
| Routes.ResendIsNoChange | server/routes.ts:90-105 | sending back the stored values yields the empty summary |
| Routes.BudgetOnlySummary | server/routes.ts:94-105 | a budget-only change reads `Budget: $old → $new` |
| Routes.StatusBeforeName | server/routes.ts:91-105 | a status and a name change read `Status: … → …, Name: … → …` |
| Routes.DeleteCampaign | server/routes.ts:119-145 | an unknown id gives 404 with nothing changed or logged; a known one is removed and exactly one "Campaign Deleted" entry is appended, with the old name and `Budget: $<old budget>` |
| Routes.GetCampaign | server/routes.ts:38-51 | 404 exactly when the id is missing or not stored, else the stored record |
| Routes.OrDefault | server/routes.ts:150-151 | `parseInt(q) \|\| d`: a missing, unparseable or zero parameter gives `d`, any other number itself |
| Routes.GetAuditLogs | server/routes.ts:148-160 | the store's newest-first window at the defaulted limit and offset; `total` is the full count whatever the window |
| Routes.DefaultAuditPage | server/routes.ts:150-156 | without parameters the page is the newest 50 entries, and never more than the log holds |
| Routes.RoundedMean | server/routes.ts:169-179 | `Math.round(sum / n)`: the integer nearest to the mean, halves rounded up |
| Routes.ComputeMetrics | server/routes.ts:167-180 | active count is the number of "active" campaigns and at most the total; zero active exactly when none is active; the rounded mean progress, 0 for no campaigns; the constants 3.2 and 245 |
| Routes.AvgProgressBounds | server/routes.ts:169-179 | with every progress in 0..100 the mean lies in 0..100 |
| Routes.GetMetrics | server/routes.ts:163-184 | the total is the number of stored campaigns, and the active count does not exceed it |
| Routes.MetricsIgnoreOrder | server/routes.ts:167-180 | the active count, total and mean progress depend only on which campaigns are listed, not on their order |
| Routes.GetMetricsAnyOrder | server/routes.ts:163-184 | the store's metrics equal those computed over any listing with the same campaigns, in any order |
| Schema.ParseInsertCampaign | shared/schema.ts:5-41 | success exactly for a valid body; otherwise a non-empty list of exactly the failing fields; on success the record carries the body's values, with budget and dates of length at least 1 |
| Schema.ParseCampaignPatch | shared/schema.ts:32-41 | the partial form: success exactly when every supplied field is well-typed; the failing fields otherwise; each field copied or missing |
| Schema.InsertValidIff | shared/schema.ts:32-41 | the full validator passes exactly when no field is offending, and a field is reported exactly when its check fails |
| Schema.PatchValidIff | shared/schema.ts:32-41 | the same for the partial validator |
| Schema.ServerOwnedFieldsIgnored | shared/schema.ts:32-36 | a body's `id`, `createdAt` and `updatedAt` never change what either campaign parser yields |
| Schema.ParseIgnoresUnknownKeys | shared/schema.ts:32-41 | no key outside the nine campaign fields changes what the parsers yield |
| Schema.InsertBodyIsPatchBody | shared/schema.ts:32-41 | every body the full validator accepts the partial one accepts, with the required fields present |
| Schema.ParseInsertAuditLog | shared/schema.ts:20-30 | success exactly for a valid body; the failing fields otherwise; the four required strings and the three nullable columns as options |
| Schema.NullableAuditFields | shared/schema.ts:26-28 | an entry may omit, or send null for, `resourceId`, `changes` and `ipAddress` |
| Schema.AuditServerOwnedFieldsIgnored | shared/schema.ts:43-46 | a body's `id` and `timestamp` never change what the audit parser yields |
| Notifications.Filtered | client/src/pages/notifications.tsx:103-113 | the result is a subsequence of the list (order kept) holding each matching notification as often as the list does and no other |
| Notifications.EmptySearchMatches | client/src/pages/notifications.tsx:104-105 | the empty search term matches every notification |
| Notifications.NoFiltersKeepAll | client/src/pages/notifications.tsx:97-113 | with the initial filters nothing is hidden |
| Notifications.ReadUnreadDisjoint | client/src/pages/notifications.tsx:107-109 | no notification is kept both by the "read" and by the "unread" filter |
| Notifications.UnreadCount | client/src/pages/notifications.tsx:115 | at most the length, and zero exactly when every notification is read |
| Notifications.SetRead | client/src/pages/notifications.tsx:158-172 | `read` becomes the given flag on exactly the listed ids; length, order and all other fields stay |
| Notifications.SetReadLastWins | client/src/pages/notifications.tsx:158-172 | of two marks over the same ids, the later wins |
| Notifications.MarkedReadAreRead | client/src/pages/notifications.tsx:158-164 | after marking ids read, no entry with one of them is unread |
| Notifications.RemoveIds | client/src/pages/notifications.tsx:174-177 | a subsequence of the list (order kept) holding every entry whose id is not listed as often as the list does, and no entry whose id is |
| Notifications.RemoveNothing | client/src/pages/notifications.tsx:174-175 | deleting no ids keeps the list |
| Notifications.MarkAllClearsUnread | client/src/pages/notifications.tsx:179-181 | after marking all read the unread count is 0, and it is marking every id |
| Notifications.Toggle | client/src/pages/notifications.tsx:183-189 | flips the membership of the id, appending it at the end when absent; no other id's membership changes |
| Notifications.ToggleTwice | client/src/pages/notifications.tsx:183-189 | toggling an absent id twice restores the selection |
| Notifications.ToggleAll | client/src/pages/notifications.tsx:191-197 | clears the selection when its size equals the filtered count, else selects exactly the filtered ids in order |
| Notifications.ToggleAllTwice | client/src/pages/notifications.tsx:191-197 | from a selection of another size, the first press selects every shown id and the second clears it |
| Notifications.SeededUnread | client/src/pages/notifications.tsx:22-95 | four of the eight starting notifications are unread |
| Notifications.NotificationsPage.constructor | client/src/pages/notifications.tsx:22-101 | the eight seeded notifications, nothing selected, the initial filters |
| Notifications.NotificationsPage.DeleteNotifications | client/src/pages/notifications.tsx:174-177 | the listed ids are removed and the selection is emptied |
| Notifications.NotificationsPage.MarkAllAsRead | client/src/pages/notifications.tsx:179-181 | every notification is read, the length is unchanged and the badge is 0 |
| Notifications.NotificationsPage.ToggleSelectAll | client/src/pages/notifications.tsx:191-197 | the selection becomes `ToggleAll` of the old selection and the currently filtered list |
| TimeAgo.Bucket | client/src/pages/notifications.tsx:199-213 | minutes exactly below one hour, hours exactly from one hour to below a day, days from a day on; the count is the floor of the elapsed time in that unit |
| TimeAgo.GetTimeAgo | client/src/components/layout/notifications-dropdown.tsx:95-109 | the label is the decimal count of `Bucket` followed by "m ago", "h ago" or "d ago" |
| TimeAgo.SeedLabels | client/src/pages/notifications.tsx:199-213 | two hours ago reads "2h ago" and ten days ago "10d ago" |
| NotificationsDropdown.UnreadCount | client/src/components/layout/notifications-dropdown.tsx:62 | at most the length, zero exactly when all are read |
| NotificationsDropdown.MarkAsRead | client/src/components/layout/notifications-dropdown.tsx:64-70 | only entries with that id change, and only in `read` |
| NotificationsDropdown.MarkAsReadCount | client/src/components/layout/notifications-dropdown.tsx:62-70 | marking an id read never raises the badge, and keeps it exactly when every entry with that id was already read |
| NotificationsDropdown.MarkAllAsRead | client/src/components/layout/notifications-dropdown.tsx:72-76 | every entry read, length kept, badge 0 |
| NotificationsDropdown.Remove | client/src/components/layout/notifications-dropdown.tsx:78-80 | a subsequence of the list (order kept) holding every entry with another id as often as the list does, and none with this id |
| NotificationsDropdown.RemoveAbsent | client/src/components/layout/notifications-dropdown.tsx:78-80 | dismissing an id that is not shown changes nothing |
| NotificationsDropdown.SeededUnread | client/src/components/layout/notifications-dropdown.tsx:19-60 | three of the five starting entries are unread |
| NotificationsDropdown.Dropdown.MarkOneAsRead | client/src/components/layout/notifications-dropdown.tsx:64-70 | the list becomes `MarkAsRead` of the old one and the badge does not rise |
| AuditLogTable.PageHoldsEntry | client/src/components/audit/audit-log-table.tsx:12-17 | with offset `(page-1)*10` and limit 10, entry k sits at place `k % 10` of page `k / 10 + 1` |
| AuditLogTable.FilterLogs | client/src/components/audit/audit-log-table.tsx:21-23 | "all" keeps everything; otherwise a subsequence of the page (order kept) holding each entry whose lower-cased action contains the lower-cased filter as often as the page does, and no other; no data gives `[]` |
| AuditLogTable.TotalPages | client/src/components/audit/audit-log-table.tsx:25 | `ceil(total / 10)`: zero exactly for no entries, else the least page count covering them |
| AuditLogTable.PagerShown | client/src/components/audit/audit-log-table.tsx:169 | the pager is shown exactly when there are more than ten entries |
| AuditLogTable.PrevPage | client/src/components/audit/audit-log-table.tsx:179 | one page back, never below 1 |
| AuditLogTable.NextPage | client/src/components/audit/audit-log-table.tsx:203 | one page on, never beyond the last page |
| AuditLogTable.NextThenPrev | client/src/components/audit/audit-log-table.tsx:179-203 | inside the pager, Next then Previous returns to the same page |
| AuditLogTable.ShowingRange | client/src/components/audit/audit-log-table.tsx:173 | "Showing" runs from `(p-1)*10+1` to `min(p*10, total)` |
| AuditLogTable.ShowingMatchesPage | client/src/components/audit/audit-log-table.tsx:173 | on a page in range, the shown range has as many numbers as the server's page has entries |
| AuditLogTable.PageButtons | client/src/components/audit/audit-log-table.tsx:185-186 | buttons 1 up to `min(5, totalPages)` |
| AuditLogTable.Table.GoTo | client/src/components/audit/audit-log-table.tsx:192 | a numbered button sets the page to its number |
| AuditLogTable.ExportRow | client/src/components/audit/audit-log-table.tsx:31-38 | six cells in header order; a null `changes` or `ipAddress` is the empty cell |
| AuditLogTable.ExportLines | client/src/components/audit/audit-log-table.tsx:29-39 | the header line, then one comma-joined line per filtered entry |
| AuditLogTable.ExportLineCount | client/src/components/audit/audit-log-table.tsx:29-39 | when no cell holds a line break, the export has exactly one line break per entry |
| AuditLogTable.ExportRoundTrip | client/src/components/audit/audit-log-table.tsx:29-39 | when no cell holds a line break or a comma, splitting the export at line breaks gives back its lines, the header line splits at commas into the six headers and each entry line into that entry's cells |
| Reports.SummaryRow | client/src/pages/reports.tsx:39-47 | seven cells: name, type, status, budget, `<progress>%`, and the two formatted dates |
| Reports.BudgetRow | client/src/pages/reports.tsx:53-58 | four cells: name, formatted budget, status, `<progress>/100` |
| Reports.AuditRow | client/src/pages/reports.tsx:76-82 | five cells; a null `changes` is the empty cell |
| Reports.MetricValues | client/src/pages/reports.tsx:64-70 | the five metric lines in order; without metrics the values are "0", "0%" and "0%" |
| Reports.Tenths | client/src/pages/reports.tsx:69 | a number kept in tenths prints as JavaScript prints it |
| Reports.ConversionRateText | client/src/pages/reports.tsx:69 | the conversion rate 3.2 prints as "3.2" |
| Reports.CsvHeaderOnly | client/src/pages/reports.tsx:88-91 | with no data rows the text is the header line alone |
| Reports.QuotedLineQuotes | client/src/pages/reports.tsx:90 | a data line of cells without quotes carries exactly two quotes per cell |
| Reports.CsvLineCount | client/src/pages/reports.tsx:88-91 | when no cell holds a line break, the text has exactly one line break per data row |
| Reports.QuotedLineRoundTrip | client/src/pages/reports.tsx:90 | a data line of comma-free cells, split at commas and stripped of the surrounding quotes, gives back the row |
| Reports.CsvRoundTrip | client/src/pages/reports.tsx:88-91 | when headers and cells hold no comma or line break and no row is empty, reading the text back with `ParseCsv` gives the headers and the rows |
| Reports.GenerateReport | client/src/pages/reports.tsx:31-91 | per report type: its headers (7, 4, 3 or 5), one row of that arity per campaign, log or metric, and its file name; missing data gives the header line only; an unknown type gives nothing |
| Reports.PreviewData | client/src/pages/reports.tsx:109-128 | the first five campaigns or log entries, the five metric lines, or nothing for an unknown type |
| Reports.PreviewIsReportPrefix | client/src/pages/reports.tsx:39-47 | the summary preview shows the campaigns behind the report's first rows |
| Analytics.Firsts | client/src/pages/analytics.tsx:19-27 | each key of the input once, and nothing else |
| Analytics.FirstsOrder | client/src/pages/analytics.tsx:19-27 | the keys are listed in the order of their first occurrence in the input |
| Analytics.TallyCorrect | client/src/pages/analytics.tsx:19-22 | the accumulator's keys are exactly the keys seen, in first-occurrence order; each count is the number of occurrences; the counts add up to the number of campaigns |
| Analytics.CountBy | client/src/pages/analytics.tsx:19-27 | the loop yields one `[key, count]` pair per distinct key, in first-occurrence order, with its number of occurrences, summing to the input length |
| Analytics.CampaignsByType | client/src/pages/analytics.tsx:19-27 | a type is listed exactly when some campaign has it; counts are occurrences and sum to the number of campaigns |
| Analytics.CampaignsByStatus | client/src/pages/analytics.tsx:29-37 | the same tally over status, each label capitalised |
| Analytics.Capitalize | client/src/pages/analytics.tsx:35 | same length; first character upper-cased, the rest unchanged |
| Analytics.CapitalizeProperties | client/src/pages/analytics.tsx:35 | capitalising twice is capitalising once, and the lower-cased text does not change |
| Analytics.TruncateName | client/src/pages/analytics.tsx:50 | unchanged up to 15 characters; otherwise the first 15 and "...", so never longer than 18 |
| Analytics.BudgetChartData | client/src/pages/analytics.tsx:49-53 | the first `min(5, n)` campaigns, each with its truncated name and progress |
| Analytics.PieColor | client/src/pages/analytics.tsx:150 | always a palette colour, the i-th for the first five slices |
| Analytics.PieColorCycles | client/src/pages/analytics.tsx:150 | colours repeat every five slices |
| Utils.StatusColor | client/src/lib/utils.ts:27-40 | green exactly for "active", yellow for "paused", blue for "draft", gray otherwise (including "completed"), on the lower-cased status |
| Utils.ActionColor | client/src/lib/utils.ts:42-56 | green for "campaign created", blue for both updates, yellow for "budget modified", red for "campaign deleted", gray otherwise, on the lower-cased action |
| Utils.CaseInsensitive | client/src/lib/utils.ts:28-43 | both lookups give the same colour for any casing of the argument |
| RecentActivity.ActivityColor | client/src/components/dashboard/recent-activity.tsx:29-41 | green, blue, yellow exactly for the same actions as the badges; gray for everything else |
| RecentActivity.ActivityCaseInsensitive | client/src/components/dashboard/recent-activity.tsx:30 | the dot colour ignores case |
| RecentActivity.DotMatchesBadge | client/src/components/dashboard/recent-activity.tsx:29-41 | the dot is green, blue or yellow exactly when the badge is; gray exactly when the badge is gray or red |
| RecentActivity.DeletedIsGray | client/src/components/dashboard/recent-activity.tsx:38-39 | a "Campaign Deleted" entry shows a gray dot but a red badge |
| Sorting.SortDesc | server/storage.ts:189-190 | a permutation of the input, sorted by non-increasing key |
| Sorting.InsertSorted | server/storage.ts:189-190 | inserting into a newest-first list keeps it newest first |
| Keyed.ValuesBelow | server/storage.ts:189 | `Array.from(map.values())` for counter-assigned keys: one value per stored key, each a stored value, and every stored value present |
| Lists.FilterSpec | client/src/pages/notifications.tsx:174-177 | `filter` keeps a subsequence of its input, holding each passing element as often as the input does and no failing one |
| Lists.FilterUnique | client/src/pages/notifications.tsx:174-177 | that description determines the result: any subsequence with those counts is the filtered list |
| Lists.CountIgnoresOrder | server/routes.ts:167 | `filter(...).length` depends only on how often each value occurs, not on the order |
| Lists.SliceIndex | server/storage.ts:241 | where `slice` puts an index: a negative one counts from the end, then it is clamped to `[0, length]` |
| Lists.SliceWindow | server/storage.ts:241 | for non-negative offset and limit, the slice is the run of at most `limit` consecutive elements from `offset`, and empty once `offset` reaches the end |
| Strings.ParseNatToString | server/routes.ts:62 | the decimal rendering of an id parses back to the id |

## Left out

- The Express and HTTP plumbing is not modelled: `registerRoutes`, `createServer`, response writing and the 500 catch-alls. Handlers return an `Outcome` instead.
- `GET /api/campaigns` is not modelled as a handler: it only returns `getCampaigns()`, which `Storage.MemStorage.GetCampaigns` models.
- The `deleted == false` branch of DELETE is modelled, but no input reaches it, because the store's delete succeeds after the existence check.
- The `users` map, `getUser`, `getUserByUsername` and `createUser` are left out: no route uses them.
- Wall-clock time and `Math.random()` are parameters, since neither can be modelled as a value. That covers `new Date()`, `Date.now()` and the random ages of the seeded entries.
- Date strings are not parsed. `new Date(startDate)` keeps the string it was given, and timestamps are integer milliseconds.
- Floating point is left out:
  - `parseFloat(budget)` in `totalBudget` and in the budget chart;
  - the total budget of the metrics and its `formatCurrency` text, which are a parameter string of the report's formatters.
- The `Intl` and date-fns formatters (`formatDate`, `formatCurrency`, `format(…, "yyyy-MM-dd")`) are function parameters.
- JSON numbers in request bodies are integers. A fractional `progress` is not modelled.
- zod's own error objects are reduced to the list of offending field names. Drizzle and `Date` coercion are not modelled.
- `toLowerCase` and `toUpperCase` map ASCII letters only. Other scripts are left unchanged.
- Analytics.CountBy: the accumulator is modelled as a plain map. In the source it is a `{}` literal, which inherits the members of `Object.prototype`, and types and statuses are free text. A key named like an inherited member is not modelled: for "constructor" the source reads the inherited function and produces a string count, and for "__proto__" the assignment is ignored, so the key never reaches `Object.entries` and the counts no longer sum to the number of campaigns.
- Analytics.CampaignsByType and Analytics.CampaignsByStatus inherit that gap: their listing and their sum describe the source only when no type or status names an `Object.prototype` member.
- `Object.entries` normally lists keys in insertion order. But it lists integer-like keys (a status of "1", say) first, in ascending order, and that is not modelled. Keys are kept in first-occurrence order.
- The CSV builders do not escape quotes, commas or line breaks, and nothing here claims an RFC 4180 round trip. The line-count and round-trip lemmas require cells without line breaks (and, for the round trips, without commas) for that reason; `Reports.ParseCsv` and `Strings.Split` are readers for exactly the text the builders write, not general CSV parsers.
- Rendering, toasts, query-cache invalidation, the Blob download and the file's date suffix are left out. So are `getIcon`, `getTypeColor` and `getCategoryColor`, which select styling only.
- Promises and `async`: the store's methods run in sequence here. The real server has no concurrency inside one request either.
- Storage.Page: for negative `limit` or `offset` the model follows JavaScript `slice`, as the code does: the route passes negative numbers straight through because only 0 and NaN fall back. It is not clamped to the defaults.
- AuditLogTable.Table.Next: requires at least two pages, because the pager and its Next button are only rendered then. With `totalPages == 0` the source would set page 0.

## Findings

| source | as written | input that shows it | evidently intended | confidence | as-written member | corrected member |
|---|---|---|---|---|---|---|
| server/routes.ts:63 | the "Campaign Created" entry interpolates `validatedData.status`, which is `undefined` when the client leaves the status out | a POST body with name, description, type, budget, startDate and endDate but no status: the campaign is stored as "draft", the entry says `Status: undefined` | the entry names the status the campaign was stored with (`campaign.status`) | not executed | Routes.CreatedChangesAsWrittenMisreports | Routes.CreatedChangesReportsStoredStatus |
