/**
 * The notifications page: a list of notifications held in component state, four filters,
 * a selection of ids, and the bulk actions (mark read or unread, delete, mark all read,
 * toggle one or all selections) that replace that state.
 */
module Notifications {
  import Strings
  import Lists
  import TimeAgo

  /** `type` is `kind`; the timestamp is in milliseconds. */
  datatype Notification = Notification(
    id: string,
    title: string,
    message: string,
    kind: string,
    timestamp: int,
    read: bool,
    category: string)

  const ALL: string := "all"
  const READ: string := "read"
  const UNREAD: string := "unread"

  /** The search box and the three drop-down filters. */
  datatype Filters = Filters(search: string, kind: string, status: string, category: string)

  const NO_FILTERS: Filters := Filters("", ALL, ALL, ALL)

  predicate MatchesSearch(n: Notification, term: string) {
    Strings.Includes(Strings.ToLower(n.title), Strings.ToLower(term)) ||
    Strings.Includes(Strings.ToLower(n.message), Strings.ToLower(term))
  }

  predicate MatchesStatus(n: Notification, status: string) {
    status == ALL || (status == READ && n.read) || (status == UNREAD && !n.read)
  }

  /** The filter callback: all four conditions must hold. */
  predicate Matches(n: Notification, f: Filters) {
    && MatchesSearch(n, f.search)
    && (f.kind == ALL || n.kind == f.kind)
    && MatchesStatus(n, f.status)
    && (f.category == ALL || n.category == f.category)
  }

  /** `filteredNotifications`: the notifications the filters keep, in their original order. */
  function Filtered(ns: seq<Notification>, f: Filters): (r: seq<Notification>)
    ensures |r| <= |ns|
    ensures forall i :: 0 <= i < |r| ==> r[i] in ns && Matches(r[i], f)
    ensures forall i :: 0 <= i < |ns| && Matches(ns[i], f) ==> ns[i] in r
    ensures Lists.Subseq(r, ns)
    ensures forall x :: multiset(r)[x] == if Matches(x, f) then multiset(ns)[x] else 0
  {
    var p := (n: Notification) => Matches(n, f);
    Lists.FilterSpec(ns, p);
    Lists.Filter(ns, p)
  }

  /** The empty search term occurs in every title. */
  lemma EmptySearchMatches(n: Notification)
    ensures MatchesSearch(n, "")
  {
    assert Strings.OccursAt(Strings.ToLower(n.title), Strings.ToLower(""), 0);
  }

  /** With the initial filters every notification is shown. */
  lemma NoFiltersKeepAll(ns: seq<Notification>)
    ensures Filtered(ns, NO_FILTERS) == ns
  {
    forall i | 0 <= i < |ns| ensures Matches(ns[i], NO_FILTERS) {
      EmptySearchMatches(ns[i]);
    }
    Lists.FilterAll(ns, n => Matches(n, NO_FILTERS));
  }

  /** Filtering `read` and filtering `unread` split the list: no notification passes both. */
  lemma ReadUnreadDisjoint(ns: seq<Notification>, f: Filters)
    ensures var r := Filtered(ns, f.(status := READ));
            var u := Filtered(ns, f.(status := UNREAD));
            forall i, j :: 0 <= i < |r| && 0 <= j < |u| ==> r[i] != u[j]
  {
  }

  predicate Unread(n: Notification) {
    !n.read
  }

  /** `unreadCount`. */
  function UnreadCount(ns: seq<Notification>): (c: nat)
    ensures c <= |ns|
    ensures c == 0 <==> forall i :: 0 <= i < |ns| ==> ns[i].read
  {
    Lists.Count(ns, Unread)
  }

  /** `markAsRead(ids)` (`v` true) and `markAsUnread(ids)` (`v` false). */
  function SetRead(ns: seq<Notification>, ids: seq<string>, v: bool): (r: seq<Notification>)
    ensures |r| == |ns|
    ensures forall i :: 0 <= i < |ns| ==> r[i] == if ns[i].id in ids then ns[i].(read := v) else ns[i]
  {
    seq(|ns|, i requires 0 <= i < |ns| => if ns[i].id in ids then ns[i].(read := v) else ns[i])
  }

  /** The later of two marks over the same ids wins: read then unread is unread, and vice versa. */
  lemma SetReadLastWins(ns: seq<Notification>, ids: seq<string>, a: bool, b: bool)
    ensures SetRead(SetRead(ns, ids, a), ids, b) == SetRead(ns, ids, b)
  {
  }

  /** After marking ids as read, no entry carrying one of them is unread. */
  lemma MarkedReadAreRead(ns: seq<Notification>, ids: seq<string>)
    ensures var r := SetRead(ns, ids, true);
            forall i :: 0 <= i < |r| && r[i].id in ids ==> r[i].read
  {
  }

  /** `deleteNotifications(ids)`: drops exactly the entries whose id is listed. */
  function RemoveIds(ns: seq<Notification>, ids: seq<string>): (r: seq<Notification>)
    ensures |r| <= |ns|
    ensures forall i :: 0 <= i < |r| ==> r[i] in ns && r[i].id !in ids
    ensures forall i :: 0 <= i < |ns| && ns[i].id !in ids ==> ns[i] in r
    ensures Lists.Subseq(r, ns)
    ensures forall x :: multiset(r)[x] == if x.id !in ids then multiset(ns)[x] else 0
  {
    var p := (n: Notification) => n.id !in ids;
    Lists.FilterSpec(ns, p);
    Lists.Filter(ns, p)
  }

  /** Deleting nothing keeps the list. */
  lemma RemoveNothing(ns: seq<Notification>)
    ensures RemoveIds(ns, []) == ns
  {
    Lists.FilterAll(ns, (n: Notification) => n.id !in []);
  }

  /** `markAllAsRead`. */
  function MarkAll(ns: seq<Notification>): (r: seq<Notification>)
    ensures |r| == |ns|
    ensures forall i :: 0 <= i < |ns| ==> r[i] == ns[i].(read := true)
  {
    seq(|ns|, i requires 0 <= i < |ns| => ns[i].(read := true))
  }

  /** After marking all as read nothing is unread, and marking all is marking every id. */
  lemma MarkAllClearsUnread(ns: seq<Notification>)
    ensures UnreadCount(MarkAll(ns)) == 0
    ensures MarkAll(ns) == SetRead(ns, Ids(ns), true)
  {
    assert forall i :: 0 <= i < |ns| ==> ns[i].id == Ids(ns)[i];
  }

  /** `toggleSelection(id)`: removes every copy of `id`, or appends it when absent. */
  function Toggle(sel: seq<string>, id: string): (r: seq<string>)
    ensures id in r <==> id !in sel
    ensures forall x :: x != id ==> (x in r <==> x in sel)
    ensures id !in sel ==> r == sel + [id]
  {
    if id in sel then Lists.Filter(sel, x => x != id) else sel + [id]
  }

  /** Toggling an id twice restores a selection that did not hold it. */
  lemma ToggleTwice(sel: seq<string>, id: string)
    requires id !in sel
    ensures Toggle(Toggle(sel, id), id) == sel
  {
    var t := sel + [id];
    Lists.FilterAppend(sel, [id], x => x != id);
    Lists.FilterAll(sel, x => x != id);
  }

  function Ids(ns: seq<Notification>): (r: seq<string>)
    ensures |r| == |ns|
    ensures forall i :: 0 <= i < |ns| ==> r[i] == ns[i].id
  {
    seq(|ns|, i requires 0 <= i < |ns| => ns[i].id)
  }

  /**
   * `toggleSelectAll` over the filtered list: clears the selection when it is as long as
   * the filtered list, otherwise selects exactly the filtered ids in order.
   */
  function ToggleAll(sel: seq<string>, filtered: seq<Notification>): (r: seq<string>)
    ensures |sel| == |filtered| ==> r == []
    ensures |sel| != |filtered| ==> r == Ids(filtered)
  {
    if |sel| == |filtered| then [] else Ids(filtered)
  }

  /** From a selection whose size differs from the filtered count, "select all" selects every shown id and a second press clears it. */
  lemma ToggleAllTwice(sel: seq<string>, filtered: seq<Notification>)
    requires |sel| != |filtered|
    ensures ToggleAll(sel, filtered) == Ids(filtered)
    ensures ToggleAll(ToggleAll(sel, filtered), filtered) == []
  {
  }

  /** Title, message, type, age in milliseconds, read flag and category of a starting notification. */
  datatype Seed = Seed(title: string, message: string, kind: string, age: int, read: bool, category: string)

  const SEEDS: seq<Seed> := [
    Seed("Campaign Performance Alert",
      "Q4 Email Marketing Push is performing 23% above target conversion rate",
      "success", 2 * TimeAgo.HOUR_MS, false, "campaign"),
    Seed("Budget Warning",
      "Social Media Brand Awareness has used 85% of allocated budget",
      "warning", 4 * TimeAgo.HOUR_MS, false, "budget"),
    Seed("Campaign Completed",
      "Google Ads Holiday Campaign has successfully completed with 145% ROI",
      "info", 1 * TimeAgo.DAY_MS, true, "campaign"),
    Seed("Audit Log Export Ready",
      "Your requested audit log report has been generated and is ready for download",
      "info", 2 * TimeAgo.DAY_MS, true, "audit"),
    Seed("Campaign Paused",
      "Influencer Collaboration campaign has been paused due to low performance metrics",
      "warning", 3 * TimeAgo.DAY_MS, false, "campaign"),
    Seed("System Maintenance Scheduled",
      "Scheduled maintenance window on Sunday 2:00 AM - 4:00 AM EST",
      "info", 5 * TimeAgo.DAY_MS, true, "system"),
    Seed("Budget Exceeded",
      "PPC Advertising campaign has exceeded monthly budget by 12%",
      "error", 7 * TimeAgo.DAY_MS, false, "budget"),
    Seed("New Campaign Created",
      "Content Marketing Initiative campaign has been successfully created",
      "success", 10 * TimeAgo.DAY_MS, true, "campaign")]

  /** The eight notifications the page starts with: ids "1" to "8", stamped relative to `now`. */
  function Seeded(now: int): (r: seq<Notification>)
    ensures |r| == |SEEDS|
    ensures forall i :: 0 <= i < |SEEDS| ==>
              r[i] == Notification(Strings.NatToString(i + 1), SEEDS[i].title, SEEDS[i].message,
                                   SEEDS[i].kind, now - SEEDS[i].age, SEEDS[i].read, SEEDS[i].category)
  {
    seq(|SEEDS|, i requires 0 <= i < |SEEDS| =>
      Notification(Strings.NatToString(i + 1), SEEDS[i].title, SEEDS[i].message,
                   SEEDS[i].kind, now - SEEDS[i].age, SEEDS[i].read, SEEDS[i].category))
  }

  /** Four of the seeded notifications start unread: ids 1, 2, 5 and 7. */
  lemma SeededUnread(now: int)
    ensures UnreadCount(Seeded(now)) == 4
  {
    var r := Seeded(now);
    assert r[7..][1..] == [];
    assert Lists.Filter(r[7..], Unread) == [];
    assert r[6..][1..] == r[7..];
    assert |Lists.Filter(r[6..], Unread)| == 1;
    assert r[5..][1..] == r[6..];
    assert |Lists.Filter(r[5..], Unread)| == 1;
    assert r[4..][1..] == r[5..];
    assert |Lists.Filter(r[4..], Unread)| == 2;
    assert r[3..][1..] == r[4..];
    assert |Lists.Filter(r[3..], Unread)| == 2;
    assert r[2..][1..] == r[3..];
    assert |Lists.Filter(r[2..], Unread)| == 2;
    assert r[1..][1..] == r[2..];
    assert |Lists.Filter(r[1..], Unread)| == 3;
  }

  /** The page's state: the list, the selection and the filters, each replaced by a setter. */
  class NotificationsPage {
    var notifications: seq<Notification>
    var selected: seq<string>
    var filters: Filters

    constructor(now: int)
      ensures notifications == Seeded(now) && Unread() == 4
      ensures selected == [] && filters == NO_FILTERS
    {
      notifications := Seeded(now);
      selected := [];
      filters := NO_FILTERS;
      SeededUnread(now);
    }

    function FilteredNotifications(): seq<Notification>
      reads this
    {
      Filtered(notifications, filters)
    }

    function Unread(): nat
      reads this
    {
      UnreadCount(notifications)
    }

    method SetFilters(f: Filters)
      modifies this
      ensures filters == f
      ensures notifications == old(notifications) && selected == old(selected)
    {
      filters := f;
    }

    method MarkAsRead(ids: seq<string>)
      modifies this
      ensures notifications == SetRead(old(notifications), ids, true)
      ensures selected == old(selected) && filters == old(filters)
    {
      notifications := SetRead(notifications, ids, true);
    }

    method MarkAsUnread(ids: seq<string>)
      modifies this
      ensures notifications == SetRead(old(notifications), ids, false)
      ensures selected == old(selected) && filters == old(filters)
    {
      notifications := SetRead(notifications, ids, false);
    }

    /** Deleting also empties the selection. */
    method DeleteNotifications(ids: seq<string>)
      modifies this
      ensures notifications == RemoveIds(old(notifications), ids)
      ensures selected == [] && filters == old(filters)
    {
      notifications := RemoveIds(notifications, ids);
      selected := [];
    }

    method MarkAllAsRead()
      modifies this
      ensures notifications == MarkAll(old(notifications))
      ensures Unread() == 0 && |notifications| == |old(notifications)|
      ensures selected == old(selected) && filters == old(filters)
    {
      notifications := MarkAll(notifications);
      MarkAllClearsUnread(old(notifications));
    }

    method ToggleSelection(id: string)
      modifies this
      ensures selected == Toggle(old(selected), id)
      ensures notifications == old(notifications) && filters == old(filters)
    {
      selected := Toggle(selected, id);
    }

    method ToggleSelectAll()
      modifies this
      ensures selected == ToggleAll(old(selected), Filtered(old(notifications), old(filters)))
      ensures notifications == old(notifications) && filters == old(filters)
    {
      selected := ToggleAll(selected, FilteredNotifications());
    }
  }
}
