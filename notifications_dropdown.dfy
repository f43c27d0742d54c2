/**
 * The bell drop-down in the page header: its own five notifications (without a category),
 * marking one or all as read, and dismissing one.
 */
module NotificationsDropdown {
  import Strings
  import Lists
  import TimeAgo

  datatype Notification = Notification(
    id: string,
    title: string,
    message: string,
    kind: string,
    timestamp: int,
    read: bool)

  predicate Unread(n: Notification) {
    !n.read
  }

  /** The badge count. */
  function UnreadCount(ns: seq<Notification>): (c: nat)
    ensures c <= |ns|
    ensures c == 0 <==> forall i :: 0 <= i < |ns| ==> ns[i].read
  {
    Lists.Count(ns, Unread)
  }

  /** `markAsRead(id)`: only the entries with that id change, and only in `read`. */
  function MarkAsRead(ns: seq<Notification>, id: string): (r: seq<Notification>)
    ensures |r| == |ns|
    ensures forall i :: 0 <= i < |ns| ==> r[i] == if ns[i].id == id then ns[i].(read := true) else ns[i]
  {
    seq(|ns|, i requires 0 <= i < |ns| => if ns[i].id == id then ns[i].(read := true) else ns[i])
  }

  /** Every entry carrying `id` is already read. */
  predicate AllRead(ns: seq<Notification>, id: string) {
    forall i :: 0 <= i < |ns| && ns[i].id == id ==> ns[i].read
  }

  lemma AllReadSplit(ns: seq<Notification>, id: string)
    requires ns != []
    ensures AllRead(ns, id) <==> (ns[0].id == id ==> ns[0].read) && AllRead(ns[1..], id)
  {
    if (ns[0].id == id ==> ns[0].read) && AllRead(ns[1..], id) {
      forall i | 0 <= i < |ns| && ns[i].id == id ensures ns[i].read {
        if i > 0 {
          assert ns[i] == ns[1..][i - 1];
        }
      }
    }
    if AllRead(ns, id) {
      forall i | 0 <= i < |ns[1..]| && ns[1..][i].id == id ensures ns[1..][i].read {
        assert ns[1..][i] == ns[i + 1];
      }
    }
  }

  /** Marking an id read never raises the badge, and leaves it as it was exactly when every entry with that id was already read. */
  lemma {:induction false} MarkAsReadCount(ns: seq<Notification>, id: string)
    ensures UnreadCount(MarkAsRead(ns, id)) <= UnreadCount(ns)
    ensures UnreadCount(MarkAsRead(ns, id)) == UnreadCount(ns) <==> AllRead(ns, id)
  {
    var r := MarkAsRead(ns, id);
    if ns != [] {
      MarkAsReadCount(ns[1..], id);
      AllReadSplit(ns, id);
      assert r[1..] == MarkAsRead(ns[1..], id);
      assert Lists.Filter(r, Unread) == (if Unread(r[0]) then [r[0]] else []) + Lists.Filter(r[1..], Unread);
      assert Lists.Filter(ns, Unread) == (if Unread(ns[0]) then [ns[0]] else []) + Lists.Filter(ns[1..], Unread);
    }
  }

  /** `markAllAsRead`. */
  function MarkAllAsRead(ns: seq<Notification>): (r: seq<Notification>)
    ensures |r| == |ns|
    ensures forall i :: 0 <= i < |ns| ==> r[i] == ns[i].(read := true)
    ensures UnreadCount(r) == 0
  {
    seq(|ns|, i requires 0 <= i < |ns| => ns[i].(read := true))
  }

  /** `removeNotification(id)`: drops exactly the entries carrying `id`. */
  function Remove(ns: seq<Notification>, id: string): (r: seq<Notification>)
    ensures |r| <= |ns|
    ensures forall i :: 0 <= i < |r| ==> r[i] in ns && r[i].id != id
    ensures forall i :: 0 <= i < |ns| && ns[i].id != id ==> ns[i] in r
    ensures Lists.Subseq(r, ns)
    ensures forall x :: multiset(r)[x] == if x.id != id then multiset(ns)[x] else 0
  {
    var p := (n: Notification) => n.id != id;
    Lists.FilterSpec(ns, p);
    Lists.Filter(ns, p)
  }

  /** Dismissing an id that is not shown changes nothing. */
  lemma RemoveAbsent(ns: seq<Notification>, id: string)
    requires forall i :: 0 <= i < |ns| ==> ns[i].id != id
    ensures Remove(ns, id) == ns
  {
    Lists.FilterAll(ns, (n: Notification) => n.id != id);
  }

  /** Title, message, type, age in milliseconds and read flag of a starting entry. */
  datatype Seed = Seed(title: string, message: string, kind: string, age: int, read: bool)

  const SEEDS: seq<Seed> := [
    Seed("Campaign Performance Alert",
      "Q4 Email Marketing Push is performing 23% above target conversion rate",
      "success", 2 * TimeAgo.HOUR_MS, false),
    Seed("Budget Warning",
      "Social Media Brand Awareness has used 85% of allocated budget",
      "warning", 4 * TimeAgo.HOUR_MS, false),
    Seed("Campaign Completed",
      "Google Ads Holiday Campaign has successfully completed",
      "info", 1 * TimeAgo.DAY_MS, true),
    Seed("Audit Log Export",
      "Your requested audit log report has been generated and is ready for download",
      "info", 2 * TimeAgo.DAY_MS, true),
    Seed("Campaign Paused",
      "Influencer Collaboration campaign has been paused due to low performance",
      "warning", 3 * TimeAgo.DAY_MS, false)]

  /** The five entries the drop-down starts with: ids "1" to "5", stamped relative to `now`. */
  function Seeded(now: int): (r: seq<Notification>)
    ensures |r| == |SEEDS|
    ensures forall i :: 0 <= i < |SEEDS| ==>
              r[i] == Notification(Strings.NatToString(i + 1), SEEDS[i].title, SEEDS[i].message,
                                   SEEDS[i].kind, now - SEEDS[i].age, SEEDS[i].read)
  {
    seq(|SEEDS|, i requires 0 <= i < |SEEDS| =>
      Notification(Strings.NatToString(i + 1), SEEDS[i].title, SEEDS[i].message,
                   SEEDS[i].kind, now - SEEDS[i].age, SEEDS[i].read))
  }

  /** Three of the seeded drop-down entries start unread. */
  lemma SeededUnread(now: int)
    ensures UnreadCount(Seeded(now)) == 3
  {
    var r := Seeded(now);
    assert r[4..][1..] == [];
    assert Lists.Filter(r[4..], Unread) == [r[4]];
    assert r[3..][1..] == r[4..];
    assert |Lists.Filter(r[3..], Unread)| == 1;
    assert r[2..][1..] == r[3..];
    assert |Lists.Filter(r[2..], Unread)| == 1;
    assert r[1..][1..] == r[2..];
    assert |Lists.Filter(r[1..], Unread)| == 2;
  }

  /** The drop-down's `notifications` state. */
  class Dropdown {
    var notifications: seq<Notification>

    constructor(now: int)
      ensures notifications == Seeded(now) && Badge() == 3
    {
      notifications := Seeded(now);
      SeededUnread(now);
    }

    function Badge(): nat
      reads this
    {
      UnreadCount(notifications)
    }

    method MarkOneAsRead(id: string)
      modifies this
      ensures notifications == MarkAsRead(old(notifications), id)
      ensures Badge() <= old(Badge())
    {
      MarkAsReadCount(notifications, id);
      notifications := MarkAsRead(notifications, id);
    }

    method MarkAll()
      modifies this
      ensures notifications == MarkAllAsRead(old(notifications))
      ensures Badge() == 0
    {
      notifications := MarkAllAsRead(notifications);
    }

    method RemoveNotification(id: string)
      modifies this
      ensures notifications == Remove(old(notifications), id)
    {
      notifications := Remove(notifications, id);
    }
  }
}
