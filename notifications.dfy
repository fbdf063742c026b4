/**
 * The notifications page: the player's notifications under the "all",
 * "unread" and "archived" tabs, mark as read, delete, and the unread
 * counter. Marking and deleting are the inbox operations.
 */
module Notifications {
  import opened Seqs
  import opened Inbox

  datatype NotificationInfo = NotificationInfo(kind: string, title: string, message: string, timestamp: string,
                                               icon: string)

  type Notification = Item<NotificationInfo>

  datatype Tab = All | Unread | Archived

  /** Whether a notification is listed under a tab: only the "unread" tab hides anything. */
  predicate Listed(tab: Tab, n: Notification) {
    tab == Unread ==> !n.read
  }

  /** filteredNotifications in Notifications.tsx. */
  function FilteredNotifications(ns: seq<Notification>, tab: Tab): (r: seq<Notification>)
    ensures tab != Unread ==> r == ns
    ensures forall i :: 0 <= i < |r| ==> r[i] in ns && Listed(tab, r[i])
    ensures forall i :: 0 <= i < |ns| && Listed(tab, ns[i]) ==> ns[i] in r
    ensures forall x :: multiset(r)[x] == if Listed(tab, x) then multiset(ns)[x] else 0
    ensures IsSubseq(r, ns)
  {
    var p := (n: Notification) => Listed(tab, n);
    var r := Filter(ns, p);
    assert tab != Unread ==> r == ns by {
      if tab != Unread { FilterAll(ns, p); }
    }
    forall i | 0 <= i < |r| ensures r[i] in ns {
      FilterMembers(ns, p, r[i]);
    }
    forall i | 0 <= i < |ns| && Listed(tab, ns[i]) ensures ns[i] in r {
      FilterMembers(ns, p, ns[i]);
    }
    FilterSubseq(ns, p);
    FilterCounts(ns, p);
    r
  }

  /** The unread counter equals the length of the "unread" tab. */
  lemma UnreadTabMatchesCount(ns: seq<Notification>)
    ensures |FilteredNotifications(ns, Unread)| == UnreadCount(ns)
  {
    FilterExt(ns, (n: Notification) => Listed(Unread, n), IsUnread);
  }

  /** Once a notification is marked read it leaves the "unread" tab, and nothing joins it. */
  lemma MarkedLeavesUnreadTab(ns: seq<Notification>, id: int)
    ensures forall i :: 0 <= i < |FilteredNotifications(MarkAsRead(ns, id), Unread)| ==>
      FilteredNotifications(MarkAsRead(ns, id), Unread)[i].id != id
    ensures |FilteredNotifications(MarkAsRead(ns, id), Unread)| <= |FilteredNotifications(ns, Unread)|
  {
    UnreadTabMatchesCount(ns);
    UnreadTabMatchesCount(MarkAsRead(ns, id));
    MarkAsReadCount(ns, id);
    var m := MarkAsRead(ns, id);
    var r := FilteredNotifications(m, Unread);
    forall i | 0 <= i < |r| ensures r[i].id != id {
      var k :| 0 <= k < |m| && m[k] == r[i];
    }
  }
}
