/**
 * The notification centre (`app/notifications/page.tsx`): a `notifications`
 * state list, two handlers that mark entries read, and the unread badge.
 */
module Notifications {
  import opened Seqs

  datatype Notification = Notification(
    id: string,
    kind: string,
    title: string,
    message: string,
    userName: string,
    timestamp: string,
    read: bool)

  /** The `map` callback of `markAsRead`. */
  function ReadIf(id: string): Notification -> Notification
  {
    (n: Notification) => if n.id == id then n.(read := true) else n
  }

  /** The `map` callback of `markAllAsRead`. */
  function SetRead(): Notification -> Notification
  {
    (n: Notification) => n.(read := true)
  }

  /** `notifications.map((n) => (n.id === id ? { ...n, read: true } : n))`. */
  function MarkedRead(ns: seq<Notification>, id: string): seq<Notification>
  {
    Map(ns, ReadIf(id))
  }

  /** `notifications.map((n) => ({ ...n, read: true }))`. */
  function AllMarkedRead(ns: seq<Notification>): seq<Notification>
  {
    Map(ns, SetRead())
  }

  function IsUnread(): Notification -> bool
  {
    (n: Notification) => !n.read
  }

  /** `unreadCount`: `notifications.filter((n) => !n.read).length`. */
  function UnreadCount(ns: seq<Notification>): (k: nat)
    ensures k <= |ns|
    ensures k == 0 <==> forall i :: 0 <= i < |ns| ==> ns[i].read
  {
    NoneUnreadIff(ns);
    Count(ns, IsUnread())
  }

  lemma {:induction false} NoneUnreadIff(ns: seq<Notification>)
    ensures Count(ns, IsUnread()) == 0 <==> forall i :: 0 <= i < |ns| ==> ns[i].read
  {
    if ns != [] {
      NoneUnreadIff(ns[1..]);
      if Count(ns, IsUnread()) == 0 {
        forall i | 0 <= i < |ns| ensures ns[i].read {
          if i > 0 { assert ns[i] == ns[1..][i - 1]; }
        }
      }
    }
  }

  /** No two notifications share an id. */
  ghost predicate UniqueIds(ns: seq<Notification>)
  {
    forall i, j :: 0 <= i < j < |ns| ==> ns[i].id != ns[j].id
  }

  /**
   * `markAsRead(id)` sets `read` on the notifications with that id and leaves
   * every other notification, and every other field, unchanged; length and
   * order are kept.
   */
  lemma MarkAsReadChangesOnlyMatches(ns: seq<Notification>, id: string)
    ensures |MarkedRead(ns, id)| == |ns|
    ensures forall i :: 0 <= i < |ns| && ns[i].id == id ==> MarkedRead(ns, id)[i] == ns[i].(read := true)
    ensures forall i :: 0 <= i < |ns| && ns[i].id != id ==> MarkedRead(ns, id)[i] == ns[i]
  {
    var r := MarkedRead(ns, id);
    forall i | 0 <= i < |ns| ensures r[i] == ReadIf(id)(ns[i]) {
    }
  }

  /** Marking the same notification read twice is the same as marking it once. */
  lemma MarkAsReadIdempotent(ns: seq<Notification>, id: string)
    ensures MarkedRead(MarkedRead(ns, id), id) == MarkedRead(ns, id)
  {
    MarkAsReadChangesOnlyMatches(ns, id);
    MarkAsReadChangesOnlyMatches(MarkedRead(ns, id), id);
  }

  /** An id that no notification has changes nothing. */
  lemma MarkAsReadUnknownIdIsNoOp(ns: seq<Notification>, id: string)
    requires forall i :: 0 <= i < |ns| ==> ns[i].id != id
    ensures MarkedRead(ns, id) == ns
  {
    MarkAsReadChangesOnlyMatches(ns, id);
  }

  /** `markAllAsRead` only sets `read`, everywhere, and leaves nothing unread. */
  lemma MarkAllAsReadClearsBadge(ns: seq<Notification>)
    ensures |AllMarkedRead(ns)| == |ns|
    ensures forall i :: 0 <= i < |ns| ==> AllMarkedRead(ns)[i] == ns[i].(read := true)
    ensures UnreadCount(AllMarkedRead(ns)) == 0
  {
    var r := AllMarkedRead(ns);
    forall i | 0 <= i < |ns| ensures r[i] == SetRead()(ns[i]) {
    }
  }

  /** With unique ids, marking an unread notification read lowers the badge by exactly one. */
  lemma {:induction false} MarkUnreadDecrementsBadge(ns: seq<Notification>, id: string, k: nat)
    requires UniqueIds(ns) && k < |ns| && ns[k].id == id && !ns[k].read
    ensures UnreadCount(MarkedRead(ns, id)) == UnreadCount(ns) - 1
  {
    var r := MarkedRead(ns, id);
    assert r == [ReadIf(id)(ns[0])] + MarkedRead(ns[1..], id);
    assert ns == [ns[0]] + ns[1..];
    if k == 0 {
      MarkAsReadUnknownIdIsNoOp(ns[1..], id);
    } else {
      assert ns[0].id != id;
      assert UniqueIds(ns[1..]);
      MarkUnreadDecrementsBadge(ns[1..], id, k - 1);
    }
  }

  /** The page's state: the list that `setNotifications` replaces. */
  class NotificationsPage {
    var notifications: seq<Notification>

    constructor (initial: seq<Notification>)
      ensures notifications == initial
    {
      notifications := initial;
    }

    /** `markAsRead`. */
    method MarkAsRead(id: string)
      modifies this
      ensures notifications == MarkedRead(old(notifications), id)
      ensures UniqueIds(old(notifications)) ==> UniqueIds(notifications)
    {
      MarkAsReadChangesOnlyMatches(notifications, id);
      notifications := MarkedRead(notifications, id);
    }

    /** `markAllAsRead`. */
    method MarkAllAsRead()
      modifies this
      ensures notifications == AllMarkedRead(old(notifications))
      ensures UnreadCount(notifications) == 0
    {
      MarkAllAsReadClearsBadge(notifications);
      notifications := AllMarkedRead(notifications);
    }

    /** The badge: `unreadCount`. */
    function Unread(): (k: nat)
      reads this
      ensures k <= |notifications|
      ensures k == 0 <==> forall i :: 0 <= i < |notifications| ==> notifications[i].read
    {
      UnreadCount(notifications)
    }
  }
}
