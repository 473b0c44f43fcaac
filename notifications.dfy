/**
 * The in-memory notification store: new notifications are prepended,
 * entries are marked read or dismissed but never removed, and the screen sees
 * the non-dismissed entries and how many of them are unread.
 */
module Notifications {
  import opened Common

  datatype NotificationType = Critical | Opportunity | Info | Success

  datatype Category = YieldCategory | PortfolioCategory | AgentCategory | TransactionCategory | GasCategory

  /** A notification; `timestamp` is milliseconds since the epoch. */
  datatype Notification = Notification(
    id: string,
    kind: NotificationType,
    title: string,
    description: string,
    timestamp: int,
    read: bool,
    dismissed: bool,
    category: Category,
    actionUrl: Option<string>,
    actionLabel: Option<string>)

  /** What a caller supplies; the store adds the id, the time and both flags. */
  datatype Draft = Draft(
    kind: NotificationType,
    title: string,
    description: string,
    category: Category,
    actionUrl: Option<string>,
    actionLabel: Option<string>)

  function Ids(ns: seq<Notification>): seq<string> {
    Map(ns, (n: Notification) => n.id)
  }

  /** The entry a draft becomes; the fresh id and the clock are given by the caller. */
  function Fresh(d: Draft, id: string, now: int): (n: Notification)
    ensures !n.read && !n.dismissed && n.id == id && n.timestamp == now
    ensures n.kind == d.kind && n.title == d.title && n.description == d.description
    ensures n.category == d.category && n.actionUrl == d.actionUrl && n.actionLabel == d.actionLabel
  {
    Notification(id, d.kind, d.title, d.description, now, false, false, d.category, d.actionUrl, d.actionLabel)
  }

  function ReadIf(id: string): Notification -> Notification {
    (n: Notification) => if n.id == id then n.(read := true) else n
  }

  /** Every entry with the id becomes read; nothing else changes. */
  function MarkRead(ns: seq<Notification>, id: string): (r: seq<Notification>)
    ensures |r| == |ns|
    ensures forall i :: 0 <= i < |ns| ==> r[i].(read := ns[i].read) == ns[i]
    ensures forall i :: 0 <= i < |ns| ==> r[i].read == (ns[i].read || ns[i].id == id)
  {
    Map(ns, ReadIf(id))
  }

  function DismissIf(id: string): Notification -> Notification {
    (n: Notification) => if n.id == id then n.(dismissed := true) else n
  }

  /** Every entry with the id becomes dismissed but stays in the list; nothing else changes. */
  function Dismiss(ns: seq<Notification>, id: string): (r: seq<Notification>)
    ensures |r| == |ns|
    ensures forall i :: 0 <= i < |ns| ==> r[i].(dismissed := ns[i].dismissed) == ns[i]
    ensures forall i :: 0 <= i < |ns| ==> r[i].dismissed == (ns[i].dismissed || ns[i].id == id)
  {
    Map(ns, DismissIf(id))
  }

  function Cleared(n: Notification): Notification {
    n.(read := true, dismissed := true)
  }

  /** Every entry becomes read and dismissed; the list keeps its length. */
  function AllCleared(ns: seq<Notification>): (r: seq<Notification>)
    ensures |r| == |ns|
    ensures forall i :: 0 <= i < |ns| ==> r[i].read && r[i].dismissed
    ensures forall i :: 0 <= i < |ns| ==> r[i].(read := ns[i].read, dismissed := ns[i].dismissed) == ns[i]
  {
    Map(ns, Cleared)
  }

  lemma MarkReadIdempotent(ns: seq<Notification>, id: string)
    ensures MarkRead(MarkRead(ns, id), id) == MarkRead(ns, id)
  {
    var once := MarkRead(ns, id);
    assert forall i :: 0 <= i < |ns| ==> MarkRead(once, id)[i] == once[i];
  }

  lemma DismissIdempotent(ns: seq<Notification>, id: string)
    ensures Dismiss(Dismiss(ns, id), id) == Dismiss(ns, id)
  {
    var once := Dismiss(ns, id);
    assert forall i :: 0 <= i < |ns| ==> Dismiss(once, id)[i] == once[i];
  }

  predicate NotDismissed(n: Notification) {
    !n.dismissed
  }

  predicate Unread(n: Notification) {
    !n.read
  }

  /** The entries the screen shows. */
  function Active(ns: seq<Notification>): (r: seq<Notification>)
    ensures |r| <= |ns|
    ensures IsSubsequence(r, ns)
  {
    FilterIsSubsequence(ns, NotDismissed);
    Filter(ns, NotDismissed)
  }

  /** The badge on the bell: unread entries among the shown ones. */
  function UnreadCount(ns: seq<Notification>): (c: nat)
    ensures c <= |Active(ns)|
  {
    |Filter(Active(ns), Unread)|
  }

  /** A shown entry is exactly a stored entry that is not dismissed. */
  lemma ActiveMembers(ns: seq<Notification>, n: Notification)
    ensures n in Active(ns) <==> n in ns && !n.dismissed
  {
    FilterMembers(ns, NotDismissed, n);
  }

  /** After clearing, nothing is shown and nothing is unread. */
  lemma ClearAllEmptiesViews(ns: seq<Notification>)
    ensures Active(AllCleared(ns)) == []
    ensures UnreadCount(AllCleared(ns)) == 0
  {
    FilterNone(AllCleared(ns), NotDismissed);
  }

  /** A new entry is shown first and raises the unread count by one. */
  lemma AddShowsFirst(ns: seq<Notification>, d: Draft, id: string, now: int)
    ensures Active([Fresh(d, id, now)] + ns) == [Fresh(d, id, now)] + Active(ns)
    ensures UnreadCount([Fresh(d, id, now)] + ns) == UnreadCount(ns) + 1
  {
    var n := Fresh(d, id, now);
    FilterPrepend(n, ns, NotDismissed);
    FilterPrepend(n, Active(ns), Unread);
  }

  /** Marking an id that no entry carries changes nothing. */
  lemma MarkReadAbsent(ns: seq<Notification>, id: string)
    requires id !in Ids(ns)
    ensures MarkRead(ns, id) == ns
  {
    forall i | 0 <= i < |ns| ensures MarkRead(ns, id)[i] == ns[i] {
      assert Ids(ns)[i] == ns[i].id;
    }
  }

  /**
   * With a fresh id, adding a notification and then marking it read leaves
   * the unread count where it was.
   */
  lemma AddThenMarkReadKeepsUnread(ns: seq<Notification>, d: Draft, id: string, now: int)
    requires id !in Ids(ns)
    ensures UnreadCount(MarkRead([Fresh(d, id, now)] + ns, id)) == UnreadCount(ns)
  {
    var n := Fresh(d, id, now);
    var m := n.(read := true);
    MarkReadAbsent(ns, id);
    assert MarkRead([n] + ns, id) == [m] + ns;
    FilterPrepend(m, ns, NotDismissed);
    FilterPrepend(m, Active(ns), Unread);
  }

  /** Appending an entry adds one to the unread count exactly when it is shown and unread. */
  lemma UnreadCountAppend(ns: seq<Notification>, n: Notification)
    ensures UnreadCount(ns + [n]) == UnreadCount(ns) + (if !n.dismissed && !n.read then 1 else 0)
  {
    FilterAppend(ns, n, NotDismissed);
    if !n.dismissed {
      assert Active(ns + [n]) == Active(ns) + [n];
      FilterAppend(Active(ns), n, Unread);
    } else {
      assert Active(ns + [n]) == Active(ns);
    }
  }

  /** Marking an entry read never raises the unread count. */
  lemma {:induction false} MarkReadNeverRaisesUnread(ns: seq<Notification>, id: string)
    ensures UnreadCount(MarkRead(ns, id)) <= UnreadCount(ns)
  {
    if |ns| > 0 {
      var pre, x := ns[..|ns| - 1], ns[|ns| - 1];
      assert ns == pre + [x];
      MarkReadNeverRaisesUnread(pre, id);
      var x' := ReadIf(id)(x);
      assert x'.dismissed == x.dismissed && (x'.read || !x.read);
      var marked := MarkRead(pre, id);
      MapAppend(pre, x, ReadIf(id));
      assert MarkRead(ns, id) == marked + [x'];
      UnreadCountAppend(marked, x');
      UnreadCountAppend(pre, x);
    }
  }

  /** The provider's notification list, replaced by each operation. */
  class NotificationStore {
    var notifications: seq<Notification>

    constructor ()
      ensures notifications == []
    {
      notifications := [];
    }

    method AddNotification(d: Draft, id: string, now: int)
      modifies this
      ensures notifications == [Fresh(d, id, now)] + old(notifications)
    {
      notifications := [Fresh(d, id, now)] + notifications;
    }

    method MarkAsRead(id: string)
      modifies this
      ensures notifications == MarkRead(old(notifications), id)
    {
      notifications := MarkRead(notifications, id);
    }

    method DismissNotification(id: string)
      modifies this
      ensures notifications == Dismiss(old(notifications), id)
    {
      notifications := Dismiss(notifications, id);
    }

    method ClearAll()
      modifies this
      ensures notifications == AllCleared(old(notifications))
      ensures |Active(notifications)| == 0 && UnreadCount(notifications) == 0
    {
      notifications := AllCleared(notifications);
      ClearAllEmptiesViews(old(notifications));
    }
  }
}
