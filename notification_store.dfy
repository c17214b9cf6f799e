/** The in-app notification list (hooks/notification-store.ts): newest first, with an unread
    counter that every operation recomputes from the list. */
module NotificationStoreHook {
  import opened Types
  import opened Text

  /** One notification. `kind` is the type tag as stored; `deliveryId` is `data?.deliveryId`. */
  datatype Notification = Notification(id: string, title: string, body: string, kind: string,
                                       deliveryId: Option<string>, read: bool, createdAt: int)

  /** `notifs.filter(n => !n.read).length`. */
  function Unread(ns: seq<Notification>): (r: nat)
    ensures r <= |ns|
    ensures r == 0 <==> forall i :: 0 <= i < |ns| ==> ns[i].read
  {
    if ns == [] then 0
    else
      assert forall i :: 1 <= i < |ns| ==> ns[i] == ns[1..][i - 1];
      (if ns[0].read then 0 else 1) + Unread(ns[1..])
  }

  /** The record addNotification builds; its id is the millisecond clock as a decimal string. */
  function NewNotification(title: string, body: string, kind: string, deliveryId: Option<string>, now: nat)
    : (n: Notification)
    ensures n.id == NatToString(now) && !n.read && n.createdAt == now
    ensures n.title == title && n.body == body && n.kind == kind && n.deliveryId == deliveryId
  {
    Notification(NatToString(now), title, body, kind, deliveryId, false, now)
  }

  /** markAsRead's `prev.map(n => n.id === id ? { ...n, read: true } : n)`. */
  function MarkedRead(ns: seq<Notification>, id: string): (r: seq<Notification>)
    ensures |r| == |ns|
    ensures forall i :: 0 <= i < |ns| ==> r[i] == (if ns[i].id == id then ns[i].(read := true) else ns[i])
  {
    seq(|ns|, i requires 0 <= i < |ns| => if ns[i].id == id then ns[i].(read := true) else ns[i])
  }

  /** markAllAsRead's `prev.map(n => ({ ...n, read: true }))`. */
  function AllRead(ns: seq<Notification>): (r: seq<Notification>)
    ensures |r| == |ns|
    ensures forall i :: 0 <= i < |ns| ==> r[i] == ns[i].(read := true)
  {
    seq(|ns|, i requires 0 <= i < |ns| => ns[i].(read := true))
  }

  /** A new unread entry in front adds exactly one to the count. */
  lemma UnreadOfNew(n: Notification, ns: seq<Notification>)
    requires !n.read
    ensures Unread([n] + ns) == Unread(ns) + 1
  {
    assert ([n] + ns)[1..] == ns;
  }

  /** Marking one id read never raises the count, and marking an id no entry has changes nothing. */
  lemma {:induction false} MarkedReadNeverRaisesCount(ns: seq<Notification>, id: string)
    ensures Unread(MarkedRead(ns, id)) <= Unread(ns)
    ensures (forall i :: 0 <= i < |ns| ==> ns[i].id != id) ==> MarkedRead(ns, id) == ns
  {
    if ns != [] {
      assert MarkedRead(ns, id)[1..] == MarkedRead(ns[1..], id);
      MarkedReadNeverRaisesCount(ns[1..], id);
    }
  }

  /** Marking the same id twice is the same as marking it once. */
  lemma MarkedReadIdempotent(ns: seq<Notification>, id: string)
    ensures MarkedRead(MarkedRead(ns, id), id) == MarkedRead(ns, id)
  {
  }

  /** After marking everything read nothing is unread. */
  lemma AllReadHasNoUnread(ns: seq<Notification>)
    ensures Unread(AllRead(ns)) == 0
  {
  }

  /** Two notifications added in the same millisecond share an id, so tapping either marks both. */
  lemma SameMillisecondShareId(a: Notification, b: Notification, ns: seq<Notification>, now: nat)
    requires a.id == NatToString(now) && b.id == NatToString(now)
    ensures var r := MarkedRead([b, a] + ns, a.id); r[0].read && r[1].read
  {
  }

  class NotificationStore {
    var notifications: seq<Notification>
    var unreadCount: nat
    var isLoading: bool

    /** The counter always equals the number of unread entries. */
    ghost predicate Valid()
      reads this
    {
      unreadCount == Unread(notifications)
    }

    constructor()
      ensures Valid() && notifications == [] && unreadCount == 0 && isLoading
    {
      notifications := [];
      unreadCount := 0;
      isLoading := true;
    }

    /** loadNotifications: a stored list replaces the list and the counter is recomputed; with
        nothing stored the state is kept. Loading ends either way. */
    method LoadNotifications(stored: Option<seq<Notification>>)
      requires Valid()
      modifies this
      ensures Valid() && !isLoading
      ensures notifications == (if stored.Some? then stored.value else old(notifications))
    {
      if stored.Some? {
        notifications := stored.value;
        unreadCount := Unread(notifications);
      }
      isLoading := false;
    }

    /** addNotification: the new unread entry goes in front; the count grows by one. */
    method AddNotification(title: string, body: string, kind: string, deliveryId: Option<string>, now: nat)
      requires Valid()
      modifies this
      ensures Valid()
      ensures notifications == [NewNotification(title, body, kind, deliveryId, now)] + old(notifications)
      ensures unreadCount == old(unreadCount) + 1
      ensures isLoading == old(isLoading)
    {
      var n := NewNotification(title, body, kind, deliveryId, now);
      UnreadOfNew(n, notifications);
      notifications := [n] + notifications;
      unreadCount := Unread(notifications);
    }

    /** markAsRead: entries with that id become read; the count does not grow. */
    method MarkAsRead(id: string)
      requires Valid()
      modifies this
      ensures Valid()
      ensures notifications == MarkedRead(old(notifications), id)
      ensures unreadCount <= old(unreadCount)
      ensures isLoading == old(isLoading)
    {
      MarkedReadNeverRaisesCount(notifications, id);
      notifications := MarkedRead(notifications, id);
      unreadCount := Unread(notifications);
    }

    /** markAllAsRead: every entry read, the count zero. */
    method MarkAllAsRead()
      requires Valid()
      modifies this
      ensures Valid()
      ensures notifications == AllRead(old(notifications)) && unreadCount == 0
      ensures isLoading == old(isLoading)
    {
      notifications := AllRead(notifications);
      unreadCount := Unread(notifications);
    }

    /** clearAll. */
    method ClearAll()
      requires Valid()
      modifies this
      ensures Valid()
      ensures notifications == [] && unreadCount == 0
      ensures isLoading == old(isLoading)
    {
      notifications := [];
      unreadCount := 0;
    }
  }
}
