/** The notification centre: a newest-first list of notifications with a read
    flag. A notification's id is the clock reading (in milliseconds) at which
    it was posted, so two posted within one millisecond share an id. */
module Notifications {
  import opened Common

  datatype NoticeKind = SuccessNotice | ErrorNotice | WarningNotice | InfoNotice

  datatype Notification = Notification(id: nat, kind: NoticeKind, title: string, message: string, read: bool)

  /** The notification `addNotification` builds at clock reading `now`. */
  function Posted(kind: NoticeKind, title: string, message: string, now: nat): Notification {
    Notification(now, kind, title, message, false)
  }

  /** `prev.filter(n => n.id !== id)` */
  function Without(ns: seq<Notification>, id: nat): seq<Notification> {
    Filter(ns, (n: Notification) => n.id != id)
  }

  /** `prev.map(n => n.id === id ? {...n, read: true} : n)` */
  function MarkedRead(ns: seq<Notification>, id: nat): seq<Notification> {
    seq(|ns|, k requires 0 <= k < |ns| => if ns[k].id == id then ns[k].(read := true) else ns[k])
  }

  /** `prev.map(n => ({...n, read: true}))` */
  function AllRead(ns: seq<Notification>): seq<Notification> {
    seq(|ns|, k requires 0 <= k < |ns| => ns[k].(read := true))
  }

  predicate IsUnread(n: Notification) {
    !n.read
  }

  /** `unreadCount` */
  function UnreadCount(ns: seq<Notification>): nat {
    Count(ns, IsUnread)
  }

  /** Removing an id drops every entry with that id and keeps every other
      entry, in order. */
  lemma WithoutDropsExactly(ns: seq<Notification>, id: nat)
    ensures IsSubsequence(Without(ns, id), ns)
    ensures forall n :: n in Without(ns, id) <==> n in ns && n.id != id
  {
    FilterIsSubsequence(ns, (n: Notification) => n.id != id);
  }

  /** Marking an id read keeps the list's length and order, touches only the
      read flag of entries with that id, and doing it twice is doing it once. */
  lemma MarkedReadSpec(ns: seq<Notification>, id: nat)
    ensures |MarkedRead(ns, id)| == |ns|
    ensures forall k :: 0 <= k < |ns| ==>
              MarkedRead(ns, id)[k].(read := ns[k].read) == ns[k]
              && MarkedRead(ns, id)[k].read == (ns[k].read || ns[k].id == id)
    ensures MarkedRead(MarkedRead(ns, id), id) == MarkedRead(ns, id)
  {
  }

  /** After marking an id read, the unread entries are exactly the unread
      entries with other ids. */
  lemma {:induction false} MarkedReadUnread(ns: seq<Notification>, id: nat)
    ensures UnreadCount(MarkedRead(ns, id)) == UnreadCount(Without(ns, id))
    decreases |ns|
  {
    if ns != [] {
      var m := MarkedRead(ns, id);
      assert m[1..] == MarkedRead(ns[1..], id);
      MarkedReadUnread(ns[1..], id);
      var others := (n: Notification) => n.id != id;
      assert Without(ns, id) == (if others(ns[0]) then [ns[0]] else []) + Without(ns[1..], id);
      FilterAppend(if others(ns[0]) then [ns[0]] else [], Without(ns[1..], id), IsUnread);
    }
  }

  /** Marking everything read leaves nothing unread and keeps the length. */
  lemma {:induction false} AllReadSpec(ns: seq<Notification>)
    ensures |AllRead(ns)| == |ns| && UnreadCount(AllRead(ns)) == 0
    decreases |ns|
  {
    if ns != [] {
      assert AllRead(ns)[1..] == AllRead(ns[1..]);
      AllReadSpec(ns[1..]);
    }
  }

  /** Posting raises the unread count by exactly one. */
  lemma PostRaisesUnread(n: Notification, ns: seq<Notification>)
    requires !n.read
    ensures UnreadCount([n] + ns) == UnreadCount(ns) + 1
  {
    assert ([n] + ns)[1..] == ns;
  }

  /** The title a `show*` wrapper uses: the caller's, or the wrapper's default. */
  function TitleOr(title: Option<string>, default: string): string {
    title.GetOr(default)
  }

  class NotificationCenter {
    var notifications: seq<Notification>

    constructor ()
      ensures notifications == []
    {
      notifications := [];
    }

    /** `addNotification`: the new, unread notification goes first. */
    method AddNotification(kind: NoticeKind, title: string, message: string, now: nat)
      modifies this
      ensures notifications == [Posted(kind, title, message, now)] + old(notifications)
    {
      notifications := [Posted(kind, title, message, now)] + notifications;
    }

    method RemoveNotification(id: nat)
      modifies this
      ensures notifications == Without(old(notifications), id)
    {
      notifications := Without(notifications, id);
    }

    method MarkAsRead(id: nat)
      modifies this
      ensures notifications == MarkedRead(old(notifications), id)
    {
      notifications := MarkedRead(notifications, id);
    }

    method MarkAllAsRead()
      modifies this
      ensures notifications == AllRead(old(notifications))
    {
      notifications := AllRead(notifications);
    }

    method ClearAll()
      modifies this
      ensures notifications == []
    {
      notifications := [];
    }

    function Unread(): (r: nat)
      reads this
      ensures r <= |notifications|
    {
      UnreadCount(notifications)
    }

    /** `showSuccess`: default title "Success". */
    method ShowSuccess(message: string, title: Option<string>, now: nat)
      modifies this
      ensures notifications == [Posted(SuccessNotice, TitleOr(title, "Success"), message, now)] + old(notifications)
    {
      AddNotification(SuccessNotice, TitleOr(title, "Success"), message, now);
    }

    /** `showError`: default title "Error". */
    method ShowError(message: string, title: Option<string>, now: nat)
      modifies this
      ensures notifications == [Posted(ErrorNotice, TitleOr(title, "Error"), message, now)] + old(notifications)
    {
      AddNotification(ErrorNotice, TitleOr(title, "Error"), message, now);
    }

    /** `showWarning`: default title "Warning". */
    method ShowWarning(message: string, title: Option<string>, now: nat)
      modifies this
      ensures notifications == [Posted(WarningNotice, TitleOr(title, "Warning"), message, now)] + old(notifications)
    {
      AddNotification(WarningNotice, TitleOr(title, "Warning"), message, now);
    }

    /** `showInfo`: default title "Information". */
    method ShowInfo(message: string, title: Option<string>, now: nat)
      modifies this
      ensures notifications == [Posted(InfoNotice, TitleOr(title, "Information"), message, now)] + old(notifications)
    {
      AddNotification(InfoNotice, TitleOr(title, "Information"), message, now);
    }
  }
}
