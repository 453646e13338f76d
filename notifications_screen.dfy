/** The notifications screen: the list helpers it applies to its local list (mark read, delete,
    clear, the unread counter and the relative-time label) and the screen state itself, an array
    that each action replaces and that rendering sorts in place, newest first. Storage, dialogs and
    the clock are outside the model: what was stored and the current time are parameters. */
module NotificationsScreen {
  import opened Shared
  import opened Lists
  import opened Sorting

  datatype Notification = Notification(
    id: string, kind: Kind, title: string, message: string,
    contactName: string, timestamp: int, isRead: bool)

  /** How long ago something happened, as the screen labels it. */
  datatype Elapsed = JustNow | MinutesAgo(minutes: nat) | HoursAgo(hours: nat) | DaysAgo(days: nat)

  const MinuteMs := 60000
  const HourMs := 3600000
  const DayMs := 86400000

  const WelcomeTitle := "welcome to direct--"
  const WelcomeMessage := "you can now give positive feedback to contacts in your phonebook. mutual feedback creates matches."

  /** `formatTime`: the age `now - timestamp` in whole minutes, hours or days, whichever is the
      largest unit that fits; less than a minute, or a timestamp in the future, is "now". */
  function FormatTime(now: int, timestamp: int): (e: Elapsed)
    ensures e.JustNow? <==> now - timestamp < MinuteMs
    ensures e.MinutesAgo? <==> MinuteMs <= now - timestamp < HourMs
    ensures e.HoursAgo? <==> HourMs <= now - timestamp < DayMs
    ensures e.DaysAgo? <==> DayMs <= now - timestamp
    ensures e.MinutesAgo? ==> 1 <= e.minutes <= 59
                              && e.minutes * MinuteMs <= now - timestamp < (e.minutes + 1) * MinuteMs
    ensures e.HoursAgo? ==> 1 <= e.hours <= 23
                            && e.hours * HourMs <= now - timestamp < (e.hours + 1) * HourMs
    ensures e.DaysAgo? ==> 1 <= e.days
                           && e.days * DayMs <= now - timestamp < (e.days + 1) * DayMs
  {
    var diff := now - timestamp;
    if diff < MinuteMs then JustNow
    else if diff < HourMs then MinutesAgo(diff / MinuteMs)
    else if diff < DayMs then HoursAgo(diff / HourMs)
    else DaysAgo(diff / DayMs)
  }

  /** The list shown when nothing was stored: one unread welcome notice, a minute old. */
  function WelcomeNotifications(now: int): (r: seq<Notification>)
    ensures |r| == 1 && r[0].id == "1" && r[0].kind == Info && !r[0].isRead && r[0].contactName == ""
    ensures FormatTime(now, r[0].timestamp) == MinutesAgo(1)
  {
    [Notification("1", Info, WelcomeTitle, WelcomeMessage, "", now - 60000, false)]
  }

  /** `markAsRead`: every item with this id is read; nothing else about any item changes. */
  function MarkAllRead(l: seq<Notification>, id: string): (r: seq<Notification>)
    ensures |r| == |l|
    ensures forall i :: 0 <= i < |l| ==> r[i].isRead == (l[i].isRead || l[i].id == id)
    ensures forall i :: 0 <= i < |l| ==> r[i].(isRead := l[i].isRead) == l[i]
  {
    if l == [] then []
    else [if l[0].id == id then l[0].(isRead := true) else l[0]] + MarkAllRead(l[1..], id)
  }

  function WithoutId(id: string): Notification -> bool
  {
    (n: Notification) => n.id != id
  }

  function IsUnread(n: Notification): bool
  {
    !n.isRead
  }

  function UnreadWithId(id: string): Notification -> bool
  {
    (n: Notification) => !n.isRead && n.id == id
  }

  /** `deleteNotification`: the items whose id differs, in their original order. */
  function RemoveById(l: seq<Notification>, id: string): (r: seq<Notification>)
    ensures forall i :: 0 <= i < |r| ==> r[i] in l && r[i].id != id
    ensures forall i :: 0 <= i < |l| && l[i].id != id ==> l[i] in r
  {
    Filter(l, WithoutId(id))
  }

  /** Deleting an id that no item has leaves the list as it was. */
  lemma RemoveAbsentId(l: seq<Notification>, id: string)
    ensures (forall i :: 0 <= i < |l| ==> l[i].id != id) ==> RemoveById(l, id) == l
  {
    if forall i :: 0 <= i < |l| ==> l[i].id != id {
      FilterKeepsAll(l, WithoutId(id));
    }
  }

  /** Deleting from a concatenation deletes from each part: the survivors keep their order. */
  lemma DeleteKeepsOrder(l1: seq<Notification>, l2: seq<Notification>, id: string)
    ensures RemoveById(l1 + l2, id) == RemoveById(l1, id) + RemoveById(l2, id)
  {
    FilterAppend(l1, l2, WithoutId(id));
  }

  /** `unreadCount`: the number of items not yet read. */
  function UnreadCount(l: seq<Notification>): (n: nat)
    ensures n <= |l|
  {
    |Filter(l, IsUnread)|
  }

  /** The unread count is zero exactly when every item is read, and the whole length exactly when
      none is. */
  lemma UnreadCountExtremes(l: seq<Notification>)
    ensures UnreadCount(l) == 0 <==> forall i :: 0 <= i < |l| ==> l[i].isRead
    ensures UnreadCount(l) == |l| <==> forall i :: 0 <= i < |l| ==> !l[i].isRead
  {
    if UnreadCount(l) == |l| {
      FilterFull(l, IsUnread);
    }
    if forall i :: 0 <= i < |l| ==> !l[i].isRead {
      FilterKeepsAll(l, IsUnread);
    }
    if forall i :: 0 <= i < |l| ==> l[i].isRead {
      FilterKeepsNone(l, IsUnread);
    }
  }

  /** Marking an id read lowers the unread count by exactly the unread items with that id. */
  lemma {:induction false} UnreadAfterMarkAllRead(l: seq<Notification>, id: string)
    ensures UnreadCount(MarkAllRead(l, id)) + |Filter(l, UnreadWithId(id))| == UnreadCount(l)
  {
    if l != [] {
      UnreadAfterMarkAllRead(l[1..], id);
      var r := MarkAllRead(l, id);
      assert r[1..] == MarkAllRead(l[1..], id);
    }
  }

  /** Marking twice is marking once. */
  lemma MarkAllReadIdempotent(l: seq<Notification>, id: string)
    ensures MarkAllRead(MarkAllRead(l, id), id) == MarkAllRead(l, id)
  {
  }

  function Timestamp(n: Notification): int
  {
    n.timestamp
  }

  /** The screen's state: the list (a fresh array after every change) and the loading flag. */
  class Screen {
    var notifications: array<Notification>
    var loading: bool

    /** The first render: an empty list, still loading. */
    constructor ()
      ensures notifications.Length == 0 && loading
    {
      notifications := new Notification[0];
      loading := true;
    }

    /** `setNotifications`: the state becomes a new array holding `list`. */
    method SetNotifications(list: seq<Notification>)
      modifies this
      ensures fresh(notifications) && notifications[..] == list
      ensures loading == old(loading)
    {
      notifications := new Notification[|list|](i requires 0 <= i < |list| => list[i]);
    }

    /** `loadNotifications`: what was stored, or else the welcome list; loading ends either way. */
    method LoadNotifications(stored: Option<seq<Notification>>, now: int)
      modifies this
      ensures fresh(notifications) && !loading
      ensures stored.Some? ==> notifications[..] == stored.value
      ensures stored.None? ==> notifications[..] == WelcomeNotifications(now)
    {
      if stored.Some? {
        SetNotifications(stored.value);
      } else {
        SetNotifications(WelcomeNotifications(now));
      }
      loading := false;
    }

    /** Tapping an item marks every item with its id read. */
    method MarkAsRead(id: string)
      modifies this
      ensures fresh(notifications) && notifications[..] == MarkAllRead(old(notifications[..]), id)
      ensures loading == old(loading)
    {
      SetNotifications(MarkAllRead(notifications[..], id));
    }

    /** A confirmed long press removes every item with its id. */
    method DeleteNotification(id: string)
      modifies this
      ensures fresh(notifications)
      ensures notifications[..] == RemoveById(old(notifications[..]), id)
      ensures loading == old(loading)
    {
      SetNotifications(RemoveById(notifications[..], id));
    }

    /** A confirmed "clear all" empties the list. */
    method ClearAllNotifications()
      modifies this
      ensures fresh(notifications) && notifications[..] == []
      ensures loading == old(loading)
    {
      SetNotifications([]);
    }

    /** Rendering sorts the state array itself, newest first, before listing it. */
    method SortForDisplay()
      modifies notifications
      ensures NewestFirst(notifications[..], Timestamp)
      ensures multiset(notifications[..]) == multiset(old(notifications[..]))
    {
      SortNewestFirst(notifications, Timestamp);
    }
  }
}
