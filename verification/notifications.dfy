/**
 * The notification store (a list kept newest first) and the pure parts of the notification
 * centre that displays it: the unread badge count, the relative-time label and the icon.
 */
module Notifications {
  import opened Lists
  import opened Text

  datatype NotificationType =
    DriverFound | DriverArriving | DriverArrived | RideStarted | RideCompleted | PaymentProcessed

  /** `timestamp` is the creation time in milliseconds since the epoch. */
  datatype RideNotification = RideNotification(
    id: string, kind: NotificationType, title: string, message: string, timestamp: int, read: bool)

  /** `markAsRead`'s map: entries with the id become read, all others stay as they are. */
  function MarkedRead(ns: seq<RideNotification>, id: string): (r: seq<RideNotification>)
    ensures |r| == |ns|
    ensures forall i :: 0 <= i < |ns| && ns[i].id == id ==> r[i] == ns[i].(read := true)
    ensures forall i :: 0 <= i < |ns| && ns[i].id != id ==> r[i] == ns[i]
    decreases |ns|
  {
    if ns == [] then []
    else [if ns[0].id == id then ns[0].(read := true) else ns[0]] + MarkedRead(ns[1..], id)
  }

  /** The filter predicate of `removeNotification`. */
  function OtherId(id: string): RideNotification -> bool {
    (n: RideNotification) => n.id != id
  }

  /** `removeNotification`'s filter: the entries without that id, in their original order. */
  function WithoutId(ns: seq<RideNotification>, id: string): (r: seq<RideNotification>)
    ensures |r| <= |ns|
    ensures forall n :: n in r <==> n in ns && n.id != id
    ensures Subsequence(r, ns)
    ensures |r| == CountWhere(ns, OtherId(id))
  {
    FilterIsSubsequence(ns, OtherId(id));
    FilterLength(ns, OtherId(id));
    Filter(ns, OtherId(id))
  }

  predicate IsUnread(n: RideNotification) {
    !n.read
  }

  /** The number of unread entries, counted one entry at a time. */
  function CountUnread(ns: seq<RideNotification>): nat
    decreases |ns|
  {
    if ns == [] then 0 else (if ns[0].read then 0 else 1) + CountUnread(ns[1..])
  }

  /** The filter keeps exactly the unread entries, so its length is their number. */
  lemma {:induction false} UnreadFilterLength(ns: seq<RideNotification>)
    ensures |Filter(ns, IsUnread)| == CountUnread(ns)
    decreases |ns|
  {
    if ns != [] {
      UnreadFilterLength(ns[1..]);
    }
  }

  /** The badge count: `notifications.filter((n) => !n.read).length`, the number of unread entries. */
  function UnreadCount(ns: seq<RideNotification>): (c: nat)
    ensures c <= |ns|
    ensures c == CountUnread(ns)
    ensures c == 0 <==> forall i :: 0 <= i < |ns| ==> ns[i].read
  {
    UnreadFilterLength(ns);
    var unread := Filter(ns, IsUnread);
    assert unread == [] <== forall i :: 0 <= i < |ns| ==> ns[i].read by {
      if unread != [] {
        assert unread[0] in ns;
      }
    }
    assert (exists i :: 0 <= i < |ns| && !ns[i].read) ==> unread != [] by {
      if i :| 0 <= i < |ns| && !ns[i].read {
        assert ns[i] in unread;
      }
    }
    |unread|
  }

  /** Marking as read twice is marking once. */
  lemma MarkAsReadIdempotent(ns: seq<RideNotification>, id: string)
    ensures MarkedRead(MarkedRead(ns, id), id) == MarkedRead(ns, id)
  {
    var once := MarkedRead(ns, id);
    forall i | 0 <= i < |ns| ensures MarkedRead(once, id)[i] == once[i] {
      assert once[i].id == ns[i].id;
    }
  }

  /** Removing an id that no entry has changes nothing. */
  lemma RemoveAbsentIdChangesNothing(ns: seq<RideNotification>, id: string)
    requires forall i :: 0 <= i < |ns| ==> ns[i].id != id
    ensures WithoutId(ns, id) == ns
  {
    FilterKeepsAll(ns, OtherId(id));
  }

  /** Removing an id that some entry has shortens the list. */
  lemma RemovePresentIdShortens(ns: seq<RideNotification>, id: string, k: nat)
    requires k < |ns| && ns[k].id == id
    ensures |WithoutId(ns, id)| < |ns|
  {
    FilterDropsSome(ns, OtherId(id), k);
  }

  /** A new notification at the head adds exactly one to the unread count. */
  lemma {:induction false} UnreadCountAfterAdd(n: RideNotification, ns: seq<RideNotification>)
    requires !n.read
    ensures UnreadCount([n] + ns) == UnreadCount(ns) + 1
  {
    assert ([n] + ns)[1..] == ns;
  }

  /** Marking as read never raises the unread count, and leaves no unread entry with that id. */
  lemma {:induction false} UnreadCountMarkedRead(ns: seq<RideNotification>, id: string)
    ensures UnreadCount(MarkedRead(ns, id)) <= UnreadCount(ns)
    ensures UnreadCount(MarkedRead(ns, id)) == UnreadCount(WithoutId(ns, id))
    ensures forall i :: 0 <= i < |ns| && ns[i].id == id ==> MarkedRead(ns, id)[i].read
    decreases |ns|
  {
    if ns != [] {
      var m := MarkedRead(ns, id);
      assert m[1..] == MarkedRead(ns[1..], id);
      UnreadCountMarkedRead(ns[1..], id);
    }
  }

  /** Removing entries never raises the unread count. */
  lemma {:induction false} UnreadCountRemoved(ns: seq<RideNotification>, id: string)
    ensures UnreadCount(WithoutId(ns, id)) <= UnreadCount(ns)
    decreases |ns|
  {
    if ns != [] {
      UnreadCountRemoved(ns[1..], id);
    }
  }

  /** No operation turns a read entry back into an unread one. */
  lemma ReadStaysRead(ns: seq<RideNotification>, id: string, n: RideNotification)
    requires n in ns && n.read
    ensures exists k :: 0 <= k < |ns| && MarkedRead(ns, id)[k].read && MarkedRead(ns, id)[k].id == n.id
    ensures n.id != id ==> n in WithoutId(ns, id)
  {
    var k :| 0 <= k < |ns| && ns[k] == n;
    assert MarkedRead(ns, id)[k].read;
  }

  class NotificationStore {
    var notifications: seq<RideNotification>

    constructor ()
      ensures notifications == []
    {
      notifications := [];
    }

    /** `addNotification`: the caller supplies the id and the timestamp the source generates. */
    method AddNotification(kind: NotificationType, title: string, message: string, id: string, timestamp: int)
      modifies this
      ensures |notifications| == |old(notifications)| + 1
      ensures notifications[0] == RideNotification(id, kind, title, message, timestamp, false)
      ensures notifications[1..] == old(notifications)
    {
      notifications := [RideNotification(id, kind, title, message, timestamp, false)] + notifications;
    }

    /** `markAsRead`. */
    method MarkAsRead(id: string)
      modifies this
      ensures notifications == MarkedRead(old(notifications), id)
    {
      notifications := MarkedRead(notifications, id);
    }

    /** `clearNotifications`. */
    method ClearNotifications()
      modifies this
      ensures notifications == []
    {
      notifications := [];
    }

    /** `removeNotification`. */
    method RemoveNotification(id: string)
      modifies this
      ensures notifications == WithoutId(old(notifications), id)
    {
      notifications := WithoutId(notifications, id);
    }
  }

  const MsPerMinute: int := 60000
  const MsPerHour: int := 3600000
  const MsPerDay: int := 86400000

  /** A count followed by its unit; never the "just now" label. */
  function Ago(n: nat, unit: string): (r: string)
    requires unit == "m ago" || unit == "h ago" || unit == "d ago"
    ensures r == NatToString(n) + unit && r != "just now"
  {
    var r := NatToString(n) + unit;
    assert r[|r| - 1] == 'o';
    r
  }

  /**
   * `formatTime`: the age of a timestamp as a label. JavaScript's `Math.floor` of a quotient by a
   * positive divisor is Dafny's `/` on `int`, negative ages included.
   */
  function FormatTime(nowMs: int, thenMs: int): (r: string)
    ensures nowMs - thenMs < MsPerMinute <==> r == "just now"
    ensures MsPerMinute <= nowMs - thenMs < MsPerHour ==>
      1 <= (nowMs - thenMs) / MsPerMinute < 60 && r == NatToString((nowMs - thenMs) / MsPerMinute) + "m ago"
    ensures MsPerHour <= nowMs - thenMs < MsPerDay ==>
      1 <= (nowMs - thenMs) / MsPerHour < 24 && r == NatToString((nowMs - thenMs) / MsPerHour) + "h ago"
    ensures MsPerDay <= nowMs - thenMs ==>
      1 <= (nowMs - thenMs) / MsPerDay && r == NatToString((nowMs - thenMs) / MsPerDay) + "d ago"
  {
    var diffMs := nowMs - thenMs;
    var diffMins := diffMs / 60000;
    if diffMins < 1 then "just now"
    else if diffMins < 60 then Ago(diffMins, "m ago")
    else
      var diffHours := diffMins / 60;
      if diffHours < 24 then Ago(diffHours, "h ago")
      else
        var diffDays := diffHours / 24;
        Ago(diffDays, "d ago")
  }

  /** The notification type names the store and the notification centre use. */
  function TypeName(kind: NotificationType): string {
    match kind
    case DriverFound => "driver_found"
    case DriverArriving => "driver_arriving"
    case DriverArrived => "driver_arrived"
    case RideStarted => "ride_started"
    case RideCompleted => "ride_completed"
    case PaymentProcessed => "payment_processed"
  }

  const DefaultIcon: string := "\U{1F4E2}"

  /** `getNotificationIcon`: one icon per known type name, the loudspeaker for any other string. */
  function NotificationIcon(typeName: string): (icon: string)
    ensures icon == DefaultIcon <==> forall k :: typeName != TypeName(k)
  {
    match typeName
    case "driver_found" => assert typeName == TypeName(DriverFound); "\U{1F697}"
    case "driver_arriving" => assert typeName == TypeName(DriverArriving); "\U{1F4CD}"
    case "driver_arrived" => assert typeName == TypeName(DriverArrived); "\U{2705}"
    case "ride_started" => assert typeName == TypeName(RideStarted); "\U{1F680}"
    case "ride_completed" => assert typeName == TypeName(RideCompleted); "\U{1F3C1}"
    case "payment_processed" => assert typeName == TypeName(PaymentProcessed); "\U{1F4B3}"
    case _ => DefaultIcon
  }

  /** Distinct notification types get distinct icons. */
  lemma IconsDistinct(a: NotificationType, b: NotificationType)
    requires a != b
    ensures NotificationIcon(TypeName(a)) != NotificationIcon(TypeName(b))
  {
  }
}
