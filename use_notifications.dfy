/**
 * The `useNotifications` hook: the signed-in user's notifications with their
 * type normalised to one of four known values, marking one or all of them
 * read, and the count of unread ones.
 */
module UseNotifications {
  import opened Wrappers
  import opened Seqs
  import opened Remote

  /** A row of the `notifications` table; `kind` is the `type` column. */
  datatype Notification = Notification(
    id: string,
    title: string,
    message: string,
    kind: Option<string>,
    isRead: Option<bool>,
    actionUrl: Option<string>,
    createdAt: string)

  const KnownKinds: seq<string> := ["info", "success", "warning", "error"]

  /** The type a fetched row is shown with: its own if known, otherwise `info` (a null type included). */
  function NormalizeKind(kind: Option<string>): (k: string)
    ensures k in KnownKinds
    ensures kind.Some? && kind.value in KnownKinds ==> k == kind.value
    ensures (kind.None? || kind.value !in KnownKinds) ==> k == "info"
  {
    if kind.Some? && kind.value in KnownKinds then kind.value else "info"
  }

  /** `{ ...item, type: ... }`: nothing but the type changes. */
  function Normalize(n: Notification): (r: Notification)
    ensures r.kind.Some? && r.kind.value in KnownKinds
    ensures r == n.(kind := r.kind)
    ensures n.kind.Some? && n.kind.value in KnownKinds ==> r == n
  {
    n.(kind := Some(NormalizeKind(n.kind)))
  }

  /** The fetched rows after normalisation: same length and order, every type known. */
  function NormalizeAll(rows: seq<Notification>): (r: seq<Notification>)
    ensures |r| == |rows|
    ensures forall i :: 0 <= i < |rows| ==> r[i] == Normalize(rows[i])
    ensures forall i :: 0 <= i < |r| ==> r[i].kind.Some? && r[i].kind.value in KnownKinds
  {
    Map(rows, Normalize)
  }

  /** Normalising rows that are already normalised changes nothing. */
  lemma NormalizeAllIdempotent(rows: seq<Notification>)
    ensures NormalizeAll(NormalizeAll(rows)) == NormalizeAll(rows)
  {
  }

  /** `!n.is_read`: a null flag counts as unread. */
  predicate IsUnread(n: Notification) {
    n.isRead != Some(true)
  }

  /** `notifications.filter(n => !n.is_read).length`. */
  function UnreadCount(ns: seq<Notification>): (c: nat)
    ensures c <= |ns|
    ensures c == 0 <==> forall i :: 0 <= i < |ns| ==> !IsUnread(ns[i])
  {
    Count(ns, IsUnread)
  }

  /** `prev.map(n => n.id === id ? { ...n, is_read: true } : n)`. */
  function MarkRead(ns: seq<Notification>, id: string): (r: seq<Notification>)
    ensures |r| == |ns|
    ensures forall i :: 0 <= i < |ns| && ns[i].id == id ==> r[i] == ns[i].(isRead := Some(true))
    ensures forall i :: 0 <= i < |ns| && ns[i].id != id ==> r[i] == ns[i]
  {
    Map(ns, (n: Notification) => if n.id == id then n.(isRead := Some(true)) else n)
  }

  /** Marking the same notification read twice is marking it once. */
  lemma MarkReadIdempotent(ns: seq<Notification>, id: string)
    ensures MarkRead(MarkRead(ns, id), id) == MarkRead(ns, id)
  {
  }

  /** The unread entries carrying `id`. */
  function UnreadWithId(id: string): Notification -> bool {
    (n: Notification) => IsUnread(n) && n.id == id
  }

  /** Marking `id` read lowers the unread count by exactly the unread entries with that id. */
  lemma {:induction false} MarkReadCount(ns: seq<Notification>, id: string)
    ensures UnreadCount(MarkRead(ns, id)) + Count(ns, UnreadWithId(id)) == UnreadCount(ns)
  {
    if ns != [] {
      var r := MarkRead(ns, id);
      assert r[1..] == MarkRead(ns[1..], id);
      MarkReadCount(ns[1..], id);
    }
  }

  /** Marking an unread entry read makes the count drop. */
  lemma MarkReadDecreases(ns: seq<Notification>, i: nat)
    requires i < |ns| && IsUnread(ns[i])
    ensures UnreadCount(MarkRead(ns, ns[i].id)) < UnreadCount(ns)
  {
    MarkReadCount(ns, ns[i].id);
    assert UnreadWithId(ns[i].id)(ns[i]);
  }

  /** `prev.map(n => ({ ...n, is_read: true }))`. */
  function MarkAllRead(ns: seq<Notification>): (r: seq<Notification>)
    ensures |r| == |ns|
    ensures forall i :: 0 <= i < |ns| ==> r[i] == ns[i].(isRead := Some(true))
  {
    Map(ns, (n: Notification) => n.(isRead := Some(true)))
  }

  /** After marking all read nothing is unread. */
  lemma MarkAllReadClears(ns: seq<Notification>)
    ensures UnreadCount(MarkAllRead(ns)) == 0
  {
  }

  /** A call on the `notifications` table. */
  datatype NotificationRequest =
    | SelectNotifications(user: UserId)
    | MarkNotificationRead(id: string)
    | MarkAllUnreadRead(user: UserId)

  class NotificationsHook {
    var notifications: seq<Notification>
    var loading: bool
    var requests: seq<NotificationRequest>
    var toasts: seq<Toast>

    constructor ()
      ensures notifications == [] && loading && requests == [] && toasts == []
    {
      notifications := [];
      loading := true;
      requests := [];
      toasts := [];
    }

    /** `fetchNotifications`: with no user nothing happens; otherwise `loading` ends false. */
    method Fetch(user: Option<UserId>, response: Response<Option<seq<Notification>>>)
      modifies this
      ensures user.None? ==> notifications == old(notifications) && loading == old(loading)
                             && requests == old(requests) && toasts == old(toasts)
      ensures user.Some? ==> requests == old(requests) + [SelectNotifications(user.value)] && !loading
      ensures user.Some? && response.Ok? ==>
                notifications == NormalizeAll(response.data.GetOr([])) && toasts == old(toasts)
      ensures user.Some? && response.Err? ==>
                && notifications == old(notifications)
                && toasts == old(toasts) + [ErrorToast("Failed to fetch notifications")]
    {
      if user.None? {
        return;
      }
      requests := requests + [SelectNotifications(user.value)];
      match response {
        case Ok(rows) =>
          notifications := NormalizeAll(rows.GetOr([]));
        case Err(_) =>
          toasts := toasts + [ErrorToast("Failed to fetch notifications")];
      }
      loading := false;
    }

    /** `markAsRead(id)`: no user check, and a failure is only logged, never toasted. */
    method MarkAsRead(id: string, response: Response<()>)
      modifies this
      ensures loading == old(loading) && toasts == old(toasts)
      ensures requests == old(requests) + [MarkNotificationRead(id)]
      ensures response.Ok? ==> notifications == MarkRead(old(notifications), id)
      ensures response.Err? ==> notifications == old(notifications)
    {
      requests := requests + [MarkNotificationRead(id)];
      if response.Ok? {
        notifications := MarkRead(notifications, id);
      }
    }

    /** `markAllAsRead`: with no user nothing happens. */
    method MarkAllAsRead(user: Option<UserId>, response: Response<()>)
      modifies this
      ensures loading == old(loading)
      ensures user.None? ==> notifications == old(notifications)
                             && requests == old(requests) && toasts == old(toasts)
      ensures user.Some? ==> requests == old(requests) + [MarkAllUnreadRead(user.value)]
      ensures user.Some? && response.Ok? ==>
                && notifications == MarkAllRead(old(notifications))
                && UnreadCount(notifications) == 0
                && toasts == old(toasts) + [SuccessToast("All notifications marked as read")]
      ensures user.Some? && response.Err? ==>
                && notifications == old(notifications)
                && toasts == old(toasts) + [ErrorToast("Failed to mark all notifications as read")]
    {
      if user.None? {
        return;
      }
      requests := requests + [MarkAllUnreadRead(user.value)];
      match response {
        case Ok(_) =>
          notifications := MarkAllRead(notifications);
          MarkAllReadClears(old(notifications));
          toasts := toasts + [SuccessToast("All notifications marked as read")];
        case Err(_) =>
          toasts := toasts + [ErrorToast("Failed to mark all notifications as read")];
      }
    }
  }
}
