/** `v1/owner/notifications`: an owner's notifications, newest first, with
    the number still unread, and the two ways of marking them read. */
module OwnerNotificationsController {
  import opened Common
  import opened QueryParams
  import opened Store

  const NotificationNotFound := Error(NotFound, "Notification not found")
  const AllReadMessage := "All notifications marked as read"

  // ---------------------------------------------------------------------
  // Listing

  datatype NotificationList = NotificationList(notifications: seq<Notification>, unreadCount: nat, meta: Meta)

  /** The `where` of the listing: the caller's notifications, and only the
      unread ones when `unreadOnly` is exactly "true". */
  predicate Listed(n: Notification, ownerId: Id, unreadOnly: string)
  {
    n.ownerId == ownerId && (unreadOnly == "true" ==> !n.isRead)
  }

  predicate UnreadOf(n: Notification, ownerId: Id)
  {
    n.ownerId == ownerId && !n.isRead
  }

  /** The rows the listing's `where` selects, newest first. */
  function Selection(notifications: seq<Notification>, ownerId: Id, unreadOnly: string): (q: seq<Notification>)
    ensures forall n :: n in q ==> n in notifications && Listed(n, ownerId, unreadOnly)
    ensures forall i :: 0 <= i < |notifications| && Listed(notifications[i], ownerId, unreadOnly) ==> notifications[i] in q
    ensures |q| == Count(notifications, (n: Notification) => Listed(n, ownerId, unreadOnly))
  {
    var kept := Filter(notifications, (n: Notification) => Listed(n, ownerId, unreadOnly));
    ReverseSameElements(kept);
    Reverse(kept)
  }

  /** GET: page ≥ 1 (default 1), limit in [1, 50] (default 20); the unread
      count ignores the page and the filter. */
  function GetNotifications(notifications: seq<Notification>, ownerId: Id,
                            page: string, limit: string, unreadOnly: string): (r: NotificationList)
    ensures var p := Paginate(page, limit, 20, 50);
      r.meta == MetaOf(p, Count(notifications, (n: Notification) => Listed(n, ownerId, unreadOnly))) &&
      r.notifications == TakePage(Selection(notifications, ownerId, unreadOnly), p.skip, p.limit) &&
      |r.notifications| <= p.limit
    ensures forall n :: n in r.notifications ==> n in notifications && Listed(n, ownerId, unreadOnly)
    ensures r.unreadCount == Count(notifications, (n: Notification) => UnreadOf(n, ownerId))
  {
    var p := Paginate(page, limit, 20, 50);
    var q := Selection(notifications, ownerId, unreadOnly);
    var shown := TakePage(q, p.skip, p.limit);
    assert forall n :: n in shown ==> n in q;
    NotificationList(shown, Count(notifications, (n: Notification) => UnreadOf(n, ownerId)), MetaOf(p, |q|))
  }

  /** Rows in non-decreasing creation order. */
  predicate Oldest(ns: seq<Notification>)
  {
    forall i, j :: 0 <= i < j < |ns| ==> ns[i].createdAt <= ns[j].createdAt
  }

  lemma {:induction false} FilterKeepsOldestFirst(ns: seq<Notification>, p: Notification -> bool)
    requires Oldest(ns)
    ensures Oldest(Filter(ns, p))
  {
    if ns != [] {
      FilterKeepsOldestFirst(ns[1..], p);
      var rest := Filter(ns[1..], p);
      forall i | 0 <= i < |rest| ensures ns[0].createdAt <= rest[i].createdAt {
        assert rest[i] in ns[1..];
      }
    }
  }

  /** Rows in non-increasing creation order. */
  predicate Newest(ns: seq<Notification>)
  {
    forall i, j :: 0 <= i < j < |ns| ==> ns[i].createdAt >= ns[j].createdAt
  }

  lemma ReverseOldestIsNewest(ns: seq<Notification>)
    requires Oldest(ns)
    ensures Newest(Reverse(ns))
  {
    var r := Reverse(ns);
    forall i, j | 0 <= i < j < |r| ensures r[i].createdAt >= r[j].createdAt {
      assert r[i] == ns[|ns| - 1 - i] && r[j] == ns[|ns| - 1 - j];
    }
  }

  lemma PageOfNewest(ns: seq<Notification>, skip: nat, take: nat)
    requires Newest(ns)
    ensures Newest(TakePage(ns, skip, take))
  {
    var page := TakePage(ns, skip, take);
    forall i, j | 0 <= i < j < |page| ensures page[i].createdAt >= page[j].createdAt {
      assert page[i] == ns[skip + i] && page[j] == ns[skip + j];
    }
  }

  /** The page comes newest first (`orderBy: {createdAt: 'desc'}`), because
      the table is kept in creation order. */
  lemma ListingNewestFirst(notifications: seq<Notification>, clock: int, ownerId: Id,
                           page: string, limit: string, unreadOnly: string)
    requires NotificationsOk(notifications, clock)
    ensures Newest(GetNotifications(notifications, ownerId, page, limit, unreadOnly).notifications)
  {
    var p := Paginate(page, limit, 20, 50);
    assert Oldest(notifications);
    FilterKeepsOldestFirst(notifications, (n: Notification) => Listed(n, ownerId, unreadOnly));
    ReverseOldestIsNewest(Filter(notifications, (n: Notification) => Listed(n, ownerId, unreadOnly)));
    PageOfNewest(Selection(notifications, ownerId, unreadOnly), p.skip, p.limit);
  }

  // ---------------------------------------------------------------------
  // Marking read

  /** Rows that keep their ids and creation times leave the table valid. */
  lemma SameStampsKeepOk(before: seq<Notification>, after: seq<Notification>, clock: int)
    requires NotificationsOk(before, clock) && |after| == |before|
    requires forall i :: 0 <= i < |before| ==> after[i].id == before[i].id && after[i].createdAt == before[i].createdAt
    ensures NotificationsOk(after, clock)
  {
    assert forall i, j :: 0 <= i < j < |after| ==> after[i].id == before[i].id && after[j].id == before[j].id;
  }

  function OwnedNotification(notifications: seq<Notification>, ownerId: Id, id: Id): (k: Option<nat>)
    ensures k.Some? ==> k.value < |notifications| && notifications[k.value].id == id && notifications[k.value].ownerId == ownerId
    ensures k.None? <==> forall j :: 0 <= j < |notifications| ==> !(notifications[j].id == id && notifications[j].ownerId == ownerId)
  {
    Find(notifications, (n: Notification) => n.id == id && n.ownerId == ownerId)
  }

  /** POST :id/read: only the caller's notification; marking one already
      read changes nothing. */
  method MarkAsRead(db: Db, ownerId: Id, id: Id) returns (r: Result<Notification>)
    requires db.Valid()
    modifies db`notifications
    ensures db.Valid()
    ensures OwnedNotification(old(db.notifications), ownerId, id).None? ==>
      r == Err(NotificationNotFound) && db.notifications == old(db.notifications)
    ensures OwnedNotification(old(db.notifications), ownerId, id).Some? ==>
      var k := OwnedNotification(old(db.notifications), ownerId, id).value;
      r == Ok(old(db.notifications)[k].(isRead := true)) &&
      db.notifications == old(db.notifications)[k := old(db.notifications)[k].(isRead := true)]
    ensures OwnedNotification(old(db.notifications), ownerId, id).Some? ==>
      var k := OwnedNotification(old(db.notifications), ownerId, id).value;
      old(db.notifications)[k].isRead ==> db.notifications == old(db.notifications)
  {
    var found := OwnedNotification(db.notifications, ownerId, id);
    if found.None? {
      return Err(NotificationNotFound);
    }
    var k := found.value;
    var updated := db.notifications[k].(isRead := true);
    SameStampsKeepOk(db.notifications, db.notifications[k := updated], db.clock);
    db.notifications := db.notifications[k := updated];
    r := Ok(updated);
  }

  /** `updateMany`: every unread notification of the owner becomes read. */
  function AllRead(notifications: seq<Notification>, ownerId: Id): (r: seq<Notification>)
    ensures |r| == |notifications|
    ensures forall i :: 0 <= i < |r| ==>
      r[i] == if UnreadOf(notifications[i], ownerId) then notifications[i].(isRead := true) else notifications[i]
  {
    seq(|notifications|, i requires 0 <= i < |notifications| =>
      if UnreadOf(notifications[i], ownerId) then notifications[i].(isRead := true) else notifications[i])
  }

  /** POST read-all. */
  method MarkAllAsRead(db: Db, ownerId: Id) returns (message: string)
    requires db.Valid()
    modifies db`notifications
    ensures db.Valid()
    ensures db.notifications == AllRead(old(db.notifications), ownerId)
    ensures message == AllReadMessage
  {
    var after := AllRead(db.notifications, ownerId);
    SameStampsKeepOk(db.notifications, after, db.clock);
    db.notifications := after;
    message := AllReadMessage;
  }

  /** After read-all the owner has nothing unread, and every other owner's
      notifications are as they were. */
  lemma AllReadLeavesNothingUnread(notifications: seq<Notification>, ownerId: Id)
    ensures Count(AllRead(notifications, ownerId), (n: Notification) => UnreadOf(n, ownerId)) == 0
    ensures forall i :: 0 <= i < |notifications| && notifications[i].ownerId != ownerId ==>
      AllRead(notifications, ownerId)[i] == notifications[i]
  {
    CountZero(AllRead(notifications, ownerId), (n: Notification) => UnreadOf(n, ownerId));
  }

  /** Read-all twice is read-all once. */
  lemma AllReadIdempotent(notifications: seq<Notification>, ownerId: Id)
    ensures AllRead(AllRead(notifications, ownerId), ownerId) == AllRead(notifications, ownerId)
  {
    var once := AllRead(notifications, ownerId);
    assert forall i :: 0 <= i < |once| ==> !UnreadOf(once[i], ownerId);
  }
}
