/** The database behind the services, as in-memory tables. Every table keeps
    its rows in insertion order; the store clock stands for `new Date()` and
    stamps created rows, so that a table's order is also its creation-time
    order. */
module Store {
  import opened Common

  datatype ConsumerRow = ConsumerRow(
    id: Id, email: string, password: string, displayName: string,
    name: Option<string>, phone: Option<string>, readReceiptsEnabled: bool)

  datatype OwnerRow = OwnerRow(
    id: Id, email: string, password: string, name: string,
    phone: Option<string>, readReceiptsEnabled: bool)

  /** SUPER_ADMIN, ADMIN and MODERATOR. */
  datatype AdminRole = SuperAdmin | RegularAdmin | Moderator

  /** The role's name as stored and as carried in a token. */
  function AdminRoleName(r: AdminRole): string
  {
    match r
    case SuperAdmin => "SUPER_ADMIN"
    case RegularAdmin => "ADMIN"
    case Moderator => "MODERATOR"
  }

  /** The schema default of `readReceiptsEnabled` for new consumers and owners. */
  const DefaultReadReceipts := true

  datatype AdminRow = AdminRow(id: Id, email: string, password: string, name: string, role: AdminRole)

  /** The `photos` column holds a JSON text; a text that `JSON.parse` accepts
      is represented by the list it encodes. */
  datatype PhotosText = Encoded(urls: seq<string>) | Malformed(raw: string)

  datatype Plant = Plant(
    id: Id, ownerId: Id, name: string, address: string,
    latitude: real, longitude: real,
    phone: Option<string>, description: Option<string>, tdsLevel: Option<real>,
    pricePerLiter: Option<real>, operatingHours: Option<string>,
    photos: PhotosText, isActive: bool, isVerified: bool, createdAt: int)

  datatype Conversation = Conversation(
    id: Id, consumerId: Id, ownerId: Id, plantId: Id,
    createdAt: int, lastMessageAt: Option<int>)

  datatype Message = Message(
    id: Id, conversationId: Id, senderType: Role, senderId: Id, content: string,
    sentAt: int, deliveredAt: Option<int>, readAt: Option<int>)

  /** NEW_MESSAGE, VERIFICATION_APPROVED and VERIFICATION_REJECTED. */
  datatype NotificationKind = NewMessage | VerificationApproved | VerificationRejected

  datatype Notification = Notification(
    id: Id, ownerId: Id, kind: NotificationKind, title: string, message: string,
    isRead: bool, createdAt: int)

  /** PENDING, APPROVED and REJECTED. */
  datatype RequestStatus = Pending | Approved | Rejected

  datatype VerificationRequest = VerificationRequest(
    id: Id, plantId: Id, documents: seq<string>, notes: Option<string>,
    status: RequestStatus, rejectionReason: Option<string>,
    reviewedAt: Option<int>, reviewerId: Option<Id>, createdAt: int)

  datatype ViewLog = ViewLog(plantId: Id, consumerId: Option<Id>, viewedAt: int)

  /** `parsePhotos`: the list a stored text encodes, or `[]` for a text
      `JSON.parse` rejects. */
  function ParsePhotos(photos: PhotosText): (urls: seq<string>)
    ensures photos.Malformed? ==> urls == []
  {
    match photos
    case Encoded(list) => list
    case Malformed(_) => []
  }

  /** `JSON.stringify` of a list of URLs. */
  function Stringify(urls: seq<string>): (text: PhotosText)
    ensures text.Encoded?
  {
    Encoded(urls)
  }

  /** Writing a list and reading it back gives the same list. */
  lemma StringifyRoundTrip(urls: seq<string>)
    ensures ParsePhotos(Stringify(urls)) == urls
  {
  }

  /** Where the most recent request for a plant sits: the last position in
      the table, which keeps creation order, holding a request for it. */
  function LatestRequestIndex(requests: seq<VerificationRequest>, plantId: Id): (k: Option<nat>)
    ensures k.Some? ==> k.value < |requests| && requests[k.value].plantId == plantId
    ensures k.Some? ==> forall j :: k.value < j < |requests| ==> requests[j].plantId != plantId
    ensures k.None? <==> forall i :: 0 <= i < |requests| ==> requests[i].plantId != plantId
  {
    if requests == [] then None
    else if requests[|requests| - 1].plantId == plantId then Some(|requests| - 1)
    else LatestRequestIndex(requests[..|requests| - 1], plantId)
  }

  /** The most recent request for a plant. */
  function LatestRequest(requests: seq<VerificationRequest>, plantId: Id): (r: Option<VerificationRequest>)
    ensures r.Some? ==> r.value in requests && r.value.plantId == plantId
    ensures r.None? <==> forall i :: 0 <= i < |requests| ==> requests[i].plantId != plantId
    ensures r.Some? ==>
      exists i :: 0 <= i < |requests| && requests[i] == r.value &&
        forall j :: i < j < |requests| ==> requests[j].plantId != plantId
  {
    match LatestRequestIndex(requests, plantId)
    case None => None
    case Some(k) => Some(requests[k])
  }

  const PlantNotFound := Error(NotFound, "Plant not found")

  /** `findFirst({where: {id, ownerId}})`. */
  function OwnedPlant(plants: seq<Plant>, ownerId: Id, id: Id): (k: Option<nat>)
    ensures k.Some? ==> k.value < |plants| && plants[k.value].id == id && plants[k.value].ownerId == ownerId
    ensures k.None? <==> forall j :: 0 <= j < |plants| ==> !(plants[j].id == id && plants[j].ownerId == ownerId)
  {
    Find(plants, (p: Plant) => p.id == id && p.ownerId == ownerId)
  }
  lemma AppendNotificationKeepsValid(notifications: seq<Notification>, n: Notification, clock: int)
    requires NotificationsOk(notifications, clock)
    requires forall i :: 0 <= i < |notifications| ==> notifications[i].id != n.id
    requires n.createdAt == clock
    ensures NotificationsOk(notifications + [n], clock)
  {
  }
  /** `plant.findUnique({where: {id}})`. */
  function PlantIndex(plants: seq<Plant>, id: Id): (k: Option<nat>)
    ensures k.Some? ==> k.value < |plants| && plants[k.value].id == id
    ensures k.None? <==> forall j :: 0 <= j < |plants| ==> plants[j].id != id
  {
    Find(plants, (p: Plant) => p.id == id)
  }

  /** Every request names an existing plant (the foreign key of the
      request's plant relation). */
  predicate RequestPlantsExist(requests: seq<VerificationRequest>, plants: seq<Plant>)
  {
    forall i :: 0 <= i < |requests| ==> PlantIndex(plants, requests[i].plantId).Some?
  }

  /** A pending request of the plant, if any. */
  function PendingFor(requests: seq<VerificationRequest>, plantId: Id): (k: Option<nat>)
    ensures k.Some? ==> k.value < |requests| && requests[k.value].plantId == plantId && requests[k.value].status == Pending
    ensures k.None? <==> forall j :: 0 <= j < |requests| ==> !(requests[j].plantId == plantId && requests[j].status == Pending)
  {
    Find(requests, (r: VerificationRequest) => r.plantId == plantId && r.status == Pending)
  }

  /** No plant has two pending verification requests. */
  predicate SinglePending(requests: seq<VerificationRequest>)
  {
    forall i, j :: 0 <= i < j < |requests| && requests[i].status == Pending && requests[j].status == Pending
      ==> requests[i].plantId != requests[j].plantId
  }

  /** No two rows share a key (a unique column). */
  predicate UniqueBy<T, K(==)>(s: seq<T>, key: T -> K)
  {
    forall i, j :: 0 <= i < j < |s| ==> key(s[i]) != key(s[j])
  }

  /** Appending a row with a new key keeps the keys unique. */
  lemma UniqueAppend<T, K>(s: seq<T>, x: T, key: T -> K)
    requires UniqueBy(s, key)
    requires forall i :: 0 <= i < |s| ==> key(s[i]) != key(x)
    ensures UniqueBy(s + [x], key)
  {
    var t := s + [x];
    forall i, j | 0 <= i < j < |t| ensures key(t[i]) != key(t[j]) {
      if j < |s| {
        assert t[i] == s[i] && t[j] == s[j];
      } else {
        assert t[i] == s[i] && t[j] == x;
      }
    }
  }

  /** Rewriting a row without touching its key keeps the keys unique. */
  lemma UniqueUpdate<T, K>(s: seq<T>, k: nat, x: T, key: T -> K)
    requires UniqueBy(s, key) && k < |s| && key(x) == key(s[k])
    ensures UniqueBy(s[k := x], key)
  {
    var t := s[k := x];
    forall i, j | 0 <= i < j < |t| ensures key(t[i]) != key(t[j]) {
      assert key(t[i]) == key(s[i]) && key(t[j]) == key(s[j]);
    }
  }

  /** Rewriting a row with a key no other row holds keeps the keys unique. */
  lemma UniqueUpdateFresh<T, K>(s: seq<T>, k: nat, x: T, key: T -> K)
    requires UniqueBy(s, key) && k < |s|
    requires forall j :: 0 <= j < |s| && j != k ==> key(s[j]) != key(x)
    ensures UniqueBy(s[k := x], key)
  {
    var t := s[k := x];
    forall i, j | 0 <= i < j < |t| ensures key(t[i]) != key(t[j]) {
      if i != k && j != k {
        assert t[i] == s[i] && t[j] == s[j];
      }
    }
  }

  /** The message a participant may send: a consumer in the conversation's
      consumer seat, an owner in its owner seat. */
  predicate IsParticipant(c: Conversation, role: Role, userId: Id)
  {
    (role == Consumer && c.consumerId == userId) || (role == Owner && c.ownerId == userId)
  }

  /** Messages are stamped in clock order, their delivery and read stamps are
      never earlier than their sending nor later than now, and each was sent by
      a participant of its conversation. */
  predicate MessagesOk(conversations: seq<Conversation>, messages: seq<Message>, clock: int)
  {
    (forall i, j :: 0 <= i < j < |messages| ==> messages[i].sentAt <= messages[j].sentAt) &&
    (forall i :: 0 <= i < |messages| ==> StampsOk(messages[i], clock)) &&
    (forall i, k ::
      0 <= i < |messages| && 0 <= k < |conversations| && conversations[k].id == messages[i].conversationId
      ==> IsParticipant(conversations[k], messages[i].senderType, messages[i].senderId))
  }

  predicate StampsOk(m: Message, clock: int)
  {
    m.sentAt <= clock &&
    (m.deliveredAt.Some? ==> m.sentAt <= m.deliveredAt.value <= clock) &&
    (m.readAt.Some? ==> m.sentAt <= m.readAt.value <= clock)
  }

  predicate NotificationsOk(notifications: seq<Notification>, clock: int)
  {
    UniqueBy(notifications, (n: Notification) => n.id) &&
    (forall i, j :: 0 <= i < j < |notifications| ==> notifications[i].createdAt <= notifications[j].createdAt) &&
    (forall i :: 0 <= i < |notifications| ==> notifications[i].createdAt <= clock)
  }

  predicate ConsumersOk(consumers: seq<ConsumerRow>)
  {
    UniqueBy(consumers, (c: ConsumerRow) => c.id) &&
    UniqueBy(consumers, (c: ConsumerRow) => c.email) &&
    UniqueBy(consumers, (c: ConsumerRow) => c.displayName)
  }

  predicate OwnersOk(owners: seq<OwnerRow>)
  {
    UniqueBy(owners, (o: OwnerRow) => o.id) && UniqueBy(owners, (o: OwnerRow) => o.email)
  }

  predicate AdminsOk(admins: seq<AdminRow>)
  {
    UniqueBy(admins, (a: AdminRow) => a.id) && UniqueBy(admins, (a: AdminRow) => a.email)
  }

  predicate ConversationsOk(conversations: seq<Conversation>)
  {
    UniqueBy(conversations, (c: Conversation) => c.id) &&
    UniqueBy(conversations, (c: Conversation) => (c.consumerId, c.plantId))
  }

  class Db {
    var consumers: seq<ConsumerRow>
    var owners: seq<OwnerRow>
    var admins: seq<AdminRow>
    var plants: seq<Plant>
    var conversations: seq<Conversation>
    var messages: seq<Message>
    var notifications: seq<Notification>
    var requests: seq<VerificationRequest>
    var viewLogs: seq<ViewLog>
    /** The current time in milliseconds; it never runs backwards. */
    var clock: int

    ghost predicate Valid()
      reads this
    {
      ConsumersOk(consumers) && OwnersOk(owners) && AdminsOk(admins) &&
      UniqueBy(plants, (p: Plant) => p.id) &&
      ConversationsOk(conversations) &&
      UniqueBy(messages, (m: Message) => m.id) &&
      MessagesOk(conversations, messages, clock) &&
      NotificationsOk(notifications, clock) &&
      UniqueBy(requests, (r: VerificationRequest) => r.id)
    }

    constructor (now: int)
      ensures Valid() && clock == now
      ensures consumers == [] && owners == [] && admins == [] && plants == []
      ensures conversations == [] && messages == [] && notifications == []
      ensures requests == [] && viewLogs == []
    {
      consumers, owners, admins, plants := [], [], [], [];
      conversations, messages, notifications := [], [], [];
      requests, viewLogs := [], [];
      clock := now;
    }

    /** Time passes between requests. */
    method Tick(elapsed: nat)
      requires Valid()
      modifies this`clock
      ensures Valid() && clock == old(clock) + elapsed
    {
      clock := clock + elapsed;
    }
  }
}
