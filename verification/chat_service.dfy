/** The chat service: one conversation per (consumer, plant), paginated
    message listing with the read-receipt privacy rule, sending, batch
    read-marking and the unread counters. */
module ChatService {
  import opened Common
  import opened Store
  import opened Sync

  // ---------------------------------------------------------------------
  // Lookups

  function ConversationById(conversations: seq<Conversation>, id: Id): (c: Option<Conversation>)
    ensures c.Some? ==> c.value in conversations && c.value.id == id
    ensures c.None? ==> forall k :: 0 <= k < |conversations| ==> conversations[k].id != id
  {
    match Find(conversations, (c: Conversation) => c.id == id)
    case None => None
    case Some(k) => Some(conversations[k])
  }

  function PlantById(plants: seq<Plant>, id: Id): (p: Option<Plant>)
    ensures p.Some? ==> p.value in plants && p.value.id == id
    ensures p.None? ==> forall k :: 0 <= k < |plants| ==> plants[k].id != id
  {
    match Find(plants, (p: Plant) => p.id == id)
    case None => None
    case Some(k) => Some(plants[k])
  }

  function ConsumerById(consumers: seq<ConsumerRow>, id: Id): (c: Option<ConsumerRow>)
    ensures c.Some? ==> c.value in consumers && c.value.id == id
    ensures c.None? ==> forall k :: 0 <= k < |consumers| ==> consumers[k].id != id
  {
    match Find(consumers, (c: ConsumerRow) => c.id == id)
    case None => None
    case Some(k) => Some(consumers[k])
  }

  function OwnerById(owners: seq<OwnerRow>, id: Id): (o: Option<OwnerRow>)
    ensures o.Some? ==> o.value in owners && o.value.id == id
    ensures o.None? ==> forall k :: 0 <= k < |owners| ==> owners[k].id != id
  {
    match Find(owners, (o: OwnerRow) => o.id == id)
    case None => None
    case Some(k) => Some(owners[k])
  }

  // ---------------------------------------------------------------------
  // Access

  /** `verifyConversationAccess`: false for an unknown conversation; a
      consumer must hold the consumer seat, and any other caller the owner
      seat. */
  function VerifyConversationAccess(conversations: seq<Conversation>, conversationId: Id, userId: Id, userType: Role): (ok: bool)
    ensures ConversationById(conversations, conversationId).None? ==> !ok
    ensures userType != Admin ==> (ok <==>
      ConversationById(conversations, conversationId).Some? &&
      IsParticipant(ConversationById(conversations, conversationId).value, userType, userId))
    ensures userType == Admin ==> (ok <==>
      ConversationById(conversations, conversationId).Some? &&
      ConversationById(conversations, conversationId).value.ownerId == userId)
  {
    match ConversationById(conversations, conversationId)
    case None => false
    case Some(c) => if userType == Consumer then c.consumerId == userId else c.ownerId == userId
  }

  /** The participant check as written inline in getMessages, sendMessage
      and markAsRead: it only refuses a consumer or an owner in the wrong
      seat, so any other user type passes it. */
  function AccessDeniedAsWritten(c: Conversation, userId: Id, userType: Role): (denied: bool)
    ensures denied ==> !IsParticipant(c, userType, userId)
    ensures userType == Admin ==> !denied
    ensures userType != Admin && !IsParticipant(c, userType, userId) ==> denied
  {
    (userType == Consumer && c.consumerId != userId) || (userType == Owner && c.ownerId != userId)
  }

  /** What the inline check lets through: an admin identity, for every
      conversation, although an admin is not a participant of any. */
  lemma InlineCheckAdmitsAdmin(c: Conversation, adminId: Id)
    ensures !AccessDeniedAsWritten(c, adminId, Admin)
    ensures !IsParticipant(c, Admin, adminId)
  {
  }

  /** The participant check the service uses: only the conversation's own
      consumer or owner gets in. For consumers and owners it agrees with the
      inline check. */
  function AccessDenied(c: Conversation, userId: Id, userType: Role): (denied: bool)
    ensures denied <==> !IsParticipant(c, userType, userId)
    ensures userType != Admin ==> denied == AccessDeniedAsWritten(c, userId, userType)
  {
    !IsParticipant(c, userType, userId)
  }

  /** The two checks that open getMessages, sendMessage and markAsRead:
      NotFound for an unknown conversation, then Forbidden for a caller who
      is not one of its participants. */
  function CheckAccess(conversations: seq<Conversation>, conversationId: Id, userId: Id, userType: Role): (r: Result<Conversation>)
    ensures ConversationById(conversations, conversationId).None?
      <==> r == Err(Error(NotFound, "Conversation not found"))
    ensures ConversationById(conversations, conversationId).Some?
      ==> (AccessDenied(ConversationById(conversations, conversationId).value, userId, userType)
           <==> r == Err(Error(Forbidden, "Access denied to this conversation")))
    ensures r.Ok? ==> r.value in conversations && r.value.id == conversationId && IsParticipant(r.value, userType, userId)
  {
    match ConversationById(conversations, conversationId)
    case None => Err(Error(NotFound, "Conversation not found"))
    case Some(c) =>
      if AccessDenied(c, userId, userType) then Err(Error(Forbidden, "Access denied to this conversation"))
      else Ok(c)
  }

  // ---------------------------------------------------------------------
  // Read-receipt visibility

  datatype MessageView = MessageView(
    id: Id, conversationId: Id, senderType: Role, senderId: Id, content: string,
    sentAt: int, deliveredAt: Option<int>, readAt: Option<int>)

  /** A message as `viewer` is shown it. On the viewer's own messages the read
      stamp is shown only if the other party allows read receipts; on
      received messages it is always shown; the delivery stamp is never
      hidden. */
  function ViewOf(m: Message, viewer: Role, otherAllowsReceipts: bool): (v: MessageView)
    ensures v.id == m.id && v.conversationId == m.conversationId && v.content == m.content
    ensures v.senderType == m.senderType && v.senderId == m.senderId && v.sentAt == m.sentAt
    ensures v.deliveredAt == m.deliveredAt
    ensures m.senderType != viewer ==> v.readAt == m.readAt
    ensures m.senderType == viewer ==> (v.readAt == if otherAllowsReceipts then m.readAt else None)
  {
    var showReadAt := if m.senderType == viewer then otherAllowsReceipts else true;
    MessageView(m.id, m.conversationId, m.senderType, m.senderId, m.content,
      m.sentAt, m.deliveredAt, if showReadAt then m.readAt else None)
  }

  function Views(ms: seq<Message>, viewer: Role, otherAllowsReceipts: bool): (vs: seq<MessageView>)
    ensures |vs| == |ms|
    ensures forall i :: 0 <= i < |ms| ==> vs[i] == ViewOf(ms[i], viewer, otherAllowsReceipts)
  {
    seq(|ms|, i requires 0 <= i < |ms| => ViewOf(ms[i], viewer, otherAllowsReceipts))
  }

  /** The flag that decides what `viewer` sees of their own messages: the
      other party's `readReceiptsEnabled` (a missing row reads as enabled). */
  function OtherPartyAllows(consumers: seq<ConsumerRow>, owners: seq<OwnerRow>, c: Conversation, viewer: Role): (allows: bool)
    ensures !allows && viewer == Consumer ==> exists o :: o in owners && o.id == c.ownerId && !o.readReceiptsEnabled
    ensures !allows && viewer != Consumer ==> exists x :: x in consumers && x.id == c.consumerId && !x.readReceiptsEnabled
    ensures viewer == Consumer && (forall o :: o in owners && o.id == c.ownerId ==> o.readReceiptsEnabled) ==> allows
    ensures viewer != Consumer && (forall x :: x in consumers && x.id == c.consumerId ==> x.readReceiptsEnabled) ==> allows
  {
    if viewer == Consumer then
      (match OwnerById(owners, c.ownerId) case None => true case Some(o) => o.readReceiptsEnabled)
    else
      (match ConsumerById(consumers, c.consumerId) case None => true case Some(x) => x.readReceiptsEnabled)
  }

  /** The privacy rule end to end: a read message of one party, seen by its
      sender, shows its read stamp exactly when the reader allows receipts,
      while the reader always sees it as read. */
  lemma ReadReceiptPrivacy(m: Message, readerAllows: bool)
    requires m.senderType == Consumer || m.senderType == Owner
    requires m.readAt.Some?
    ensures ViewOf(m, m.senderType, readerAllows).readAt.Some? <==> readerAllows
    ensures ViewOf(m, if m.senderType == Consumer then Owner else Consumer, readerAllows).readAt == m.readAt
    ensures ViewOf(m, m.senderType, readerAllows).deliveredAt == m.deliveredAt
  {
  }

  // ---------------------------------------------------------------------
  // Pagination

  /** `if (before)`: a non-empty cursor is looked up by message id, in any
      conversation; the time of the message it names, if there is one. */
  function CursorTime(messages: seq<Message>, before: Option<string>): (t: Option<int>)
    ensures t.Some? ==> before.Some? && exists i :: 0 <= i < |messages| && messages[i].id == before.value && messages[i].sentAt == t.value
    ensures before.Some? && before.value != "" && (exists i :: 0 <= i < |messages| && messages[i].id == before.value) ==> t.Some?
    ensures before.None? || before.value == "" ==> t.None?
  {
    if before.Some? && before.value != "" then
      match Find(messages, (m: Message) => m.id == before.value)
      case None => None
      case Some(i) => Some(messages[i].sentAt)
    else None
  }

  /** The rows the listing query matches: the conversation's messages,
      strictly earlier than the cursor's time when the cursor resolved. */
  predicate Matches(m: Message, conversationId: Id, cursor: Option<int>)
  {
    m.conversationId == conversationId && (cursor.None? || m.sentAt < cursor.value)
  }

  function Matching(messages: seq<Message>, conversationId: Id, cursor: Option<int>): (ms: seq<Message>)
    ensures forall m :: m in ms ==> m in messages && Matches(m, conversationId, cursor)
  {
    Filter(messages, (m: Message) => Matches(m, conversationId, cursor))
  }

  /** Rows skipped: none whenever a cursor is given, even one that does not
      resolve; (page - 1) * limit otherwise. */
  function Offset(before: Option<string>, page: nat, limit: nat): (o: nat)
    requires page >= 1
    ensures o <= (page - 1) * limit
    ensures page == 1 ==> o == 0
    ensures before.Some? && before.value != "" ==> o == 0
    ensures before.None? || before.value == "" ==> o == (page - 1) * limit
  {
    if before.Some? && before.value != "" then 0 else (page - 1) * limit
  }

  /** The page, oldest first: of the matching rows in ascending order, the up
      to `limit` rows that end `offset` rows before the newest. */
  function Window(asc: seq<Message>, offset: nat, limit: nat): (w: seq<Message>)
    ensures |w| <= limit
    ensures |w| == if offset >= |asc| then 0 else Min(limit, |asc| - offset)
    ensures offset < |asc| ==> w == asc[|asc| - offset - |w|..|asc| - offset]
  {
    if offset >= |asc| then []
    else asc[|asc| - offset - Min(limit, |asc| - offset)..|asc| - offset]
  }

  function Min(a: int, b: int): int { if a < b then a else b }

  predicate SortedBySentAt(ms: seq<Message>)
  {
    forall i, j :: 0 <= i < j < |ms| ==> ms[i].sentAt <= ms[j].sentAt
  }

  lemma {:induction false} FilterKeepsOrder(ms: seq<Message>, p: Message -> bool)
    requires SortedBySentAt(ms)
    ensures SortedBySentAt(Filter(ms, p))
  {
    if ms != [] {
      FilterKeepsOrder(ms[1..], p);
      var rest := Filter(ms[1..], p);
      forall i | 0 <= i < |rest| ensures ms[0].sentAt <= rest[i].sentAt {
        assert rest[i] in ms[1..];
      }
    }
  }

  /** Pages come out in ascending time order and every row lies strictly
      before a resolved cursor. */
  lemma WindowProperties(messages: seq<Message>, conversationId: Id, cursor: Option<int>, offset: nat, limit: nat)
    requires SortedBySentAt(messages)
    ensures var w := Window(Matching(messages, conversationId, cursor), offset, limit);
      SortedBySentAt(w) &&
      forall m :: m in w ==> m.conversationId == conversationId && (cursor.Some? ==> m.sentAt < cursor.value)
  {
    var asc := Matching(messages, conversationId, cursor);
    FilterKeepsOrder(messages, (m: Message) => Matches(m, conversationId, cursor));
    var w := Window(asc, offset, limit);
    if offset < |asc| {
      forall m | m in w ensures m in asc {
        var i :| 0 <= i < |w| && w[i] == m;
        assert w[i] == asc[|asc| - offset - |w| + i];
      }
    }
  }

  /** Successive offset pages tile the matching rows from the newest
      backwards: page p + 1 ends exactly where page p begins. */
  lemma PagesAreAdjacent(asc: seq<Message>, page: nat, limit: nat)
    requires page >= 1 && limit >= 1
    requires page * limit <= |asc|
    ensures Window(asc, page * limit, limit) + Window(asc, (page - 1) * limit, limit)
      == asc[|asc| - page * limit - Min(limit, |asc| - page * limit)..|asc| - (page - 1) * limit]
  {
  }


  datatype ConversationInfo = ConversationInfo(
    id: Id, plantId: Id, plantName: Option<string>, plantAddress: Option<string>,
    otherPartyName: Option<string>)

  datatype MessagePage = MessagePage(messages: seq<MessageView>, hasMore: bool, conversation: ConversationInfo)

  /** For a consumer the other party is named by the owner's name; for an
      owner, by the consumer's display name. */
  function OtherPartyName(consumers: seq<ConsumerRow>, owners: seq<OwnerRow>, c: Conversation, viewer: Role): Option<string>
  {
    if viewer == Consumer then
      (match OwnerById(owners, c.ownerId) case None => None case Some(o) => Some(o.name))
    else
      (match ConsumerById(consumers, c.consumerId) case None => None case Some(x) => Some(x.displayName))
  }

  function InfoOf(db_plants: seq<Plant>, consumers: seq<ConsumerRow>, owners: seq<OwnerRow>, c: Conversation, viewer: Role): ConversationInfo
  {
    var p := PlantById(db_plants, c.plantId);
    ConversationInfo(c.id, c.plantId,
      if p.Some? then Some(p.value.name) else None,
      if p.Some? then Some(p.value.address) else None,
      OtherPartyName(consumers, owners, c, viewer))
  }

  // ---------------------------------------------------------------------
  // Read marking and unread counters

  /** The party whose messages a reader marks: the owner's for a consumer,
      the consumer's for anyone else. */
  function OtherParty(reader: Role): Role
  {
    if reader == Consumer then Owner else Consumer
  }

  predicate UnreadFrom(m: Message, conversationId: Id, sender: Role)
  {
    m.conversationId == conversationId && m.senderType == sender && m.readAt.None?
  }

  function UnreadIds(messages: seq<Message>, conversationId: Id, sender: Role): (ids: seq<Id>)
    ensures |ids| == Count(messages, (m: Message) => UnreadFrom(m, conversationId, sender))
  {
    var unread := Filter(messages, (m: Message) => UnreadFrom(m, conversationId, sender));
    seq(|unread|, i requires 0 <= i < |unread| => unread[i].id)
  }

  /** The batch update: one shared read stamp on exactly the unread messages
      of `sender` in the conversation. */
  function StampRead(messages: seq<Message>, conversationId: Id, sender: Role, now: int): (ms: seq<Message>)
    ensures |ms| == |messages|
    ensures forall i :: 0 <= i < |messages| ==>
      ms[i] == if UnreadFrom(messages[i], conversationId, sender) then messages[i].(readAt := Some(now)) else messages[i]
  {
    seq(|messages|, i requires 0 <= i < |messages| =>
      if UnreadFrom(messages[i], conversationId, sender) then messages[i].(readAt := Some(now)) else messages[i])
  }

  /** After the batch nothing from `sender` in the conversation is unread,
      so a second markAsRead finds nothing to do. */
  lemma {:induction false} StampReadClearsUnread(messages: seq<Message>, conversationId: Id, sender: Role, now: int)
    ensures Count(StampRead(messages, conversationId, sender, now), (m: Message) => UnreadFrom(m, conversationId, sender)) == 0
    ensures UnreadIds(StampRead(messages, conversationId, sender, now), conversationId, sender) == []
  {
    var ms := StampRead(messages, conversationId, sender, now);
    CountZero(ms, (m: Message) => UnreadFrom(m, conversationId, sender));
  }

  /** The batch touches no other conversation, none of the reader's own
      messages and no message already read. */
  lemma StampReadFrame(messages: seq<Message>, conversationId: Id, sender: Role, now: int, i: nat)
    requires i < |messages|
    requires messages[i].conversationId != conversationId || messages[i].senderType != sender || messages[i].readAt.Some?
    ensures StampRead(messages, conversationId, sender, now)[i] == messages[i]
  {
  }

  function IdsOfConversationsWhere(conversations: seq<Conversation>, p: Conversation -> bool): set<Id>
  {
    set k | 0 <= k < |conversations| && p(conversations[k]) :: conversations[k].id
  }

  /** `getOwnerUnreadCount`: consumer messages not yet read, over all of the
      owner's conversations. */
  function OwnerUnreadCount(conversations: seq<Conversation>, messages: seq<Message>, ownerId: Id): (n: nat)
    ensures n <= |messages|
  {
    var ids := IdsOfConversationsWhere(conversations, (c: Conversation) => c.ownerId == ownerId);
    Count(messages, (m: Message) => m.conversationId in ids && m.senderType == Consumer && m.readAt.None?)
  }

  /** `getConsumerUnreadCount`: owner messages not yet read, over all of the
      consumer's conversations. */
  function ConsumerUnreadCount(conversations: seq<Conversation>, messages: seq<Message>, consumerId: Id): (n: nat)
    ensures n <= |messages|
  {
    var ids := IdsOfConversationsWhere(conversations, (c: Conversation) => c.consumerId == consumerId);
    Count(messages, (m: Message) => m.conversationId in ids && m.senderType == Owner && m.readAt.None?)
  }

  /** The unread badge of one conversation as one party sees it. */
  function ConversationUnread(messages: seq<Message>, conversationId: Id, from: Role): (n: nat)
    ensures n <= |messages|
  {
    Count(messages, (m: Message) => UnreadFrom(m, conversationId, from))
  }

  // ---------------------------------------------------------------------
  // Operations

  /** Reading `k` rows from `skip` in newest-first order and turning them
      back round gives the oldest-first slice that ends `skip` rows before
      the newest. */
  lemma ReverseSlice<T>(asc: seq<T>, skip: nat, k: nat)
    requires skip + k <= |asc|
    ensures Reverse(Reverse(asc)[skip..skip + k]) == asc[|asc| - skip - k..|asc| - skip]
  {
    var desc := Reverse(asc);
    var l := Reverse(desc[skip..skip + k]);
    var w := asc[|asc| - skip - k..|asc| - skip];
    assert |l| == |w|;
    forall i | 0 <= i < k ensures l[i] == w[i] {
      assert l[i] == desc[skip + k - 1 - i];
    }
  }

  /** The query behind `getMessages`: rows newest first, `skip` of them
      skipped, one row of look-ahead beyond `limit`; the look-ahead row is
      popped when present and the rest is put back into oldest-first order. */
  method NewestFirstWindow(asc: seq<Message>, skip: nat, limit: nat) returns (window: seq<Message>, hasMore: bool)
    ensures window == Window(asc, skip, limit)
    ensures hasMore <==> |asc| > skip + limit
  {
    var desc := Reverse(asc);
    var rows: seq<Message> := if skip >= |desc| then [] else desc[skip..skip + Min(limit + 1, |desc| - skip)];
    hasMore := |rows| > limit;
    if hasMore {
      rows := rows[..|rows| - 1];
    }
    window := Reverse(rows);
    if skip < |asc| {
      assert rows == desc[skip..skip + Min(limit, |asc| - skip)];
      ReverseSlice(asc, skip, |rows|);
    }
  }

  /** What `getMessages` answers: NotFound for an unknown conversation,
      Forbidden for a non-participant, and otherwise the window of matching
      rows, oldest first, with the privacy rule applied; `hasMore` tells
      whether a row beyond the window's limit matched. */
  function MessagesPage(conversations: seq<Conversation>, messages: seq<Message>,
                        consumers: seq<ConsumerRow>, owners: seq<OwnerRow>, plants: seq<Plant>,
                        conversationId: Id, userId: Id, userType: Role,
                        page: nat, limit: nat, before: Option<string>): (r: Result<MessagePage>)
    requires page >= 1 && limit >= 1
    ensures CheckAccess(conversations, conversationId, userId, userType).Err?
      ==> r == Err(CheckAccess(conversations, conversationId, userId, userType).error)
    ensures r.Ok? <==> CheckAccess(conversations, conversationId, userId, userType).Ok?
    ensures r.Ok? ==> |r.value.messages| <= limit
    ensures r.Ok? ==>
      var asc := Matching(messages, conversationId, CursorTime(messages, before));
      r.value.hasMore <==> |asc| > Offset(before, page, limit) + limit
    ensures r.Ok? ==>
      var c := CheckAccess(conversations, conversationId, userId, userType).value;
      var asc := Matching(messages, conversationId, CursorTime(messages, before));
      r.value.messages == Views(Window(asc, Offset(before, page, limit), limit), userType,
                                OtherPartyAllows(consumers, owners, c, userType))
  {
    match CheckAccess(conversations, conversationId, userId, userType)
    case Err(e) => Err(e)
    case Ok(c) =>
      var asc := Matching(messages, conversationId, CursorTime(messages, before));
      var offset := Offset(before, page, limit);
      Ok(MessagePage(
        Views(Window(asc, offset, limit), userType, OtherPartyAllows(consumers, owners, c, userType)),
        |asc| > offset + limit,
        InfoOf(plants, consumers, owners, c, userType)))
  }

  /** Every row of a window is one of the rows it was cut from. */
  lemma WindowWithin(asc: seq<Message>, offset: nat, limit: nat)
    ensures forall m :: m in Window(asc, offset, limit) ==> m in asc
  {
    var w := Window(asc, offset, limit);
    forall m | m in w ensures m in asc {
      var i :| 0 <= i < |w| && w[i] == m;
      assert w[i] == asc[|asc| - offset - |w| + i];
    }
  }

  /** What the viewer is shown of a window: only messages of the
      conversation, all strictly before a resolved cursor, in ascending time
      order when the store is, and the viewer's own messages show a read
      stamp only when the other party allows receipts. */
  lemma ShownWindow(messages: seq<Message>, conversationId: Id, cursor: Option<int>, offset: nat, limit: nat,
                    viewer: Role, allows: bool)
    ensures var ms := Views(Window(Matching(messages, conversationId, cursor), offset, limit), viewer, allows);
      (forall i :: 0 <= i < |ms| ==>
        ms[i].conversationId == conversationId &&
        (cursor.Some? ==> ms[i].sentAt < cursor.value) &&
        (ms[i].senderType == viewer && ms[i].readAt.Some? ==> allows)) &&
      (SortedBySentAt(messages) ==> forall i, j :: 0 <= i < j < |ms| ==> ms[i].sentAt <= ms[j].sentAt)
  {
    var asc := Matching(messages, conversationId, cursor);
    var w := Window(asc, offset, limit);
    WindowWithin(asc, offset, limit);
    assert forall i :: 0 <= i < |w| ==> w[i] in w;
    if SortedBySentAt(messages) {
      WindowProperties(messages, conversationId, cursor, offset, limit);
    }
  }

  /** The page `getMessages` answers has exactly those properties. */
  lemma PageContents(conversations: seq<Conversation>, messages: seq<Message>,
                     consumers: seq<ConsumerRow>, owners: seq<OwnerRow>, plants: seq<Plant>,
                     conversationId: Id, userId: Id, userType: Role,
                     page: nat, limit: nat, before: Option<string>)
    requires page >= 1 && limit >= 1
    requires MessagesPage(conversations, messages, consumers, owners, plants,
                          conversationId, userId, userType, page, limit, before).Ok?
    ensures var ms := MessagesPage(conversations, messages, consumers, owners, plants,
                                   conversationId, userId, userType, page, limit, before).value.messages;
      var c := CheckAccess(conversations, conversationId, userId, userType).value;
      var cursor := CursorTime(messages, before);
      (forall i :: 0 <= i < |ms| ==>
        ms[i].conversationId == conversationId &&
        (cursor.Some? ==> ms[i].sentAt < cursor.value) &&
        (ms[i].senderType == userType && ms[i].readAt.Some? ==> OtherPartyAllows(consumers, owners, c, userType))) &&
      (SortedBySentAt(messages) ==> forall i, j :: 0 <= i < j < |ms| ==> ms[i].sentAt <= ms[j].sentAt)
  {
    var c := CheckAccess(conversations, conversationId, userId, userType).value;
    ShownWindow(messages, conversationId, CursorTime(messages, before), Offset(before, page, limit), limit,
                userType, OtherPartyAllows(consumers, owners, c, userType));
  }

  /** `getMessages`: the rows are read newest first with one row of
      look-ahead, the extra row is popped, and the rest is turned back into
      oldest-first order. */
  method GetMessages(db: Db, conversationId: Id, userId: Id, userType: Role,
                     page: nat, limit: nat, before: Option<string>) returns (r: Result<MessagePage>)
    requires page >= 1 && 1 <= limit <= 100
    ensures r == MessagesPage(db.conversations, db.messages, db.consumers, db.owners, db.plants,
      conversationId, userId, userType, page, limit, before)
  {
    var access := CheckAccess(db.conversations, conversationId, userId, userType);
    if access.Err? {
      return Err(access.error);
    }
    var c := access.value;
    var asc := Matching(db.messages, conversationId, CursorTime(db.messages, before));
    var window, hasMore := NewestFirstWindow(asc, Offset(before, page, limit), limit);
    r := Ok(MessagePage(
      Views(window, userType, OtherPartyAllows(db.consumers, db.owners, c, userType)),
      hasMore,
      InfoOf(db.plants, db.consumers, db.owners, c, userType)));
  }

  /** `sendMessage`: after the checks, one message from the caller with no
      delivery or read stamp is appended, the conversation's lastMessageAt
      becomes its time, the owner gets a NEW_MESSAGE notification when the
      sender is a consumer, and message:new is always routed. */
  method SendMessage(db: Db, sync: SyncGateway, conversationId: Id, userId: Id, userType: Role,
                     content: string, messageId: Id, notificationId: Id) returns (r: Result<MessageView>)
    requires db.Valid()
    requires forall i :: 0 <= i < |db.messages| ==> db.messages[i].id != messageId
    requires forall i :: 0 <= i < |db.notifications| ==> db.notifications[i].id != notificationId
    modifies db`messages, db`conversations, db`notifications, sync`log
    ensures db.Valid()
    ensures CheckAccess(old(db.conversations), conversationId, userId, userType).Err? ==>
      r == Err(CheckAccess(old(db.conversations), conversationId, userId, userType).error) &&
      db.messages == old(db.messages) && db.conversations == old(db.conversations) &&
      db.notifications == old(db.notifications) && sync.log == old(sync.log)
    ensures CheckAccess(old(db.conversations), conversationId, userId, userType).Ok? ==>
      var m := Message(messageId, conversationId, userType, userId, content, db.clock, None, None);
      r == Ok(ViewOf(m, userType, true)) && db.messages == old(db.messages) + [m]
    ensures CheckAccess(old(db.conversations), conversationId, userId, userType).Ok? ==>
      db.conversations == SetLastMessageAt(old(db.conversations), conversationId, db.clock)
    ensures CheckAccess(old(db.conversations), conversationId, userId, userType).Ok? ==>
      var c := CheckAccess(old(db.conversations), conversationId, userId, userType).value;
      db.notifications == old(db.notifications) + NewMessageNotices(c, userType, notificationId, db.clock)
    ensures CheckAccess(old(db.conversations), conversationId, userId, userType).Ok? ==>
      sync.log == old(sync.log) + NewMessageRoute(CheckAccess(old(db.conversations), conversationId, userId, userType).value)
  {
    var access := CheckAccess(db.conversations, conversationId, userId, userType);
    if access.Err? {
      return Err(access.error);
    }
    var c := access.value;
    var m := Message(messageId, conversationId, userType, userId, content, db.clock, None, None);
    RecordMessage(db, m);
    var notices := NewMessageNotices(c, userType, notificationId, db.clock);
    if userType == Consumer {
      AppendNotificationKeepsValid(db.notifications, notices[0], db.clock);
      db.notifications := db.notifications + notices;
    }
    sync.NotifyNewMessage(c);
    r := Ok(ViewOf(m, userType, true));
  }

  /** The owner hears of a consumer's message; a consumer is not notified
      of an owner's. */
  function NewMessageNotices(c: Conversation, sender: Role, notificationId: Id, now: int): (ns: seq<Notification>)
    ensures sender == Consumer <==> |ns| == 1
    ensures sender != Consumer ==> ns == []
    ensures forall n :: n in ns ==> n.ownerId == c.ownerId && n.kind == NewMessage && !n.isRead && n.createdAt == now
  {
    if sender == Consumer
    then [Notification(notificationId, c.ownerId, NewMessage, "New Message", "You have a new message", false, now)]
    else []
  }

  /** Stores a message the sender may post and stamps its conversation. */
  method RecordMessage(db: Db, m: Message)
    requires db.Valid()
    requires forall i :: 0 <= i < |db.messages| ==> db.messages[i].id != m.id
    requires m.sentAt == db.clock && m.deliveredAt.None? && m.readAt.None?
    requires CheckAccess(db.conversations, m.conversationId, m.senderId, m.senderType).Ok?
    modifies db`messages, db`conversations
    ensures db.Valid()
    ensures db.messages == old(db.messages) + [m]
    ensures db.conversations == SetLastMessageAt(old(db.conversations), m.conversationId, db.clock)
  {
    AppendMessageKeepsValid(db.conversations, db.messages, m, db.clock);
    db.messages := db.messages + [m];
    TouchConversationKeepsValid(db.conversations, db.messages, m.conversationId, db.clock);
    db.conversations := SetLastMessageAt(db.conversations, m.conversationId, db.clock);
  }

  /** `conversation.update({lastMessageAt})` on the row with that id. */
  function SetLastMessageAt(conversations: seq<Conversation>, id: Id, t: int): (cs: seq<Conversation>)
    ensures |cs| == |conversations|
    ensures forall k :: 0 <= k < |cs| ==>
      cs[k] == if conversations[k].id == id then conversations[k].(lastMessageAt := Some(t)) else conversations[k]
  {
    seq(|conversations|, k requires 0 <= k < |conversations| =>
      if conversations[k].id == id then conversations[k].(lastMessageAt := Some(t)) else conversations[k])
  }

  lemma AppendMessageKeepsValid(conversations: seq<Conversation>, messages: seq<Message>, m: Message, clock: int)
    requires MessagesOk(conversations, messages, clock)
    requires UniqueBy(conversations, (c: Conversation) => c.id)
    requires UniqueBy(messages, (x: Message) => x.id)
    requires forall i :: 0 <= i < |messages| ==> messages[i].id != m.id
    requires m.sentAt == clock && m.deliveredAt.None? && m.readAt.None?
    requires forall k :: 0 <= k < |conversations| && conversations[k].id == m.conversationId ==>
      IsParticipant(conversations[k], m.senderType, m.senderId)
    ensures MessagesOk(conversations, messages + [m], clock)
    ensures UniqueBy(messages + [m], (x: Message) => x.id)
  {
    var ms := messages + [m];
    forall i, j | 0 <= i < j < |ms| ensures ms[i].sentAt <= ms[j].sentAt {
      assert StampsOk(ms[i], clock);
    }
  }

  lemma TouchConversationKeepsValid(conversations: seq<Conversation>, messages: seq<Message>, id: Id, t: int)
    requires MessagesOk(conversations, messages, t)
    requires ConversationsOk(conversations)
    ensures MessagesOk(SetLastMessageAt(conversations, id, t), messages, t)
    ensures ConversationsOk(SetLastMessageAt(conversations, id, t))
  {
    var cs := SetLastMessageAt(conversations, id, t);
    assert forall k :: 0 <= k < |cs| ==>
      cs[k].id == conversations[k].id && cs[k].consumerId == conversations[k].consumerId &&
      cs[k].ownerId == conversations[k].ownerId && cs[k].plantId == conversations[k].plantId;
  }


  // ---------------------------------------------------------------------
  // markAsRead

  /** The reader's own `readReceiptsEnabled`; a reader without a row counts
      as allowing receipts. */
  function ReaderAllows(consumers: seq<ConsumerRow>, owners: seq<OwnerRow>, userId: Id, userType: Role): (allows: bool)
    ensures userType == Consumer && ConsumerById(consumers, userId).Some?
      ==> allows == ConsumerById(consumers, userId).value.readReceiptsEnabled
    ensures userType != Consumer && OwnerById(owners, userId).Some?
      ==> allows == OwnerById(owners, userId).value.readReceiptsEnabled
    ensures userType == Consumer && ConsumerById(consumers, userId).None? ==> allows
    ensures userType != Consumer && OwnerById(owners, userId).None? ==> allows
  {
    if userType == Consumer then
      (match ConsumerById(consumers, userId) case None => true case Some(x) => x.readReceiptsEnabled)
    else
      (match OwnerById(owners, userId) case None => true case Some(o) => o.readReceiptsEnabled)
  }

  /** The events of a read batch of `count` messages: none for an empty
      batch; otherwise the conversation update and the admin read event, and
      the read receipt to the sender only if the reader allows it. */
  function ReadEvents(c: Conversation, reader: Role, readerAllows: bool, count: nat): (es: seq<Emission>)
    ensures es == [] <==> count == 0
    ensures count > 0 ==> ConversationUpdatedRoute(c) <= es
  {
    if count == 0 then []
    else
      var receipt := if readerAllows then MessagesReadRoute(c.consumerId, c.ownerId, reader) else [];
      ConversationUpdatedRoute(c) + MessagesReadToAdminRoute() + receipt
  }

  /** Who hears of a batch: nobody for an empty one; otherwise both parties'
      rooms and the admins get the update and the admins the read event,
      while a read receipt is among the events exactly when the reader
      allows receipts. */
  lemma ReadEventsAudience(c: Conversation, reader: Role, readerAllows: bool, count: nat)
    ensures count == 0 ==> ReadEvents(c, reader, readerAllows, count) == []
    ensures count > 0 ==> Rooms(ConversationUpdatedRoute(c)) <= Rooms(ReadEvents(c, reader, readerAllows, count))
    ensures count > 0 ==> Emission(Room(TypeRoom(Admin)), "chat:read") in ReadEvents(c, reader, readerAllows, count)
    ensures (exists e :: e in ReadEvents(c, reader, readerAllows, count) && e.event == "messages:read")
      <==> count > 0 && readerAllows
  {
    var es := ReadEvents(c, reader, readerAllows, count);
    if count > 0 {
      assert MessagesReadToAdminRoute()[0] in es;
      assert forall e :: e in es ==>
        e in ConversationUpdatedRoute(c) || e in MessagesReadToAdminRoute() ||
        (readerAllows && e in MessagesReadRoute(c.consumerId, c.ownerId, reader));
      assert readerAllows ==> MessagesReadRoute(c.consumerId, c.ownerId, reader)[0] in es;
    }
  }

  /** The read receipt of a batch never goes back to the reader's own room:
      with receipts on it reaches exactly the sender's room. */
  lemma ReadReceiptGoesToSender(c: Conversation, reader: Role, count: nat)
    requires reader == Consumer || reader == Owner
    requires count > 0
    ensures var es := ReadEvents(c, reader, true, count);
      Emission(Room(UserRoom(OtherParty(reader), if reader == Consumer then c.ownerId else c.consumerId)), "messages:read") in es
  {
    var es := ReadEvents(c, reader, true, count);
    assert MessagesReadRoute(c.consumerId, c.ownerId, reader)[0] in es;
  }

  /** `markAsRead`: after the checks, the other party's unread messages in the
      conversation all get the current time as their read stamp, and the
      batch's events are routed. The answer is the batch's message ids. */
  method MarkAsRead(db: Db, sync: SyncGateway, conversationId: Id, userId: Id, userType: Role)
    returns (r: Result<seq<Id>>)
    requires db.Valid()
    modifies db`messages, sync`log
    ensures db.Valid()
    ensures CheckAccess(db.conversations, conversationId, userId, userType).Err? ==>
      r == Err(CheckAccess(db.conversations, conversationId, userId, userType).error) &&
      db.messages == old(db.messages) && sync.log == old(sync.log)
    ensures CheckAccess(db.conversations, conversationId, userId, userType).Ok? ==>
      r == Ok(UnreadIds(old(db.messages), conversationId, OtherParty(userType)))
    ensures CheckAccess(db.conversations, conversationId, userId, userType).Ok? ==>
      db.messages == StampRead(old(db.messages), conversationId, OtherParty(userType), db.clock)
    ensures CheckAccess(db.conversations, conversationId, userId, userType).Ok? ==>
      sync.log == old(sync.log) + ReadEvents(CheckAccess(db.conversations, conversationId, userId, userType).value,
        userType, ReaderAllows(db.consumers, db.owners, userId, userType),
        |UnreadIds(old(db.messages), conversationId, OtherParty(userType))|)
  {
    var access := CheckAccess(db.conversations, conversationId, userId, userType);
    if access.Err? {
      return Err(access.error);
    }
    var c := access.value;
    var allows := ReaderAllows(db.consumers, db.owners, userId, userType);
    var other := OtherParty(userType);
    var ids := UnreadIds(db.messages, conversationId, other);
    if |ids| == 0 {
      StampReadWithoutUnread(db.messages, conversationId, other, db.clock);
      return Ok(ids);
    }
    StampReadKeepsValid(db.conversations, db.messages, conversationId, other, db.clock);
    db.messages := StampRead(db.messages, conversationId, other, db.clock);
    AnnounceRead(sync, c, userType, allows, |ids|);
    r := Ok(ids);
  }

  /** Routes the events of a non-empty read batch. */
  method AnnounceRead(sync: SyncGateway, c: Conversation, reader: Role, readerAllows: bool, count: nat)
    requires count > 0
    modifies sync`log
    ensures sync.log == old(sync.log) + ReadEvents(c, reader, readerAllows, count)
  {
    sync.NotifyConversationUpdated(c);
    sync.NotifyMessagesReadToAdmin();
    if readerAllows {
      sync.NotifyMessagesRead(c.consumerId, c.ownerId, reader);
    }
  }

  /** With nothing unread the batch changes nothing. */
  lemma StampReadWithoutUnread(messages: seq<Message>, conversationId: Id, sender: Role, now: int)
    requires UnreadIds(messages, conversationId, sender) == []
    ensures StampRead(messages, conversationId, sender, now) == messages
  {
    CountZero(messages, (m: Message) => UnreadFrom(m, conversationId, sender));
  }

  lemma StampReadKeepsValid(conversations: seq<Conversation>, messages: seq<Message>, conversationId: Id, sender: Role, now: int)
    requires MessagesOk(conversations, messages, now)
    requires UniqueBy(messages, (x: Message) => x.id)
    ensures MessagesOk(conversations, StampRead(messages, conversationId, sender, now), now)
    ensures UniqueBy(StampRead(messages, conversationId, sender, now), (x: Message) => x.id)
  {
    var ms := StampRead(messages, conversationId, sender, now);
    assert forall i :: 0 <= i < |ms| ==>
      ms[i].id == messages[i].id && ms[i].sentAt == messages[i].sentAt &&
      ms[i].conversationId == messages[i].conversationId &&
      ms[i].senderType == messages[i].senderType && ms[i].senderId == messages[i].senderId;
    forall i | 0 <= i < |ms| ensures StampsOk(ms[i], now) {
      assert StampsOk(messages[i], now);
    }
  }

  // ---------------------------------------------------------------------
  // Single-message stamps

  /** Prisma's error for an update whose row does not exist. */
  const RecordMissing := Error(NotFound, "Record to update not found.")

  function MessageIndex(messages: seq<Message>, id: Id): (k: Option<nat>)
    ensures k.Some? ==> k.value < |messages| && messages[k.value].id == id
    ensures k.None? <==> forall i :: 0 <= i < |messages| ==> messages[i].id != id
  {
    Find(messages, (m: Message) => m.id == id)
  }

  /** `markMessageAsDelivered`: the delivery stamp of that message becomes
      now, whatever it was; an unknown id is an error and changes nothing. */
  method MarkMessageAsDelivered(db: Db, messageId: Id) returns (r: Result<bool>)
    requires db.Valid()
    modifies db`messages
    ensures db.Valid()
    ensures |db.messages| == |old(db.messages)|
    ensures MessageIndex(old(db.messages), messageId).None? ==> r == Err(RecordMissing) && db.messages == old(db.messages)
    ensures MessageIndex(old(db.messages), messageId).Some? ==>
      var k := MessageIndex(old(db.messages), messageId).value;
      r == Ok(true) && db.messages == old(db.messages)[k := old(db.messages)[k].(deliveredAt := Some(db.clock))]
  {
    var k := MessageIndex(db.messages, messageId);
    if k.None? {
      return Err(RecordMissing);
    }
    var m := db.messages[k.value].(deliveredAt := Some(db.clock));
    assert StampsOk(db.messages[k.value], db.clock);
    db.messages := db.messages[k.value := m];
    r := Ok(true);
  }

  /** `markMessageAsRead`: the read stamp of that message becomes now,
      whatever it was; an unknown id is an error and changes nothing. */
  method MarkMessageAsRead(db: Db, messageId: Id) returns (r: Result<bool>)
    requires db.Valid()
    modifies db`messages
    ensures db.Valid()
    ensures |db.messages| == |old(db.messages)|
    ensures MessageIndex(old(db.messages), messageId).None? ==> r == Err(RecordMissing) && db.messages == old(db.messages)
    ensures MessageIndex(old(db.messages), messageId).Some? ==>
      var k := MessageIndex(old(db.messages), messageId).value;
      r == Ok(true) && db.messages == old(db.messages)[k := old(db.messages)[k].(readAt := Some(db.clock))]
  {
    var k := MessageIndex(db.messages, messageId);
    if k.None? {
      return Err(RecordMissing);
    }
    var m := db.messages[k.value].(readAt := Some(db.clock));
    assert StampsOk(db.messages[k.value], db.clock);
    db.messages := db.messages[k.value := m];
    r := Ok(true);
  }

  // ---------------------------------------------------------------------
  // Conversation listings

  datatype LastMessage = LastMessage(content: string, sentAt: int, senderType: Role)

  datatype ConversationSummary = ConversationSummary(
    id: Id, plantId: Id, plantName: Option<string>, plantAddress: Option<string>,
    otherPartyName: Option<string>, lastMessage: Option<LastMessage>, unreadCount: nat, createdAt: int)

  /** The newest message of a conversation (the last one in stamp order). */
  function LastOf(messages: seq<Message>, conversationId: Id): (m: Option<Message>)
    ensures m.None? <==> forall i :: 0 <= i < |messages| ==> messages[i].conversationId != conversationId
    ensures m.Some? ==> m.value in messages && m.value.conversationId == conversationId
    ensures m.Some? && SortedBySentAt(messages) ==>
      forall i :: 0 <= i < |messages| && messages[i].conversationId == conversationId ==> messages[i].sentAt <= m.value.sentAt
  {
    if messages == [] then None
    else
      var last := messages[|messages| - 1];
      if last.conversationId == conversationId then Some(last)
      else
        var m := LastOf(messages[..|messages| - 1], conversationId);
        assert forall i :: 0 <= i < |messages| - 1 ==> messages[..|messages| - 1][i] == messages[i];
        m
  }

  /** One row of a party's conversation list: the plant, the other party's
      name, the newest message and the unread count of messages from the
      other party. */
  function SummaryOf(plants: seq<Plant>, consumers: seq<ConsumerRow>, owners: seq<OwnerRow>,
                     messages: seq<Message>, c: Conversation, viewer: Role): (s: ConversationSummary)
    ensures s.id == c.id && s.plantId == c.plantId && s.createdAt == c.createdAt
    ensures s.unreadCount == ConversationUnread(messages, c.id, OtherParty(viewer))
    ensures s.lastMessage.None? <==> LastOf(messages, c.id).None?
  {
    var info := InfoOf(plants, consumers, owners, c, viewer);
    var last := LastOf(messages, c.id);
    ConversationSummary(c.id, c.plantId, info.plantName, info.plantAddress, info.otherPartyName,
      if last.None? then None else Some(LastMessage(last.value.content, last.value.sentAt, last.value.senderType)),
      ConversationUnread(messages, c.id, OtherParty(viewer)), c.createdAt)
  }

  /** `getConsumerConversations` / `getOwnerConversations`: one summary for
      each conversation in which the caller holds the seat of `viewer`. */
  method ListConversations(db: Db, userId: Id, viewer: Role) returns (list: seq<ConversationSummary>)
    requires viewer == Consumer || viewer == Owner
    ensures var mine := Filter(db.conversations, (c: Conversation) => IsParticipant(c, viewer, userId));
      |list| == |mine| &&
      forall i :: 0 <= i < |list| ==> list[i] == SummaryOf(db.plants, db.consumers, db.owners, db.messages, mine[i], viewer)
  {
    var mine := Filter(db.conversations, (c: Conversation) => IsParticipant(c, viewer, userId));
    list := [];
    var i := 0;
    while i < |mine|
      invariant 0 <= i <= |mine|
      invariant |list| == i
      invariant forall j :: 0 <= j < i ==> list[j] == SummaryOf(db.plants, db.consumers, db.owners, db.messages, mine[j], viewer)
    {
      list := list + [SummaryOf(db.plants, db.consumers, db.owners, db.messages, mine[i], viewer)];
      i := i + 1;
    }
  }

  /** A conversation's badge never exceeds the caller's total badge. */
  lemma {:induction false} ConversationUnreadWithinTotal(conversations: seq<Conversation>, messages: seq<Message>, k: nat)
    requires k < |conversations|
    ensures ConversationUnread(messages, conversations[k].id, Consumer)
      <= OwnerUnreadCount(conversations, messages, conversations[k].ownerId)
    ensures ConversationUnread(messages, conversations[k].id, Owner)
      <= ConsumerUnreadCount(conversations, messages, conversations[k].consumerId)
  {
    var c := conversations[k];
    var ownerIds := IdsOfConversationsWhere(conversations, (x: Conversation) => x.ownerId == c.ownerId);
    var consumerIds := IdsOfConversationsWhere(conversations, (x: Conversation) => x.consumerId == c.consumerId);
    assert c.id in ownerIds && c.id in consumerIds;
    CountMonotone(messages, (m: Message) => UnreadFrom(m, c.id, Consumer),
      (m: Message) => m.conversationId in ownerIds && m.senderType == Consumer && m.readAt.None?);
    CountMonotone(messages, (m: Message) => UnreadFrom(m, c.id, Owner),
      (m: Message) => m.conversationId in consumerIds && m.senderType == Owner && m.readAt.None?);
  }

  // ---------------------------------------------------------------------
  // getOrCreateConversation

  /** The conversation of a (consumer, plant) pair, if there is one. */
  function ConversationFor(conversations: seq<Conversation>, consumerId: Id, plantId: Id): (c: Option<Conversation>)
    ensures c.Some? ==> c.value in conversations && c.value.consumerId == consumerId && c.value.plantId == plantId
    ensures c.None? <==> forall k :: 0 <= k < |conversations| ==>
      conversations[k].consumerId != consumerId || conversations[k].plantId != plantId
  {
    match Find(conversations, (c: Conversation) => c.consumerId == consumerId && c.plantId == plantId)
    case None => None
    case Some(k) => Some(conversations[k])
  }

  /** `getOrCreateConversation`: NotFound for an unknown plant; otherwise the
      pair's conversation, created with the plant's owner (and announced to
      the admins) only when there was none. The answer carries the consumer's
      unread count, i.e. owner messages not yet read. */
  method GetOrCreateConversation(db: Db, sync: SyncGateway, consumerId: Id, plantId: Id, newId: Id)
    returns (r: Result<ConversationSummary>)
    requires db.Valid()
    requires forall k :: 0 <= k < |db.conversations| ==> db.conversations[k].id != newId
    requires forall i :: 0 <= i < |db.messages| ==> db.messages[i].conversationId != newId
    modifies db`conversations, sync`log
    ensures db.Valid()
    ensures PlantById(db.plants, plantId).None? ==>
      r == Err(Error(NotFound, "Plant not found")) &&
      db.conversations == old(db.conversations) && sync.log == old(sync.log)
    ensures PlantById(db.plants, plantId).Some? && ConversationFor(old(db.conversations), consumerId, plantId).Some? ==>
      db.conversations == old(db.conversations) && sync.log == old(sync.log) &&
      r.Ok? && r.value.id == ConversationFor(old(db.conversations), consumerId, plantId).value.id
    ensures PlantById(db.plants, plantId).Some? && ConversationFor(old(db.conversations), consumerId, plantId).None? ==>
      db.conversations == old(db.conversations)
        + [Conversation(newId, consumerId, PlantById(db.plants, plantId).value.ownerId, plantId, db.clock, None)] &&
      sync.log == old(sync.log) + ConversationCreatedRoute() &&
      r.Ok? && r.value.id == newId
    ensures r.Ok? ==>
      r.value.plantId == plantId && r.value.lastMessage.None? &&
      r.value.unreadCount == ConversationUnread(db.messages, r.value.id, Owner) &&
      ConversationFor(db.conversations, consumerId, plantId).Some? &&
      ConversationFor(db.conversations, consumerId, plantId).value.id == r.value.id
  {
    var plant := PlantById(db.plants, plantId);
    if plant.None? {
      return Err(Error(NotFound, "Plant not found"));
    }
    var p := plant.value;
    var existing := ConversationFor(db.conversations, consumerId, plantId);
    var c: Conversation;
    if existing.Some? {
      c := existing.value;
    } else {
      c := Conversation(newId, consumerId, p.ownerId, plantId, db.clock, None);
      AppendConversationKeepsValid(db.conversations, db.messages, c, db.clock);
      ghost var before := db.conversations;
      db.conversations := db.conversations + [c];
      assert db.conversations[|before|] == c;
      sync.NotifyConversationCreated();
    }
    var ownerName := match OwnerById(db.owners, p.ownerId) case None => None case Some(o) => Some(o.name);
    r := Ok(ConversationSummary(c.id, p.id, Some(p.name), Some(p.address), ownerName, None,
      ConversationUnread(db.messages, c.id, Owner), c.createdAt));
  }

  lemma AppendConversationKeepsValid(conversations: seq<Conversation>, messages: seq<Message>, c: Conversation, clock: int)
    requires ConversationsOk(conversations)
    requires MessagesOk(conversations, messages, clock)
    requires forall k :: 0 <= k < |conversations| ==> conversations[k].id != c.id
    requires forall k :: 0 <= k < |conversations| ==>
      conversations[k].consumerId != c.consumerId || conversations[k].plantId != c.plantId
    requires forall i :: 0 <= i < |messages| ==> messages[i].conversationId != c.id
    ensures ConversationsOk(conversations + [c])
    ensures MessagesOk(conversations + [c], messages, clock)
  {
  }
}
