/** `v1/admin/chat`: the admins' read-only view of every conversation —
    global statistics, a filtered conversation listing, a per-conversation
    detail with delivery and read statistics, a per-user message listing and
    an audit export. */
module AdminChatController {
  import opened Common
  import opened Text
  import opened QueryParams
  import opened Store
  import opened ChatService

  // ---------------------------------------------------------------------
  // Rates and delays

  /** The percentage `Math.round((count / total) * 100)`, and 0 when there is
      nothing to divide by. Here the quotient is an exact fraction rounded
      half up; the source rounds a double, which can fall just below an
      exact half (see "Left out"). */
  function Rate(count: nat, total: nat): (rate: nat)
    ensures total == 0 ==> rate == 0
    ensures total > 0 ==> 2 * rate * total <= 200 * count + total < 2 * (rate + 1) * total
    ensures count <= total ==> rate <= 100
  {
    if total == 0 then 0
    else
      var rate := (200 * count + total) / (2 * total);
      RateBounds(count, total, rate);
      rate
  }

  lemma RateBounds(count: nat, total: nat, rate: nat)
    requires total > 0 && rate == (200 * count + total) / (2 * total)
    ensures 2 * rate * total <= 200 * count + total < 2 * (rate + 1) * total
    ensures count <= total ==> rate <= 100
  {
    assert rate * (2 * total) <= 200 * count + total < (rate + 1) * (2 * total);
    if count <= total {
      assert rate * (2 * total) < 101 * (2 * total);
      FactorBelow(rate, 101, 2 * total);
    }
  }

  lemma FactorBelow(a: nat, b: nat, x: nat)
    requires x > 0 && a * x < b * x
    ensures a < b
  {
  }

  /** `stamp ? stamp - sentAt : null`. */
  function Delay(stamp: Option<int>, sentAt: int): (delay: Option<int>)
    ensures delay.Some? <==> stamp.Some?
    ensures delay.Some? ==> sentAt + delay.value == stamp.value
  {
    match stamp
    case None => None
    case Some(t) => Some(t - sentAt)
  }

  /** In a consistent store no delay is negative: nothing is delivered or
      read before it is sent. */
  lemma DelaysNonNegative(m: Message, clock: int)
    requires StampsOk(m, clock)
    ensures Delay(m.deliveredAt, m.sentAt).Some? ==> Delay(m.deliveredAt, m.sentAt).value >= 0
    ensures Delay(m.readAt, m.sentAt).Some? ==> Delay(m.readAt, m.sentAt).value >= 0
  {
  }

  // ---------------------------------------------------------------------
  // getChatStats

  datatype ChatStats = ChatStats(
    totalConversations: nat, totalMessages: nat, messagesLast24h: nat, messagesLast7d: nat,
    unreadMessages: nat, deliveredMessages: nat, readMessages: nat, deliveryRate: nat, readRate: nat)

  predicate SentSince(m: Message, t: int) { m.sentAt >= t }
  predicate Unread(m: Message) { m.readAt.None? }
  predicate WasRead(m: Message) { m.readAt.Some? }
  predicate WasDelivered(m: Message) { m.deliveredAt.Some? }

  /** `getChatStats` at time `now`: totals, the messages of the last day and
      week, and the delivery and read rates. */
  function GetChatStats(conversations: seq<Conversation>, messages: seq<Message>, now: int): (s: ChatStats)
    ensures s.totalConversations == |conversations| && s.totalMessages == |messages|
    ensures s.unreadMessages + s.readMessages == s.totalMessages
    ensures s.messagesLast24h <= s.messagesLast7d <= s.totalMessages
    ensures s.deliveredMessages <= s.totalMessages
    ensures s.deliveryRate <= 100 && s.readRate <= 100
    ensures s.deliveryRate == Rate(s.deliveredMessages, s.totalMessages)
    ensures s.readRate == Rate(s.readMessages, s.totalMessages)
  {
    var day := Count(messages, (m: Message) => SentSince(m, now - DAY_MS));
    var week := Count(messages, (m: Message) => SentSince(m, now - 7 * DAY_MS));
    var unread := Count(messages, Unread);
    var delivered := Count(messages, WasDelivered);
    var read := Count(messages, WasRead);
    CountMonotone(messages, (m: Message) => SentSince(m, now - DAY_MS), (m: Message) => SentSince(m, now - 7 * DAY_MS));
    CountSplit(messages, WasRead, Unread);
    ChatStats(|conversations|, |messages|, day, week, unread, delivered, read,
      Rate(delivered, |messages|), Rate(read, |messages|))
  }

  // ---------------------------------------------------------------------
  // getConversations

  /** The listing's `where` object: each id filter is set only when its
      parameter is given, and the search clause only for a non-empty
      search. */
  datatype Where = Where(plantId: Option<Id>, ownerId: Option<Id>, consumerId: Option<Id>, search: Option<string>)

  /** The OR of the search clause: the plant's name, the owner's name, the
      consumer's name or the consumer's display name contains the search,
      ignoring case. */
  predicate SearchHit(plants: seq<Plant>, owners: seq<OwnerRow>, consumers: seq<ConsumerRow>, c: Conversation, search: string)
  {
    (PlantById(plants, c.plantId).Some? && ContainsIgnoringCase(PlantById(plants, c.plantId).value.name, search)) ||
    (OwnerById(owners, c.ownerId).Some? && ContainsIgnoringCase(OwnerById(owners, c.ownerId).value.name, search)) ||
    (ConsumerById(consumers, c.consumerId).Some? && ConsumerById(consumers, c.consumerId).value.name.Some? &&
     ContainsIgnoringCase(ConsumerById(consumers, c.consumerId).value.name.value, search)) ||
    (ConsumerById(consumers, c.consumerId).Some? &&
     ContainsIgnoringCase(ConsumerById(consumers, c.consumerId).value.displayName, search))
  }

  predicate Satisfies(plants: seq<Plant>, owners: seq<OwnerRow>, consumers: seq<ConsumerRow>, c: Conversation, w: Where)
  {
    (w.plantId.Some? ==> c.plantId == w.plantId.value) &&
    (w.ownerId.Some? ==> c.ownerId == w.ownerId.value) &&
    (w.consumerId.Some? ==> c.consumerId == w.consumerId.value) &&
    (w.search.Some? ==> SearchHit(plants, owners, consumers, c, w.search.value))
  }

  /** The conversations the listing's parameters select. */
  predicate Listed(plants: seq<Plant>, owners: seq<OwnerRow>, consumers: seq<ConsumerRow>, c: Conversation,
                   search: Option<string>, plantId: Option<string>, ownerId: Option<string>, consumerId: Option<string>)
  {
    (Given(plantId) ==> c.plantId == plantId.value) &&
    (Given(ownerId) ==> c.ownerId == ownerId.value) &&
    (Given(consumerId) ==> c.consumerId == consumerId.value) &&
    (Given(search) ==> SearchHit(plants, owners, consumers, c, search.value))
  }

  /** The `where` object, filled in one conditional assignment at a time. */
  method BuildWhere(search: Option<string>, plantId: Option<string>, ownerId: Option<string>, consumerId: Option<string>)
    returns (w: Where)
    ensures w.plantId.Some? <==> Given(plantId)
    ensures w.ownerId.Some? <==> Given(ownerId)
    ensures w.consumerId.Some? <==> Given(consumerId)
    ensures w.search.Some? <==> Given(search)
    ensures forall plants, owners, consumers, c ::
      Satisfies(plants, owners, consumers, c, w) <==> Listed(plants, owners, consumers, c, search, plantId, ownerId, consumerId)
  {
    w := Where(None, None, None, None);
    if Given(plantId) {
      w := w.(plantId := plantId);
    }
    if Given(ownerId) {
      w := w.(ownerId := ownerId);
    }
    if Given(consumerId) {
      w := w.(consumerId := consumerId);
    }
    if Given(search) {
      w := w.(search := search);
    }
  }

  predicate FromConsumer(m: Message) { m.senderType == Consumer }
  predicate FromOwner(m: Message) { m.senderType == Owner }

  predicate InConversation(m: Message, conversationId: Id) { m.conversationId == conversationId }

  /** The messages of one conversation, in stamp (= sentAt) order. */
  function ConversationMessages(messages: seq<Message>, conversationId: Id): (ms: seq<Message>)
    ensures forall m :: m in ms ==> m in messages && m.conversationId == conversationId
    ensures |ms| == Count(messages, (m: Message) => InConversation(m, conversationId))
  {
    Filter(messages, (m: Message) => InConversation(m, conversationId))
  }

  datatype AdminConversationRow = AdminConversationRow(
    id: Id, createdAt: int, lastMessageAt: Option<int>, plantId: Id, ownerId: Id, consumerId: Id,
    messageCount: nat, unreadFromConsumer: nat, unreadFromOwner: nat, lastMessage: Option<Message>)

  function AdminRowOf(messages: seq<Message>, c: Conversation): (row: AdminConversationRow)
    ensures row.id == c.id && row.plantId == c.plantId && row.ownerId == c.ownerId && row.consumerId == c.consumerId
    ensures row.messageCount == |ConversationMessages(messages, c.id)|
    ensures row.unreadFromConsumer + row.unreadFromOwner <= row.messageCount
    ensures row.unreadFromConsumer == ConversationUnread(messages, c.id, Consumer)
    ensures row.unreadFromOwner == ConversationUnread(messages, c.id, Owner)
  {
    CountDisjoint(messages, (m: Message) => UnreadFrom(m, c.id, Consumer), (m: Message) => UnreadFrom(m, c.id, Owner));
    UnreadWithinConversation(messages, c.id);
    AdminConversationRow(c.id, c.createdAt, c.lastMessageAt, c.plantId, c.ownerId, c.consumerId,
      |ConversationMessages(messages, c.id)|,
      ConversationUnread(messages, c.id, Consumer), ConversationUnread(messages, c.id, Owner),
      LastOf(messages, c.id))
  }

  /** Both unread counters together count only messages of the conversation. */
  lemma {:induction false} UnreadWithinConversation(messages: seq<Message>, conversationId: Id)
    ensures ConversationUnread(messages, conversationId, Consumer) + ConversationUnread(messages, conversationId, Owner)
      <= Count(messages, (m: Message) => InConversation(m, conversationId))
  {
    if messages != [] {
      UnreadWithinConversation(messages[1..], conversationId);
    }
  }

  datatype ConversationList = ConversationList(conversations: seq<AdminConversationRow>, meta: Meta)

  /** The conversations the listing's filters select, in table order. */
  function Selected(conversations: seq<Conversation>, plants: seq<Plant>, owners: seq<OwnerRow>, consumers: seq<ConsumerRow>,
                    search: Option<string>, plantId: Option<string>, ownerId: Option<string>, consumerId: Option<string>)
    : (selected: seq<Conversation>)
    ensures forall c :: c in selected ==> c in conversations && Listed(plants, owners, consumers, c, search, plantId, ownerId, consumerId)
    ensures forall i ::
      (0 <= i < |conversations| && Listed(plants, owners, consumers, conversations[i], search, plantId, ownerId, consumerId))
      ==> conversations[i] in selected
  {
    Filter(conversations, (c: Conversation) => Listed(plants, owners, consumers, c, search, plantId, ownerId, consumerId))
  }

  /** `getConversations`: the selected conversations, `limit` of them from
      `skip` on, and the meta block over all selected ones. */
  method GetConversations(db: Db, page: string, limit: string, search: Option<string>,
                          plantId: Option<string>, ownerId: Option<string>, consumerId: Option<string>)
    returns (r: ConversationList)
    ensures var p := Paginate(page, limit, 20, 50);
      var selected := Selected(db.conversations, db.plants, db.owners, db.consumers, search, plantId, ownerId, consumerId);
      var shown := TakePage(selected, p.skip, p.limit);
      r.meta == MetaOf(p, |selected|) &&
      |r.conversations| == |shown| <= 50 &&
      forall i :: 0 <= i < |shown| ==> r.conversations[i] == AdminRowOf(db.messages, shown[i])
  {
    var plants, owners, consumers, messages := db.plants, db.owners, db.consumers, db.messages;
    var p := Paginate(page, limit, 20, 50);
    var w := BuildWhere(search, plantId, ownerId, consumerId);
    var selected := Filter(db.conversations, (c: Conversation) => Satisfies(plants, owners, consumers, c, w));
    FilterSame(db.conversations, (c: Conversation) => Satisfies(plants, owners, consumers, c, w),
      (c: Conversation) => Listed(plants, owners, consumers, c, search, plantId, ownerId, consumerId));
    var shown := TakePage(selected, p.skip, p.limit);
    var rows := seq(|shown|, i requires 0 <= i < |shown| => AdminRowOf(messages, shown[i]));
    r := ConversationList(rows, MetaOf(p, |selected|));
  }


  // ---------------------------------------------------------------------
  // getConversationDetail and exportConversation

  datatype MessageRow = MessageRow(
    id: Id, senderType: Role, senderId: Id, content: string, sentAt: int,
    deliveredAt: Option<int>, readAt: Option<int>, deliveryDelayMs: Option<int>, readDelayMs: Option<int>)

  function RowOf(m: Message): (row: MessageRow)
    ensures row.id == m.id && row.sentAt == m.sentAt && row.deliveredAt == m.deliveredAt && row.readAt == m.readAt
    ensures row.deliveryDelayMs == Delay(m.deliveredAt, m.sentAt) && row.readDelayMs == Delay(m.readAt, m.sentAt)
  {
    MessageRow(m.id, m.senderType, m.senderId, m.content, m.sentAt, m.deliveredAt, m.readAt,
      Delay(m.deliveredAt, m.sentAt), Delay(m.readAt, m.sentAt))
  }

  function RowsOf(ms: seq<Message>): (rows: seq<MessageRow>)
    ensures |rows| == |ms| && forall i :: 0 <= i < |ms| ==> rows[i] == RowOf(ms[i])
  {
    seq(|ms|, i requires 0 <= i < |ms| => RowOf(ms[i]))
  }

  datatype Statistics = Statistics(
    totalMessages: nat, totalFromConsumer: nat, totalFromOwner: nat,
    deliveredCount: nat, readCount: nat, deliveryRate: nat, readRate: nat)

  /** The per-conversation statistics of the detail view. */
  function StatisticsOf(ms: seq<Message>): (s: Statistics)
    ensures s.totalMessages == |ms|
    ensures s.totalFromConsumer + s.totalFromOwner <= s.totalMessages
    ensures s.deliveredCount <= s.totalMessages && s.readCount <= s.totalMessages
    ensures s.deliveryRate <= 100 && s.readRate <= 100
    ensures s.deliveryRate == Rate(s.deliveredCount, s.totalMessages) && s.readRate == Rate(s.readCount, s.totalMessages)
  {
    CountDisjoint(ms, FromConsumer, FromOwner);
    var delivered := Count(ms, WasDelivered);
    var read := Count(ms, WasRead);
    Statistics(|ms|, Count(ms, FromConsumer), Count(ms, FromOwner), delivered, read,
      Rate(delivered, |ms|), Rate(read, |ms|))
  }

  datatype Detail = Detail(conversation: Conversation, statistics: Statistics, messages: seq<MessageRow>, meta: Meta)

  /** `getConversationDetail`: NotFound for an unknown conversation;
      otherwise one page (limit 1..200, default 100) of its messages oldest
      first, with the statistics over all of them. */
  function GetConversationDetail(conversations: seq<Conversation>, messages: seq<Message>,
                                 conversationId: Id, page: string, limit: string): (r: Result<Detail>)
    ensures ConversationById(conversations, conversationId).None? <==> r == Err(Error(NotFound, "Conversation not found"))
    ensures r.Ok? ==>
      var all := ConversationMessages(messages, conversationId);
      var p := Paginate(page, limit, 100, 200);
      r.value.conversation.id == conversationId &&
      r.value.meta == MetaOf(p, |all|) &&
      r.value.statistics == StatisticsOf(all) &&
      r.value.messages == RowsOf(TakePage(all, p.skip, p.limit)) &&
      |r.value.messages| <= 200
    ensures r.Ok? && SortedBySentAt(messages) ==>
      forall i, j :: 0 <= i < j < |r.value.messages| ==> r.value.messages[i].sentAt <= r.value.messages[j].sentAt
  {
    match ConversationById(conversations, conversationId)
    case None => Err(Error(NotFound, "Conversation not found"))
    case Some(c) =>
      var all := ConversationMessages(messages, conversationId);
      var p := Paginate(page, limit, 100, 200);
      var rows := RowsOf(TakePage(all, p.skip, p.limit));
      if SortedBySentAt(messages) then
        FilterKeepsOrder(messages, (m: Message) => InConversation(m, conversationId));
        Ok(Detail(c, StatisticsOf(all), rows, MetaOf(p, |all|)))
      else
        Ok(Detail(c, StatisticsOf(all), rows, MetaOf(p, |all|)))
  }

  datatype ExportSummary = ExportSummary(
    totalMessages: nat, messagesFromConsumer: nat, messagesFromOwner: nat, deliveredCount: nat, readCount: nat)

  datatype Export = Export(exportedAt: int, conversation: Conversation, messages: seq<MessageRow>, summary: ExportSummary)

  function SummaryOfMessages(ms: seq<Message>): (s: ExportSummary)
    ensures s.totalMessages == |ms|
    ensures s.messagesFromConsumer + s.messagesFromOwner <= s.totalMessages
    ensures s.deliveredCount <= s.totalMessages && s.readCount <= s.totalMessages
    ensures (forall i :: 0 <= i < |ms| ==> ms[i].senderType == Consumer || ms[i].senderType == Owner)
      ==> s.messagesFromConsumer + s.messagesFromOwner == s.totalMessages
  {
    CountDisjoint(ms, FromConsumer, FromOwner);
    SendersPartition(ms);
    ExportSummary(|ms|, Count(ms, FromConsumer), Count(ms, FromOwner), Count(ms, WasDelivered), Count(ms, WasRead))
  }

  lemma SendersPartition(ms: seq<Message>)
    ensures (forall i :: 0 <= i < |ms| ==> ms[i].senderType == Consumer || ms[i].senderType == Owner)
      ==> Count(ms, FromConsumer) + Count(ms, FromOwner) == |ms|
  {
    if forall i :: 0 <= i < |ms| ==> ms[i].senderType == Consumer || ms[i].senderType == Owner {
      CountPartition(ms, FromConsumer, FromOwner);
    }
  }

  /** `exportConversation` at time `now`: NotFound for an unknown
      conversation; otherwise all of its messages oldest first, and a
      summary of them. */
  function ExportConversation(conversations: seq<Conversation>, messages: seq<Message>, conversationId: Id, now: int)
    : (r: Result<Export>)
    ensures ConversationById(conversations, conversationId).None? <==> r == Err(Error(NotFound, "Conversation not found"))
    ensures r.Ok? ==>
      r.value.exportedAt == now && r.value.conversation.id == conversationId &&
      r.value.messages == RowsOf(ConversationMessages(messages, conversationId)) &&
      r.value.summary == SummaryOfMessages(ConversationMessages(messages, conversationId))
    ensures r.Ok? && SortedBySentAt(messages) ==>
      forall i, j :: 0 <= i < j < |r.value.messages| ==> r.value.messages[i].sentAt <= r.value.messages[j].sentAt
  {
    match ConversationById(conversations, conversationId)
    case None => Err(Error(NotFound, "Conversation not found"))
    case Some(c) =>
      var all := ConversationMessages(messages, conversationId);
      if SortedBySentAt(messages) then
        FilterKeepsOrder(messages, (m: Message) => InConversation(m, conversationId));
        Ok(Export(now, c, RowsOf(all), SummaryOfMessages(all)))
      else
        Ok(Export(now, c, RowsOf(all), SummaryOfMessages(all)))
  }

  /** In a consistent store every message of an existing conversation comes
      from its consumer or its owner, so the export's per-sender counts add
      up to its total. */
  lemma ExportSummaryAddsUp(conversations: seq<Conversation>, messages: seq<Message>, clock: int, conversationId: Id, now: int)
    requires MessagesOk(conversations, messages, clock)
    requires ExportConversation(conversations, messages, conversationId, now).Ok?
    ensures var s := ExportConversation(conversations, messages, conversationId, now).value.summary;
      s.messagesFromConsumer + s.messagesFromOwner == s.totalMessages
  {
    var c := ConversationById(conversations, conversationId).value;
    var k :| 0 <= k < |conversations| && conversations[k] == c;
    var all := ConversationMessages(messages, conversationId);
    forall i | 0 <= i < |all| ensures all[i].senderType == Consumer || all[i].senderType == Owner {
      assert all[i] in messages;
      var j :| 0 <= j < |messages| && messages[j] == all[i];
      assert IsParticipant(conversations[k], messages[j].senderType, messages[j].senderId);
    }
  }

  // ---------------------------------------------------------------------
  // getMessagesByUser

  /** The names included with each message: the conversation's plant name,
      owner name and consumer display name. A row that is not stored gives
      no name. */
  datatype ConversationNames = ConversationNames(
    plantName: Option<string>, ownerName: Option<string>, consumerName: Option<string>)

  datatype UserMessageRow = UserMessageRow(
    id: Id, conversationId: Id, content: string, sentAt: int, deliveredAt: Option<int>, readAt: Option<int>,
    conversation: ConversationNames)

  datatype UserMessages = UserMessages(messages: seq<UserMessageRow>, meta: Meta)

  predicate SentBy(m: Message, userType: Role, userId: Id)
  {
    m.senderType == userType && m.senderId == userId
  }

  /** The names of a conversation's plant, owner and consumer; each name
      comes from the stored row the conversation refers to. */
  function NamesOf(conversations: seq<Conversation>, plants: seq<Plant>, owners: seq<OwnerRow>,
                   consumers: seq<ConsumerRow>, conversationId: Id): (n: ConversationNames)
    ensures ConversationById(conversations, conversationId).None? ==> n == ConversationNames(None, None, None)
    ensures n.plantName.Some? ==>
      exists c, p :: c in conversations && p in plants &&
        c.id == conversationId && p.id == c.plantId && p.name == n.plantName.value
    ensures n.ownerName.Some? ==>
      exists c, o :: c in conversations && o in owners &&
        c.id == conversationId && o.id == c.ownerId && o.name == n.ownerName.value
    ensures n.consumerName.Some? ==>
      exists c, x :: c in conversations && x in consumers &&
        c.id == conversationId && x.id == c.consumerId && x.displayName == n.consumerName.value
  {
    match ConversationById(conversations, conversationId)
    case None => ConversationNames(None, None, None)
    case Some(c) =>
      ConversationNames(
        match PlantIndex(plants, c.plantId) case None => None case Some(k) => Some(plants[k].name),
        match OwnerById(owners, c.ownerId) case None => None case Some(o) => Some(o.name),
        match ConsumerById(consumers, c.consumerId) case None => None case Some(x) => Some(x.displayName))
  }

  /** For a stored conversation (ids being unique), each name is present
      exactly when the row it comes from is stored. */
  lemma NamesOfStoredRows(conversations: seq<Conversation>, plants: seq<Plant>, owners: seq<OwnerRow>,
                          consumers: seq<ConsumerRow>, c: Conversation)
    requires UniqueBy(conversations, (c: Conversation) => c.id) && c in conversations
    ensures var n := NamesOf(conversations, plants, owners, consumers, c.id);
      (n.plantName.Some? <==> exists p :: p in plants && p.id == c.plantId) &&
      (n.ownerName.Some? <==> exists o :: o in owners && o.id == c.ownerId) &&
      (n.consumerName.Some? <==> exists x :: x in consumers && x.id == c.consumerId)
  {
    var k :| 0 <= k < |conversations| && conversations[k] == c;
    var found := ConversationById(conversations, c.id);
    assert found.Some?;
    var j :| 0 <= j < |conversations| && conversations[j] == found.value;
    assert j == k;
  }

  function UserRowOf(m: Message, names: ConversationNames): UserMessageRow
  {
    UserMessageRow(m.id, m.conversationId, m.content, m.sentAt, m.deliveredAt, m.readAt, names)
  }

  /** The messages the user sent, in sending order. */
  function SentMessages(messages: seq<Message>, userType: Role, userId: Id): (sent: seq<Message>)
    ensures forall m :: m in sent ==> m in messages && SentBy(m, userType, userId)
    ensures forall i :: 0 <= i < |messages| && SentBy(messages[i], userType, userId) ==> messages[i] in sent
  {
    Filter(messages, (m: Message) => SentBy(m, userType, userId))
  }

  /** The page of the user's messages, newest first. */
  function NewestSentPage(messages: seq<Message>, userType: Role, userId: Id, p: Paging): seq<Message>
  {
    TakePage(Reverse(SentMessages(messages, userType, userId)), p.skip, p.limit)
  }

  /** Every message on a page was sent by that user, and the page holds at
      most `limit` of them. */
  lemma NewestSentPageSentBy(messages: seq<Message>, userType: Role, userId: Id, p: Paging)
    ensures |NewestSentPage(messages, userType, userId, p)| <= p.limit
    ensures forall m :: m in NewestSentPage(messages, userType, userId, p) ==> m in messages && SentBy(m, userType, userId)
  {
    var sent := SentMessages(messages, userType, userId);
    var shown := NewestSentPage(messages, userType, userId, p);
    forall m | m in shown ensures m in sent {
      var i :| 0 <= i < |shown| && shown[i] == m;
      assert shown[i] == Reverse(sent)[p.skip + i] == sent[|sent| - 1 - (p.skip + i)];
    }
  }

  /** `getMessagesByUser`: one page (limit 1..100, default 50) of the
      messages the user sent, newest first, and the meta block over all of
      them. */
  function GetMessagesByUser(messages: seq<Message>, conversations: seq<Conversation>, plants: seq<Plant>,
                             owners: seq<OwnerRow>, consumers: seq<ConsumerRow>,
                             userType: Role, userId: Id, page: string, limit: string)
    : (r: UserMessages)
    ensures r.meta == MetaOf(Paginate(page, limit, 50, 100), |SentMessages(messages, userType, userId)|)
    ensures var shown := NewestSentPage(messages, userType, userId, Paginate(page, limit, 50, 100));
      |r.messages| == |shown| &&
      forall i :: 0 <= i < |shown| ==>
        r.messages[i] == UserRowOf(shown[i], NamesOf(conversations, plants, owners, consumers, shown[i].conversationId))
  {
    var p := Paginate(page, limit, 50, 100);
    var shown := NewestSentPage(messages, userType, userId, p);
    UserMessages(seq(|shown|, i requires 0 <= i < |shown| =>
                   UserRowOf(shown[i], NamesOf(conversations, plants, owners, consumers, shown[i].conversationId))),
                 MetaOf(p, |SentMessages(messages, userType, userId)|))
  }
}
