/** `v1/consumer/conversations`: every route first refuses any caller whose
    token is not a consumer's, then calls the chat service with the caller's
    id and the fixed user type `consumer`. */
module ConsumerChatController {
  import opened Common
  import opened Store
  import opened Sync
  import opened Guards
  import opened ChatService

  const OnlyConsumers := "Only consumers can access this endpoint"

  /** GET /: the caller's conversations. */
  method GetConversations(db: Db, user: Option<Payload>) returns (r: Result<seq<ConversationSummary>>)
    ensures RequireType(user, Consumer, OnlyConsumers).Err? ==> r == Err(Error(Forbidden, OnlyConsumers))
    ensures r.Ok? <==> user.Some? && user.value.userType == Consumer
    ensures r.Ok? ==>
      var mine := Filter(db.conversations, (c: Conversation) => IsParticipant(c, Consumer, user.value.sub));
      |r.value| == |mine| &&
      forall i :: 0 <= i < |mine| ==> r.value[i] == SummaryOf(db.plants, db.consumers, db.owners, db.messages, mine[i], Consumer)
  {
    var gate := RequireType(user, Consumer, OnlyConsumers);
    if gate.Err? {
      return Err(gate.error);
    }
    var list := ListConversations(db, user.value.sub, Consumer);
    r := Ok(list);
  }

  /** GET unread-count: `{count}`, the owner messages the caller has not
      read, over all of the caller's conversations. */
  method GetUnreadCount(db: Db, user: Option<Payload>) returns (r: Result<nat>)
    ensures r.Err? <==> RequireType(user, Consumer, OnlyConsumers).Err?
    ensures r.Err? ==> r.error == Error(Forbidden, OnlyConsumers)
    ensures r.Ok? ==> r.value == ConsumerUnreadCount(db.conversations, db.messages, user.value.sub)
  {
    var gate := RequireType(user, Consumer, OnlyConsumers);
    if gate.Err? {
      return Err(gate.error);
    }
    r := Ok(ConsumerUnreadCount(db.conversations, db.messages, user.value.sub));
  }

  /** GET plant/:plantId: the caller is the conversation's consumer. */
  method GetOrCreateConversation(db: Db, sync: SyncGateway, user: Option<Payload>, plantId: Id, newId: Id)
    returns (r: Result<ConversationSummary>)
    requires db.Valid()
    requires forall k :: 0 <= k < |db.conversations| ==> db.conversations[k].id != newId
    requires forall i :: 0 <= i < |db.messages| ==> db.messages[i].conversationId != newId
    modifies db`conversations, sync`log
    ensures db.Valid()
    ensures RequireType(user, Consumer, OnlyConsumers).Err? ==>
      r == Err(Error(Forbidden, OnlyConsumers)) &&
      db.conversations == old(db.conversations) && sync.log == old(sync.log)
    ensures r.Ok? ==>
      user.Some? && user.value.userType == Consumer &&
      ConversationFor(db.conversations, user.value.sub, plantId).Some? &&
      ConversationFor(db.conversations, user.value.sub, plantId).value.id == r.value.id
  {
    var gate := RequireType(user, Consumer, OnlyConsumers);
    if gate.Err? {
      return Err(gate.error);
    }
    r := ChatService.GetOrCreateConversation(db, sync, user.value.sub, plantId, newId);
  }

  /** GET :id/messages. */
  method GetMessages(db: Db, user: Option<Payload>, conversationId: Id, page: nat, limit: nat, before: Option<string>)
    returns (r: Result<MessagePage>)
    requires page >= 1 && 1 <= limit <= 100
    ensures RequireType(user, Consumer, OnlyConsumers).Err? ==> r == Err(Error(Forbidden, OnlyConsumers))
    ensures RequireType(user, Consumer, OnlyConsumers).Ok? ==>
      r == MessagesPage(db.conversations, db.messages, db.consumers, db.owners, db.plants,
        conversationId, user.value.sub, Consumer, page, limit, before)
  {
    var gate := RequireType(user, Consumer, OnlyConsumers);
    if gate.Err? {
      return Err(gate.error);
    }
    r := ChatService.GetMessages(db, conversationId, user.value.sub, Consumer, page, limit, before);
  }

  /** POST :id/messages: the message is sent as the caller, a consumer. */
  method SendMessage(db: Db, sync: SyncGateway, user: Option<Payload>, conversationId: Id, content: string,
                     messageId: Id, notificationId: Id) returns (r: Result<MessageView>)
    requires db.Valid()
    requires forall i :: 0 <= i < |db.messages| ==> db.messages[i].id != messageId
    requires forall i :: 0 <= i < |db.notifications| ==> db.notifications[i].id != notificationId
    modifies db`messages, db`conversations, db`notifications, sync`log
    ensures db.Valid()
    ensures RequireType(user, Consumer, OnlyConsumers).Err? ==>
      r == Err(Error(Forbidden, OnlyConsumers)) &&
      db.messages == old(db.messages) && db.conversations == old(db.conversations) &&
      db.notifications == old(db.notifications) && sync.log == old(sync.log)
    ensures r.Ok? ==>
      user.Some? &&
      db.messages == old(db.messages) + [Message(messageId, conversationId, Consumer, user.value.sub, content, db.clock, None, None)]
  {
    var gate := RequireType(user, Consumer, OnlyConsumers);
    if gate.Err? {
      return Err(gate.error);
    }
    r := ChatService.SendMessage(db, sync, conversationId, user.value.sub, Consumer, content, messageId, notificationId);
  }

  /** POST :id/read: `{success: true}` once the batch is done. */
  method MarkAsRead(db: Db, sync: SyncGateway, user: Option<Payload>, conversationId: Id) returns (r: Result<bool>)
    requires db.Valid()
    modifies db`messages, sync`log
    ensures db.Valid()
    ensures RequireType(user, Consumer, OnlyConsumers).Err? ==>
      r == Err(Error(Forbidden, OnlyConsumers)) && db.messages == old(db.messages) && sync.log == old(sync.log)
    ensures r.Ok? ==>
      r.value && user.Some? &&
      db.messages == StampRead(old(db.messages), conversationId, Owner, db.clock)
  {
    var gate := RequireType(user, Consumer, OnlyConsumers);
    if gate.Err? {
      return Err(gate.error);
    }
    var done := ChatService.MarkAsRead(db, sync, conversationId, user.value.sub, Consumer);
    if done.Err? {
      return Err(done.error);
    }
    r := Ok(true);
  }
}
