/** `v1/owner/conversations`: every route first refuses any caller whose
    token is not an owner's, then calls the chat service with the caller's
    id and the fixed user type `owner`. There is no route that creates a
    conversation: owners act only on conversations consumers opened. */
module OwnerChatController {
  import opened Common
  import opened Store
  import opened Sync
  import opened Guards
  import opened ChatService

  const OnlyOwners := "Only owners can access this endpoint"

  /** GET /: the caller's conversations. */
  method GetConversations(db: Db, user: Option<Payload>) returns (r: Result<seq<ConversationSummary>>)
    ensures RequireType(user, Owner, OnlyOwners).Err? ==> r == Err(Error(Forbidden, OnlyOwners))
    ensures r.Ok? <==> user.Some? && user.value.userType == Owner
    ensures r.Ok? ==>
      var mine := Filter(db.conversations, (c: Conversation) => IsParticipant(c, Owner, user.value.sub));
      |r.value| == |mine| &&
      forall i :: 0 <= i < |mine| ==> r.value[i] == SummaryOf(db.plants, db.consumers, db.owners, db.messages, mine[i], Owner)
  {
    var gate := RequireType(user, Owner, OnlyOwners);
    if gate.Err? {
      return Err(gate.error);
    }
    var list := ListConversations(db, user.value.sub, Owner);
    r := Ok(list);
  }

  /** GET unread-count: `{count}`, the consumer messages the caller has not
      read, over all of the caller's conversations. */
  method GetUnreadCount(db: Db, user: Option<Payload>) returns (r: Result<nat>)
    ensures r.Err? <==> RequireType(user, Owner, OnlyOwners).Err?
    ensures r.Err? ==> r.error == Error(Forbidden, OnlyOwners)
    ensures r.Ok? ==> r.value == OwnerUnreadCount(db.conversations, db.messages, user.value.sub)
  {
    var gate := RequireType(user, Owner, OnlyOwners);
    if gate.Err? {
      return Err(gate.error);
    }
    r := Ok(OwnerUnreadCount(db.conversations, db.messages, user.value.sub));
  }

  /** GET :id/messages. */
  method GetMessages(db: Db, user: Option<Payload>, conversationId: Id, page: nat, limit: nat, before: Option<string>)
    returns (r: Result<MessagePage>)
    requires page >= 1 && 1 <= limit <= 100
    ensures RequireType(user, Owner, OnlyOwners).Err? ==> r == Err(Error(Forbidden, OnlyOwners))
    ensures RequireType(user, Owner, OnlyOwners).Ok? ==>
      r == MessagesPage(db.conversations, db.messages, db.consumers, db.owners, db.plants,
        conversationId, user.value.sub, Owner, page, limit, before)
  {
    var gate := RequireType(user, Owner, OnlyOwners);
    if gate.Err? {
      return Err(gate.error);
    }
    r := ChatService.GetMessages(db, conversationId, user.value.sub, Owner, page, limit, before);
  }

  /** POST :id/messages: the message is sent as the caller, an owner. */
  method SendMessage(db: Db, sync: SyncGateway, user: Option<Payload>, conversationId: Id, content: string,
                     messageId: Id, notificationId: Id) returns (r: Result<MessageView>)
    requires db.Valid()
    requires forall i :: 0 <= i < |db.messages| ==> db.messages[i].id != messageId
    requires forall i :: 0 <= i < |db.notifications| ==> db.notifications[i].id != notificationId
    modifies db`messages, db`conversations, db`notifications, sync`log
    ensures db.Valid()
    ensures RequireType(user, Owner, OnlyOwners).Err? ==>
      r == Err(Error(Forbidden, OnlyOwners)) &&
      db.messages == old(db.messages) && db.conversations == old(db.conversations) &&
      db.notifications == old(db.notifications) && sync.log == old(sync.log)
    ensures r.Ok? ==>
      user.Some? &&
      db.messages == old(db.messages) + [Message(messageId, conversationId, Owner, user.value.sub, content, db.clock, None, None)]
  {
    var gate := RequireType(user, Owner, OnlyOwners);
    if gate.Err? {
      return Err(gate.error);
    }
    r := ChatService.SendMessage(db, sync, conversationId, user.value.sub, Owner, content, messageId, notificationId);
  }

  /** POST :id/read: `{success: true}` once the batch is done. */
  method MarkAsRead(db: Db, sync: SyncGateway, user: Option<Payload>, conversationId: Id) returns (r: Result<bool>)
    requires db.Valid()
    modifies db`messages, sync`log
    ensures db.Valid()
    ensures RequireType(user, Owner, OnlyOwners).Err? ==>
      r == Err(Error(Forbidden, OnlyOwners)) && db.messages == old(db.messages) && sync.log == old(sync.log)
    ensures r.Ok? ==>
      r.value && user.Some? &&
      db.messages == StampRead(old(db.messages), conversationId, Consumer, db.clock)
  {
    var gate := RequireType(user, Owner, OnlyOwners);
    if gate.Err? {
      return Err(gate.error);
    }
    var done := ChatService.MarkAsRead(db, sync, conversationId, user.value.sub, Owner);
    if done.Err? {
      return Err(done.error);
    }
    r := Ok(true);
  }
}
