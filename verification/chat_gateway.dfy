/** The `/chat` real-time gateway: sockets authenticate with a JWT, join
    per-conversation rooms after an access check, and send, type, and mark
    messages read or delivered. Its emissions go to its own log. */
module ChatGateway {
  import opened Common
  import opened Registry
  import opened Store
  import opened Sync
  import opened ChatService

  /** The room of one conversation, `conversation:<id>`. */
  function ConversationRoom(conversationId: Id): string
  {
    "conversation:" + conversationId
  }

  /** No conversation room is anybody's personal room. */
  lemma ConversationRoomIsNotUserRoom(conversationId: Id, role: Role, id: Id)
    ensures ConversationRoom(conversationId) != UserRoom(role, id)
  {
    assert ConversationRoom(conversationId)[3] != UserRoom(role, id)[3];
  }

  /** What a handler acknowledges to the calling socket. */
  datatype Reply = Success | Sent(message: MessageView) | Failure(error: string)

  const NotAuthenticated := Failure("Not authenticated")

  class ChatGateway {
    const verifier: map<string, Payload>
    var userSockets: Sockets
    var socketUser: map<string, Payload>
    var joined: map<string, set<string>>
    var disconnected: set<string>
    var log: seq<Emission>

    ghost predicate Valid()
      reads this
    {
      RegistryMatches(userSockets, socketUser)
    }

    constructor (verifier: map<string, Payload>)
      ensures Valid() && this.verifier == verifier
      ensures userSockets == map[] && socketUser == map[] && joined == map[]
      ensures disconnected == {} && log == []
    {
      this.verifier := verifier;
      userSockets, socketUser, joined, disconnected, log := map[], map[], map[], {}, [];
    }

    /** The rooms a socket is in. */
    function RoomsOf(socket: string): set<string>
      reads this
    {
      if socket in joined then joined[socket] else {}
    }

    /** As on the sync gateway, except that a verified socket joins only its
        personal room `<type>:<sub>` and no type room. */
    method HandleConnection(socket: string, auth: Option<string>, authorization: Option<string>)
      requires Valid() && socket !in socketUser
      modifies this`userSockets, this`socketUser, this`joined, this`disconnected
      ensures Valid()
      ensures var token := HandshakeToken(auth, authorization);
        if token == "" || token !in verifier then
          disconnected == old(disconnected) + {socket} && userSockets == old(userSockets) &&
          socketUser == old(socketUser) && joined == old(joined)
        else
          var p := verifier[token];
          socketUser == old(socketUser)[socket := p] &&
          joined == old(joined)[socket := old(RoomsOf(socket)) + {UserRoom(p.userType, p.sub)}] &&
          userSockets == Register(old(userSockets), UserRoom(p.userType, p.sub), socket) &&
          disconnected == old(disconnected)
    {
      var token := HandshakeToken(auth, authorization);
      if token == "" || token !in verifier {
        disconnected := disconnected + {socket};
        return;
      }
      var p := verifier[token];
      socketUser := socketUser[socket := p];
      var key := UserRoom(p.userType, p.sub);
      joined := joined[socket := RoomsOf(socket) + {key}];
      userSockets := Register(userSockets, key, socket);
    }

    method HandleDisconnect(socket: string)
      requires Valid()
      modifies this`userSockets, this`joined
      ensures Valid()
      ensures socket in socketUser ==>
        userSockets == Unregister(old(userSockets), UserRoom(socketUser[socket].userType, socketUser[socket].sub), socket)
      ensures socket !in socketUser ==> userSockets == old(userSockets)
      ensures joined == old(joined) - {socket}
    {
      if socket in socketUser {
        var p := socketUser[socket];
        userSockets := Unregister(userSockets, UserRoom(p.userType, p.sub), socket);
      }
      joined := joined - {socket};
    }

    /** `join_conversation`: the socket enters the conversation's room only
        if its user passes `verifyConversationAccess`. */
    method HandleJoinConversation(db: Db, socket: string, conversationId: Id) returns (reply: Reply)
      modifies this`joined
      ensures socket !in socketUser ==> reply == NotAuthenticated && joined == old(joined)
      ensures socket in socketUser ==>
        var u := socketUser[socket];
        if VerifyConversationAccess(db.conversations, conversationId, u.sub, u.userType) then
          reply == Success && joined == old(joined)[socket := old(RoomsOf(socket)) + {ConversationRoom(conversationId)}]
        else
          reply == Failure("Access denied") && joined == old(joined)
    {
      if socket !in socketUser {
        return NotAuthenticated;
      }
      var u := socketUser[socket];
      var hasAccess := VerifyConversationAccess(db.conversations, conversationId, u.sub, u.userType);
      if !hasAccess {
        return Failure("Access denied");
      }
      joined := joined[socket := RoomsOf(socket) + {ConversationRoom(conversationId)}];
      reply := Success;
    }

    /** `leave_conversation`: no authentication check, always a success. */
    method HandleLeaveConversation(socket: string, conversationId: Id) returns (reply: Reply)
      modifies this`joined
      ensures reply == Success
      ensures socket in old(joined) ==> joined == old(joined)[socket := old(joined)[socket] - {ConversationRoom(conversationId)}]
      ensures socket !in old(joined) ==> joined == old(joined)
    {
      if socket in joined {
        joined := joined[socket := joined[socket] - {ConversationRoom(conversationId)}];
      }
      reply := Success;
    }

    /** `send_message`: the service call; only when it succeeds does the
        message go out as `new_message` to the conversation's room, and a
        failure comes back as its message. */
    method HandleSendMessage(db: Db, sync: SyncGateway, socket: string, conversationId: Id, content: string,
                             messageId: Id, notificationId: Id) returns (reply: Reply)
      requires db.Valid()
      requires forall i :: 0 <= i < |db.messages| ==> db.messages[i].id != messageId
      requires forall i :: 0 <= i < |db.notifications| ==> db.notifications[i].id != notificationId
      modifies this`log, db`messages, db`conversations, db`notifications, sync`log
      ensures db.Valid()
      ensures socket !in socketUser ==>
        reply == NotAuthenticated && log == old(log) && db.messages == old(db.messages) &&
        db.conversations == old(db.conversations) && db.notifications == old(db.notifications) &&
        sync.log == old(sync.log)
      ensures socket in socketUser ==>
        var u := socketUser[socket];
        var access := CheckAccess(old(db.conversations), conversationId, u.sub, u.userType);
        (access.Err? ==>
          reply == Failure(access.error.message) && log == old(log) && db.messages == old(db.messages) &&
          db.conversations == old(db.conversations) && db.notifications == old(db.notifications) &&
          sync.log == old(sync.log)) &&
        (access.Ok? ==>
          var m := Message(messageId, conversationId, u.userType, u.sub, content, db.clock, None, None);
          reply == Sent(ViewOf(m, u.userType, true)) &&
          db.messages == old(db.messages) + [m] &&
          db.conversations == SetLastMessageAt(old(db.conversations), conversationId, db.clock) &&
          db.notifications == old(db.notifications) + NewMessageNotices(access.value, u.userType, notificationId, db.clock) &&
          sync.log == old(sync.log) + NewMessageRoute(access.value) &&
          log == old(log) + [Emission(Room(ConversationRoom(conversationId)), "new_message")])
    {
      if socket !in socketUser {
        return NotAuthenticated;
      }
      var u := socketUser[socket];
      var r := ChatService.SendMessage(db, sync, conversationId, u.sub, u.userType, content, messageId, notificationId);
      if r.Err? {
        return Failure(r.error.message);
      }
      log := log + [Emission(Room(ConversationRoom(conversationId)), "new_message")];
      reply := Sent(r.value);
    }

    /** `typing`: relayed to the conversation's room, minus the typing socket. */
    method HandleTyping(socket: string, conversationId: Id) returns (reply: Reply)
      modifies this`log
      ensures socket !in socketUser ==> reply == NotAuthenticated && log == old(log)
      ensures socket in socketUser ==>
        reply == Success && log == old(log) + [Emission(RoomExceptSocket(ConversationRoom(conversationId), socket), "user_typing")]
    {
      if socket !in socketUser {
        return NotAuthenticated;
      }
      log := log + [Emission(RoomExceptSocket(ConversationRoom(conversationId), socket), "user_typing")];
      reply := Success;
    }

    /** `mark_read`: the message's read stamp is overwritten with now, with
        no check of access, of the conversation it belongs to or of any
        read-receipt flag, and `message_read` goes to the named room. */
    method HandleMarkRead(db: Db, socket: string, conversationId: Id, messageId: Id) returns (reply: Reply)
      requires db.Valid()
      modifies this`log, db`messages
      ensures db.Valid()
      ensures socket !in socketUser ==> reply == NotAuthenticated && log == old(log) && db.messages == old(db.messages)
      ensures socket in socketUser && MessageIndex(old(db.messages), messageId).None? ==>
        reply == Failure(RecordMissing.message) && log == old(log) && db.messages == old(db.messages)
      ensures socket in socketUser && MessageIndex(old(db.messages), messageId).Some? ==>
        var k := MessageIndex(old(db.messages), messageId).value;
        reply == Success &&
        db.messages == old(db.messages)[k := old(db.messages)[k].(readAt := Some(db.clock))] &&
        log == old(log) + [Emission(Room(ConversationRoom(conversationId)), "message_read")]
    {
      if socket !in socketUser {
        return NotAuthenticated;
      }
      var r := MarkMessageAsRead(db, messageId);
      if r.Err? {
        return Failure(r.error.message);
      }
      log := log + [Emission(Room(ConversationRoom(conversationId)), "message_read")];
      reply := Success;
    }

    /** `mark_delivered`: as `mark_read`, for the delivery stamp and the
        `message_delivered` event. */
    method HandleMarkDelivered(db: Db, socket: string, conversationId: Id, messageId: Id) returns (reply: Reply)
      requires db.Valid()
      modifies this`log, db`messages
      ensures db.Valid()
      ensures socket !in socketUser ==> reply == NotAuthenticated && log == old(log) && db.messages == old(db.messages)
      ensures socket in socketUser && MessageIndex(old(db.messages), messageId).None? ==>
        reply == Failure(RecordMissing.message) && log == old(log) && db.messages == old(db.messages)
      ensures socket in socketUser && MessageIndex(old(db.messages), messageId).Some? ==>
        var k := MessageIndex(old(db.messages), messageId).value;
        reply == Success &&
        db.messages == old(db.messages)[k := old(db.messages)[k].(deliveredAt := Some(db.clock))] &&
        log == old(log) + [Emission(Room(ConversationRoom(conversationId)), "message_delivered")]
    {
      if socket !in socketUser {
        return NotAuthenticated;
      }
      var r := MarkMessageAsDelivered(db, messageId);
      if r.Err? {
        return Failure(r.error.message);
      }
      log := log + [Emission(Room(ConversationRoom(conversationId)), "message_delivered")];
      reply := Success;
    }

    /** `sendToUser`: to the personal room `<type>:<id>`. */
    method SendToUser(userId: Id, userType: Role, event: string)
      modifies this`log
      ensures log == old(log) + [Emission(Room(UserRoom(userType, userId)), event)]
    {
      log := log + [Emission(Room(UserRoom(userType, userId)), event)];
    }
  }
}
