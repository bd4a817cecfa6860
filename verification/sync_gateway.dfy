/** The `/sync` real-time gateway: it authenticates sockets, keeps the
    connection registry, and routes each domain event to rooms. A room is a
    string; an emission is recorded in an output log as its target and event
    name (payloads are not modelled). */
module Sync {
  import opened Common
  import opened Registry
  import Store

  /** Where `server.to(room).emit` (or `server.emit`, or a socket's
      `client.to(room).emit`, which skips the sending socket) sends an event. */
  datatype Target = Room(name: string) | Everyone | RoomExceptSocket(room: string, socket: string)

  datatype Emission = Emission(target: Target, event: string)

  /** The personal room and registry key of an identity, `<type>:<id>`. */
  function UserRoom(role: Role, id: Id): string
  {
    RoleName(role) + ":" + id
  }

  /** The room of every connection of one user type, `type:<type>`. */
  function TypeRoom(role: Role): string
  {
    "type:" + RoleName(role)
  }

  /** Two identities share a personal room only if they are the same
      identity, and no personal room is a type room. */
  lemma {:induction false} UserRoomInjective(r1: Role, a: Id, r2: Role, b: Id)
    ensures UserRoom(r1, a) == UserRoom(r2, b) <==> r1 == r2 && a == b
  {
    if UserRoom(r1, a) == UserRoom(r2, b) {
      assert UserRoom(r1, a)[0] == UserRoom(r2, b)[0];
      assert r1 == r2;
      var n := |RoleName(r1)| + 1;
      assert UserRoom(r1, a)[n..] == a;
      assert UserRoom(r2, b)[n..] == b;
    }
  }

  lemma UserRoomIsNotTypeRoom(r1: Role, a: Id, r2: Role)
    ensures UserRoom(r1, a) != TypeRoom(r2)
  {
    assert UserRoom(r1, a)[0] != TypeRoom(r2)[0];
  }

  /** `handshake.auth.token || authorization.replace('Bearer ', '')`; the
      empty text stands for "no token". */
  function HandshakeToken(auth: Option<string>, authorization: Option<string>): (token: string)
    ensures auth.Some? && auth.value != "" ==> token == auth.value
    ensures (auth.None? || auth.value == "") && authorization.None? ==> token == ""
  {
    if auth.Some? && auth.value != "" then auth.value
    else if authorization.Some? then ReplaceFirst(authorization.value, "Bearer ")
    else ""
  }

  /** `s.replace(pattern, '')` for a text pattern: the first occurrence is cut out. */
  function ReplaceFirst(s: string, pattern: string): (r: string)
    requires pattern != ""
    ensures |r| <= |s|
    ensures pattern <= s ==> r == s[|pattern|..]
  {
    if pattern <= s then s[|pattern|..]
    else if s == [] then []
    else [s[0]] + ReplaceFirst(s[1..], pattern)
  }

  // ---- routing: which rooms each notification reaches ----

  function ToType(role: Role, event: string): seq<Emission>
  {
    [Emission(Room(TypeRoom(role)), event)]
  }

  function ToUser(id: Id, role: Role, event: string): seq<Emission>
  {
    [Emission(Room(UserRoom(role, id)), event)]
  }

  function ToAll(event: string): seq<Emission>
  {
    [Emission(Everyone, event)]
  }

  /** The rooms a routed list of emissions reaches. */
  function Rooms(es: seq<Emission>): set<string>
  {
    set e | e in es && e.target.Room? :: e.target.name
  }

  function PlantCreatedRoute(): (es: seq<Emission>)
    ensures es == [Emission(Everyone, "plant:created")]
  {
    ToAll("plant:created")
  }

  function PlantUpdatedRoute(): (es: seq<Emission>)
    ensures es == [Emission(Everyone, "plant:updated")]
  {
    ToAll("plant:updated")
  }

  function PlantDeletedRoute(): (es: seq<Emission>)
    ensures es == [Emission(Everyone, "plant:deleted")]
  {
    ToAll("plant:deleted")
  }

  function VerificationCreatedRoute(ownerId: Id): seq<Emission>
  {
    ToType(Admin, "verification:created") + ToUser(ownerId, Owner, "verification:created")
  }

  /** A new verification request reaches the admins and the owning owner. */
  lemma VerificationCreatedAudience(ownerId: Id)
    ensures Rooms(VerificationCreatedRoute(ownerId)) == {TypeRoom(Admin), UserRoom(Owner, ownerId)}
    ensures forall e :: e in VerificationCreatedRoute(ownerId) ==> e.event == "verification:created"
  {
    var es := VerificationCreatedRoute(ownerId);
    assert es[0].target.name == TypeRoom(Admin) && es[1].target.name == UserRoom(Owner, ownerId);
  }

  function VerificationUpdatedRoute(ownerId: Id, status: Store.RequestStatus): seq<Emission>
  {
    ToType(Admin, "verification:updated") + ToUser(ownerId, Owner, "verification:updated")
    + (if status == Store.Approved then ToType(Consumer, "plant:verified") else [])
  }

  /** A decision reaches the admins and the owner; an approval is also
      announced to every consumer as `plant:verified`. */
  lemma VerificationUpdatedAudience(ownerId: Id, status: Store.RequestStatus)
    ensures var es := VerificationUpdatedRoute(ownerId, status);
      Emission(Room(TypeRoom(Admin)), "verification:updated") in es &&
      Emission(Room(UserRoom(Owner, ownerId)), "verification:updated") in es &&
      (Emission(Room(TypeRoom(Consumer)), "plant:verified") in es <==> status == Store.Approved)
    ensures Rooms(VerificationUpdatedRoute(ownerId, status)) == if status == Store.Approved
      then {TypeRoom(Admin), UserRoom(Owner, ownerId), TypeRoom(Consumer)}
      else {TypeRoom(Admin), UserRoom(Owner, ownerId)}
  {
    var es := VerificationUpdatedRoute(ownerId, status);
    assert es[0].target.name == TypeRoom(Admin) && es[1].target.name == UserRoom(Owner, ownerId);
    if status == Store.Approved {
      assert es[2].target.name == TypeRoom(Consumer);
    }
  }

  /** A new message reaches both participants' personal rooms (message:new)
      and the admins (chat:message), and nobody else. */
  function NewMessageRoute(c: Store.Conversation): seq<Emission>
  {
    ToUser(c.consumerId, Consumer, "message:new") + ToUser(c.ownerId, Owner, "message:new")
    + ToType(Admin, "chat:message")
  }

  lemma NewMessageAudience(c: Store.Conversation)
    ensures Rooms(NewMessageRoute(c)) == {UserRoom(Consumer, c.consumerId), UserRoom(Owner, c.ownerId), TypeRoom(Admin)}
    ensures forall e :: e in NewMessageRoute(c) ==>
      e.target.Room? && (e.event == "message:new" <==> e.target.name != TypeRoom(Admin))
  {
    UserRoomIsNotTypeRoom(Consumer, c.consumerId, Admin);
    UserRoomIsNotTypeRoom(Owner, c.ownerId, Admin);
    var es := NewMessageRoute(c);
    assert es[0].target.name == UserRoom(Consumer, c.consumerId) && es[1].target.name == UserRoom(Owner, c.ownerId);
    assert es[2].target.name == TypeRoom(Admin);
  }

  /** Badge refresh after a read batch: both participants and the admins. */
  function ConversationUpdatedRoute(c: Store.Conversation): seq<Emission>
  {
    ToUser(c.consumerId, Consumer, "conversation:updated") + ToUser(c.ownerId, Owner, "conversation:updated")
    + ToType(Admin, "chat:updated")
  }

  lemma ConversationUpdatedAudience(c: Store.Conversation)
    ensures Rooms(ConversationUpdatedRoute(c)) == {UserRoom(Consumer, c.consumerId), UserRoom(Owner, c.ownerId), TypeRoom(Admin)}
    ensures forall e :: e in ConversationUpdatedRoute(c) ==>
      e.target.Room? && (e.event == "conversation:updated" <==> e.target.name != TypeRoom(Admin))
  {
    UserRoomIsNotTypeRoom(Consumer, c.consumerId, Admin);
    UserRoomIsNotTypeRoom(Owner, c.ownerId, Admin);
    var es := ConversationUpdatedRoute(c);
    assert es[0].target.name == UserRoom(Consumer, c.consumerId) && es[1].target.name == UserRoom(Owner, c.ownerId);
    assert es[2].target.name == TypeRoom(Admin);
  }

  function ConversationCreatedRoute(): (es: seq<Emission>)
    ensures es == [Emission(Room(TypeRoom(Admin)), "chat:created")]
  {
    ToType(Admin, "chat:created")
  }

  /** Read receipts go to the party opposite the reader only: a consumer's
      read reaches the owner, anything else reaches the consumer. */
  function MessagesReadRoute(consumerId: Id, ownerId: Id, readBy: Role): (es: seq<Emission>)
    ensures |es| == 1 && es[0].event == "messages:read"
    ensures readBy == Consumer ==> es[0].target == Room(UserRoom(Owner, ownerId))
    ensures readBy == Owner ==> es[0].target == Room(UserRoom(Consumer, consumerId))
    ensures readBy != Admin ==> es[0].target != Room(UserRoom(readBy, if readBy == Consumer then consumerId else ownerId))
  {
    if readBy == Consumer then
      UserRoomInjective(Owner, ownerId, Consumer, consumerId);
      ToUser(ownerId, Owner, "messages:read")
    else
      UserRoomInjective(Consumer, consumerId, Owner, ownerId);
      ToUser(consumerId, Consumer, "messages:read")
  }

  /** The admins' read event, whatever any privacy flag says. */
  function MessagesReadToAdminRoute(): (es: seq<Emission>)
    ensures es == [Emission(Room(TypeRoom(Admin)), "chat:read")]
  {
    ToType(Admin, "chat:read")
  }

  /** A delivery receipt goes to the sender, the party opposite the
      recipient. */
  function MessageDeliveredRoute(consumerId: Id, ownerId: Id, deliveredTo: Role): (es: seq<Emission>)
    ensures |es| == 1 && es[0].event == "message:delivered"
    ensures deliveredTo == Consumer ==> es[0].target == Room(UserRoom(Owner, ownerId))
    ensures deliveredTo != Consumer ==> es[0].target == Room(UserRoom(Consumer, consumerId))
  {
    if deliveredTo == Consumer then ToUser(ownerId, Owner, "message:delivered")
    else ToUser(consumerId, Consumer, "message:delivered")
  }

  function RefreshRoute(role: Role): (es: seq<Emission>)
    ensures es == [Emission(Room(TypeRoom(role)), "data:refresh")]
  {
    ToType(role, "data:refresh")
  }

  /** The registry has no empty entry, and every socket in it is an
      authenticated socket registered under its own identity's key. */
  predicate RegistryMatches(userSockets: Sockets, socketUser: map<string, Payload>)
  {
    NoEmptySets(userSockets) &&
    forall k, s :: k in userSockets && s in userSockets[k] ==>
      s in socketUser && UserRoom(socketUser[s].userType, socketUser[s].sub) == k
  }

  class SyncGateway {
    /** `jwtService.verify` with the configured secret: the tokens that verify,
        and what they carry. */
    const verifier: map<string, Payload>
    var userSockets: Sockets
    /** `client.user` of each authenticated socket. */
    var socketUser: map<string, Payload>
    /** The rooms each open socket has joined. */
    var joined: map<string, set<string>>
    /** Sockets the server disconnected. */
    var disconnected: set<string>
    var log: seq<Emission>

    /** Every registered socket belongs to the identity it is registered under. */
    ghost predicate Valid()
      reads this
    {
      RegistryMatches(userSockets, socketUser)
    }

    constructor (verifier: map<string, Payload>)
      ensures Valid() && this.verifier == verifier
      ensures userSockets == map[] && socketUser == map[] && joined == map[]
      ensures disconnected == {} && log == []
    {
      this.verifier := verifier;
      userSockets, socketUser, joined, disconnected, log := map[], map[], map[], {}, [];
    }

    /** A socket without a token, or with one that does not verify, is
        disconnected and nothing else changes. A verified socket joins its
        personal room and its type room and is registered under
        `<type>:<sub>`. */
    method HandleConnection(socket: string, auth: Option<string>, authorization: Option<string>)
      requires Valid() && socket !in socketUser
      modifies this`userSockets, this`socketUser, this`joined, this`disconnected
      ensures Valid()
      ensures var token := HandshakeToken(auth, authorization);
        if token == "" || token !in verifier then
          disconnected == old(disconnected) + {socket} && userSockets == old(userSockets) &&
          socketUser == old(socketUser) && joined == old(joined)
        else
          var p := verifier[token];
          socketUser == old(socketUser)[socket := p] &&
          joined == old(joined)[socket := (if socket in old(joined) then old(joined)[socket] else {})
            + {UserRoom(p.userType, p.sub), TypeRoom(p.userType)}] &&
          userSockets == Register(old(userSockets), UserRoom(p.userType, p.sub), socket) &&
          disconnected == old(disconnected)
    {
      var token := HandshakeToken(auth, authorization);
      if token == "" {
        disconnected := disconnected + {socket};
        return;
      }
      if token !in verifier {
        disconnected := disconnected + {socket};
        return;
      }
      var p := verifier[token];
      socketUser := socketUser[socket := p];
      var key := UserRoom(p.userType, p.sub);
      var rooms := if socket in joined then joined[socket] else {};
      joined := joined[socket := rooms + {key, TypeRoom(p.userType)}];
      userSockets := Register(userSockets, key, socket);
    }

    /** An authenticated socket leaves the registry (its identity's entry
        goes once empty); socket.io drops it from every room. */
    method HandleDisconnect(socket: string)
      requires Valid()
      modifies this`userSockets, this`joined
      ensures Valid()
      ensures socket in socketUser ==>
        userSockets == Unregister(old(userSockets), UserRoom(socketUser[socket].userType, socketUser[socket].sub), socket)
      ensures socket !in socketUser ==> userSockets == old(userSockets)
      ensures joined == old(joined) - {socket}
    {
      if socket in socketUser {
        var p := socketUser[socket];
        userSockets := Unregister(userSockets, UserRoom(p.userType, p.sub), socket);
      }
      joined := joined - {socket};
    }

    /** Broadcasts append to the log; the registry is only read (for a log
        line in the source) and never decides delivery. */
    method Emit(es: seq<Emission>)
      modifies this`log
      ensures log == old(log) + es
    {
      log := log + es;
    }

    method BroadcastToType(role: Role, event: string)
      modifies this`log
      ensures log == old(log) + [Emission(Room(TypeRoom(role)), event)]
    {
      Emit(ToType(role, event));
    }

    method BroadcastToUser(id: Id, role: Role, event: string)
      modifies this`log
      ensures log == old(log) + [Emission(Room(UserRoom(role, id)), event)]
    {
      Emit(ToUser(id, role, event));
    }

    method BroadcastToAll(event: string)
      modifies this`log
      ensures log == old(log) + [Emission(Everyone, event)]
    {
      Emit(ToAll(event));
    }

    method NotifyPlantCreated()
      modifies this`log
      ensures log == old(log) + PlantCreatedRoute()
    {
      Emit(PlantCreatedRoute());
    }

    method NotifyPlantUpdated()
      modifies this`log
      ensures log == old(log) + PlantUpdatedRoute()
    {
      Emit(PlantUpdatedRoute());
    }

    method NotifyPlantDeleted()
      modifies this`log
      ensures log == old(log) + PlantDeletedRoute()
    {
      Emit(PlantDeletedRoute());
    }

    method NotifyVerificationCreated(ownerId: Id)
      modifies this`log
      ensures log == old(log) + VerificationCreatedRoute(ownerId)
    {
      Emit(VerificationCreatedRoute(ownerId));
    }

    method NotifyVerificationUpdated(ownerId: Id, status: Store.RequestStatus)
      modifies this`log
      ensures log == old(log) + VerificationUpdatedRoute(ownerId, status)
    {
      Emit(VerificationUpdatedRoute(ownerId, status));
    }

    method NotifyNewMessage(c: Store.Conversation)
      modifies this`log
      ensures log == old(log) + NewMessageRoute(c)
    {
      Emit(NewMessageRoute(c));
    }

    method NotifyConversationUpdated(c: Store.Conversation)
      modifies this`log
      ensures log == old(log) + ConversationUpdatedRoute(c)
    {
      Emit(ConversationUpdatedRoute(c));
    }

    method NotifyConversationCreated()
      modifies this`log
      ensures log == old(log) + ConversationCreatedRoute()
    {
      Emit(ConversationCreatedRoute());
    }

    method NotifyMessagesRead(consumerId: Id, ownerId: Id, readBy: Role)
      modifies this`log
      ensures log == old(log) + MessagesReadRoute(consumerId, ownerId, readBy)
    {
      Emit(MessagesReadRoute(consumerId, ownerId, readBy));
    }

    method NotifyMessagesReadToAdmin()
      modifies this`log
      ensures log == old(log) + MessagesReadToAdminRoute()
    {
      Emit(MessagesReadToAdminRoute());
    }

    method NotifyMessageDelivered(consumerId: Id, ownerId: Id, deliveredTo: Role)
      modifies this`log
      ensures log == old(log) + MessageDeliveredRoute(consumerId, ownerId, deliveredTo)
    {
      Emit(MessageDeliveredRoute(consumerId, ownerId, deliveredTo));
    }

    method NotifyRefresh(role: Role)
      modifies this`log
      ensures log == old(log) + RefreshRoute(role)
    {
      Emit(RefreshRoute(role));
    }
  }
}
