# SymLink backend core, modelled in Dafny

SymLink is a marketplace and chat platform. Plant owners list plants, consumers browse them and chat with
their owners, and admins oversee everything. This project models the NestJS backend's core:

- **the conversation and message store** behind `ChatService`. It covers get-or-create of the one
  conversation per (consumer, plant) pair, paged message history, sending, and marking as read and as
  delivered. It also covers unread badges and the **read-receipt privacy rule**: the read stamp is always
  stored, but a sender sees it only when the reader allows receipts.
- **the two Socket.IO gateways**. The sync gateway (`Sync.SyncGateway`) keeps a registry of the sockets
  of each identity and routes every domain event to personal, type and global rooms. The chat gateway
  (`ChatGateway.ChatGateway`) handles join, leave, typing, message and read events on `/chat`.
- **the rule sets of the controllers, services and guards**:
  - consumer, owner and admin authentication;
  - profiles;
  - the owner's plants, verification requests, notifications and analytics;
  - the admin dashboard, plant moderation, verification review and chat oversight;
  - query-parameter parsing and pagination;
  - object-storage key and URL rules;
  - the JWT guards;
  - the health check and the response envelope.

The database is one class, `Store.Db`. Its tables are sequences in creation order, with an integer clock
that never runs backwards, and `Db.Valid()` states the schema's uniqueness and reference invariants. Every
state-changing route is a method on that class; each method states its whole new state and keeps
`Valid()`. Read-only rules are pure functions. Emitted socket events go to an append-only log of
`Emission(target, event)` values, and lemmas state exactly who receives each event. Fresh ids, the current
time, password hashing and comparison, and JWT verification are parameters.

## Model

| member | source | states |
|---|---|---|
| ChatService.VerifyConversationAccess | apps/backend/src/modules/chat/chat.service.ts:562-580 | false for an unknown conversation; otherwise true exactly when the caller holds the seat of its type (for any type but consumer, the owner seat) |
| ChatService.InlineCheckAdmitsAdmin | apps/backend/src/modules/chat/chat.service.ts:287-292 | the participant check as written lets an admin identity into every conversation although an admin is never a participant (see Findings) |
| ChatService.AccessDenied | apps/backend/src/modules/chat/chat.service.ts:287-292 | denied exactly when the caller is not the conversation's participant of their type; for consumers and owners it agrees with the check as written |
| ChatService.AccessDeniedAsWritten | apps/backend/src/modules/chat/chat.service.ts:287-292 | the inline check denies only non-participants, every consumer or owner outside their seat, and never an admin |
| ChatService.CheckAccess | apps/backend/src/modules/chat/chat.service.ts:279-292 | NotFound "Conversation not found" exactly for an unknown id, then Forbidden "Access denied to this conversation" exactly for a non-participant; success returns that conversation with the caller as participant |
| ChatService.ViewOf | apps/backend/src/modules/chat/chat.service.ts:243-258 | every field of the message is kept except the read stamp, which is hidden only on the viewer's own messages when the other party disallows receipts; the delivery stamp is never hidden |
| ChatService.ReadReceiptPrivacy | apps/backend/src/modules/chat/chat.service.ts:235-258 | a read message seen by its sender shows its read stamp exactly when the reader allows receipts, while the reader always sees the stamp |
| ChatService.Views | apps/backend/src/modules/chat/chat.service.ts:243-259 | one view per listed message, in the same order |
| ChatService.CursorTime | apps/backend/src/modules/chat/chat.service.ts:202-209 | a cursor resolves exactly when it is non-empty and names a stored message (in any conversation), and then to that message's time; an absent or empty cursor never resolves |
| ChatService.Matching | apps/backend/src/modules/chat/chat.service.ts:198-213 | every listed row belongs to the conversation and lies strictly before a resolved cursor |
| ChatService.Window | apps/backend/src/modules/chat/chat.service.ts:211-221 | at most `limit` rows; exactly min(limit, rows - offset) rows ending `offset` rows before the newest, none past the end |
| ChatService.WindowProperties | apps/backend/src/modules/chat/chat.service.ts:211-216 | a page is in ascending time order and holds only the conversation's rows before the cursor |
| ChatService.PagesAreAdjacent | apps/backend/src/modules/chat/chat.service.ts:214-215 | page p + 1 ends exactly where page p begins, so offset pages tile the history without gap or overlap |
| ChatService.NewestFirstWindow | apps/backend/src/modules/chat/chat.service.ts:211-243 | reading newest first with one row of look-ahead, popping it and reversing gives exactly the window, and `hasMore` holds exactly when more rows match than the offset plus the limit |
| ChatService.MessagesPage | apps/backend/src/modules/chat/chat.service.ts:150-263 | an access failure is returned unchanged; otherwise the page is the window of the matching messages, ascending, that ends `Offset` rows before the newest, each shown to the caller with the other party's receipt flag; at most `limit` messages, and `hasMore` exactly when rows remain beyond the window |
| ChatService.WindowWithin | apps/backend/src/modules/chat/chat.service.ts:210-219 | every message of a window is one of the matching messages |
| ChatService.ShownWindow | apps/backend/src/modules/chat/chat.service.ts:196-263 | every shown row belongs to the conversation, lies strictly before a resolved cursor, shows the caller's own read stamps only when the other party allows receipts, and the rows are in `sentAt` order when the table is |
| ChatService.PageContents | apps/backend/src/modules/chat/chat.service.ts:196-263 | the same four facts for the messages of a successful page |
| ChatService.Offset | apps/backend/src/modules/chat/chat.service.ts:215 | no rows are skipped with a non-empty cursor (resolved or not) or on page 1; without a cursor, or with an empty one, exactly `(page - 1) * limit` rows are skipped |
| ChatService.OtherPartyAllows | apps/backend/src/modules/chat/chat.service.ts:236-240 | the flag is off only when the other party's row exists with `readReceiptsEnabled` false, and on whenever every such row allows receipts |
| ChatService.GetMessages | apps/backend/src/modules/chat/chat.service.ts:150-263 | the imperative listing answers exactly what the page specification says |
| ChatService.SendMessage | apps/backend/src/modules/chat/chat.service.ts:272-337 | an access failure changes nothing; otherwise one unstamped message from the caller is appended, its conversation's lastMessageAt becomes its time, the owner alone is notified of a consumer's message, and message:new is routed; the store invariant is kept |
| ChatService.NewMessageNotices | apps/backend/src/modules/chat/chat.service.ts:310-320 | exactly one unread NEW_MESSAGE notice for the conversation's owner when a consumer sends, none otherwise |
| ChatService.RecordMessage | apps/backend/src/modules/chat/chat.service.ts:294-308 | the message is appended and its conversation stamped while the store invariant (unique ids, participants only, time order) holds |
| ChatService.SetLastMessageAt | apps/backend/src/modules/chat/chat.service.ts:304-308 | only the conversation with that id changes, and only its lastMessageAt |
| ChatService.ReaderAllows | apps/backend/src/modules/chat/chat.service.ts:360-374 | the reader's own readReceiptsEnabled, and true when the reader has no row |
| ChatService.UnreadIds | apps/backend/src/modules/chat/chat.service.ts:382-399 | one id per unread message of the other party in the conversation |
| ChatService.StampReadClearsUnread | apps/backend/src/modules/chat/chat.service.ts:402-410 | after the batch no message of the other party in the conversation is unread, so a repeated markAsRead finds nothing |
| ChatService.StampReadFrame | apps/backend/src/modules/chat/chat.service.ts:402-410 | the batch leaves every message of other conversations, the reader's own and those already read unchanged |
| ChatService.StampReadWithoutUnread | apps/backend/src/modules/chat/chat.service.ts:394-397 | with nothing unread the batch is the identity |
| ChatService.ReadEventsAudience | apps/backend/src/modules/chat/chat.service.ts:412-452 | an empty batch emits nothing; otherwise both parties and the admins get the update and the admins the read event, and a messages:read event is emitted exactly when the reader allows receipts |
| ChatService.ReadEvents | apps/backend/src/modules/chat/chat.service.ts:422-452 | a batch emits nothing exactly when it is empty, and a non-empty batch starts with the conversation update |
| ChatService.ReadReceiptGoesToSender | apps/backend/src/modules/chat/chat.service.ts:439-449 | with receipts on, messages:read reaches the personal room of the party opposite the reader |
| ChatService.MarkAsRead | apps/backend/src/modules/chat/chat.service.ts:339-453 | an access failure changes nothing; otherwise the other party's unread messages get the current read stamp, the answer is their ids and the batch's events are appended to the log |
| ChatService.AnnounceRead | apps/backend/src/modules/chat/chat.service.ts:412-452 | the log grows by exactly the batch's events |
| ChatService.MarkMessageAsDelivered | apps/backend/src/modules/chat/chat.service.ts:455-460 | the delivery stamp of that message becomes now and nothing else changes; an unknown id fails and changes nothing |
| ChatService.MarkMessageAsRead | apps/backend/src/modules/chat/chat.service.ts:462-467 | the read stamp of that message becomes now and nothing else changes; an unknown id fails and changes nothing |
| ChatService.OwnerUnreadCount | apps/backend/src/modules/chat/chat.service.ts:527-542 | the count of unread consumer messages over the owner's conversations, at most the number of messages |
| ChatService.ConsumerUnreadCount | apps/backend/src/modules/chat/chat.service.ts:544-559 | the count of unread owner messages over the consumer's conversations, at most the number of messages |
| ChatService.ConversationUnread | apps/backend/src/modules/chat/chat.service.ts:497-503 | the count of one conversation's unread messages from one party, at most the number of messages |
| ChatService.ConversationUnreadWithinTotal | apps/backend/src/modules/chat/chat.service.ts:497-559 | a conversation's badge never exceeds its owner's or its consumer's total badge |
| ChatService.LastOf | apps/backend/src/modules/chat/chat.service.ts:487-505 | none exactly when the conversation has no message; otherwise one of its messages, and the newest when messages are in time order |
| ChatService.SummaryOf | apps/backend/src/modules/chat/chat.service.ts:495-523 | a row carries the conversation's id, plant and creation time, the unread count of the other party's messages, and a last message exactly when one exists |
| ChatService.ListConversations | apps/backend/src/modules/chat/chat.service.ts:470-525 | one summary, in table order, for each conversation where the caller holds the seat of their type |
| ChatService.ConversationFor | apps/backend/src/modules/chat/chat.service.ts:102-109 | the conversation of the (consumer, plant) pair, and none exactly when no row has that pair |
| ChatService.GetOrCreateConversation | apps/backend/src/modules/chat/chat.service.ts:80-148 | NotFound for an unknown plant; an existing pair's conversation is returned untouched; otherwise one conversation with the plant's owner is created and chat:created routed; the answer is the pair's conversation with the consumer's unread count |
| Sync.UserRoomInjective | apps/backend/src/modules/sync/sync.gateway.ts:87-88 | two identities share a personal room exactly when they are the same identity |
| Sync.UserRoomIsNotTypeRoom | apps/backend/src/modules/sync/sync.gateway.ts:87-91 | no personal room is a type room |
| Sync.HandshakeToken | apps/backend/src/modules/sync/sync.gateway.ts:67-69 | a non-empty auth token wins; with neither source there is no token |
| Sync.ReplaceFirst | apps/backend/src/modules/sync/sync.gateway.ts:69 | never longer than the header, and a leading "Bearer " is cut off |
| Sync.PlantCreatedRoute | apps/backend/src/modules/sync/sync.gateway.ts:139-141 | plant:created goes to every connected client |
| Sync.PlantUpdatedRoute | apps/backend/src/modules/sync/sync.gateway.ts:143-145 | plant:updated goes to every connected client |
| Sync.PlantDeletedRoute | apps/backend/src/modules/sync/sync.gateway.ts:147-149 | plant:deleted goes to every connected client |
| Sync.VerificationCreatedAudience | apps/backend/src/modules/sync/sync.gateway.ts:152-155 | a new request reaches exactly the admins and the owning owner, always as verification:created |
| Sync.VerificationUpdatedAudience | apps/backend/src/modules/sync/sync.gateway.ts:157-164 | a decision reaches the admins and the owner, and every consumer hears plant:verified exactly when it is an approval |
| Sync.NewMessageAudience | apps/backend/src/modules/sync/sync.gateway.ts:167-188 | a new message reaches exactly both participants (message:new) and the admins (chat:message) |
| Sync.ConversationUpdatedAudience | apps/backend/src/modules/sync/sync.gateway.ts:190-196 | a badge refresh reaches exactly both participants (conversation:updated) and the admins (chat:updated) |
| Sync.ConversationCreatedRoute | apps/backend/src/modules/sync/sync.gateway.ts:199-201 | chat:created goes to the admins only |
| Sync.MessagesReadRoute | apps/backend/src/modules/sync/sync.gateway.ts:203-230 | one messages:read event, to the owner when a consumer read and to the consumer when an owner read, never to the reader's own room |
| Sync.MessagesReadToAdminRoute | apps/backend/src/modules/sync/sync.gateway.ts:236-245 | chat:read goes to the admins, whatever the privacy flags |
| Sync.MessageDeliveredRoute | apps/backend/src/modules/sync/sync.gateway.ts:247-269 | one message:delivered event, to the party opposite the recipient |
| Sync.RefreshRoute | apps/backend/src/modules/sync/sync.gateway.ts:272-274 | data:refresh goes to the given type's room |
| Sync.SyncGateway.constructor | apps/backend/src/modules/sync/sync.gateway.ts:58-63 | an empty registry, no sockets, an empty log |
| Sync.SyncGateway.HandleConnection | apps/backend/src/modules/sync/sync.gateway.ts:65-104 | no token or a token that does not verify disconnects the socket and changes nothing else; a verified socket joins its personal and type rooms and is registered under its identity; the registry invariant is kept |
| Sync.SyncGateway.HandleDisconnect | apps/backend/src/modules/sync/sync.gateway.ts:106-118 | an authenticated socket leaves its identity's entry (removed once empty); an unauthenticated one leaves the registry alone; the invariant is kept |
| Sync.SyncGateway.BroadcastToType | apps/backend/src/modules/sync/sync.gateway.ts:121-123 | one emission to the type room is logged |
| Sync.SyncGateway.BroadcastToUser | apps/backend/src/modules/sync/sync.gateway.ts:126-131 | one emission to the personal room is logged, whether or not that user has sockets |
| Sync.SyncGateway.BroadcastToAll | apps/backend/src/modules/sync/sync.gateway.ts:134-136 | one emission to everyone is logged |
| Sync.SyncGateway.NotifyVerificationCreated | apps/backend/src/modules/sync/sync.gateway.ts:152-155 | the log grows by the verification:created route |
| Sync.SyncGateway.NotifyVerificationUpdated | apps/backend/src/modules/sync/sync.gateway.ts:157-164 | the log grows by the verification:updated route for that status |
| Sync.SyncGateway.NotifyNewMessage | apps/backend/src/modules/sync/sync.gateway.ts:167-188 | the log grows by the new-message route |
| Sync.SyncGateway.NotifyConversationUpdated | apps/backend/src/modules/sync/sync.gateway.ts:190-196 | the log grows by the conversation-updated route |
| Sync.SyncGateway.NotifyMessagesRead | apps/backend/src/modules/sync/sync.gateway.ts:203-230 | the log grows by the read-receipt route |
| Sync.SyncGateway.NotifyMessageDelivered | apps/backend/src/modules/sync/sync.gateway.ts:247-269 | the log grows by the delivery-receipt route |
| Registry.Register | apps/backend/src/modules/sync/sync.gateway.ts:94-97 | the key gains an entry holding its former sockets plus the new one; every other entry is unchanged |
| Registry.Unregister | apps/backend/src/modules/sync/sync.gateway.ts:109-115 | the socket leaves its key's set and the key disappears once its set is empty; every other entry is unchanged |
| Registry.RegisterKeepsNoEmptySets | apps/backend/src/modules/sync/sync.gateway.ts:94-97 | registering never leaves an identity mapped to an empty set |
| Registry.UnregisterKeepsNoEmptySets | apps/backend/src/modules/sync/sync.gateway.ts:109-115 | unregistering never leaves an identity mapped to an empty set |
| Registry.RegisterTwice | apps/backend/src/modules/sync/sync.gateway.ts:94-97 | registering an already registered socket changes nothing |
| Registry.RegisterThenUnregister | apps/backend/src/modules/sync/sync.gateway.ts:94-115 | a connection followed by its disconnection restores the registry |
| Guards.RequireType | apps/backend/src/common/guards/admin.guard.ts:11-20 | success, always `true`, exactly for a present user of the required type; Forbidden otherwise |
| Guards.ConsumerGuard | apps/backend/src/common/guards/consumer.guard.ts:11-20 | passes exactly a consumer; Forbidden "Consumer access required" otherwise |
| Guards.OwnerGuard | apps/backend/src/common/guards/owner.guard.ts:11-20 | passes exactly an owner; Forbidden "Owner access required" otherwise |
| Guards.AdminGuard | apps/backend/src/common/guards/admin.guard.ts:11-20 | passes exactly an admin; Forbidden "Admin access required" otherwise |
| Guards.AdminRoleIgnored | apps/backend/src/common/guards/admin.guard.ts:15 | the admin role claim never changes the guard's answer |
| Health.CheckDatabase | apps/backend/src/modules/health/health.service.ts:65-73 | healthy, with the elapsed time as latency, exactly when the query succeeds |
| Health.CheckCache | apps/backend/src/modules/health/health.service.ts:75-87 | healthy exactly when the value read back is "ok"; a latency only when healthy |
| Health.Aggregate | apps/backend/src/modules/health/health.service.ts:31-43 | healthy when both probes are, unhealthy when both fail, degraded exactly when they differ |
| Health.Readiness | apps/backend/src/modules/health/health.service.ts:56-59 | ready exactly when at least one probe is healthy, i.e. the status is not "unhealthy" |
| Health.Liveness | apps/backend/src/modules/health/health.service.ts:61-63 | always alive |
| AuthService.ExpiresInSeconds | apps/backend/src/modules/auth/auth.service.ts:67-86 | any text outside `^\d+[smhd]$` gives 900 seconds |
| AuthService.ExpiresInRoundTrip | apps/backend/src/modules/auth/auth.service.ts:67-86 | a rendered count with a unit parses back to the count times the unit's seconds |
| AuthService.LeadingZerosIgnored | apps/backend/src/modules/auth/auth.service.ts:68-71 | a leading zero does not change the duration |
| AuthService.ExpiresInExamples | apps/backend/src/modules/auth/auth.service.ts:67-86 | "15m" is 900, "7d" is 604800, "0s" is 0, and "1w", "15" and " 15m" fall back to 900 |
| AuthService.GenerateTokens | apps/backend/src/modules/auth/auth.service.ts:41-57 | both tokens carry the same payload, only the refresh token overrides the expiry (JWT_REFRESH_EXPIRES_IN, "7d" by default), and expiresIn is the configured JWT_EXPIRES_IN ("15m" by default) in seconds |
| AuthService.ConfiguredLifetime | apps/backend/src/modules/auth/auth.service.ts:48-55 | a JWT_EXPIRES_IN of a number and a unit gives that number of units, in seconds, as expiresIn |
| AuthService.VerifyToken | apps/backend/src/modules/auth/auth.service.ts:59-65 | the payload exactly for a token that verifies, and null for any other, never an error |
| ResponseEnvelope.Get | apps/backend/src/common/interceptors/response.interceptor.ts:46-49 | a missing property reads as undefined |
| ResponseEnvelope.Intercept | apps/backend/src/common/interceptors/response.interceptor.ts:26-63 | every result is an object with `success` and the timestamp; an object with `success` keeps its fields; a page object is unwrapped into data and meta; anything else becomes the data |
| ResponseEnvelope.InterceptTwice | apps/backend/src/common/interceptors/response.interceptor.ts:33-38 | wrapping an envelope again changes only its timestamp |
| ChatGateway.ConversationRoomIsNotUserRoom | apps/backend/src/modules/chat/chat.gateway.ts:70-119 | no conversation room is anybody's personal room |
| ChatGateway.ChatGateway.constructor | apps/backend/src/modules/chat/chat.gateway.ts:40-46 | an empty registry, no sockets, an empty log |
| ChatGateway.ChatGateway.HandleConnection | apps/backend/src/modules/chat/chat.gateway.ts:48-84 | no token or a token that does not verify disconnects the socket and changes nothing else; a verified socket is registered under its identity and joins its personal room only; the registry invariant is kept |
| ChatGateway.ChatGateway.HandleDisconnect | apps/backend/src/modules/chat/chat.gateway.ts:86-98 | an authenticated socket leaves its identity's entry (removed once empty); the invariant is kept |
| ChatGateway.ChatGateway.HandleJoinConversation | apps/backend/src/modules/chat/chat.gateway.ts:100-121 | an unauthenticated socket is refused; otherwise the socket joins the conversation's room exactly when its user passes the service's access check, else "Access denied" and nothing changes |
| ChatGateway.ChatGateway.HandleLeaveConversation | apps/backend/src/modules/chat/chat.gateway.ts:123-130 | always a success, with no authentication check; the socket leaves only that conversation's room |
| ChatGateway.ChatGateway.HandleSendMessage | apps/backend/src/modules/chat/chat.gateway.ts:132-158 | an unauthenticated socket changes nothing; a service failure comes back as its message with no message, conversation, notification or emission changed; a success appends exactly the caller's message stamped now, moves the conversation's `lastMessageAt`, adds the new-message notices and sync events, answers with the message as the sender sees it, and emits new_message to the conversation's room |
| ChatGateway.ChatGateway.HandleTyping | apps/backend/src/modules/chat/chat.gateway.ts:160-178 | for an authenticated socket, user_typing goes to the conversation's room minus the typing socket |
| ChatGateway.ChatGateway.HandleMarkRead | apps/backend/src/modules/chat/chat.gateway.ts:180-203 | for an authenticated socket the message's read stamp becomes now, with no access or privacy check, and message_read is emitted; an unknown message fails and changes nothing |
| ChatGateway.ChatGateway.HandleMarkDelivered | apps/backend/src/modules/chat/chat.gateway.ts:205-230 | as mark_read, for the delivery stamp and message_delivered |
| ChatGateway.ChatGateway.SendToUser | apps/backend/src/modules/chat/chat.gateway.ts:233-235 | one emission to the user's personal room is logged |
| ConsumerChatController.GetConversations | apps/backend/src/modules/chat/consumer-chat.controller.ts:22-28 | Forbidden for anyone but a consumer; a consumer gets one summary per conversation of theirs |
| ConsumerChatController.GetUnreadCount | apps/backend/src/modules/chat/consumer-chat.controller.ts:30-37 | Forbidden exactly for non-consumers; otherwise the consumer's total of unread owner messages |
| ConsumerChatController.GetOrCreateConversation | apps/backend/src/modules/chat/consumer-chat.controller.ts:39-48 | Forbidden for non-consumers, changing nothing; a success names the caller's conversation for that plant |
| ConsumerChatController.GetMessages | apps/backend/src/modules/chat/consumer-chat.controller.ts:50-65 | Forbidden for non-consumers; otherwise the service's page as seen by a consumer |
| ConsumerChatController.SendMessage | apps/backend/src/modules/chat/consumer-chat.controller.ts:67-82 | Forbidden for non-consumers, changing nothing; a success appends the caller's message as a consumer's |
| ConsumerChatController.MarkAsRead | apps/backend/src/modules/chat/consumer-chat.controller.ts:84-94 | Forbidden for non-consumers, changing nothing; a success has stamped every unread owner message of the conversation |
| OwnerChatController.GetConversations | apps/backend/src/modules/chat/owner-chat.controller.ts:21-27 | Forbidden for anyone but an owner; an owner gets one summary per conversation of theirs |
| OwnerChatController.GetUnreadCount | apps/backend/src/modules/chat/owner-chat.controller.ts:29-36 | Forbidden exactly for non-owners; otherwise the owner's total of unread consumer messages |
| OwnerChatController.GetMessages | apps/backend/src/modules/chat/owner-chat.controller.ts:38-53 | Forbidden for non-owners; otherwise the service's page as seen by an owner |
| OwnerChatController.SendMessage | apps/backend/src/modules/chat/owner-chat.controller.ts:55-70 | Forbidden for non-owners, changing nothing; a success appends the caller's message as an owner's |
| OwnerChatController.MarkAsRead | apps/backend/src/modules/chat/owner-chat.controller.ts:72-82 | Forbidden for non-owners, changing nothing; a success has stamped every unread consumer message of the conversation |
| AdminChatController.Rate | apps/backend/src/modules/admin/admin-chat.controller.ts:63-68 | 0 when there are no messages; otherwise the exact percentage `count/total*100` rounded half up (bracketed exactly), and at most 100 when the count does not exceed the total |
| AdminChatController.RateBounds | apps/backend/src/modules/admin/admin-chat.controller.ts:63-68 | the integer form of the rounding lies within half a unit of the exact percentage and never exceeds 100 for a fraction of the total |
| AdminChatController.Delay | apps/backend/src/modules/admin/admin-chat.controller.ts:317-322 | a delay exists exactly when the stamp does, and the send time plus the delay is the stamp |
| AdminChatController.DelaysNonNegative | apps/backend/src/modules/admin/admin-chat.controller.ts:317-322 | for a message whose stamps are consistent, neither the delivery nor the read delay is negative |
| AdminChatController.GetChatStats | apps/backend/src/modules/admin/admin-chat.controller.ts:20-70 | totals match the tables, unread plus read is the total, last-day count is within the last-week count within the total, and both rates are the rounded percentages of delivered and read messages, at most 100 |
| AdminChatController.BuildWhere | apps/backend/src/modules/admin/admin-chat.controller.ts:88-106 | each id filter and the search clause are set exactly when their parameter is given non-empty, and a conversation satisfies the built filter exactly when it matches the listing's parameters |
| AdminChatController.ConversationMessages | apps/backend/src/modules/admin/admin-chat.controller.ts:255-263 | only stored messages of that conversation, as many as the table holds for it |
| AdminChatController.AdminRowOf | apps/backend/src/modules/admin/admin-chat.controller.ts:151-192 | the row keeps the conversation's ids, counts its messages, and its unread-from-consumer and unread-from-owner counters are the conversation's unread counts per sender, together at most the message count |
| AdminChatController.UnreadWithinConversation | apps/backend/src/modules/admin/admin-chat.controller.ts:154-169 | the two unread counters of a conversation together never exceed its number of messages |
| AdminChatController.Selected | apps/backend/src/modules/admin/admin-chat.controller.ts:108-110 | exactly the stored conversations that match the filters and the search |
| AdminChatController.GetConversations | apps/backend/src/modules/admin/admin-chat.controller.ts:75-205 | the page (limit 1..50, default 20) of the selected conversations, each turned into its enriched row, with meta over all selected ones |
| AdminChatController.RowOf | apps/backend/src/modules/admin/admin-chat.controller.ts:308-323 | a message row keeps the message's id and stamps and carries its delivery and read delays |
| AdminChatController.RowsOf | apps/backend/src/modules/admin/admin-chat.controller.ts:308-323 | one row per message, in the same order |
| AdminChatController.StatisticsOf | apps/backend/src/modules/admin/admin-chat.controller.ts:265-307 | totals per sender add up to at most the total, delivered and read counts are at most the total, and the rates are their rounded percentages, at most 100 |
| AdminChatController.GetConversationDetail | apps/backend/src/modules/admin/admin-chat.controller.ts:210-331 | NotFound "Conversation not found" exactly for an unknown id; otherwise a page (limit 1..200, default 100) of its messages, statistics and meta over all of them, and the page is ordered by send time when the table is |
| AdminChatController.SummaryOfMessages | apps/backend/src/modules/admin/admin-chat.controller.ts:461-475 | the summary counts the messages, and when every sender is a consumer or an owner the per-sender counts add up to the total |
| AdminChatController.SendersPartition | apps/backend/src/modules/admin/admin-chat.controller.ts:463-468 | messages all sent by consumers or owners split exactly into the two per-sender counts |
| AdminChatController.ExportConversation | apps/backend/src/modules/admin/admin-chat.controller.ts:397-477 | NotFound exactly for an unknown id; otherwise the export is stamped with the given time and holds every message of the conversation as a row, with their summary, in `sentAt` order when the table is |
| AdminChatController.ExportSummaryAddsUp | apps/backend/src/modules/admin/admin-chat.controller.ts:461-475 | in a consistent store every message of an exported conversation was sent by its consumer or its owner, so the per-sender counts add up to the total |
| AdminChatController.SentMessages | apps/backend/src/modules/admin/admin-chat.controller.ts:347-350 | exactly the stored messages with that sender type and sender id |
| AdminChatController.NewestSentPageSentBy | apps/backend/src/modules/admin/admin-chat.controller.ts:352-367 | every message on a page of the user's messages was stored and sent by that user, and the page holds at most `limit` of them |
| AdminChatController.GetMessagesByUser | apps/backend/src/modules/admin/admin-chat.controller.ts:336-392 | one page (limit 1..100, default 50) of the user's messages newest first, each as its row with its conversation's plant name, owner name and consumer display name, with meta over all of the user's messages |
| AdminChatController.NamesOf | apps/backend/src/modules/admin/admin-chat.controller.ts:355-383 | each name included with a message is the name of the stored plant, owner or consumer that the message's conversation refers to; an unknown conversation gives no names |
| AdminChatController.NamesOfStoredRows | apps/backend/src/modules/admin/admin-chat.controller.ts:355-383 | for a stored conversation, each of the three names is present exactly when the plant, owner or consumer row it refers to is stored |
| ConsumerAuthController.ByEmail | apps/backend/src/modules/consumer/consumer-auth.controller.ts:98-100 | the index found holds that email, and none is found exactly when no consumer has it |
| ConsumerAuthController.ByDisplayName | apps/backend/src/modules/consumer/consumer-auth.controller.ts:56-58 | the index found holds that display name, and none is found exactly when no consumer has it |
| ConsumerAuthController.ById | apps/backend/src/modules/consumer/consumer-auth.controller.ts:143-145 | the index found holds that id, and none is found exactly when no consumer has it |
| ConsumerAuthController.NamesUniqueIgnoringCase | apps/backend/src/modules/consumer/consumer-auth.controller.ts:55-69 | with names stored lower-case and unique, no two consumers' display names differ only in letter case |
| ConsumerAuthController.CheckDisplayName | apps/backend/src/modules/consumer/consumer-auth.controller.ts:30-41 | the name is echoed as asked, and it is available exactly when no consumer holds its lower-case form |
| ConsumerAuthController.CheckIgnoresCase | apps/backend/src/modules/consumer/consumer-auth.controller.ts:33-35 | a name and its lower-case form always get the same availability answer |
| ConsumerAuthController.NewConsumer | apps/backend/src/modules/consumer/consumer-auth.controller.ts:66-74 | the created row carries the new id, the email as given, the password hash and the display name lower-cased |
| ConsumerAuthController.Register | apps/backend/src/modules/consumer/consumer-auth.controller.ts:43-92 | a taken email gives Conflict "Email already registered", then a taken lower-cased name gives Conflict "Display name already taken", each leaving the table as it was; otherwise exactly the new row is appended, the response carries its view and tokens for its claims, and store validity and lower-case names are kept |
| ConsumerAuthController.Login | apps/backend/src/modules/consumer/consumer-auth.controller.ts:94-131 | fails exactly for an unknown email or a wrong password, with the same Unauthorized "Invalid credentials" in both cases; success returns the consumer holding that email and tokens for their claims |
| ConsumerAuthController.Refresh | apps/backend/src/modules/consumer/consumer-auth.controller.ts:133-158 | an unverifiable token or one of another user type gives "Invalid refresh token", a vanished consumer "Consumer not found", otherwise fresh tokens for the stored consumer |
| ConsumerProfileController.GetProfile | apps/backend/src/modules/consumer/consumer-profile.controller.ts:39-54 | empty exactly when the caller has no row; otherwise the caller's row without the password |
| ConsumerProfileController.NameCheck | apps/backend/src/modules/consumer/consumer-profile.controller.ts:58-67 | no check without a non-empty name; refused with "Display name already taken" exactly when, in a consistent table, another consumer holds the lower-cased name |
| ConsumerProfileController.Edited | apps/backend/src/modules/consumer/consumer-profile.controller.ts:69-75 | each field given non-empty replaces the stored one (the display name lower-cased); id, email, password and receipt setting are kept |
| ConsumerProfileController.UpdateProfile | apps/backend/src/modules/consumer/consumer-profile.controller.ts:56-87 | a name held by someone else is refused and a vanished caller fails, both leaving the table unchanged; otherwise only the caller's row is replaced by its edited form, keeping store validity (ids, emails and display names unique) and lower-case names |
| ConsumerProfileController.OwnNameAllowed | apps/backend/src/modules/consumer/consumer-profile.controller.ts:64-66 | keeping one's own display name, in any letter case, is never a conflict |
| OwnerAuthController.OwnerByEmail | apps/backend/src/modules/owner/owner-auth.controller.ts:72-74 | the index found holds that email, and none is found exactly when no owner has it |
| OwnerAuthController.OwnerIndex | apps/backend/src/modules/owner/owner-auth.controller.ts:116-118 | the index found holds that id, and none is found exactly when no owner has it |
| OwnerAuthController.NewOwner | apps/backend/src/modules/owner/owner-auth.controller.ts:42-49 | the created row carries the new id, the given email, name and phone, the hash and the default receipt setting |
| OwnerAuthController.Register | apps/backend/src/modules/owner/owner-auth.controller.ts:29-66 | a taken email gives Conflict "Email already registered" and changes nothing; otherwise exactly the new row is appended and returned with tokens for its claims, keeping store validity |
| OwnerAuthController.Login | apps/backend/src/modules/owner/owner-auth.controller.ts:68-104 | fails exactly for an unknown email or a wrong password, with the same "Invalid credentials"; success returns the owner holding that email and tokens for their claims |
| OwnerAuthController.Refresh | apps/backend/src/modules/owner/owner-auth.controller.ts:106-131 | an unverifiable or non-owner token gives "Invalid refresh token", a vanished owner "Owner not found", otherwise fresh tokens for the stored owner |
| OwnerAuthController.RequestPasswordReset | apps/backend/src/modules/owner/owner-auth.controller.ts:133-149 | the answer is always "If the email exists, a reset link has been sent", whatever the email and the owner table, so the route does not reveal which emails exist |
| OwnerAuthController.ConfirmPasswordReset | apps/backend/src/modules/owner/owner-auth.controller.ts:151-158 | every confirmation fails with NotFound "Invalid or expired reset token" |
| OwnerProfileController.GetProfile | apps/backend/src/modules/owner/owner-profile.controller.ts:28-48 | empty exactly when the caller has no row; otherwise the caller's id, email, name and phone with the number of plants they own |
| OwnerProfileController.EditedOwner | apps/backend/src/modules/owner/owner-profile.controller.ts:52-57 | a name or phone given non-empty replaces the stored one; id, email, password and receipt setting are kept |
| OwnerProfileController.EmptyFormChangesNothing | apps/backend/src/modules/owner/owner-profile.controller.ts:54-57 | an update with neither field given leaves the row exactly as it was |
| OwnerProfileController.UpdateProfile | apps/backend/src/modules/owner/owner-profile.controller.ts:50-69 | a vanished caller fails and changes nothing; otherwise only the caller's row is replaced by its edited form and returned, keeping store validity |
| AdminAuthController.AdminClaims | apps/backend/src/modules/admin/admin-auth.controller.ts:45-50 | an admin's token claims carry their id, email, the admin user type and their role's stored name |
| AdminAuthController.AdminByEmail | apps/backend/src/modules/admin/admin-auth.controller.ts:28-30 | the index found holds that email, and none is found exactly when no admin has it |
| AdminAuthController.AdminIndex | apps/backend/src/modules/admin/admin-auth.controller.ts:95-97 | the index found holds that id, and none is found exactly when no admin has it |
| AdminAuthController.Login | apps/backend/src/modules/admin/admin-auth.controller.ts:24-61 | fails exactly for an unknown email or a wrong password, with the same "Invalid credentials"; success returns the admin holding that email and tokens for their claims |
| AdminAuthController.LoginTokensPassAdminGuard | apps/backend/src/modules/admin/admin-auth.controller.ts:45-50 | the access token of a successful login passes the admin guard and carries the admin's role |
| AdminAuthController.NewAdmin | apps/backend/src/modules/admin/admin-auth.controller.ts:68-75 | the created row carries the given fields and the role, moderator when none is given |
| AdminAuthController.CreateAdmin | apps/backend/src/modules/admin/admin-auth.controller.ts:63-83 | a caller the admin guard refuses gets the guard's error; a taken email fails in the database; both leave the table unchanged; otherwise exactly the new admin is appended and returned without password |
| AdminAuthController.Refresh | apps/backend/src/modules/admin/admin-auth.controller.ts:85-111 | an unverifiable or non-admin token gives "Invalid refresh token", a vanished admin "Admin not found", otherwise fresh tokens carrying the stored role |
| AdminDashboardController.GetDashboardStats | apps/backend/src/modules/admin/admin-dashboard.controller.ts:15-39 | the totals are the table sizes, verified and unverified plants count each kind and add up to the total, and pending verifications count the pending requests |
| AdminDashboardController.SinglePendingTail | apps/backend/src/modules/admin/admin-dashboard.controller.ts:28 | dropping the first request keeps "no plant has two pending requests" |
| AdminDashboardController.PendingPlantIdsCons | apps/backend/src/modules/admin/admin-dashboard.controller.ts:28 | the plants with a pending request are the first request's plant (when pending) together with those of the rest |
| AdminDashboardController.PendingHeadIsNew | apps/backend/src/modules/admin/admin-dashboard.controller.ts:28 | a pending first request names a plant no later pending request names |
| AdminDashboardController.PendingCountIsPlantCount | apps/backend/src/modules/admin/admin-dashboard.controller.ts:28 | with one pending request per plant at most, the pending count equals the number of plants that have one |
| AdminDashboardController.PlantIdsBound | apps/backend/src/modules/admin/admin-dashboard.controller.ts:24 | there are no more plant ids than plant rows |
| AdminDashboardController.PendingAtMostPlants | apps/backend/src/modules/admin/admin-dashboard.controller.ts:17-38 | in a consistent store the dashboard never shows more pending verifications than plants |
| AdminDashboardController.BuildPlantWhere | apps/backend/src/modules/admin/admin-dashboard.controller.ts:52-65 | the search clause is set exactly for a non-empty search; the verified filter is true for "true", false for "false" and absent for anything else; a plant satisfies the built filter exactly when it matches the parameters |
| AdminDashboardController.BriefOf | apps/backend/src/modules/admin/admin-dashboard.controller.ts:70-77 | the owner summary exists exactly when an owner with that id is stored, and then carries that id |
| AdminDashboardController.SelectedPlants | apps/backend/src/modules/admin/admin-dashboard.controller.ts:67-83 | exactly the stored plants matching the search and the verified filter, as many as the count query gives |
| AdminDashboardController.GetPlants | apps/backend/src/modules/admin/admin-dashboard.controller.ts:41-95 | one page (limit 1..50, default 20) of the selected plants newest first, each with its owner summary, and meta over all selected ones |
| AdminDashboardController.VerifiedFilterSplits | apps/backend/src/modules/admin/admin-dashboard.controller.ts:61-65 | filtering on "true" and on "false" splits the plants between them, and any other value lists all plants |
| AdminDashboardController.BuildPersonWhere | apps/backend/src/modules/admin/admin-dashboard.controller.ts:107-114 | the search clause is set exactly for a non-empty search, and then holds that search |
| AdminDashboardController.OwnerListRowOf | apps/backend/src/modules/admin/admin-dashboard.controller.ts:119-130 | an owner's row keeps its id and email and counts the plants that owner owns |
| AdminDashboardController.SelectedOwners | apps/backend/src/modules/admin/admin-dashboard.controller.ts:109-135 | exactly the stored owners whose name or email contains the search ignoring case, as many as the count query gives |
| AdminDashboardController.SelectedConsumers | apps/backend/src/modules/admin/admin-dashboard.controller.ts:161-182 | exactly the stored consumers whose name or email contains the search ignoring case, as many as the count query gives |
| AdminDashboardController.GetOwners | apps/backend/src/modules/admin/admin-dashboard.controller.ts:97-147 | one page (limit 1..50, default 20) of the selected owners newest first, each with its plant count, and meta over all selected ones |
| AdminDashboardController.GetConsumers | apps/backend/src/modules/admin/admin-dashboard.controller.ts:149-194 | one page (limit 1..50, default 20) of the selected consumers newest first, without passwords, and meta over all selected ones |
| AdminDashboardController.EmptySearchListsAll | apps/backend/src/modules/admin/admin-dashboard.controller.ts:109 | an empty search is no search: every owner and every consumer is listed |
| AdminPlantsController.VerificationStatus | apps/backend/src/modules/admin/admin-plants.controller.ts:105 | the status reads "verified" exactly for a verified plant, and never "pending" |
| AdminPlantsController.PriceShown | apps/backend/src/modules/admin/admin-plants.controller.ts:102 | a price is shown exactly when one is stored and it is not 0 (0 is falsy), and then unchanged |
| AdminPlantsController.OwnerOf | apps/backend/src/modules/admin/admin-plants.controller.ts:79-86 | a found owner summary carries the plant's owner id |
| AdminPlantsController.RowOf | apps/backend/src/modules/admin/admin-plants.controller.ts:96-111 | the row keeps every listed field of the plant, reports `isActive` as open, the verification status and shown price as above, the parsed photo list, its owner, and a view count equal to the plant's views in the log |
| AdminPlantsController.ViewsSince | apps/backend/src/modules/admin/admin-plants.controller.ts:171-180 | the plant's views since a time are never more than all its views |
| AdminPlantsController.BuildPlantWhere | apps/backend/src/modules/admin/admin-plants.controller.ts:48-70 | the search clause is set exactly for a non-empty search, the open filter exactly for "open" or "closed", the verified filter exactly for "verified" or "unverified", and a plant satisfies the built filter exactly when it matches the parameters |
| AdminPlantsController.UnknownFiltersSelectAll | apps/backend/src/modules/admin/admin-plants.controller.ts:59-70 | any other status or verified value, such as "pending", filters nothing out |
| AdminPlantsController.SelectedPlants | apps/backend/src/modules/admin/admin-plants.controller.ts:72-77 | exactly the stored plants matching the search, status and verified filters |
| AdminPlantsController.ListPlants | apps/backend/src/modules/admin/admin-plants.controller.ts:42-119 | one page (limit 1..100, default 20, parsed with `Number`) of the selected plants newest first, each as its row, and meta over all selected ones |
| AdminPlantsController.GetPlantDetails | apps/backend/src/modules/admin/admin-plants.controller.ts:121-212 | NotFound "Plant not found" exactly for an unknown id; otherwise that plant's listing row, at most five of its own conversations with their number, its latest verification request summarised, total views equal to its views in the log and to the row's count, and weekly views equal to its views of the last seven days |
| AdminPlantsController.DetailRowIsListingRow | apps/backend/src/modules/admin/admin-plants.controller.ts:121-212 | the details of any listed plant are found, and show the same row and view count as the listing |
| AdminPlantsController.UpdatePlant | apps/backend/src/modules/admin/admin-plants.controller.ts:214-249 | NotFound for an unknown id, changing nothing; otherwise only that plant changes, and only `isActive` and `isVerified`, each exactly when given; the answer reports the new state, and store validity is kept |
| AdminVerificationController.Queue | apps/backend/src/modules/admin/admin-verification.controller.ts:36-65 | exactly the stored requests of the given status (all when none is given), as many as the count query gives |
| AdminVerificationController.GetVerificationRequests | apps/backend/src/modules/admin/admin-verification.controller.ts:26-77 | one page (limit 1..50, default 20) of the queue newest first, every request on it stored and of the asked status, and meta over the whole queue |
| AdminVerificationController.RequestIndex | apps/backend/src/modules/admin/admin-verification.controller.ts:81-82 | the index found holds that id, and none is found exactly when no request has it |
| AdminVerificationController.GetVerificationRequest | apps/backend/src/modules/admin/admin-verification.controller.ts:79-110 | NotFound "Verification request not found" exactly for an unknown id; otherwise the stored request with that id |
| AdminVerificationController.Decided | apps/backend/src/modules/admin/admin-verification.controller.ts:128-135 | the decided request keeps its id, plant, documents and submission time, takes the new status, the current time and the reviewer, and replaces the rejection reason only when one is given |
| AdminVerificationController.DecisionNotice | apps/backend/src/modules/admin/admin-verification.controller.ts:153-166 | an unread notice to the plant's owner, stamped now; an approval notice exactly for APPROVED and a rejection notice exactly for any other status |
| AdminVerificationController.DecisionEvents | apps/backend/src/modules/admin/admin-verification.controller.ts:168-183 | `verification:updated` always reaches the admins' room and the owner's room, and `plant:updated` goes to everyone exactly on approval |
| AdminVerificationController.DecidedPlants | apps/backend/src/modules/admin/admin-verification.controller.ts:145-151 | only the request's plant may change, and it becomes verified on approval and stays as it was otherwise |
| AdminVerificationController.DecisionKeepsPlantsExist | apps/backend/src/modules/admin/admin-verification.controller.ts:128-151 | after a decision every request still names a stored plant |
| AdminVerificationController.UpdateVerificationRequest | apps/backend/src/modules/admin/admin-verification.controller.ts:112-186 | NotFound for an unknown id, changing no table and emitting nothing; otherwise the request is decided in place, the plant is verified on approval, exactly one notice is appended for its owner, the decision's events are emitted, and store validity and request-plant references are kept |
| AdminVerificationController.AnnounceDecision | apps/backend/src/modules/admin/admin-verification.controller.ts:168-183 | the gateway's log grows by exactly the decision's events |
| AdminVerificationController.WriteNotice | apps/backend/src/modules/admin/admin-verification.controller.ts:159-166 | the notice is appended to the notification table and store validity is kept |
| AdminVerificationController.WriteDecision | apps/backend/src/modules/admin/admin-verification.controller.ts:128-151 | the request row is replaced by its decided form and the plants become their decided form, keeping validity and request-plant references |
| AdminVerificationController.DecisionKeepsSinglePending | apps/backend/src/modules/admin/admin-verification.controller.ts:128-135 | deciding a request to APPROVED or REJECTED keeps at most one pending request per plant |
| AdminVerificationController.ReopeningCanBreakSinglePending | apps/backend/src/modules/admin/admin-verification.controller.ts:128-135 | since the previous status is not consulted, setting a rejected request back to PENDING can give a plant two pending requests (a concrete table) |
| OwnerAnalyticsController.DayOf | apps/backend/src/modules/owner/owner-analytics.controller.ts:101-103 | a time falls in the day whose midnight is the last at or before it |
| OwnerAnalyticsController.Midnight | apps/backend/src/modules/owner/owner-analytics.controller.ts:101-106 | a midnight is a whole number of days and falls in its own day |
| OwnerAnalyticsController.GetDailyViews | apps/backend/src/modules/owner/owner-analytics.controller.ts:95-125 | seven buckets for seven consecutive days in ascending order, the last one holding `now`, each counting exactly the plant's views from that day's midnight to the next |
| OwnerAnalyticsController.RangeSplit | apps/backend/src/modules/owner/owner-analytics.controller.ts:108-116 | views in [lo, mid) plus views in [mid, hi) are the views in [lo, hi) |
| OwnerAnalyticsController.BucketsTile | apps/backend/src/modules/owner/owner-analytics.controller.ts:100-122 | consecutive day buckets add up to the views from the first bucket's midnight to the end of the last |
| OwnerAnalyticsController.FirstPlantOf | apps/backend/src/modules/owner/owner-analytics.controller.ts:29-32 | the first plant in table order owned by the owner, and none exactly when the owner has no plant |
| OwnerAnalyticsController.GetAnalytics | apps/backend/src/modules/owner/owner-analytics.controller.ts:24-93 | all zeros and no buckets for an owner without a plant; otherwise the first plant's total and weekly views, distinct viewers overall and this week, and the seven daily buckets ending today |
| OwnerAnalyticsController.WeekWithinAllTime | apps/backend/src/modules/owner/owner-analytics.controller.ts:50-81 | weekly views never exceed total views, and weekly distinct viewers never exceed all-time distinct viewers |
| OwnerAnalyticsController.DailyViewsWithinWeek | apps/backend/src/modules/owner/owner-analytics.controller.ts:84 | the seven daily counts together never exceed the weekly view count, since the first bucket starts after the week does |
| OwnerNotificationsController.Selection | apps/backend/src/modules/owner/owner-notifications.controller.ts:31-43 | exactly the caller's notifications, only the unread ones when `unreadOnly` is "true", as many as the count query gives |
| OwnerNotificationsController.GetNotifications | apps/backend/src/modules/owner/owner-notifications.controller.ts:19-63 | one page (limit 1..50, default 20) of the selection, every row the caller's and matching the filter, meta over the whole selection, and the unread count over all the caller's notifications whatever the filter |
| OwnerNotificationsController.FilterKeepsOldestFirst | apps/backend/src/modules/owner/owner-notifications.controller.ts:37-42 | filtering rows kept in creation order keeps them in creation order |
| OwnerNotificationsController.ReverseOldestIsNewest | apps/backend/src/modules/owner/owner-notifications.controller.ts:39 | reversing rows in creation order lists them newest first |
| OwnerNotificationsController.PageOfNewest | apps/backend/src/modules/owner/owner-notifications.controller.ts:39-41 | any page of a newest-first list is newest first |
| OwnerNotificationsController.ListingNewestFirst | apps/backend/src/modules/owner/owner-notifications.controller.ts:36-44 | in a consistent store the listed page comes newest first |
| OwnerNotificationsController.SameStampsKeepOk | apps/backend/src/modules/owner/owner-notifications.controller.ts:78-81 | rewriting rows while keeping their ids and creation times keeps the notification table consistent |
| OwnerNotificationsController.OwnedNotification | apps/backend/src/modules/owner/owner-notifications.controller.ts:67-72 | the index found holds that id and belongs to the caller, and none is found exactly when the caller has no notification with that id |
| OwnerNotificationsController.MarkAsRead | apps/backend/src/modules/owner/owner-notifications.controller.ts:65-84 | NotFound "Notification not found" for another owner's or an unknown id, changing nothing; otherwise only that row becomes read and is returned, and marking a read one changes nothing |
| OwnerNotificationsController.AllRead | apps/backend/src/modules/owner/owner-notifications.controller.ts:88-94 | every unread notification of the owner becomes read and every other row is unchanged |
| OwnerNotificationsController.MarkAllAsRead | apps/backend/src/modules/owner/owner-notifications.controller.ts:86-97 | the table becomes its read-all form, keeping validity, and the answer is "All notifications marked as read" |
| OwnerNotificationsController.AllReadLeavesNothingUnread | apps/backend/src/modules/owner/owner-notifications.controller.ts:88-94 | after read-all the owner has nothing unread, and other owners' notifications are untouched |
| OwnerNotificationsController.AllReadIdempotent | apps/backend/src/modules/owner/owner-notifications.controller.ts:88-94 | read-all twice is read-all once |
| OwnerPlantController.RemoveAt | apps/backend/src/modules/owner/owner-plant.controller.ts:231 | the list is one shorter, the elements before the index are kept in place and those after it move down by one |
| OwnerPlantController.RemoveLastUndoesAppend | apps/backend/src/modules/owner/owner-plant.controller.ts:191-192 | removing the element just appended gives back the list as it was |
| OwnerPlantController.RemoveAtMultiset | apps/backend/src/modules/owner/owner-plant.controller.ts:231 | every element but the removed one survives and nothing new appears |
| OwnerPlantController.PhotoObject | apps/backend/src/modules/owner/owner-plant.controller.ts:234-237 | a bucket and key are read exactly when the URL has at least two '/'-separated pieces |
| OwnerPlantController.PhotoObjectOfPublicUrl | apps/backend/src/modules/owner/owner-plant.controller.ts:234-238 | a URL built by the storage service from a bucket and a key without '/' names exactly that bucket and key |
| OwnerPlantController.ViewOf | apps/backend/src/modules/owner/owner-plant.controller.ts:57 | the view keeps the plant row, decodes its photo list, and carries the plant's latest verification request: none exactly when the plant has no request, otherwise a stored request of that plant with no later one |
| OwnerPlantController.GetPlants | apps/backend/src/modules/owner/owner-plant.controller.ts:45-58 | exactly the caller's plants, as many as they own, each as its view |
| OwnerPlantController.GetPlant | apps/backend/src/modules/owner/owner-plant.controller.ts:60-80 | NotFound "Plant not found" exactly when the caller owns no plant with that id; otherwise that plant |
| OwnerPlantController.Patched | apps/backend/src/modules/owner/owner-plant.controller.ts:125-128 | each field given replaces the stored one, absent ones are kept, and id, owner, photos, open and verified flags and creation time never change |
| OwnerPlantController.PatchedIdempotent | apps/backend/src/modules/owner/owner-plant.controller.ts:125-128 | an empty patch changes nothing, and applying a patch twice is applying it once |
| OwnerPlantController.CreatePlant | apps/backend/src/modules/owner/owner-plant.controller.ts:82-106 | exactly the new row is appended, holding every given field, owned by the caller, stamped now, active and unverified by default, with the given photos or none; the answer is that row with its photos decoded, and `plant:created` goes to every client; store validity is kept |
| OwnerPlantController.UpdatePlant | apps/backend/src/modules/owner/owner-plant.controller.ts:108-136 | NotFound for a plant the caller does not own, changing nothing and emitting nothing; otherwise only that plant is patched, the patched row is returned with its photos decoded, and `plant:updated` goes to every client |
| OwnerPlantController.UpdatePlantStatus | apps/backend/src/modules/owner/owner-plant.controller.ts:138-161 | NotFound for a plant the caller does not own; otherwise only that plant's `isActive` changes, the changed row is returned with its photos decoded, and no event is emitted |
| OwnerPlantController.WithPhoto | apps/backend/src/modules/owner/owner-plant.controller.ts:191-198 | the plant keeps its identity and flags and its decoded photo list gains the URL at its end |
| OwnerPlantController.UploadPhoto | apps/backend/src/modules/owner/owner-plant.controller.ts:163-205 | no file gives "No file uploaded" before any lookup, a plant the caller does not own gives NotFound, both changing nothing; otherwise exactly one object is stored in the photos bucket, its URL is appended to that plant's list, and the URL and the new list are returned |
| OwnerPlantController.PhotoIndex | apps/backend/src/modules/owner/owner-plant.controller.ts:225-228 | an index exists exactly when `parseInt` reads a number that is a position of the list, and then it is that number |
| OwnerPlantController.DeletePhoto | apps/backend/src/modules/owner/owner-plant.controller.ts:207-249 | NotFound for a plant the caller does not own and "Invalid photo index" for a bad index, both changing nothing; otherwise the list loses exactly that element, and the object the URL names is removed from storage unless storage fails, which is swallowed |
| OwnerPlantController.UploadThenDeleteLast | apps/backend/src/modules/owner/owner-plant.controller.ts:163-249 | uploading a photo and then deleting the last one restores the list and names the very object that was uploaded |
| OwnerPlantController.PublicBase | apps/backend/src/modules/owner/owner-plant.controller.ts:265 | never empty, and `PUBLIC_URL` when it is set non-empty |
| OwnerPlantController.ShareLinksIdentifyPlant | apps/backend/src/modules/owner/owner-plant.controller.ts:266-277 | two plants get the same share link, or the same deep link, exactly when they are the same plant |
| OwnerPlantController.GetShareInfo | apps/backend/src/modules/owner/owner-plant.controller.ts:251-280 | NotFound exactly when the caller owns no such plant; otherwise the share URL under the public base, the QR payload equal to it, and the app deep link, all for that id |
| OwnerVerificationController.NewRequest | apps/backend/src/modules/owner/owner-verification.controller.ts:72-78 | the created request is pending and undecided, for the given plant with the given documents and notes, stamped now |
| OwnerVerificationController.AppendPendingKeepsSingle | apps/backend/src/modules/owner/owner-verification.controller.ts:57-78 | appending a pending request for a plant without one keeps at most one pending request per plant |
| OwnerVerificationController.SubmitCheck | apps/backend/src/modules/owner/owner-verification.controller.ts:45-69 | passes exactly when the caller owns the plant and it has no pending request; NotFound "Plant not found" first, then "A pending verification request already exists for this plant" |
| OwnerVerificationController.SubmitVerificationSimple | apps/backend/src/modules/owner/owner-verification.controller.ts:40-104 | a failed check is returned and changes nothing; otherwise exactly one new pending request without documents is appended and `verification:created` goes to the admins and the owner; store validity is kept, and so is "at most one pending request per plant" whenever it held before |
| OwnerVerificationController.DocumentUrlsAt | apps/backend/src/modules/owner/owner-verification.controller.ts:202-212 | after n uploads the list holds n URLs, the j-th the public URL of the j-th file's object |
| OwnerVerificationController.DocumentObjectsAt | apps/backend/src/modules/owner/owner-verification.controller.ts:202-212 | the objects n uploads store are exactly the j-th files' keys in the documents bucket |
| OwnerVerificationController.UploadNext | apps/backend/src/modules/owner/owner-verification.controller.ts:205-210 | one turn of the loop stores file i in the documents bucket and appends its URL |
| OwnerVerificationController.UploadDocuments | apps/backend/src/modules/owner/owner-verification.controller.ts:201-212 | the files are stored in order, each in the documents bucket, and the list holds their URLs in the same order |
| OwnerVerificationController.SubmitVerification | apps/backend/src/modules/owner/owner-verification.controller.ts:168-247 | a failed check is returned and uploads nothing and changes nothing; otherwise the files are uploaded, and exactly one new request is appended and returned: pending, undecided, stamped now, with the given notes and the files' URLs in order; and `verification:created` goes out; store validity is kept, and so is "at most one pending request per plant" whenever it held before |
| OwnerVerificationController.GetVerificationRequests | apps/backend/src/modules/owner/owner-verification.controller.ts:106-133 | exactly the requests whose plant the caller owns, each once (as many as there are such requests) |
| OwnerVerificationController.GetVerificationRequest | apps/backend/src/modules/owner/owner-verification.controller.ts:135-166 | NotFound "Verification request not found" exactly when no request with that id is for a plant of the caller's; otherwise that request |
| OwnerVerificationController.SecondSubmissionRefused | apps/backend/src/modules/owner/owner-verification.controller.ts:57-69 | once a pending request for a plant is stored, a second submission for it is refused |
| QueryParams.LeadingDigits | apps/backend/src/modules/admin/admin-dashboard.controller.ts:48 | the digits `parseInt` reads: a prefix of the text made only of decimal digits |
| QueryParams.LeadingDigitsStop | apps/backend/src/modules/admin/admin-dashboard.controller.ts:48 | reading stops exactly at the first character that is not a digit |
| QueryParams.ParseIntOfRendered | apps/backend/src/modules/admin/admin-dashboard.controller.ts:48-49 | `parseInt` reads back a rendered number, ignoring any non-digit text after it |
| QueryParams.ParseIntNaN | apps/backend/src/modules/admin/admin-dashboard.controller.ts:48-49 | a text whose first non-blank character is neither a sign nor a digit reads as NaN |
| QueryParams.ParseInt | apps/backend/src/modules/admin/admin-dashboard.controller.ts:48-49 | NaN exactly when no digit follows the leading white space and one optional sign; otherwise the value of those digits, negated exactly after a '-' |
| QueryParams.ParseIntOfNegative | apps/backend/src/modules/admin/admin-dashboard.controller.ts:48-49 | a '-' in front of a rendered number reads back as its negation |
| QueryParams.PageNumber | apps/backend/src/modules/admin/admin-dashboard.controller.ts:48 | the page is at least 1, the number read when that is at least 1, and 1 for NaN, 0 or a negative number |
| QueryParams.LimitNumber | apps/backend/src/modules/admin/admin-dashboard.controller.ts:49 | the limit lies in [1, cap]: the default for NaN or 0, the number read when it is within range, the cap above it, and 1 for a negative number |
| QueryParams.TotalPages | apps/backend/src/modules/admin/admin-dashboard.controller.ts:92 | the least number of pages of `limit` rows that hold all rows |
| QueryParams.Paginate | apps/backend/src/modules/admin/admin-dashboard.controller.ts:48-50 | page at least 1, limit in [1, cap], skip the rows of the earlier pages, both read with `parseInt` |
| QueryParams.JsNumberVersusParseInt | apps/backend/src/modules/admin/admin-plants.controller.ts:44-45 | `Number` reads back a rendered number, but unlike `parseInt` it refuses trailing text and reads a blank parameter as 0 |
| QueryParams.JsNumber | apps/backend/src/modules/admin/admin-plants.controller.ts:44-45 | an absent parameter is NaN, a blank one 0; otherwise a number exactly when the trimmed text is one optional sign and digits only, and then their value, negated after a '-' |
| QueryParams.NumberPaginate | apps/backend/src/modules/admin/admin-plants.controller.ts:44-46 | page at least 1, limit in [1, cap], skip the rows of the earlier pages, both read with `Number` |
| QueryParams.MetaOf | apps/backend/src/modules/admin/admin-dashboard.controller.ts:88-93 | the meta block echoes page, limit and total, and its page count is the least that holds the total |
| QueryParams.ZeroLimitIsDefault | apps/backend/src/modules/admin/admin-dashboard.controller.ts:49 | the limit "0" and an unparsable limit both give the default |
| QueryParams.NegativeLimitIsOne | apps/backend/src/modules/admin/admin-dashboard.controller.ts:49 | a negative limit such as "-5" is kept by `||` and then raised to 1 |
| QueryParams.TakePage | apps/backend/src/modules/admin/admin-dashboard.controller.ts:80-81 | at most `take` rows, as many as remain after `skip`, each the row `skip` places further on |
| QueryParams.PagesTile | apps/backend/src/modules/admin/admin-dashboard.controller.ts:80-81 | two consecutive full pages are the rows they cover, with neither overlap nor gap |
| Storage.PortText | apps/backend/src/modules/storage/storage.service.ts:112 | the port reads "NaN" when it does not parse, and never holds a '/' |
| Storage.Protocol | apps/backend/src/modules/storage/storage.service.ts:113-114 | "https" exactly when `MINIO_USE_SSL` is "true", and "http" otherwise |
| Storage.PublicUrlEndsWithKey | apps/backend/src/modules/storage/storage.service.ts:107-117 | a public URL ends with '/' followed by the key |
| Storage.GetPublicUrl | apps/backend/src/modules/storage/storage.service.ts:107-117 | the URL starts with the prefix and a '/' and is as long as its three parts and two separators |
| Storage.UrlRoundTrip | apps/backend/src/modules/storage/storage.service.ts:116 | for a bucket and key without '/', the last two '/'-separated pieces of the URL are that bucket and key |
| Storage.ExtensionIsAfterLastDot | apps/backend/src/modules/storage/storage.service.ts:91 | the extension is the text after the last '.' of the name: a suffix without '.', preceded by a '.' unless it is the whole name, which it is when the name has no '.' |
| Storage.ObjectKeyExtension | apps/backend/src/modules/storage/storage.service.ts:91-92 | the key starts with the uuid and a '.', and its own extension is the original name's |
| Storage.ObjectStore.constructor | apps/backend/src/modules/storage/storage.service.ts:17-30 | a new store holds no object and takes its URL prefix and bucket names from the configuration |
| Storage.ObjectStore.Upload | apps/backend/src/modules/storage/storage.service.ts:85-101 | exactly one object is added, under the key built from the uuid and the name's extension, and the URL returned is its public URL |
| Storage.ObjectStore.UploadPhoto | apps/backend/src/modules/storage/storage.service.ts:61-71 | the upload goes to the photos bucket, with the key and URL as above |
| Storage.ObjectStore.UploadDocument | apps/backend/src/modules/storage/storage.service.ts:73-83 | the upload goes to the documents bucket, with the key and URL as above |
| Storage.ObjectStore.DeleteFile | apps/backend/src/modules/storage/storage.service.ts:103-105 | exactly that object is removed |
| Store.ParsePhotos | apps/backend/src/modules/owner/owner-plant.controller.ts:28-34 | a text `JSON.parse` refuses reads as the empty list |
| Store.Stringify | apps/backend/src/modules/owner/owner-plant.controller.ts:95 | the stored text is always well formed |
| Store.StringifyRoundTrip | apps/backend/src/modules/owner/owner-plant.controller.ts:191-203 | writing a photo list and reading it back gives the same list |
| Store.LatestRequest | apps/backend/src/modules/owner/owner-plant.controller.ts:50-53 | the request found is stored and for that plant, and no later request is for that plant; none is found exactly when the plant has no request |
| Store.OwnedPlant | apps/backend/src/modules/owner/owner-plant.controller.ts:62-66 | the index found holds a plant with that id and owner, and none is found exactly when the owner has no such plant |
| Store.AppendNotificationKeepsValid | apps/backend/src/modules/admin/admin-verification.controller.ts:159-166 | a new notification with a fresh id, stamped now, keeps the table consistent |
| Store.PlantIndex | apps/backend/src/modules/admin/admin-verification.controller.ts:147-150 | the index found holds that id, and none is found exactly when no plant has it |
| Store.PendingFor | apps/backend/src/modules/owner/owner-verification.controller.ts:58-63 | the index found is a pending request for that plant, and none is found exactly when the plant has no pending request |
| Store.UniqueAppend | apps/backend/src/modules/consumer/consumer-auth.controller.ts:66-74 | appending a row whose key no row holds keeps that unique column unique |
| Store.UniqueUpdate | apps/backend/src/modules/consumer/consumer-profile.controller.ts:69-75 | rewriting a row without changing its key keeps the column unique |
| Store.UniqueUpdateFresh | apps/backend/src/modules/consumer/consumer-profile.controller.ts:69-75 | rewriting a row with a key no other row holds keeps the column unique |
| Text.NatToString | apps/backend/src/modules/storage/storage.service.ts:116 | the rendering is non-empty, all digits, and has no leading zero |
| Text.NatToStringRoundTrip | apps/backend/src/modules/storage/storage.service.ts:112-116 | reading back the digits of a rendered number gives the number |
| Text.Lower | apps/backend/src/modules/consumer/consumer-auth.controller.ts:34 | the same length, each character lower-cased |
| Text.LowerIdempotent | apps/backend/src/modules/consumer/consumer-auth.controller.ts:57-69 | lower-casing twice is lower-casing once |
| Text.Split | apps/backend/src/modules/owner/owner-plant.controller.ts:235 | splitting always gives at least one piece |
| Text.SplitWithoutSeparator | apps/backend/src/modules/owner/owner-plant.controller.ts:235 | a text without the separator splits into itself alone |
| Text.SplitAppend | apps/backend/src/modules/owner/owner-plant.controller.ts:235-237 | appending a separator and a separator-free piece appends exactly that piece to the split |
| Text.AfterLast | apps/backend/src/modules/storage/storage.service.ts:91 | the text after the last separator: a suffix without it, preceded by it unless it is the whole text |
| Text.LastPieceIsAfterLast | apps/backend/src/modules/storage/storage.service.ts:91 | the last piece of a split is the text after the last separator |
| Sync.SyncGateway.NotifyPlantCreated | apps/backend/src/modules/sync/sync.gateway.ts:139-141 | the log grows by exactly one plant:created emission to everyone |
| Sync.SyncGateway.NotifyPlantUpdated | apps/backend/src/modules/sync/sync.gateway.ts:143-145 | the log grows by exactly one plant:updated emission to everyone |
| Sync.SyncGateway.NotifyPlantDeleted | apps/backend/src/modules/sync/sync.gateway.ts:147-149 | the log grows by exactly one plant:deleted emission to everyone |
| Sync.SyncGateway.NotifyConversationCreated | apps/backend/src/modules/sync/sync.gateway.ts:199-201 | the log grows by exactly one chat:created emission to the admins' room |
| Sync.SyncGateway.NotifyMessagesReadToAdmin | apps/backend/src/modules/sync/sync.gateway.ts:236-245 | the log grows by exactly one chat:read emission to the admins' room |
| Sync.SyncGateway.NotifyRefresh | apps/backend/src/modules/sync/sync.gateway.ts:272-274 | the log grows by exactly the data:refresh emission to the given type's room |
| ChatService.ConversationById | apps/backend/src/modules/chat/chat.service.ts:158-187 | a found conversation is stored and has that id; none exactly when no stored conversation has it (the NotFound case) |
| ChatService.StampRead | apps/backend/src/modules/chat/chat.service.ts:402-410 | same length; each message unread from the other party in the conversation gets the read stamp, every other message is kept as it was |
| ChatService.MessageIndex | apps/backend/src/modules/chat/chat.service.ts:455-467 | a found index holds a message with that id; none exactly when no message has it |
| AuthService.FifteenMinutes | apps/backend/src/modules/auth/auth.service.ts:67-86 | the default expiry "15m" is 900 seconds |

## Left out

- Transport, HTTP routing, Prisma and MinIO are not modelled as code. Database calls become updates of `Store.Db`. Socket emissions become entries in a log. Object storage becomes a set of (bucket, key) pairs.
- bcrypt and JWT signing are foreign calls. A new hash is a parameter, a password comparison is a function parameter, a signed token is the symbolic pair (payload, expiry), and verification is a map from token text to payload.
- Fresh ids (cuid, uuid) and the current time are parameters. Each fresh id is required not to be in its table already.
- Console logging is left out.
- Uncaught Prisma errors (an update of a row that no longer exists, a unique-index violation) are modelled as one `InternalError` result in the controllers. The model does not capture which database message they carry.
- ChatGateway.ChatGateway.HandleMarkRead and ChatGateway.ChatGateway.HandleMarkDelivered reply with the Prisma error's message when the message does not exist; the model shortens that message to `Record to update not found.` (ChatService.RecordMissing).
- Requests are modelled one after another, each route as one atomic step. Races between concurrent requests are left out: two `submitVerification` calls for one plant can both pass the pending check (owner-verification.controller.ts:188-199, 214-220) before either creates its request, so the invariant Store.SinglePending and the lemmas OwnerVerificationController.SecondSubmissionRefused and OwnerVerificationController.AppendPendingKeepsSingle hold for sequential histories only.
- AdminPlantsController.PriceShown: assumes `pricePerLiter` arrives as a plain number, so a stored 0 is falsy and shown as null. If the column is a Prisma `Decimal`, the object is truthy and 0 would be shown.
- Included relations (`select`/`include` of owner, plant, consumer or reviewer) are modelled where a route returns a field from them, with one exception: AdminChatController.AdminRowOf returns the conversation's plant, owner and consumer ids in place of the included `plant`, `owner` and `consumer` objects (admin-chat.controller.ts:177-179). `updatedAt` columns are not modelled.
- AdminChatController.GetMessagesByUser: a name whose plant, owner or consumer row is not stored is `None`; the schema's foreign keys keep such rows from existing, and the source would fail on them.
- Number parsing: `parseInt` is modelled (whitespace, sign, leading digits). `Number()` is modelled for whole decimal integers only; fractions, exponents and hexadecimal text are left out.
- Listings ordered by `createdAt desc` are modelled as the table order reversed, since the clock never runs backwards. Rows created at the same instant keep insertion order.
- ChatService.ListConversations: lists in table order, not by `lastMessageAt desc`. It models both `getConsumerConversations` (apps/backend/src/modules/chat/chat.service.ts:23-78) and `getOwnerConversations`.
- ConsumerChatController.GetConversations: the order of the list is table order, not `lastMessageAt desc`.
- OwnerChatController.GetConversations: the order of the list is table order, not `lastMessageAt desc`.
- AdminChatController.GetConversations: the order of the page is table order, not `lastMessageAt desc`.
- AdminPlantsController.GetPlantDetails: the five recent conversations are taken in table order, not by `lastMessageAt desc`.
- ChatService.MarkMessageAsDelivered and ChatService.MarkMessageAsRead overwrite an existing stamp, as the code does. They are not set-once.
- Dates: "a week ago" is the clock minus seven days in milliseconds. Daily buckets are UTC days. The `startDate` that `getDailyViews` computes is never used, and the model leaves it out.
- StorageService `getPresignedUrl` is left out: it is a MinIO client call. `ensureBucketsExist`/`onModuleInit` is left out: it is startup I/O. Uploads always succeed. A failed `putObject` (500; documents already stored by a verification submission stay; no request is created) is not modelled. The URL prefix and bucket names are computed once from the configuration map.
- Schema defaults are constants: `readReceiptsEnabled` true, `isActive` true, `isVerified` false.
- Guard composition by the framework (`@UseGuards` order) is not modelled. Each guard is a function of the decoded payload. The consumer and owner chat controllers take the decoded payload and check it with `RequireType` first, and `AdminAuthController.CreateAdmin` checks it with `AdminGuard` first. Every other route (profiles, owner plants, verification, notifications, analytics, the admin dashboard, admin plants, admin chat and admin verification) takes the caller's id and assumes the class-level guard has passed.
- Request DTO validation is not modelled. The model assumes that the fields of `ListPlantsQueryDto` and `UpdatePlantStatusDto`, which carry no validator decorators, arrive as sent; a whitelisting validation pipe may strip them.
- AdminChatController.Rate: the percentage is rounded from the exact fraction, not from a double. Where `count / total * 100` is an exact half the model rounds up, while the source's double can fall just below the half and round down (23 of 40 gives 57 in the source and 58 here).
- AdminChatController.GetChatStats: its rates are `Rate`'s, so they round an exact half up where the source's double arithmetic can round down (23 of 40).
- AdminChatController.StatisticsOf: its rates are `Rate`'s, with the same exact-half difference from the source's double arithmetic (23 of 40).
- Event payloads are not modelled beyond the event name and the target room.
- Text.Lower: folds ASCII letters only. Prisma's `mode: 'insensitive'` searches fold case by the database's collation, beyond ASCII.
- Text.ContainsIgnoringCase: inherits the ASCII-only folding of `Text.Lower`, so a search differing only in non-ASCII case is not matched as the database would match it.
- QueryParams.ParseInt: exact on unbounded integers. JavaScript numbers lose precision above 2^53, so longer digit strings are not rounded as `parseInt` rounds them.
- QueryParams.JsNumber: exact on unbounded integers, like `ParseInt`; `Number` rounds above 2^53.
- The consumer plant listing and geo-search (`consumer-plant.controller.ts`) are not part of this model.

## Findings

| source | as written | input that shows it | evidently intended | confidence | as-written member | corrected member |
|---|---|---|---|---|---|---|
| apps/backend/src/modules/chat/chat.service.ts:287-292 (the same check at 189-194 and 353-358) | the participant check denies only a consumer who is not the conversation's consumer, or an owner who is not its owner; every other user type passes | a `/chat` socket authenticated with an admin JWT sends `send_message` on any conversation id: apps/backend/src/modules/chat/chat.gateway.ts:142 hands the socket's user type to sendMessage, which stores the message (getMessages and markAsRead are reached only through the role-checked controllers) | only the conversation's own consumer or owner gets in | not executed | ChatService.InlineCheckAdmitsAdmin | ChatService.AccessDenied |
