# Chat relay backend — a Dafny model

This project models the backend relay core of a real-time chat server, written
in TypeScript (Node.js, Socket.IO, Redis, zod), and proves properties of the
model. Several server instances share one Redis. Each instance:

- validates what clients send (usernames, rooms, plaintext or end-to-end
  encrypted bodies, history pages, typing notices, key exchanges);
- keeps the newest 1000 messages of every room and every direct conversation
  in Redis lists;
- relays live traffic between instances over Redis pub/sub. An instance is
  subscribed to a room's or a user's channels while its own reference count
  for that room or user, kept in a shared Redis hash, is positive. The count
  is meant to track how many of its own sockets need the channels; a second
  join under the same user leaves it positive after the socket is gone (see
  Findings).

The model is split by source file:

| Dafny module (file) | models |
|---|---|
| `Common` (common.dfy), `Types` (types.dfy) | `Option`, JavaScript truthiness of an optional string, the message and event records, JSON text as `Wire<T>` |
| `Helper` (helper.dfy) | `backend/src/utils/helper.ts`: keys, channels, `directListKey`, `parseJson`, `parseList` |
| `Validation` (validation.dfy) | `backend/src/validation.ts`: the zod schemas as data, their meaning in plain predicates, and one parser per request |
| `Redis` (redis.dfy) | the Redis commands the core uses (LPUSH, LTRIM, LRANGE, HINCRBY, HDEL, PUBLISH), as functions on maps plus a `Redis` class holding the shared state |
| `Transport` (transport.dfy) | the part of Socket.IO the handlers use: named rooms of sockets and an ordered log of emits and acknowledgements |
| `MessageStore` (message_store.dfy) | `backend/src/services/messageStore.ts` |
| `PubSub` (pubsub.dfy) | `backend/src/services/pubsub.ts`: the reference-counting multiplexer and the relay callbacks |
| `Handlers` (handlers.dfy) | `backend/src/sockets/handlers.ts`: one `Session` per connected socket, one method per event handler |

Each file follows its source's form:

- Pure code becomes functions and lemmas.
- Code that changes state becomes methods on classes. The `Redis` and `Io`
  objects, `PubSubService` (its subscriber's channels) and `Session` (the
  socket's `user` and `room`) are classes.
- Each stateful method is tied to a pure function. For example,
  `PubSubService.EnsureRoom` ensures `State() == Ensure(instanceId, old(State()), RoomScope(room))`.
  The properties are then proved about those functions.

The multiplexer's central invariant is `PubSub.Consistent`. An instance's own
counter fields are never below 1. It holds exactly one listener on each of a
room's or user's channels exactly when its count for that room or user is
positive. Otherwise it holds none. Every call keeps the invariant. Over any
sequence of calls, the count equals the clamped net number of ensures minus
releases. A message published on a room's channel is therefore emitted exactly
once, to the Socket.IO room with that name, by every instance that needs the
room, and by no other instance. Socket.IO has one namespace of room names, and
`join_room` also puts each socket in a room named after its user, so a chat
room and a user with the same name share an audience (see Findings).

Clocks, `uuidv4` and the instance id are parameters. The acknowledgement
callback, which clients may omit, is a boolean `callback`. The two history
limits are the constants `MessageHistoryLimit` (10) and `MessageHistoryMax`
(1000).

## Model

| member | source | states |
|---|---|---|
| Helper.DirectListKey | backend/src/utils/helper.ts:7-10 | the conversation key names the two users in ascending sort order, `dm:<smaller>:<larger>:messages` |
| Helper.DirectListKeySymmetric | backend/src/utils/helper.ts:7-10 | both participants map to the same conversation key, whichever order they are given in |
| Helper.LexLessTotal | backend/src/utils/helper.ts:8 | the default string sort orders any two distinct strings one way or the other |
| Helper.LexLessAsymmetric | backend/src/utils/helper.ts:8 | the default string sort never puts each of two strings before the other |
| Helper.RoomListKeyInjective | backend/src/utils/helper.ts:1 | distinct rooms have distinct message keys and channels |
| Helper.RoomTypingChannelInjective | backend/src/utils/helper.ts:3 | distinct rooms have distinct typing channels |
| Helper.UserChannelInjective | backend/src/utils/helper.ts:5 | distinct users have distinct channels |
| Helper.RoomListKeyNotTypingChannel | backend/src/utils/helper.ts:1-3 | no room's message channel is any room's typing channel |
| Helper.UserChannelNotRoomChannel | backend/src/utils/helper.ts:1-5 | a user channel is never a room's message or typing channel |
| Helper.DirectListKeyNotRoomListKey | backend/src/utils/helper.ts:1-10 | a conversation's list key never coincides with a room's list key |
| Helper.ParseJson | backend/src/utils/helper.ts:12-18 | parsing fails exactly on malformed text |
| Helper.ParseJsonInvertsSerialize | backend/src/utils/helper.ts:12-18 | parsing what was serialized gives the value back |
| Helper.Parsed | backend/src/utils/helper.ts:20-23 | parse-and-drop-failures never yields more entries than it was given |
| Helper.ParsedAppend | backend/src/utils/helper.ts:20-23 | parse-and-drop-failures distributes over concatenation |
| Helper.ParsedMembership | backend/src/utils/helper.ts:20-23 | a value survives parsing iff its serialized form was among the entries |
| Helper.ParsedWellFormed | backend/src/utils/helper.ts:20-23 | on entries that all parse, nothing is dropped and order is kept |
| Helper.Reverse | backend/src/utils/helper.ts:24 | the reversed list has the same length, with entry i taken from position n-1-i |
| Helper.ParseList | backend/src/utils/helper.ts:20-24 | `parseList` never yields more entries than it was given |
| Helper.ParseListWellFormed | backend/src/utils/helper.ts:20-24 | on entries that all parse, `parseList` is exactly their values in reverse order |
| Validation.NamePatternMeansNameChars | backend/src/validation.ts:7 | the name regex accepts a string iff it is non-empty and made of letters, digits, `_` and `-` |
| Validation.ConformsEvery | backend/src/validation.ts:3-13 | a chained string schema accepts a string iff every check in the chain does |
| Validation.NumberConformsEvery | backend/src/validation.ts:47-57 | a chained number schema accepts a number iff every check in the chain does |
| Validation.UsernameSchemaMeaning | backend/src/validation.ts:3-7 | a username is 2 to 32 characters of letters, digits, `_` and `-` |
| Validation.RoomSchemaMeaning | backend/src/validation.ts:9-13 | a room is 2 to 50 characters of letters, digits, `_` and `-` |
| Validation.ShortSchemasMeaning | backend/src/validation.ts:15-24 | length bounds of text (1..1000), ciphertext and nonce (at least 1), algorithm (1..64) and public key (at least 16) |
| Validation.NumberSchemasMeaning | backend/src/validation.ts:47-57 | an offset is an integer of at least 0; a limit is an integer from 1 to 50 |
| Validation.ParseEncrypted | backend/src/validation.ts:15-19 | an encrypted payload is accepted iff ciphertext and algorithm are present and within bounds and any nonce is non-empty; it is kept as given |
| Validation.ParseBody | backend/src/validation.ts:21-29 | a body is accepted iff its fields are valid and exactly one of text and encrypted payload is truthy; an accepted body has exactly one part |
| Validation.ParseJoin | backend/src/validation.ts:31-34 | a join request is accepted iff username and room are both valid, and it carries them unchanged |
| Validation.ParseSendMessage | backend/src/validation.ts:36 | a chat message body is accepted iff the body check passes; none is accepted with both or neither part present |
| Validation.ParsePrivateMessage | backend/src/validation.ts:38-45 | a private message is accepted iff the recipient is a valid username and the body check passes |
| Validation.ParseHistory | backend/src/validation.ts:47-51 | a history request is accepted iff the room is valid and any offset and limit are in range; missing ones default to 0 and 10 |
| Validation.ParsePrivateHistory | backend/src/validation.ts:53-57 | the same for a conversation with a valid peer |
| Validation.ParseTyping | backend/src/validation.ts:59-61 | a typing notice is accepted iff its room is valid |
| Validation.ParsePrivateTyping | backend/src/validation.ts:63-65 | a private typing notice is accepted iff its recipient is a valid username |
| Validation.ParseKeyExchange | backend/src/validation.ts:67-71 | a key exchange is accepted iff the recipient, public key (at least 16) and algorithm (1..64) are valid; it carries them unchanged |
| Redis.LRange | backend/src/services/messageStore.ts:13-15 | LRANGE with Redis's index rules never returns more than the list or the range holds, and returns nothing for an empty range or a start past the end |
| Redis.LRangeSlice | backend/src/services/messageStore.ts:18-29 | for non-negative indices LRANGE is the slice from start to stop+1, cut at the end of the list |
| Redis.LRangeToEnd | backend/src/services/messageStore.ts:13-15 | LRANGE 0 -1 is the whole list |
| Redis.LPush | backend/src/services/messageStore.ts:9 | LPUSH puts the entry at the head of one list and changes no other |
| Redis.LTrim | backend/src/services/messageStore.ts:10 | LTRIM keeps exactly the LRANGE of the same indices and changes no other list |
| Redis.IncrField | backend/src/services/pubsub.ts:39-43 | HINCRBY adds the increment to one field, creating it at 0, and changes no other field |
| Redis.DelField | backend/src/services/pubsub.ts:65 | HDEL removes one field and changes no other |
| Redis.Redis.HIncrBy | backend/src/services/pubsub.ts:39-43 | the command applies `IncrField` and returns the new value |
| Redis.Redis.HDel | backend/src/services/pubsub.ts:65 | the command applies `DelField` |
| Redis.Redis.Publish | backend/src/services/pubsub.ts:101-111 | PUBLISH appends one publication and stores nothing |
| Transport.Recipients | backend/src/sockets/handlers.ts:89 | a broadcast through the sender's socket never reaches the sender |
| Transport.Io.Join | backend/src/sockets/handlers.ts:78-81 | joining adds the socket to one named room and to no other |
| Transport.Io.Leave | backend/src/sockets/handlers.ts:66-71 | leaving removes the socket from one named room and from no other |
| Transport.WithoutSocket | backend/src/sockets/handlers.ts:316 | once a socket has left every room, a socket is in a room iff it was before and is not the one that left |
| Transport.Io.LeaveAll | backend/src/sockets/handlers.ts:316 | Socket.IO takes a closing socket out of every room before `disconnect` listeners run; only the rooms change |
| Transport.Io.Send | backend/src/sockets/handlers.ts:88-89 | an emit is appended to the log |
| Transport.Io.Acknowledge | backend/src/sockets/handlers.ts:57 | the reply is logged iff the client passed a callback |
| MessageStore.Stored | backend/src/services/messageStore.ts:6-11 | after a store the newest entry is first, the earlier ones follow in order, and the list holds at most 1000 |
| MessageStore.StoredAllShape | backend/src/services/messageStore.ts:6-11 | after several stores the list is the stored entries newest first, then the old list, cut at 1000 |
| MessageStore.StoreRoomMessage | backend/src/services/messageStore.ts:6-11 | LPUSH then LTRIM 0 999 on the room's list leaves exactly `Stored` there and changes nothing else |
| MessageStore.StoreDirectMessage | backend/src/services/messageStore.ts:31-36 | the same on the conversation's list |
| MessageStore.GetRecentRoomMessages | backend/src/services/messageStore.ts:13-16 | never more than the list holds nor, for a positive limit, more than the limit |
| MessageStore.RecentAreNewest | backend/src/services/messageStore.ts:13-16 | the recent messages are the newest `limit` entries, oldest first |
| MessageStore.RecentWithZeroLimit | backend/src/services/messageStore.ts:13-16 | a limit of 0 turns into stop index -1 and returns the whole list |
| MessageStore.RecentAfterStores | backend/src/services/messageStore.ts:6-16 | after k stores (k at most 1000) the k most recent messages are exactly those stored, in store order |
| MessageStore.GetRoomHistory | backend/src/services/messageStore.ts:18-29 | a page never holds more than `limit` entries and is empty past the end of the list |
| MessageStore.HistoryPage | backend/src/services/messageStore.ts:18-29 | a page is the entries at offset .. offset+limit-1, cut at the end, oldest first |
| MessageStore.GetDirectHistory | backend/src/services/messageStore.ts:38-47 | the same bounds for a conversation page |
| MessageStore.DirectHistorySymmetric | backend/src/services/messageStore.ts:38-47 | both participants read the same page of their conversation |
| MessageStore.DirectHistoryPage | backend/src/services/messageStore.ts:38-47 | a conversation page holds the entries at offset to offset+limit-1 of the conversation list, cut at its end, oldest first |
| MessageStore.DirectMessageSeenByBoth | backend/src/services/messageStore.ts:31-47 | a direct message just stored is the newest entry of the first page, whichever participant asks |
| PubSub.ScopesDisjoint | backend/src/services/pubsub.ts:26-32 | distinct rooms and users have distinct counter keys and share no broker channel |
| PubSub.SubscribeScope | backend/src/services/pubsub.ts:44-55 | a first interest subscribes only the scope's own channels |
| PubSub.UnsubscribeScope | backend/src/services/pubsub.ts:64-67 | a release to zero drops all listeners of the scope's channels and touches no other channel |
| PubSub.FreshIsConsistent | backend/src/services/pubsub.ts:18-24 | a new instance, holding no counter field and no subscription, satisfies the invariant |
| PubSub.CountNonNegative | backend/src/services/pubsub.ts:58-69 | under the invariant no count is negative |
| PubSub.EnsureKeepsConsistent | backend/src/services/pubsub.ts:38-56 | `ensureRoom`/`ensureUser` raise only this instance's field by one and keep the invariant; the scope is subscribed afterwards |
| PubSub.ReleaseKeepsConsistent | backend/src/services/pubsub.ts:58-69 | `releaseRoom`/`releaseUser` lower only this instance's field, never below 0 (the field is deleted instead), and keep the invariant; at 0 the scope is unsubscribed |
| PubSub.ExtraReleaseIsNoOp | backend/src/services/pubsub.ts:58-69 | a release when the count is already 0 changes nothing at all |
| PubSub.ApplyCount | backend/src/services/pubsub.ts:38-99 | one call moves a scope's count by one step of the clamped net count and keeps the invariant |
| PubSub.RunKeepsConsistent | backend/src/services/pubsub.ts:38-99 | any sequence of ensures and releases keeps the invariant |
| PubSub.RunCount | backend/src/services/pubsub.ts:38-99 | after any sequence of calls each count is the clamped net number of ensures minus releases, and the scope is subscribed iff that is positive |
| PubSub.Relay | backend/src/services/pubsub.ts:44-55 | each listener emits at most one event per payload |
| PubSub.Fanout | backend/src/services/pubsub.ts:44-55 | a channel's listeners emit at most one event each |
| PubSub.FanoutDropsUnparsable | backend/src/services/pubsub.ts:46-47 | a payload that does not parse is dropped by every listener |
| PubSub.RoomMessageDeliveredOnce | backend/src/services/pubsub.ts:44-49 | while the room is needed, a published chat message is emitted to the room exactly once as `message`; otherwise not at all |
| PubSub.RoomTypingDeliveredOnce | backend/src/services/pubsub.ts:50-54 | the same for typing events, emitted as `typing` |
| PubSub.UserEventDeliveredOnce | backend/src/services/pubsub.ts:78-82 | while the user is needed, a user event is emitted once, to the Socket.IO room named after the user, under its `type` with its `payload`; otherwise not at all |
| PubSub.PubSubService.constructor | backend/src/services/pubsub.ts:18-24 | a new service has no subscription |
| PubSub.PubSubService.EnsureRoom | backend/src/services/pubsub.ts:38-56 | HINCRBY +1, then on a count of 1 subscribe the message channel and the typing channel: the state becomes `Ensure` of the old one; lists and publications are untouched |
| PubSub.PubSubService.ReleaseRoom | backend/src/services/pubsub.ts:58-69 | HINCRBY -1, then at 0 or below HDEL and unsubscribe both channels: the state becomes `Release` of the old one |
| PubSub.PubSubService.EnsureUser | backend/src/services/pubsub.ts:71-84 | the same for the user channel under the user counter key |
| PubSub.PubSubService.ReleaseUser | backend/src/services/pubsub.ts:86-99 | the same release for the user channel |
| PubSub.PubSubService.OnMessage | backend/src/services/pubsub.ts:44-55 | a payload on a channel appends exactly what the channel's listeners emit, in subscription order |
| PubSub.PubSubService.PublishRoomMessage | backend/src/services/pubsub.ts:101-103 | publishes the serialized message on the room's message channel and nothing else |
| PubSub.PubSubService.PublishRoomTyping | backend/src/services/pubsub.ts:105-107 | publishes the serialized event on the room's typing channel |
| PubSub.PubSubService.PublishUserEvent | backend/src/services/pubsub.ts:109-111 | publishes the serialized event on the user's channel |
| Handlers.DisconnectReleasesHeld | backend/src/sockets/handlers.ts:316-328 | `disconnect` gives back exactly the references the session holds: one on its room if set, one on its user if set |
| Handlers.JoinSubscribes | backend/src/sockets/handlers.ts:78-82 | after `join_room` the instance is subscribed to the new user's and the new room's channels |
| Handlers.RejoinedMembership | backend/src/sockets/handlers.ts:65-81 | after `join_room` the socket is in the new user's and room's Socket.IO rooms, out of the replaced ones, and every other membership is unchanged |
| Handlers.RejoinTakesAnotherReference | backend/src/sockets/handlers.ts:65-82 | as written, a join under the user the session already has takes a second reference on that user, whatever the room; naming the same room again takes a second reference on the room too |
| Handlers.RejoinLeaksSubscription | backend/src/sockets/handlers.ts:65-82 | join, a second join under the same user (any room), then disconnect leaves the user's count at 1 and the user subscribed; with the same room twice, the room too |
| Handlers.CorrectedSessionBalanced | backend/src/sockets/handlers.ts:54-328 | with the corrected join, any sequence of joins followed by a disconnect leaves every count where the other sessions left it |
| Handlers.UserEventReachesChatRoom | backend/src/sockets/handlers.ts:78-81 | as written, a socket that joins the chat room named after another user is among the recipients of that user's private events |
| Handlers.ChatMessageReachesUser | backend/src/sockets/handlers.ts:78-81 | as written, a socket bound to a user is among the recipients of the messages of the chat room with the user's name |
| Handlers.UserRoomNotChatRoom | backend/src/validation.ts:3-13 | no valid room name is a prefixed user room name |
| Handlers.UserEventReachesOnlyItsUser | backend/src/sockets/handlers.ts:78-81 | with prefixed user rooms, a join adds the socket to a user's audience iff it joins as that user, and no other socket's reach changes |
| Handlers.ChatMessageReachesOnlyItsRoom | backend/src/sockets/handlers.ts:78-81 | with prefixed user rooms, a join adds the socket to a chat room's audience iff it joins that room |
| Handlers.JoinPlanIntendedBalanced | backend/src/sockets/handlers.ts:65-82 | with the corrected join, each count moves from what the session held before to what it holds after |
| Handlers.Session.constructor | backend/src/sockets/handlers.ts:53 | a new connection has no user and no room |
| Handlers.Session.RequireIdentity | backend/src/sockets/handlers.ts:43-50 | returns the bound user and does nothing else, or acks "Identify with a username first" and returns none |
| Handlers.Session.JoinRoom | backend/src/sockets/handlers.ts:54-92 | an invalid payload is only acked "Invalid username or room". Otherwise the session is bound to the new user and room and the multiplexer runs `JoinPlan`. The socket leaves the replaced rooms and joins the new ones; it receives the newest 10 messages, the room's other sockets get `user_joined`, and the request is acked ok. The invariant and session validity are kept |
| Handlers.Session.LeaveReplaced | backend/src/sockets/handlers.ts:65-73 | leave and release the previous user, then the previous room, each only when set and different |
| Handlers.Session.JoinNew | backend/src/sockets/handlers.ts:78-82 | join and ensure the user, then the room, unconditionally |
| Handlers.Session.Announce | backend/src/sockets/handlers.ts:84-91 | room history to the socket, `user_joined` to the others, then the ack |
| Handlers.Session.SendMessage | backend/src/sockets/handlers.ts:94-120 | acks "Invalid message" or "Join a room first" and does nothing else; otherwise stores the message once, publishes it once on the session's room channel, then acks ok |
| Handlers.Session.Typing | backend/src/sockets/handlers.ts:122-172 | `typing_start`/`typing_stop`: rejections for an invalid payload, a missing identity or another room change nothing; otherwise one typing event with the given `isTyping` is published on the room's typing channel |
| Handlers.Session.LoadHistory | backend/src/sockets/handlers.ts:174-189 | rejected unless the session is in the requested room; otherwise acks the page with `nextOffset = offset + limit` |
| Handlers.Session.PrivateMessage | backend/src/sockets/handlers.ts:191-221 | stores the direct message once, publishes it to the recipient's channel and then to the sender's, then acks ok; rejections change nothing |
| Handlers.Session.PrivateTyping | backend/src/sockets/handlers.ts:223-269 | `private_typing_start`/`stop` publish one event to the recipient only |
| Handlers.Session.KeyExchange | backend/src/sockets/handlers.ts:271-294 | publishes the key exchange to the recipient only |
| Handlers.Session.LoadPrivateHistory | backend/src/sockets/handlers.ts:296-314 | acks the conversation page between the session's user and the peer, with `nextOffset = offset + limit` |
| Handlers.Session.Disconnect | backend/src/sockets/handlers.ts:316-328 | Socket.IO first takes the socket out of every room. `user_left` only when room and user are both set, to the room's other sockets. The room is released iff set, then the user iff set, so a session that never joined changes nothing. For a valid session (both bound or neither), a joined session emits `user_left` and releases its room and its user, and an unjoined one changes nothing. The invariant is kept |

## Left out

- `toMessageBody` (backend/src/sockets/handlers.ts:35-41) needs no member. In the `Option` encoding an absent field already is `null`, so the parsed `Body` is stored as it is.
- Payloads that are not objects, fields of the wrong JSON type and `null` fields cannot be represented. Every request field is an `Option` of the type the schema wants. zod rejects all of these cases. Extra keys are not rejected: `z.object` drops them, and the model's input is the payload after they are dropped.
- PubSub.Relay: a listener emits only for a payload of its own kind (a chat message on a message channel, and so on); the source callbacks re-emit any JSON value that parses to something truthy. The program never publishes one kind on another kind's channel, because the channel names are disjoint (`PubSub.ScopesDisjoint`), so this case does not arise.
- Publications (`Redis.published`) and Socket.IO emits and acknowledgements (`Io.log`) are two separate logs, so the order "publish, then acknowledge" in `send_message` and `private_message` (backend/src/sockets/handlers.ts:117-119, 210-220) is not stated. Each log's own order is.
- Session.LoadHistory: `nextOffset = offset + limit` is an unbounded integer; in JavaScript it is a double. The two differ only when `offset + limit` exceeds 2^53.
- Session.LoadPrivateHistory: the same holds for its `nextOffset`.
- JSON is abstract. A stored or published document is either the value that was serialized or text that does not parse. A well-formed document of some other shape, or one that parses to a falsy value, is not represented. The relay callbacks drop falsy values, and handlers would pass other shapes on unchecked.
- String lengths and the default sort order count UTF-16 code units in JavaScript. The model counts and compares sequence elements, which differs only for characters outside the Basic Multilingual Plane.
- Concurrency is not modelled: interleaving of `await`ed calls across sessions and instances, and the atomicity of HINCRBY. Everything is sequential.
- Failures of Redis or Socket.IO calls, rejected promises, and a handler aborting midway are left out.
- Broker delivery between instances is not modelled. Publications go to `Redis.published`. `PubSubService.OnMessage` models one instance receiving one payload on one channel.
- Process start-up, environment parsing, the Redis connection and the HTTP route are left out (backend/src/server.ts, backend/src/config/env.ts, backend/src/redis/client.ts). The two history limits are constants.
- The frontend and its Web Crypto calls are left out.
- Socket.IO also puts every socket in a room named after its own id, 20 characters of `[A-Za-z0-9_-]`, which is a valid user or room name. `Io` does not hold those rooms. A chat room or user whose name equals a connected socket's id would share that socket's audience, and `Handlers.ChatMessageReachesOnlyItsRoom` and `Handlers.UserEventReachesOnlyItsUser` do not cover that case.
- `typing_start` and `typing_stop` are one method, `Session.Typing`, with an `isTyping` parameter. The same holds for the two private typing handlers (`Session.PrivateTyping`). The source's two handlers differ only in that value.

## Findings

| source | as written | input that shows it | evidently intended | confidence | as-written member | corrected member |
|---|---|---|---|---|---|---|
| backend/src/sockets/handlers.ts:65-82 | `join_room` releases the previous user only when the name changes, but always calls `ensureUser`, and likewise for the room. `disconnect` releases each only once. | one socket sends `join_room {username: "alice", room: "lobby"}`, then `join_room {username: "alice", room: "general"}` (the usual room switch), then disconnects. The instance's count for `alice` is left at 1 and it stays subscribed to `user:alice` with no local socket; sending the same join twice leaks the room as well | a socket holds at most one reference on each user and room, so a disconnect returns every count to where it was | medium, not executed | Handlers.RejoinLeaksSubscription | Handlers.CorrectedSessionBalanced |
| backend/src/sockets/handlers.ts:78-81 | `socket.join(username)` and `socket.join(room)` use the one Socket.IO room namespace, and the relay sends user events with `io.to(user)` (backend/src/services/pubsub.ts:81) | `carol` joins room `bob`; a private message to user `bob`, possibly plaintext, is emitted to room `bob` and reaches `carol`'s socket. Messages of chat room `bob` likewise reach user `bob`'s sockets | a user's events reach only sockets bound to that user, and a room's messages only sockets in that room | medium, not executed | Handlers.UserEventReachesChatRoom | Handlers.UserEventReachesOnlyItsUser |

`Session.JoinRoom` follows the source and runs `JoinPlan`. The corrected plan is
`Handlers.JoinPlanIntended`: it skips the ensure when the socket already holds
that user or room. `Handlers.JoinPlanIntendedBalanced` proves that one corrected
join moves each count from what the session held before to what it holds after;
`Handlers.CorrectedSessionBalanced` composes it, by induction over the joins,
with `Handlers.DisconnectReleasesHeld`: any sequence of corrected joins followed
by a disconnect leaves every count where the other sessions left it.

The corrected naming puts a user's sockets in the Socket.IO room
`PubSub.UserRoomName(user)` (`user:` followed by the name) and addresses user
events there (`PubSub.RelayIntended`, `Handlers.JoinedIntended`). A colon is not
a name character, so no chat room can take that name
(`Handlers.UserRoomNotChatRoom`). `Handlers.UserEventReachesOnlyItsUser` and
`Handlers.ChatMessageReachesOnlyItsRoom` prove that a join then reaches only
what it names. `Session.JoinRoom` and `PubSub.Relay` keep the names as written.
