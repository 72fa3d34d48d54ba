/**
 * The per-connection request handlers (backend/src/sockets/handlers.ts). A
 * `Session` is one connected socket: its bound user and room, and the
 * instance-wide multiplexer, list store and Socket.IO server it acts on.
 * Every handler validates its payload first; a rejected request is answered
 * through the acknowledgement callback and changes nothing else.
 */
module Handlers {
  import opened Common
  import opened Types
  import opened Helper
  import opened Validation
  import opened Redis
  import opened Transport
  import opened MessageStore
  import opened PubSub

  const InvalidJoin := "Invalid username or room"
  const InvalidMessage := "Invalid message"
  const JoinFirst := "Join a room first"
  const InvalidTyping := "Invalid typing payload"
  const NotInRoom := "Not in room"
  const InvalidHistory := "Invalid history request"
  const InvalidPrivateMessage := "Invalid private message"
  const InvalidKeyExchange := "Invalid key exchange"
  const InvalidPrivateHistory := "Invalid private history request"
  const IdentifyFirst := "Identify with a username first"

  /** `join_room` releases the previous user when it is set and differs from the new one. */
  function ReleaseUserPart(prevUser: Option<string>, username: string): seq<Op>
  {
    if Bound(prevUser) && prevUser.value != username then [ReleaseOp(UserScope(prevUser.value))] else []
  }

  /** `join_room` releases the previous room when it is set and differs from the new one. */
  function ReleaseRoomPart(prevRoom: Option<string>, room: string): seq<Op>
  {
    if Bound(prevRoom) && prevRoom.value != room then [ReleaseOp(RoomScope(prevRoom.value))] else []
  }

  /** The releases `join_room` makes: the previous user, then the previous room. */
  function ReplacedPlan(prevUser: Option<string>, prevRoom: Option<string>, username: string, room: string): seq<Op>
  {
    ReleaseUserPart(prevUser, username) + ReleaseRoomPart(prevRoom, room)
  }

  /**
   * The multiplexer calls `join_room` makes: the releases, then an ensure of
   * the new user and of the new room, unconditionally.
   */
  function JoinPlan(prevUser: Option<string>, prevRoom: Option<string>, username: string, room: string): seq<Op>
  {
    ReplacedPlan(prevUser, prevRoom, username, room) + [EnsureOp(UserScope(username)), EnsureOp(RoomScope(room))]
  }

  /** The multiplexer calls `disconnect` makes: release the room if set, then the user if set. */
  function DisconnectPlan(room: Option<string>, user: Option<string>): seq<Op>
  {
    (if Bound(room) then [ReleaseOp(RoomScope(room.value))] else [])
    + (if Bound(user) then [ReleaseOp(UserScope(user.value))] else [])
  }

  /** How many references a session bound to `user` and `room` holds on a scope. */
  function Held(user: Option<string>, room: Option<string>, scope: Scope): nat
  {
    match scope
    case UserScope(u) => if Bound(user) && user.value == u then 1 else 0
    case RoomScope(r) => if Bound(room) && room.value == r then 1 else 0
  }

  /** `disconnect` gives back exactly the references the session holds. */
  lemma DisconnectReleasesHeld(user: Option<string>, room: Option<string>, scope: Scope, others: nat)
    ensures Interest(scope, others + Held(user, room, scope), DisconnectPlan(room, user)) == others
  {
    var a := if Bound(room) then [ReleaseOp(RoomScope(room.value))] else [];
    var b := if Bound(user) then [ReleaseOp(UserScope(user.value))] else [];
    InterestAppend(scope, others + Held(user, room, scope), a, b);
  }

  /**
   * As written, a join under the user a session is already bound to takes one
   * more reference on that user, whichever room it names; naming the same
   * room again also takes one more reference on the room.
   */
  lemma RejoinTakesAnotherReference(username: string, first: string, second: string, scope: Scope, others: nat)
    requires username != "" && first != "" && second != ""
    requires scope == UserScope(username) || (first == second && scope == RoomScope(first))
    ensures Interest(scope, others + Held(Some(username), Some(first), scope), JoinPlan(Some(username), Some(first), username, second))
         == others + 2
  {
    var released := ReleaseRoomPart(Some(first), second);
    var taken := [EnsureOp(UserScope(username)), EnsureOp(RoomScope(second))];
    assert JoinPlan(Some(username), Some(first), username, second) == released + taken;
    InterestAppend(scope, others + 1, released, taken);
    StepOther(scope, others + 1, released);
    InterestPair(scope, others + 1, taken[0], taken[1]);
  }

  /**
   * The consequence: a session that joins, joins again under the same user
   * (to any room) and disconnects leaves the instance subscribed to the user,
   * with a count of 1 that no session will ever release; when both joins name
   * the same room, the room is left subscribed the same way.
   */
  lemma RejoinLeaksSubscription(id: string, m: Mux, username: string, first: string, second: string)
    requires Consistent(id, m)
    requires IsUsername(username) && IsRoom(first) && IsRoom(second)
    requires Count(id, m, UserScope(username)) == 0 && Count(id, m, RoomScope(first)) == 0
    ensures var ops := JoinPlan(None, None, username, first)
                     + JoinPlan(Some(username), Some(first), username, second)
                     + DisconnectPlan(Some(second), Some(username));
      var after := Run(id, m, ops);
      && Count(id, after, UserScope(username)) == 1 && Subscribed(after, UserScope(username))
      && (first == second ==> Count(id, after, RoomScope(first)) == 1 && Subscribed(after, RoomScope(first)))
  {
    RejoinLeakOn(id, m, username, first, second, UserScope(username));
    if first == second {
      RejoinLeakOn(id, m, username, first, second, RoomScope(first));
    }
  }

  lemma RejoinLeakOn(id: string, m: Mux, username: string, first: string, second: string, scope: Scope)
    requires Consistent(id, m)
    requires IsUsername(username) && IsRoom(first) && IsRoom(second)
    requires scope == UserScope(username) || (first == second && scope == RoomScope(first))
    requires Count(id, m, scope) == 0
    ensures var after := Run(id, m, JoinPlan(None, None, username, first)
                                    + JoinPlan(Some(username), Some(first), username, second)
                                    + DisconnectPlan(Some(second), Some(username)));
      Count(id, after, scope) == 1 && Subscribed(after, scope)
  {
    var ops := JoinPlan(None, None, username, first)
             + JoinPlan(Some(username), Some(first), username, second)
             + DisconnectPlan(Some(second), Some(username));
    RunCount(id, m, ops, scope);
    RejoinInterest(username, first, second, scope);
  }

  /** The net interest of join, rejoin under the same user, and disconnect, on the scope that leaks. */
  lemma RejoinInterest(username: string, first: string, second: string, scope: Scope)
    requires username != "" && first != "" && second != ""
    requires scope == UserScope(username) || (first == second && scope == RoomScope(first))
    ensures Interest(scope, 0, JoinPlan(None, None, username, first)
                               + JoinPlan(Some(username), Some(first), username, second)
                               + DisconnectPlan(Some(second), Some(username))) == 1
  {
    var join := JoinPlan(None, None, username, first);
    var rejoin := JoinPlan(Some(username), Some(first), username, second);
    var leave := DisconnectPlan(Some(second), Some(username));
    assert join == [EnsureOp(UserScope(username)), EnsureOp(RoomScope(first))];
    assert leave == [ReleaseOp(RoomScope(second)), ReleaseOp(UserScope(username))];
    InterestAppend(scope, 0, join + rejoin, leave);
    InterestAppend(scope, 0, join, rejoin);
    InterestPair(scope, 0, join[0], join[1]);
    RejoinTakesAnotherReference(username, first, second, scope, 0);
    InterestPair(scope, 2, leave[0], leave[1]);
  }

  /**
   * After any `join_room`, from a consistent state, the instance holds the
   * subscriptions of the new user and of the new room, so that what is
   * published for them reaches this socket.
   */
  lemma JoinSubscribes(id: string, m: Mux, prevUser: Option<string>, prevRoom: Option<string>, username: string, room: string)
    requires Consistent(id, m)
    ensures Subscribed(Run(id, m, JoinPlan(prevUser, prevRoom, username, room)), UserScope(username))
    ensures Subscribed(Run(id, m, JoinPlan(prevUser, prevRoom, username, room)), RoomScope(room))
  {
    var replaced := ReplacedPlan(prevUser, prevRoom, username, room);
    var taken := [EnsureOp(UserScope(username)), EnsureOp(RoomScope(room))];
    var plan := JoinPlan(prevUser, prevRoom, username, room);
    forall scope | scope == UserScope(username) || scope == RoomScope(room)
      ensures Subscribed(Run(id, m, plan), scope)
    {
      RunCount(id, m, plan, scope);
      InterestAppend(scope, Count(id, m, scope), replaced, taken);
      InterestPair(scope, Interest(scope, Count(id, m, scope), replaced), taken[0], taken[1]);
    }
  }

  /** The intended join: take a reference only on a user or room not already held. */
  function JoinPlanIntended(prevUser: Option<string>, prevRoom: Option<string>, username: string, room: string): seq<Op>
  {
    ReleaseUserPart(prevUser, username) + ReleaseRoomPart(prevRoom, room)
    + EnsureUserPart(prevUser, username) + EnsureRoomPart(prevRoom, room)
  }

  function EnsureUserPart(prevUser: Option<string>, username: string): seq<Op>
  {
    if prevUser == Some(username) then [] else [EnsureOp(UserScope(username))]
  }

  function EnsureRoomPart(prevRoom: Option<string>, room: string): seq<Op>
  {
    if prevRoom == Some(room) then [] else [EnsureOp(RoomScope(room))]
  }

  lemma InterestShort(scope: Scope, start: nat, ops: seq<Op>)
    requires |ops| <= 1
    ensures Interest(scope, start, ops) == if ops == [] then start else Step(scope, start, ops[0])
  {
    if ops != [] {
      assert ops == [ops[0]];
      InterestSingle(scope, start, ops[0]);
    }
  }

  /** A call about another scope does not move this scope's count. */
  lemma StepOther(scope: Scope, count: nat, ops: seq<Op>)
    requires |ops| <= 1
    requires forall i :: 0 <= i < |ops| ==> ops[i].scope != scope
    ensures Interest(scope, count, ops) == count
  {
    InterestShort(scope, count, ops);
  }

  /** The user half of the intended join moves a user's count from held-before to held-after. */
  lemma UserSlotBalanced(prevUser: Option<string>, username: string, user: string, others: nat)
    requires username != ""
    ensures var scope := UserScope(user);
      var held := if Bound(prevUser) && prevUser.value == user then 1 else 0;
      Interest(scope, Interest(scope, others + held, ReleaseUserPart(prevUser, username)), EnsureUserPart(prevUser, username))
        == others + (if username == user then 1 else 0)
  {
    var scope := UserScope(user);
    var held := if Bound(prevUser) && prevUser.value == user then 1 else 0;
    InterestShort(scope, others + held, ReleaseUserPart(prevUser, username));
    InterestShort(scope, Interest(scope, others + held, ReleaseUserPart(prevUser, username)), EnsureUserPart(prevUser, username));
  }

  /** The room half of the intended join moves a room's count from held-before to held-after. */
  lemma RoomSlotBalanced(prevRoom: Option<string>, room: string, name: string, others: nat)
    requires room != ""
    ensures var scope := RoomScope(name);
      var held := if Bound(prevRoom) && prevRoom.value == name then 1 else 0;
      Interest(scope, Interest(scope, others + held, ReleaseRoomPart(prevRoom, room)), EnsureRoomPart(prevRoom, room))
        == others + (if room == name then 1 else 0)
  {
    var scope := RoomScope(name);
    var held := if Bound(prevRoom) && prevRoom.value == name then 1 else 0;
    InterestShort(scope, others + held, ReleaseRoomPart(prevRoom, room));
    InterestShort(scope, Interest(scope, others + held, ReleaseRoomPart(prevRoom, room)), EnsureRoomPart(prevRoom, room));
  }

  lemma InterestFour(scope: Scope, start: nat, a: seq<Op>, b: seq<Op>, c: seq<Op>, d: seq<Op>)
    ensures Interest(scope, start, a + b + c + d)
         == Interest(scope, Interest(scope, Interest(scope, Interest(scope, start, a), b), c), d)
  {
    InterestAppend(scope, start, a + b + c, d);
    InterestAppend(scope, start, a + b, c);
    InterestAppend(scope, start, a, b);
  }

  /**
   * With the intended join every scope's count moves from what the session
   * held before to what it holds after, so any run of joins followed by a
   * disconnect gives every reference back.
   */
  lemma JoinPlanIntendedBalanced(prevUser: Option<string>, prevRoom: Option<string>, username: string, room: string,
                                 scope: Scope, others: nat)
    requires username != "" && room != ""
    ensures Interest(scope, others + Held(prevUser, prevRoom, scope), JoinPlanIntended(prevUser, prevRoom, username, room))
         == others + Held(Some(username), Some(room), scope)
  {
    var a, b := ReleaseUserPart(prevUser, username), ReleaseRoomPart(prevRoom, room);
    var c, d := EnsureUserPart(prevUser, username), EnsureRoomPart(prevRoom, room);
    var x0 := others + Held(prevUser, prevRoom, scope);
    assert JoinPlanIntended(prevUser, prevRoom, username, room) == a + b + c + d;
    InterestFour(scope, x0, a, b, c, d);
    if scope.UserScope? {
      UserSideBalanced(prevUser, prevRoom, username, room, scope.user, others);
    } else {
      RoomSideBalanced(prevUser, prevRoom, username, room, scope.room, others);
    }
  }

  lemma UserSideBalanced(prevUser: Option<string>, prevRoom: Option<string>, username: string, room: string,
                         user: string, others: nat)
    requires username != ""
    ensures var scope := UserScope(user);
      var x0 := others + Held(prevUser, prevRoom, scope);
      var x1 := Interest(scope, x0, ReleaseUserPart(prevUser, username));
      var x2 := Interest(scope, x1, ReleaseRoomPart(prevRoom, room));
      var x3 := Interest(scope, x2, EnsureUserPart(prevUser, username));
      Interest(scope, x3, EnsureRoomPart(prevRoom, room)) == others + Held(Some(username), Some(room), scope)
  {
    var scope := UserScope(user);
    var x0 := others + Held(prevUser, prevRoom, scope);
    var x1 := Interest(scope, x0, ReleaseUserPart(prevUser, username));
    var x2 := Interest(scope, x1, ReleaseRoomPart(prevRoom, room));
    var x3 := Interest(scope, x2, EnsureUserPart(prevUser, username));
    StepOther(scope, x1, ReleaseRoomPart(prevRoom, room));
    StepOther(scope, x3, EnsureRoomPart(prevRoom, room));
    UserSlotBalanced(prevUser, username, user, others);
  }

  lemma RoomSideBalanced(prevUser: Option<string>, prevRoom: Option<string>, username: string, room: string,
                         name: string, others: nat)
    requires room != ""
    ensures var scope := RoomScope(name);
      var x0 := others + Held(prevUser, prevRoom, scope);
      var x1 := Interest(scope, x0, ReleaseUserPart(prevUser, username));
      var x2 := Interest(scope, x1, ReleaseRoomPart(prevRoom, room));
      var x3 := Interest(scope, x2, EnsureUserPart(prevUser, username));
      Interest(scope, x3, EnsureRoomPart(prevRoom, room)) == others + Held(Some(username), Some(room), scope)
  {
    var scope := RoomScope(name);
    var x0 := others + Held(prevUser, prevRoom, scope);
    var x1 := Interest(scope, x0, ReleaseUserPart(prevUser, username));
    var x2 := Interest(scope, x1, ReleaseRoomPart(prevRoom, room));
    StepOther(scope, x0, ReleaseUserPart(prevUser, username));
    StepOther(scope, x2, EnsureUserPart(prevUser, username));
    RoomSlotBalanced(prevRoom, room, name, others);
  }

  /** A session's calls with the corrected join: each join in turn, then the disconnect. */
  function CorrectedSession(user: Option<string>, room: Option<string>, joins: seq<JoinRequest>): seq<Op>
    decreases |joins|
  {
    if joins == [] then DisconnectPlan(room, user)
    else JoinPlanIntended(user, room, joins[0].username, joins[0].room)
         + CorrectedSession(Some(joins[0].username), Some(joins[0].room), joins[1..])
  }

  /**
   * With the corrected join, any run of joins followed by a disconnect gives
   * back every reference the session ever took: each count ends where the
   * other sessions left it.
   */
  lemma {:induction false} CorrectedSessionBalanced(user: Option<string>, room: Option<string>, joins: seq<JoinRequest>,
                                                    scope: Scope, others: nat)
    requires forall i :: 0 <= i < |joins| ==> joins[i].username != "" && joins[i].room != ""
    ensures Interest(scope, others + Held(user, room, scope), CorrectedSession(user, room, joins)) == others
    decreases |joins|
  {
    if joins == [] {
      DisconnectReleasesHeld(user, room, scope, others);
    } else {
      var j := joins[0];
      var first := JoinPlanIntended(user, room, j.username, j.room);
      var rest := CorrectedSession(Some(j.username), Some(j.room), joins[1..]);
      assert CorrectedSession(user, room, joins) == first + rest;
      InterestAppend(scope, others + Held(user, room, scope), first, rest);
      JoinPlanIntendedBalanced(user, room, j.username, j.room, scope, others);
      CorrectedSessionBalanced(Some(j.username), Some(j.room), joins[1..], scope, others);
    }
  }

  /** The Socket.IO rooms after the leaves of `join_room`. */
  function Left(rooms: map<string, set<SocketId>>, socket: SocketId,
                prevUser: Option<string>, prevRoom: Option<string>, username: string, room: string)
    : map<string, set<SocketId>>
  {
    var r1 := if Bound(prevUser) && prevUser.value != username
              then rooms[prevUser.value := MembersOf(rooms, prevUser.value) - {socket}] else rooms;
    if Bound(prevRoom) && prevRoom.value != room
    then r1[prevRoom.value := MembersOf(r1, prevRoom.value) - {socket}] else r1
  }

  /** The Socket.IO rooms after the joins of `join_room`. */
  function Joined(rooms: map<string, set<SocketId>>, socket: SocketId, username: string, room: string)
    : map<string, set<SocketId>>
  {
    var r := rooms[username := MembersOf(rooms, username) + {socket}];
    r[room := MembersOf(r, room) + {socket}]
  }

  /**
   * After `join_room` the socket is in the Socket.IO rooms named after the new
   * user and the new room, no longer in a replaced one, and its membership of
   * every other room, and every other socket's membership, is as before.
   */
  lemma RejoinedMembership(rooms: map<string, set<SocketId>>, socket: SocketId,
                           prevUser: Option<string>, prevRoom: Option<string>, username: string, room: string,
                           name: string, other: SocketId)
    ensures var after := Joined(Left(rooms, socket, prevUser, prevRoom, username, room), socket, username, room);
      && (socket in MembersOf(after, name) <==>
            name == username || name == room
            || (socket in MembersOf(rooms, name)
                && !(Bound(prevUser) && name == prevUser.value)
                && !(Bound(prevRoom) && name == prevRoom.value)))
      && (other != socket ==> (other in MembersOf(after, name) <==> other in MembersOf(rooms, name)))
  {
  }

  /**
   * As written, users and chat rooms share Socket.IO's room names: a socket
   * that joins the chat room named after another user receives that user's
   * private events.
   */
  lemma UserEventReachesChatRoom(rooms: map<string, set<SocketId>>, socket: SocketId, username: string, user: string,
                                 event: UserEvent)
    requires IsUsername(username) && IsUsername(user) && username != user
    ensures var sent := Relay(UserEvents(user), UserPost(Serialize(event)));
      && |sent| == 1 && sent[0].Emit?
      && socket in Recipients(Joined(rooms, socket, username, user), sent[0].target)
  {
    ParseJsonInvertsSerialize(event);
  }

  /** The other way round: a user's sockets receive the messages of the chat room named after the user. */
  lemma ChatMessageReachesUser(rooms: map<string, set<SocketId>>, socket: SocketId, username: string, room: string,
                               message: ChatMessage)
    requires IsUsername(username) && IsRoom(room) && username != room
    ensures var sent := Relay(RoomMessages(username), ChatPost(Serialize(message)));
      && |sent| == 1 && sent[0].Emit?
      && socket in Recipients(Joined(rooms, socket, username, room), sent[0].target)
  {
    ParseJsonInvertsSerialize(message);
  }

  /** The Socket.IO rooms after the joins of `join_room`, with users under their prefixed names. */
  function JoinedIntended(rooms: map<string, set<SocketId>>, socket: SocketId, username: string, room: string)
    : map<string, set<SocketId>>
  {
    var r := rooms[UserRoomName(username) := MembersOf(rooms, UserRoomName(username)) + {socket}];
    r[room := MembersOf(r, room) + {socket}]
  }

  /** No valid room name is a user's prefixed name: `:` is not a name character. */
  lemma UserRoomNotChatRoom(user: string, room: string)
    requires IsRoom(room)
    ensures UserRoomName(user) != room
  {
    assert UserRoomName(user)[4] == ':' && !IsNameChar(':');
  }

  /** Distinct users have distinct prefixed rooms. */
  lemma UserRoomNameInjective(a: string, b: string)
    ensures UserRoomName(a) == UserRoomName(b) ==> a == b
  {
    if UserRoomName(a) == UserRoomName(b) {
      Middle(UserRoomName(a), "user:", a, "");
      Middle(UserRoomName(b), "user:", b, "");
    }
  }

  /**
   * With prefixed user rooms, a join adds a socket to a user's audience only
   * when it joins as that user, and to a chat room's audience only when it
   * joins that room; no other socket's reach changes.
   */
  lemma UserEventReachesOnlyItsUser(rooms: map<string, set<SocketId>>, socket: SocketId, username: string, room: string,
                                    user: string, event: UserEvent)
    requires IsRoom(room)
    ensures var sent := RelayIntended(UserEvents(user), UserPost(Serialize(event)));
      var after := JoinedIntended(rooms, socket, username, room);
      && |sent| == 1 && sent[0].Emit?
      && (socket in Recipients(after, sent[0].target) <==> user == username || socket in Recipients(rooms, sent[0].target))
      && (forall other :: other != socket ==>
            (other in Recipients(after, sent[0].target) <==> other in Recipients(rooms, sent[0].target)))
  {
    ParseJsonInvertsSerialize(event);
    UserRoomNotChatRoom(user, room);
    UserRoomNameInjective(user, username);
  }

  lemma ChatMessageReachesOnlyItsRoom(rooms: map<string, set<SocketId>>, socket: SocketId, username: string, room: string,
                                      name: string, message: ChatMessage)
    requires IsRoom(room) && IsRoom(name)
    ensures var sent := RelayIntended(RoomMessages(name), ChatPost(Serialize(message)));
      var after := JoinedIntended(rooms, socket, username, room);
      && |sent| == 1 && sent[0].Emit?
      && (socket in Recipients(after, sent[0].target) <==> name == room || socket in Recipients(rooms, sent[0].target))
  {
    ParseJsonInvertsSerialize(message);
    UserRoomNotChatRoom(username, name);
  }

  /** One connected socket. */
  class Session {
    const id: SocketId
    const pubsub: PubSubService
    /** `socket.data.user` */
    var user: Option<string>
    /** `socket.data.room` */
    var room: Option<string>

    constructor (id: SocketId, pubsub: PubSubService)
      ensures this.id == id && this.pubsub == pubsub
      ensures user == None && room == None && Valid()
    {
      this.id, this.pubsub := id, pubsub;
      user, room := None, None;
    }

    /** A session is bound to a valid user and a valid room, or to neither. */
    predicate Valid()
      reads this
    {
      (user.None? && room.None?)
      || (user.Some? && room.Some? && IsUsername(user.value) && IsRoom(room.value))
    }

    /** The session and the multiplexer are as they were. */
    twostate predicate Unmoved()
      reads this, pubsub, pubsub.redis, pubsub.io
    {
      && user == old(user) && room == old(room)
      && pubsub.listeners == old(pubsub.listeners) && pubsub.redis.hashes == old(pubsub.redis.hashes)
      && pubsub.io.rooms == old(pubsub.io.rooms)
    }

    /** Nothing is stored or published and no one is told anything. */
    twostate predicate Quiet()
      reads this, pubsub, pubsub.redis, pubsub.io
    {
      && Unmoved()
      && pubsub.redis.roomLists == old(pubsub.redis.roomLists)
      && pubsub.redis.directLists == old(pubsub.redis.directLists)
      && pubsub.redis.published == old(pubsub.redis.published)
      && pubsub.io.log == old(pubsub.io.log)
    }

    /** Nothing changes but the acknowledgement, sent if the client asked for one. */
    twostate predicate Replied(callback: bool, reply: Reply)
      reads this, pubsub, pubsub.redis, pubsub.io
    {
      && Unmoved()
      && pubsub.redis.roomLists == old(pubsub.redis.roomLists)
      && pubsub.redis.directLists == old(pubsub.redis.directLists)
      && pubsub.redis.published == old(pubsub.redis.published)
      && pubsub.io.log == old(pubsub.io.log) + AckIf(callback, id, reply)
    }

    /** Nothing is stored; `publications` are published, then the acknowledgement is sent. */
    twostate predicate Published(publications: seq<Publication>, callback: bool, reply: Reply)
      reads this, pubsub, pubsub.redis, pubsub.io
    {
      && Unmoved()
      && pubsub.redis.roomLists == old(pubsub.redis.roomLists)
      && pubsub.redis.directLists == old(pubsub.redis.directLists)
      && pubsub.redis.published == old(pubsub.redis.published) + publications
      && pubsub.io.log == old(pubsub.io.log) + AckIf(callback, id, reply)
    }

    /** `requireIdentity`: the bound user, or a rejection and no user. */
    method RequireIdentity(callback: bool) returns (who: Option<string>)
      modifies pubsub.io
      ensures Bound(user) ==> who == user && Quiet()
      ensures !Bound(user) ==> who == None && Replied(callback, Failed(IdentifyFirst))
    {
      if !Bound(user) {
        pubsub.io.Acknowledge(callback, id, Failed(IdentifyFirst));
        return None;
      }
      return user;
    }

    /** The first half of `join_room`: leave and release the replaced user and room, in that order. */
    method LeaveReplaced(previousUser: Option<string>, previousRoom: Option<string>, username: string, newRoom: string)
      modifies pubsub, pubsub.redis, pubsub.io
      ensures pubsub.State() == Run(pubsub.instanceId, old(pubsub.State()), ReplacedPlan(previousUser, previousRoom, username, newRoom))
      ensures pubsub.io.rooms == Left(old(pubsub.io.rooms), id, previousUser, previousRoom, username, newRoom)
      ensures pubsub.io.log == old(pubsub.io.log)
      ensures pubsub.redis.roomLists == old(pubsub.redis.roomLists) && pubsub.redis.directLists == old(pubsub.redis.directLists)
      ensures pubsub.redis.published == old(pubsub.redis.published)
    {
      ghost var start := pubsub.State();
      ghost var ops: seq<Op> := [];
      if Bound(previousUser) && previousUser.value != username {
        pubsub.io.Leave(id, previousUser.value);
        pubsub.ReleaseUser(previousUser.value);
        RunSnoc(pubsub.instanceId, start, ops, ReleaseOp(UserScope(previousUser.value)));
        ops := ops + [ReleaseOp(UserScope(previousUser.value))];
      }
      assert pubsub.State() == Run(pubsub.instanceId, start, ops);
      if Bound(previousRoom) && previousRoom.value != newRoom {
        pubsub.io.Leave(id, previousRoom.value);
        pubsub.ReleaseRoom(previousRoom.value);
        RunSnoc(pubsub.instanceId, start, ops, ReleaseOp(RoomScope(previousRoom.value)));
        ops := ops + [ReleaseOp(RoomScope(previousRoom.value))];
      }
      assert ops == ReplacedPlan(previousUser, previousRoom, username, newRoom);
    }

    /** The second half of `join_room`: join and ensure the user, then the room. */
    method JoinNew(username: string, newRoom: string)
      modifies pubsub, pubsub.redis, pubsub.io
      ensures pubsub.State() == Run(pubsub.instanceId, old(pubsub.State()), [EnsureOp(UserScope(username)), EnsureOp(RoomScope(newRoom))])
      ensures pubsub.io.rooms == Joined(old(pubsub.io.rooms), id, username, newRoom)
      ensures pubsub.io.log == old(pubsub.io.log)
      ensures pubsub.redis.roomLists == old(pubsub.redis.roomLists) && pubsub.redis.directLists == old(pubsub.redis.directLists)
      ensures pubsub.redis.published == old(pubsub.redis.published)
    {
      ghost var start := pubsub.State();
      pubsub.io.Join(id, username);
      pubsub.EnsureUser(username);
      RunSnoc(pubsub.instanceId, start, [], EnsureOp(UserScope(username)));
      pubsub.io.Join(id, newRoom);
      pubsub.EnsureRoom(newRoom);
      RunSnoc(pubsub.instanceId, start, [EnsureOp(UserScope(username))], EnsureOp(RoomScope(newRoom)));
    }

    /** The last part of `join_room`: the room's recent history to the socket, a notice to the room's other sockets, the acknowledgement. */
    method Announce(username: string, newRoom: string, callback: bool)
      modifies pubsub.io
      ensures pubsub.io.log == old(pubsub.io.log)
           + [ Emit(ToSocket(id), "room_history",
                    RoomHistory(newRoom, GetRecentRoomMessages(pubsub.redis.roomLists, newRoom, MessageHistoryLimit))),
               Emit(ToRoomExcept(newRoom, id), "user_joined", Presence(newRoom, username)) ]
           + AckIf(callback, id, Ok)
      ensures pubsub.io.rooms == old(pubsub.io.rooms)
    {
      var recent := GetRecentRoomMessages(pubsub.redis.roomLists, newRoom, MessageHistoryLimit);
      pubsub.io.Send(Emit(ToSocket(id), "room_history", RoomHistory(newRoom, recent)));
      pubsub.io.Send(Emit(ToRoomExcept(newRoom, id), "user_joined", Presence(newRoom, username)));
      pubsub.io.Acknowledge(callback, id, Ok);
    }

    /** `join_room` */
    method JoinRoom(payload: JoinInput, callback: bool)
      modifies this, pubsub, pubsub.redis, pubsub.io
      ensures ParseJoin(payload).None? ==> Replied(callback, Failed(InvalidJoin))
      ensures ParseJoin(payload).Some? ==> Joining(ParseJoin(payload).value, callback)
      ensures old(Valid()) ==> Valid()
      ensures Consistent(pubsub.instanceId, old(pubsub.State())) ==> Consistent(pubsub.instanceId, pubsub.State())
    {
      var parsed := ParseJoin(payload);
      if parsed.None? {
        pubsub.io.Acknowledge(callback, id, Failed(InvalidJoin));
        return;
      }
      Join(parsed.value, callback);
    }

    /**
     * A valid `join_room`: the session is bound to the new user and room; the
     * multiplexer has run the join plan; the socket has left the replaced
     * rooms and joined the new ones; it has been sent the room's recent
     * history, the room's other sockets have been told, and the request is
     * acknowledged. No message is stored or published.
     */
    twostate predicate Joining(request: JoinRequest, callback: bool)
      reads this, pubsub, pubsub.redis, pubsub.io
    {
      && user == Some(request.username) && room == Some(request.room)
      && pubsub.State() == Run(pubsub.instanceId, old(pubsub.State()), JoinPlan(old(user), old(room), request.username, request.room))
      && pubsub.io.rooms == Joined(Left(old(pubsub.io.rooms), id, old(user), old(room), request.username, request.room),
                                   id, request.username, request.room)
      && pubsub.io.log == old(pubsub.io.log)
           + [ Emit(ToSocket(id), "room_history",
                    RoomHistory(request.room, GetRecentRoomMessages(old(pubsub.redis.roomLists), request.room, MessageHistoryLimit))),
               Emit(ToRoomExcept(request.room, id), "user_joined", Presence(request.room, request.username)) ]
           + AckIf(callback, id, Ok)
      && pubsub.redis.roomLists == old(pubsub.redis.roomLists) && pubsub.redis.directLists == old(pubsub.redis.directLists)
      && pubsub.redis.published == old(pubsub.redis.published)
    }

    /** The body of `join_room` once the payload is valid. */
    method Join(request: JoinRequest, callback: bool)
      requires IsUsername(request.username) && IsRoom(request.room)
      modifies this, pubsub, pubsub.redis, pubsub.io
      ensures Joining(request, callback)
      ensures Valid()
      ensures Consistent(pubsub.instanceId, old(pubsub.State())) ==> Consistent(pubsub.instanceId, pubsub.State())
    {
      var username, newRoom := request.username, request.room;
      var previousRoom, previousUser := room, user;
      ghost var start := pubsub.State();
      LeaveReplaced(previousUser, previousRoom, username, newRoom);
      user, room := Some(username), Some(newRoom);
      JoinNew(username, newRoom);
      RunAppend(pubsub.instanceId, start, ReplacedPlan(previousUser, previousRoom, username, newRoom),
                [EnsureOp(UserScope(username)), EnsureOp(RoomScope(newRoom))]);
      Announce(username, newRoom, callback);
      RunKeepsConsistentWhen(pubsub.instanceId, start, JoinPlan(previousUser, previousRoom, username, newRoom));
    }

    /** `send_message` */
    method SendMessage(payload: MessageInput, callback: bool, uuid: string, now: int)
      modifies pubsub.redis, pubsub.io
      ensures ParseSendMessage(payload).None? ==> Replied(callback, Failed(InvalidMessage))
      ensures ParseSendMessage(payload).Some? && !(Bound(room) && Bound(user)) ==> Replied(callback, Failed(JoinFirst))
      ensures ParseSendMessage(payload).Some? && Bound(room) && Bound(user) ==>
        var message := ChatMessage(uuid, room.value, user.value, ParseSendMessage(payload).value, now);
        var key := RoomListKey(room.value);
        && Unmoved()
        && ListAt(pubsub.redis.roomLists, key) == Stored(ListAt(old(pubsub.redis.roomLists), key), Serialize(message))
        && (forall k :: k != key ==> ListAt(pubsub.redis.roomLists, k) == ListAt(old(pubsub.redis.roomLists), k))
        && pubsub.redis.directLists == old(pubsub.redis.directLists)
        && pubsub.redis.published == old(pubsub.redis.published) + [Publication(key, ChatPost(Serialize(message)))]
        && pubsub.io.log == old(pubsub.io.log) + AckIf(callback, id, Ok)
    {
      var body := ParseSendMessage(payload);
      if body.None? {
        pubsub.io.Acknowledge(callback, id, Failed(InvalidMessage));
        return;
      }
      if !Bound(room) || !Bound(user) {
        pubsub.io.Acknowledge(callback, id, Failed(JoinFirst));
        return;
      }
      var message := ChatMessage(uuid, room.value, user.value, body.value, now);
      StoreRoomMessage(pubsub.redis, message);
      pubsub.PublishRoomMessage(room.value, message);
      pubsub.io.Acknowledge(callback, id, Ok);
    }

    /** `typing_start` (isTyping true) and `typing_stop` (isTyping false). */
    method Typing(payload: TypingInput, isTyping: bool, callback: bool, now: int)
      modifies pubsub.redis, pubsub.io
      ensures ParseTyping(payload).None? ==> Replied(callback, Failed(InvalidTyping))
      ensures ParseTyping(payload).Some? && !Bound(user) ==> Replied(callback, Failed(IdentifyFirst))
      ensures ParseTyping(payload).Some? && Bound(user) && room != ParseTyping(payload) ==> Replied(callback, Failed(NotInRoom))
      ensures ParseTyping(payload).Some? && Bound(user) && room == ParseTyping(payload) ==>
        var event := TypingEvent(room.value, user.value, isTyping, now);
        Published([Publication(RoomTypingChannel(room.value), TypingPost(Serialize(event)))], callback, Ok)
    {
      var target := ParseTyping(payload);
      if target.None? {
        pubsub.io.Acknowledge(callback, id, Failed(InvalidTyping));
        return;
      }
      var who := RequireIdentity(callback);
      if who.None? {
        return;
      }
      if room != target {
        pubsub.io.Acknowledge(callback, id, Failed(NotInRoom));
        return;
      }
      var event := TypingEvent(target.value, who.value, isTyping, now);
      pubsub.PublishRoomTyping(target.value, event);
      pubsub.io.Acknowledge(callback, id, Ok);
    }

    /** `load_history` */
    method LoadHistory(payload: HistoryInput, callback: bool)
      modifies pubsub.io
      ensures ParseHistory(payload).None? ==> Replied(callback, Failed(InvalidHistory))
      ensures ParseHistory(payload).Some? && room != Some(ParseHistory(payload).value.room) ==> Replied(callback, Failed(NotInRoom))
      ensures ParseHistory(payload).Some? && room == Some(ParseHistory(payload).value.room) ==>
        var request := ParseHistory(payload).value;
        Replied(callback, RoomPage(request.room,
                                   GetRoomHistory(pubsub.redis.roomLists, request.room, request.offset, request.limit),
                                   request.offset + request.limit))
    {
      var parsed := ParseHistory(payload);
      if parsed.None? {
        pubsub.io.Acknowledge(callback, id, Failed(InvalidHistory));
        return;
      }
      var request := parsed.value;
      if room != Some(request.room) {
        pubsub.io.Acknowledge(callback, id, Failed(NotInRoom));
        return;
      }
      var messages := GetRoomHistory(pubsub.redis.roomLists, request.room, request.offset, request.limit);
      pubsub.io.Acknowledge(callback, id, RoomPage(request.room, messages, request.offset + request.limit));
    }

    /** `private_message`: stored once, then published to the recipient and then to the sender. */
    method PrivateMessage(payload: PrivateMessageInput, callback: bool, uuid: string, now: int)
      modifies pubsub.redis, pubsub.io
      ensures ParsePrivateMessage(payload).None? ==> Replied(callback, Failed(InvalidPrivateMessage))
      ensures ParsePrivateMessage(payload).Some? && !Bound(user) ==> Replied(callback, Failed(IdentifyFirst))
      ensures ParsePrivateMessage(payload).Some? && Bound(user) ==>
        var request := ParsePrivateMessage(payload).value;
        var message := DirectMessage(uuid, user.value, request.to, request.body, now);
        var key := DirectListKey(user.value, request.to);
        var notice := UserPost(Serialize(PrivateMessageNotice(message)));
        && Unmoved()
        && ListAt(pubsub.redis.directLists, key) == Stored(ListAt(old(pubsub.redis.directLists), key), Serialize(message))
        && (forall k :: k != key ==> ListAt(pubsub.redis.directLists, k) == ListAt(old(pubsub.redis.directLists), k))
        && pubsub.redis.roomLists == old(pubsub.redis.roomLists)
        && pubsub.redis.published == old(pubsub.redis.published)
             + [Publication(UserChannel(request.to), notice), Publication(UserChannel(user.value), notice)]
        && pubsub.io.log == old(pubsub.io.log) + AckIf(callback, id, Ok)
    {
      var parsed := ParsePrivateMessage(payload);
      if parsed.None? {
        pubsub.io.Acknowledge(callback, id, Failed(InvalidPrivateMessage));
        return;
      }
      var who := RequireIdentity(callback);
      if who.None? {
        return;
      }
      var message := DirectMessage(uuid, who.value, parsed.value.to, parsed.value.body, now);
      StoreDirectMessage(pubsub.redis, message);
      pubsub.PublishUserEvent(parsed.value.to, PrivateMessageNotice(message));
      pubsub.PublishUserEvent(who.value, PrivateMessageNotice(message));
      pubsub.io.Acknowledge(callback, id, Ok);
    }

    /** `private_typing_start` (isTyping true) and `private_typing_stop` (isTyping false). */
    method PrivateTyping(payload: PrivateTypingInput, isTyping: bool, callback: bool, now: int)
      modifies pubsub.redis, pubsub.io
      ensures ParsePrivateTyping(payload).None? ==> Replied(callback, Failed(InvalidTyping))
      ensures ParsePrivateTyping(payload).Some? && !Bound(user) ==> Replied(callback, Failed(IdentifyFirst))
      ensures ParsePrivateTyping(payload).Some? && Bound(user) ==>
        var to := ParsePrivateTyping(payload).value;
        var event := PrivateTypingEvent(user.value, to, isTyping, now);
        Published([Publication(UserChannel(to), UserPost(Serialize(PrivateTypingNotice(event))))], callback, Ok)
    {
      var to := ParsePrivateTyping(payload);
      if to.None? {
        pubsub.io.Acknowledge(callback, id, Failed(InvalidTyping));
        return;
      }
      var who := RequireIdentity(callback);
      if who.None? {
        return;
      }
      var event := PrivateTypingEvent(who.value, to.value, isTyping, now);
      pubsub.PublishUserEvent(to.value, PrivateTypingNotice(event));
      pubsub.io.Acknowledge(callback, id, Ok);
    }

    /** `key_exchange`: relayed to the recipient only. */
    method KeyExchange(payload: KeyExchangeInput, callback: bool, now: int)
      modifies pubsub.redis, pubsub.io
      ensures ParseKeyExchange(payload).None? ==> Replied(callback, Failed(InvalidKeyExchange))
      ensures ParseKeyExchange(payload).Some? && !Bound(user) ==> Replied(callback, Failed(IdentifyFirst))
      ensures ParseKeyExchange(payload).Some? && Bound(user) ==>
        var request := ParseKeyExchange(payload).value;
        var event := KeyExchangeEvent(user.value, request.to, request.publicKey, request.algorithm, now);
        Published([Publication(UserChannel(request.to), UserPost(Serialize(KeyExchangeNotice(event))))], callback, Ok)
    {
      var parsed := ParseKeyExchange(payload);
      if parsed.None? {
        pubsub.io.Acknowledge(callback, id, Failed(InvalidKeyExchange));
        return;
      }
      var who := RequireIdentity(callback);
      if who.None? {
        return;
      }
      var event := KeyExchangeEvent(who.value, parsed.value.to, parsed.value.publicKey, parsed.value.algorithm, now);
      pubsub.PublishUserEvent(parsed.value.to, KeyExchangeNotice(event));
      pubsub.io.Acknowledge(callback, id, Ok);
    }

    /** `load_private_history` */
    method LoadPrivateHistory(payload: PrivateHistoryInput, callback: bool)
      modifies pubsub.io
      ensures ParsePrivateHistory(payload).None? ==> Replied(callback, Failed(InvalidPrivateHistory))
      ensures ParsePrivateHistory(payload).Some? && !Bound(user) ==> Replied(callback, Failed(IdentifyFirst))
      ensures ParsePrivateHistory(payload).Some? && Bound(user) ==>
        var request := ParsePrivateHistory(payload).value;
        Replied(callback, DirectPage(request.peer,
                                     GetDirectHistory(pubsub.redis.directLists, user.value, request.peer, request.offset, request.limit),
                                     request.offset + request.limit))
    {
      var parsed := ParsePrivateHistory(payload);
      if parsed.None? {
        pubsub.io.Acknowledge(callback, id, Failed(InvalidPrivateHistory));
        return;
      }
      var who := RequireIdentity(callback);
      if who.None? {
        return;
      }
      var request := parsed.value;
      var messages := GetDirectHistory(pubsub.redis.directLists, who.value, request.peer, request.offset, request.limit);
      pubsub.io.Acknowledge(callback, id, DirectPage(request.peer, messages, request.offset + request.limit));
    }

    /** `disconnect` */
    method Disconnect()
      modifies pubsub, pubsub.redis, pubsub.io
      ensures pubsub.State() == Run(pubsub.instanceId, old(pubsub.State()), DisconnectPlan(room, user))
      ensures pubsub.io.log == old(pubsub.io.log)
        + (if Bound(room) && Bound(user) then [Emit(ToRoomExcept(room.value, id), "user_left", Presence(room.value, user.value))] else [])
      ensures pubsub.io.rooms == WithoutSocket(old(pubsub.io.rooms), id)
      ensures pubsub.redis.roomLists == old(pubsub.redis.roomLists) && pubsub.redis.directLists == old(pubsub.redis.directLists)
      ensures pubsub.redis.published == old(pubsub.redis.published)
      ensures Consistent(pubsub.instanceId, old(pubsub.State())) ==> Consistent(pubsub.instanceId, pubsub.State())
      ensures !Bound(room) && !Bound(user) ==> pubsub.State() == old(pubsub.State())
      ensures Valid() && room.Some? ==>
        pubsub.io.log == old(pubsub.io.log) + [Emit(ToRoomExcept(room.value, id), "user_left", Presence(room.value, user.value))]
        && pubsub.State() == Run(pubsub.instanceId, old(pubsub.State()),
                                 [ReleaseOp(RoomScope(room.value)), ReleaseOp(UserScope(user.value))])
      ensures Valid() && room.None? ==> pubsub.io.log == old(pubsub.io.log) && pubsub.State() == old(pubsub.State())
    {
      pubsub.io.LeaveAll(id);
      ghost var start := pubsub.State();
      ghost var ops: seq<Op> := [];
      if Bound(room) && Bound(user) {
        pubsub.io.Send(Emit(ToRoomExcept(room.value, id), "user_left", Presence(room.value, user.value)));
      }
      if Bound(room) {
        pubsub.ReleaseRoom(room.value);
        RunSnoc(pubsub.instanceId, start, ops, ReleaseOp(RoomScope(room.value)));
        ops := ops + [ReleaseOp(RoomScope(room.value))];
      }
      assert pubsub.State() == Run(pubsub.instanceId, start, ops);
      if Bound(user) {
        pubsub.ReleaseUser(user.value);
        RunSnoc(pubsub.instanceId, start, ops, ReleaseOp(UserScope(user.value)));
        ops := ops + [ReleaseOp(UserScope(user.value))];
      }
      assert ops == DisconnectPlan(room, user);
      RunKeepsConsistentWhen(pubsub.instanceId, start, ops);
    }
  }

  lemma RunKeepsConsistentWhen(id: string, m: Mux, ops: seq<Op>)
    ensures Consistent(id, m) ==> Consistent(id, Run(id, m, ops))
  {
    if Consistent(id, m) {
      RunKeepsConsistent(id, m, ops);
    }
  }
}
