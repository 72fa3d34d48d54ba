/**
 * The subscription multiplexer (backend/src/services/pubsub.ts). Each server
 * instance counts, in a shared Redis hash per room or user, how many of its
 * local sessions need that room or user; it subscribes to the broker channels
 * when its count becomes 1 and unsubscribes when the count drops to 0 or below.
 *
 * The transitions are pure functions on `Mux` (the counter hashes and this
 * instance's subscriptions); the class's methods change the state step by step
 * and are proved to end in the state the functions describe.
 */
module PubSub {
  import opened Common
  import opened Types
  import opened Helper
  import opened Redis
  import opened Transport

  /** What a counter and its subscriptions are about: a room or a user. */
  datatype Scope = RoomScope(room: string) | UserScope(user: string)

  function RoomCounterKey(room: string): string
  {
    "subcount:room:" + room
  }

  function UserCounterKey(user: string): string
  {
    "subcount:user:" + user
  }

  /** The hash key that holds every instance's count for a scope. */
  function CounterKey(scope: Scope): string
  {
    match scope
    case RoomScope(room) => RoomCounterKey(room)
    case UserScope(user) => UserCounterKey(user)
  }

  /** The field of a counter hash that belongs to one instance. */
  function InstanceField(instanceId: string): string
  {
    "instance:" + instanceId
  }

  /** The broker channels a scope's subscription covers. */
  function Channels(scope: Scope): set<string>
  {
    match scope
    case RoomScope(room) => {RoomListKey(room), RoomTypingChannel(room)}
    case UserScope(user) => {UserChannel(user)}
  }

  /** Distinct scopes use distinct counter keys and share no channel. */
  lemma ScopesDisjoint(a: Scope, b: Scope)
    requires a != b
    ensures CounterKey(a) != CounterKey(b)
    ensures Channels(a) !! Channels(b)
  {
    match a {
      case RoomScope(x) =>
        match b {
          case RoomScope(y) =>
            if RoomCounterKey(x) == RoomCounterKey(y) {
              Middle(RoomCounterKey(x), "subcount:room:", x, "");
              Middle(RoomCounterKey(y), "subcount:room:", y, "");
            }
            if RoomListKey(x) == RoomListKey(y) { RoomListKeyInjective(x, y); }
            if RoomTypingChannel(x) == RoomTypingChannel(y) { RoomTypingChannelInjective(x, y); }
            RoomListKeyNotTypingChannel(x, y);
            RoomListKeyNotTypingChannel(y, x);
          case UserScope(v) =>
            assert CounterKey(a)[9] == 'r' && CounterKey(b)[9] == 'u';
            UserChannelNotRoomChannel(v, x);
        }
      case UserScope(u) =>
        match b {
          case RoomScope(y) =>
            assert CounterKey(a)[9] == 'u' && CounterKey(b)[9] == 'r';
            UserChannelNotRoomChannel(u, y);
          case UserScope(v) =>
            if UserCounterKey(u) == UserCounterKey(v) {
              Middle(UserCounterKey(u), "subcount:user:", u, "");
              Middle(UserCounterKey(v), "subcount:user:", v, "");
            }
            if UserChannel(u) == UserChannel(v) { UserChannelInjective(u, v); }
        }
    }
  }

  /** The callback installed with a subscription. */
  datatype Listener = RoomMessages(room: string) | RoomTyping(room: string) | UserEvents(user: string)

  function ListenersOf(listeners: map<string, seq<Listener>>, channel: string): seq<Listener>
  {
    if channel in listeners then listeners[channel] else []
  }

  /** `subscribe(channel, listener)`: one more listener on the channel. */
  function Subscribe(listeners: map<string, seq<Listener>>, channel: string, listener: Listener)
    : map<string, seq<Listener>>
  {
    listeners[channel := ListenersOf(listeners, channel) + [listener]]
  }

  /** `unsubscribe(channel)`: the channel and all its listeners go. */
  function Unsubscribe(listeners: map<string, seq<Listener>>, channel: string): map<string, seq<Listener>>
  {
    listeners - {channel}
  }

  /** The subscriptions `ensureRoom` / `ensureUser` make on a first interest, in order. */
  function SubscribeScope(listeners: map<string, seq<Listener>>, scope: Scope): (r: map<string, seq<Listener>>)
    ensures forall ch :: ch !in Channels(scope) ==> ListenersOf(r, ch) == ListenersOf(listeners, ch)
  {
    match scope
    case RoomScope(room) =>
      Subscribe(Subscribe(listeners, RoomListKey(room), RoomMessages(room)), RoomTypingChannel(room), RoomTyping(room))
    case UserScope(user) =>
      Subscribe(listeners, UserChannel(user), UserEvents(user))
  }

  /** The unsubscriptions `releaseRoom` / `releaseUser` make, in order. */
  function UnsubscribeScope(listeners: map<string, seq<Listener>>, scope: Scope): (r: map<string, seq<Listener>>)
    ensures forall ch :: ch in Channels(scope) ==> ch !in r
    ensures forall ch :: ch !in Channels(scope) ==> ListenersOf(r, ch) == ListenersOf(listeners, ch) && (ch in r <==> ch in listeners)
  {
    match scope
    case RoomScope(room) => Unsubscribe(Unsubscribe(listeners, RoomListKey(room)), RoomTypingChannel(room))
    case UserScope(user) => Unsubscribe(listeners, UserChannel(user))
  }

  /** The state the multiplexer works on: the shared counter hashes and this instance's subscriptions. */
  datatype Mux = Mux(hashes: map<string, map<string, int>>, listeners: map<string, seq<Listener>>)

  /** This instance's count for a scope (0 when its field is absent). */
  function Count(id: string, m: Mux, scope: Scope): int
  {
    FieldAt(m.hashes, CounterKey(scope), InstanceField(id))
  }

  /** `ensureRoom` / `ensureUser`: HINCRBY by 1; subscribe when the new count is 1. */
  function Ensure(id: string, m: Mux, scope: Scope): Mux
  {
    var next := Count(id, m, scope) + 1;
    var hashes := IncrField(m.hashes, CounterKey(scope), InstanceField(id), 1);
    if next == 1 then Mux(hashes, SubscribeScope(m.listeners, scope)) else Mux(hashes, m.listeners)
  }

  /** `releaseRoom` / `releaseUser`: HINCRBY by -1; at 0 or below, HDEL the field and unsubscribe. */
  function Release(id: string, m: Mux, scope: Scope): Mux
  {
    var next := Count(id, m, scope) - 1;
    var hashes := IncrField(m.hashes, CounterKey(scope), InstanceField(id), -1);
    if next <= 0
    then Mux(DelField(hashes, CounterKey(scope), InstanceField(id)), UnsubscribeScope(m.listeners, scope))
    else Mux(hashes, m.listeners)
  }

  /** A call to the multiplexer. */
  datatype Op = EnsureOp(scope: Scope) | ReleaseOp(scope: Scope)

  function Apply(id: string, m: Mux, op: Op): Mux
  {
    match op
    case EnsureOp(scope) => Ensure(id, m, scope)
    case ReleaseOp(scope) => Release(id, m, scope)
  }

  /** Calls made one after the other. */
  function Run(id: string, m: Mux, ops: seq<Op>): Mux
    decreases |ops|
  {
    if ops == [] then m else Run(id, Apply(id, m, ops[0]), ops[1..])
  }

  /** Exactly one listener of the right kind on each of the scope's channels. */
  ghost predicate Subscribed(m: Mux, scope: Scope)
  {
    match scope
    case RoomScope(room) =>
      ListenersOf(m.listeners, RoomListKey(room)) == [RoomMessages(room)]
      && ListenersOf(m.listeners, RoomTypingChannel(room)) == [RoomTyping(room)]
    case UserScope(user) =>
      ListenersOf(m.listeners, UserChannel(user)) == [UserEvents(user)]
  }

  ghost predicate Unsubscribed(m: Mux, scope: Scope)
  {
    forall ch :: ch in Channels(scope) ==> ch !in m.listeners
  }

  /**
   * The multiplexer's invariant for instance `id`: its own counter fields are
   * never below 1 (a count that would be 0 or less is deleted), and it holds
   * exactly one subscription for a scope iff its count for the scope is positive.
   */
  ghost predicate Consistent(id: string, m: Mux)
  {
    && (forall key :: HasField(m.hashes, key, InstanceField(id)) ==> FieldAt(m.hashes, key, InstanceField(id)) >= 1)
    && (forall scope :: Count(id, m, scope) > 0 ==> Subscribed(m, scope))
    && (forall scope :: Count(id, m, scope) <= 0 ==> Unsubscribed(m, scope))
  }

  /** A fresh instance: no field of its own anywhere, no subscription. */
  lemma FreshIsConsistent(id: string, hashes: map<string, map<string, int>>)
    requires forall key :: !HasField(hashes, key, InstanceField(id))
    ensures Consistent(id, Mux(hashes, map[]))
  {
    forall scope
      ensures Count(id, Mux(hashes, map[]), scope) == 0
    {
      assert !HasField(hashes, CounterKey(scope), InstanceField(id));
    }
  }

  lemma NotSubscribedWhenUnsubscribed(m: Mux, scope: Scope)
    requires Unsubscribed(m, scope)
    ensures !Subscribed(m, scope)
  {
    match scope
    case RoomScope(room) => assert RoomListKey(room) in Channels(scope);
    case UserScope(user) => assert UserChannel(user) in Channels(scope);
  }

  /** Counts are never negative in a consistent state. */
  lemma CountNonNegative(id: string, m: Mux, scope: Scope)
    requires Consistent(id, m)
    ensures Count(id, m, scope) >= 0
  {
    if HasField(m.hashes, CounterKey(scope), InstanceField(id)) {
      assert FieldAt(m.hashes, CounterKey(scope), InstanceField(id)) >= 1;
    }
  }

  /**
   * `ensure` raises this instance's count by one and touches no other field;
   * it keeps the invariant, so the scope is subscribed afterwards.
   */
  lemma EnsureKeepsConsistent(id: string, m: Mux, scope: Scope)
    requires Consistent(id, m)
    ensures var after := Ensure(id, m, scope);
      && Consistent(id, after)
      && Count(id, after, scope) == Count(id, m, scope) + 1
      && Subscribed(after, scope)
      && (forall k, f :: k != CounterKey(scope) || f != InstanceField(id) ==>
            HasField(after.hashes, k, f) == HasField(m.hashes, k, f) && FieldAt(after.hashes, k, f) == FieldAt(m.hashes, k, f))
  {
    var after := Ensure(id, m, scope);
    CountNonNegative(id, m, scope);
    forall other | other != scope
      ensures Count(id, after, other) == Count(id, m, other)
      ensures Subscribed(after, other) == Subscribed(m, other)
      ensures Unsubscribed(after, other) == Unsubscribed(m, other)
    {
      ScopesDisjoint(scope, other);
      ChannelsUntouched(m, after, scope, other);
    }
    if Count(id, m, scope) == 0 {
      match scope
      case RoomScope(room) => RoomListKeyNotTypingChannel(room, room);
      case UserScope(user) =>
    }
  }

  /**
   * `release` lowers this instance's count by one, never below zero (a field
   * that would be 0 or less is deleted), touches no other instance's field and
   * keeps the invariant; at zero the scope is unsubscribed.
   */
  lemma ReleaseKeepsConsistent(id: string, m: Mux, scope: Scope)
    requires Consistent(id, m)
    ensures var after := Release(id, m, scope);
      && Consistent(id, after)
      && Count(id, after, scope) == (if Count(id, m, scope) > 1 then Count(id, m, scope) - 1 else 0)
      && (Count(id, after, scope) == 0 ==> !HasField(after.hashes, CounterKey(scope), InstanceField(id)) && Unsubscribed(after, scope))
      && (forall k, f :: k != CounterKey(scope) || f != InstanceField(id) ==>
            HasField(after.hashes, k, f) == HasField(m.hashes, k, f) && FieldAt(after.hashes, k, f) == FieldAt(m.hashes, k, f))
  {
    var after := Release(id, m, scope);
    CountNonNegative(id, m, scope);
    forall other | other != scope
      ensures Count(id, after, other) == Count(id, m, other)
      ensures Subscribed(after, other) == Subscribed(m, other)
      ensures Unsubscribed(after, other) == Unsubscribed(m, other)
    {
      ScopesDisjoint(scope, other);
      ChannelsUntouched(m, after, scope, other);
    }
  }

  /** A transition that only changes `scope`'s channels leaves another scope's subscriptions as they were. */
  lemma ChannelsUntouched(m: Mux, after: Mux, scope: Scope, other: Scope)
    requires Channels(scope) !! Channels(other)
    requires forall ch :: ch !in Channels(scope) ==> ListenersOf(after.listeners, ch) == ListenersOf(m.listeners, ch) && (ch in after.listeners <==> ch in m.listeners)
    ensures Subscribed(after, other) == Subscribed(m, other)
    ensures Unsubscribed(after, other) == Unsubscribed(m, other)
  {
    match other
    case RoomScope(room) => assert RoomListKey(room) in Channels(other) && RoomTypingChannel(room) in Channels(other);
    case UserScope(user) => assert UserChannel(user) in Channels(other);
  }

  /** An extra release — count already 0 — changes nothing at all. */
  lemma ExtraReleaseIsNoOp(id: string, m: Mux, scope: Scope)
    requires Consistent(id, m)
    requires forall key :: key in m.hashes ==> m.hashes[key] != map[]
    requires Count(id, m, scope) == 0
    ensures Release(id, m, scope) == m
  {
    var key, field := CounterKey(scope), InstanceField(id);
    assert !HasField(m.hashes, key, field);
    var raised := IncrField(m.hashes, key, field, -1);
    if key in m.hashes {
      assert raised[key] - {field} == m.hashes[key];
      assert raised[key := m.hashes[key]] == m.hashes;
    } else {
      assert raised[key] - {field} == map[];
      assert raised - {key} == m.hashes;
    }
    assert UnsubscribeScope(m.listeners, scope) == m.listeners;
  }

  lemma {:induction false} RunKeepsConsistent(id: string, m: Mux, ops: seq<Op>)
    requires Consistent(id, m)
    ensures Consistent(id, Run(id, m, ops))
    decreases |ops|
  {
    if ops != [] {
      match ops[0] {
        case EnsureOp(scope) => EnsureKeepsConsistent(id, m, scope);
        case ReleaseOp(scope) => ReleaseKeepsConsistent(id, m, scope);
      }
      RunKeepsConsistent(id, Apply(id, m, ops[0]), ops[1..]);
    }
  }

  /** Running one more call after a sequence is the same as running the longer sequence. */
  lemma {:induction false} RunSnoc(id: string, m: Mux, ops: seq<Op>, op: Op)
    ensures Run(id, m, ops + [op]) == Apply(id, Run(id, m, ops), op)
    decreases |ops|
  {
    if ops == [] {
      assert ops + [op] == [op];
    } else {
      assert (ops + [op])[1..] == ops[1..] + [op];
      RunSnoc(id, Apply(id, m, ops[0]), ops[1..], op);
    }
  }

  /** How one call moves the local interest in `scope`: +1 per ensure, -1 per release, never below 0. */
  function Step(scope: Scope, count: nat, op: Op): nat
  {
    if op == EnsureOp(scope) then count + 1
    else if op == ReleaseOp(scope) then (if count > 0 then count - 1 else 0)
    else count
  }

  /** The local interest in `scope` after `ops`. */
  function Interest(scope: Scope, start: nat, ops: seq<Op>): nat
    decreases |ops|
  {
    if ops == [] then start else Interest(scope, Step(scope, start, ops[0]), ops[1..])
  }

  lemma InterestSingle(scope: Scope, start: nat, op: Op)
    ensures Interest(scope, start, [op]) == Step(scope, start, op)
  {
    assert [op][1..] == [];
  }

  lemma InterestPair(scope: Scope, start: nat, first: Op, second: Op)
    ensures Interest(scope, start, [first, second]) == Step(scope, Step(scope, start, first), second)
  {
    assert [first, second] == [first] + [second];
    InterestAppend(scope, start, [first], [second]);
    InterestSingle(scope, start, first);
    InterestSingle(scope, Step(scope, start, first), second);
  }

  lemma {:induction false} InterestAppend(scope: Scope, start: nat, a: seq<Op>, b: seq<Op>)
    ensures Interest(scope, start, a + b) == Interest(scope, Interest(scope, start, a), b)
    decreases |a|
  {
    if a == [] {
      assert a + b == b;
    } else {
      assert (a + b)[0] == a[0] && (a + b)[1..] == a[1..] + b;
      InterestAppend(scope, Step(scope, start, a[0]), a[1..], b);
    }
  }

  lemma {:induction false} RunAppend(id: string, m: Mux, a: seq<Op>, b: seq<Op>)
    ensures Run(id, m, a + b) == Run(id, Run(id, m, a), b)
    decreases |a|
  {
    if a == [] {
      assert a + b == b;
    } else {
      assert (a + b)[0] == a[0] && (a + b)[1..] == a[1..] + b;
      RunAppend(id, Apply(id, m, a[0]), a[1..], b);
    }
  }

  /**
   * For any sequence of calls from a consistent state, the count of every
   * scope is its clamped net interest, and the scope is subscribed exactly
   * when that is positive.
   */
  lemma {:induction false} RunCount(id: string, m: Mux, ops: seq<Op>, scope: Scope)
    requires Consistent(id, m)
    ensures Count(id, m, scope) >= 0
    ensures Count(id, Run(id, m, ops), scope) == Interest(scope, Count(id, m, scope), ops)
    ensures Interest(scope, Count(id, m, scope), ops) > 0 <==> Subscribed(Run(id, m, ops), scope)
    decreases |ops|
  {
    CountNonNegative(id, m, scope);
    if ops == [] {
      if Count(id, m, scope) == 0 {
        NotSubscribedWhenUnsubscribed(m, scope);
      }
    } else {
      ApplyCount(id, m, ops[0], scope);
      RunCount(id, Apply(id, m, ops[0]), ops[1..], scope);
    }
  }

  /** One call moves a scope's count as `Step` says and keeps the invariant. */
  lemma ApplyCount(id: string, m: Mux, op: Op, scope: Scope)
    requires Consistent(id, m)
    ensures Count(id, m, scope) >= 0
    ensures Consistent(id, Apply(id, m, op))
    ensures Count(id, Apply(id, m, op), scope) == Step(scope, Count(id, m, scope), op)
  {
    CountNonNegative(id, m, scope);
    match op {
      case EnsureOp(s) =>
        EnsureKeepsConsistent(id, m, s);
        if s != scope { ScopesDisjoint(s, scope); }
      case ReleaseOp(s) =>
        ReleaseKeepsConsistent(id, m, s);
        if s != scope { ScopesDisjoint(s, scope); }
    }
  }

  // ---- Relaying broker messages to local sockets ----

  /**
   * What one listener emits for a payload: the parsed document, re-emitted to
   * the Socket.IO room of the same name; nothing when the payload does not parse.
   */
  function Relay(listener: Listener, post: Post): (r: seq<Emission>)
    ensures |r| <= 1
  {
    match listener
    case RoomMessages(room) =>
      if post.ChatPost? && ParseJson(post.chat).Some?
      then [Emit(ToRoom(room), "message", MessageOut(post.chat.value))] else []
    case RoomTyping(room) =>
      if post.TypingPost? && ParseJson(post.typing).Some?
      then [Emit(ToRoom(room), "typing", TypingOut(post.typing.value))] else []
    case UserEvents(user) =>
      if post.UserPost? && ParseJson(post.event).Some?
      then [Emit(ToRoom(user), post.event.value.Type(), post.event.value.Payload())] else []
  }

  /**
   * The Socket.IO room a user's sockets join under the corrected naming: a
   * prefix that no valid room name can carry keeps it apart from chat rooms.
   */
  function UserRoomName(user: string): string
  {
    "user:" + user
  }

  /** `Relay` with user events addressed to the user's prefixed room. */
  function RelayIntended(listener: Listener, post: Post): (r: seq<Emission>)
    ensures |r| <= 1
  {
    match listener
    case UserEvents(user) =>
      if post.UserPost? && ParseJson(post.event).Some?
      then [Emit(ToRoom(UserRoomName(user)), post.event.value.Type(), post.event.value.Payload())] else []
    case _ => Relay(listener, post)
  }

  /** Every listener of a channel, in subscription order. */
  function Fanout(listeners: seq<Listener>, post: Post): (r: seq<Emission>)
    ensures |r| <= |listeners|
  {
    if listeners == [] then [] else Relay(listeners[0], post) + Fanout(listeners[1..], post)
  }

  /** Delivering to the first listener leaves the rest of the fan-out to do. */
  lemma FanoutStep(emitted: seq<Emission>, listeners: seq<Listener>, post: Post)
    requires listeners != []
    ensures emitted + Fanout(listeners, post) == (emitted + Relay(listeners[0], post)) + Fanout(listeners[1..], post)
  {
  }

  predicate Unparsable(post: Post)
  {
    match post
    case ChatPost(w) => w.Malformed?
    case TypingPost(w) => w.Malformed?
    case UserPost(w) => w.Malformed?
  }

  /** A payload that does not parse is dropped by every listener. */
  lemma {:induction false} FanoutDropsUnparsable(listeners: seq<Listener>, post: Post)
    requires Unparsable(post)
    ensures Fanout(listeners, post) == []
    decreases |listeners|
  {
    if listeners != [] {
      FanoutDropsUnparsable(listeners[1..], post);
    }
  }

  /**
   * While a room is needed locally, a chat message published on its channel is
   * emitted to the room's sockets exactly once; when it is not, not at all.
   */
  lemma RoomMessageDeliveredOnce(id: string, m: Mux, room: string, message: ChatMessage)
    requires Consistent(id, m)
    ensures Count(id, m, RoomScope(room)) > 0 ==>
      Fanout(ListenersOf(m.listeners, RoomListKey(room)), ChatPost(Serialize(message)))
        == [Emit(ToRoom(room), "message", MessageOut(message))]
    ensures Count(id, m, RoomScope(room)) <= 0 ==>
      Fanout(ListenersOf(m.listeners, RoomListKey(room)), ChatPost(Serialize(message))) == []
  {
    assert RoomListKey(room) in Channels(RoomScope(room));
  }

  /** The same for typing events on the room's typing channel. */
  lemma RoomTypingDeliveredOnce(id: string, m: Mux, room: string, event: TypingEvent)
    requires Consistent(id, m)
    ensures Count(id, m, RoomScope(room)) > 0 ==>
      Fanout(ListenersOf(m.listeners, RoomTypingChannel(room)), TypingPost(Serialize(event)))
        == [Emit(ToRoom(room), "typing", TypingOut(event))]
    ensures Count(id, m, RoomScope(room)) <= 0 ==>
      Fanout(ListenersOf(m.listeners, RoomTypingChannel(room)), TypingPost(Serialize(event))) == []
  {
    assert RoomTypingChannel(room) in Channels(RoomScope(room));
  }

  /** A user event is re-emitted once, under its `type`, with its `payload`. */
  lemma UserEventDeliveredOnce(id: string, m: Mux, user: string, event: UserEvent)
    requires Consistent(id, m)
    ensures Count(id, m, UserScope(user)) > 0 ==>
      Fanout(ListenersOf(m.listeners, UserChannel(user)), UserPost(Serialize(event)))
        == [Emit(ToRoom(user), event.Type(), event.Payload())]
    ensures Count(id, m, UserScope(user)) <= 0 ==>
      Fanout(ListenersOf(m.listeners, UserChannel(user)), UserPost(Serialize(event))) == []
  {
    assert UserChannel(user) in Channels(UserScope(user));
  }

  /** `PubSubService`: one per server instance. */
  class PubSubService {
    const instanceId: string
    const io: Io
    const redis: Redis
    /** The subscriber connection's channels and their listeners. */
    var listeners: map<string, seq<Listener>>

    /** `instanceId` is the uuid drawn when the service is created. */
    constructor (io: Io, redis: Redis, instanceId: string)
      ensures this.io == io && this.redis == redis && this.instanceId == instanceId
      ensures listeners == map[]
    {
      this.io, this.redis, this.instanceId := io, redis, instanceId;
      listeners := map[];
    }

    function State(): Mux
      reads this, redis
    {
      Mux(redis.hashes, listeners)
    }

    /** Lists and publications are not the multiplexer's business. */
    twostate predicate StoreUnchanged()
      reads this, redis
    {
      redis.roomLists == old(redis.roomLists) && redis.directLists == old(redis.directLists)
      && redis.published == old(redis.published)
    }

    method EnsureRoom(room: string)
      modifies this, redis
      ensures State() == Ensure(instanceId, old(State()), RoomScope(room))
      ensures StoreUnchanged()
    {
      var nextCount := redis.HIncrBy(RoomCounterKey(room), InstanceField(instanceId), 1);
      if nextCount == 1 {
        listeners := Subscribe(listeners, RoomListKey(room), RoomMessages(room));
        listeners := Subscribe(listeners, RoomTypingChannel(room), RoomTyping(room));
      }
    }

    method ReleaseRoom(room: string)
      modifies this, redis
      ensures State() == Release(instanceId, old(State()), RoomScope(room))
      ensures StoreUnchanged()
    {
      var nextCount := redis.HIncrBy(RoomCounterKey(room), InstanceField(instanceId), -1);
      if nextCount <= 0 {
        redis.HDel(RoomCounterKey(room), InstanceField(instanceId));
        listeners := Unsubscribe(listeners, RoomListKey(room));
        listeners := Unsubscribe(listeners, RoomTypingChannel(room));
      }
    }

    method EnsureUser(username: string)
      modifies this, redis
      ensures State() == Ensure(instanceId, old(State()), UserScope(username))
      ensures StoreUnchanged()
    {
      var nextCount := redis.HIncrBy(UserCounterKey(username), InstanceField(instanceId), 1);
      if nextCount == 1 {
        listeners := Subscribe(listeners, UserChannel(username), UserEvents(username));
      }
    }

    method ReleaseUser(username: string)
      modifies this, redis
      ensures State() == Release(instanceId, old(State()), UserScope(username))
      ensures StoreUnchanged()
    {
      var nextCount := redis.HIncrBy(UserCounterKey(username), InstanceField(instanceId), -1);
      if nextCount <= 0 {
        redis.HDel(UserCounterKey(username), InstanceField(instanceId));
        listeners := Unsubscribe(listeners, UserChannel(username));
      }
    }

    /** The broker calls the channel's listeners with a payload published on it. */
    method OnMessage(channel: string, post: Post)
      modifies io
      ensures io.log == old(io.log) + Fanout(ListenersOf(listeners, channel), post)
      ensures io.rooms == old(io.rooms)
    {
      var pending := ListenersOf(listeners, channel);
      ghost var emitted: seq<Emission> := [];
      ghost var all := pending;
      while pending != []
        invariant io.rooms == old(io.rooms)
        invariant emitted + Fanout(pending, post) == Fanout(all, post)
        invariant io.log == old(io.log) + emitted
        decreases |pending|
      {
        ghost var relayed := Relay(pending[0], post);
        Deliver(pending[0], post);
        FanoutStep(emitted, pending, post);
        emitted := emitted + relayed;
        pending := pending[1..];
      }
    }

    /** One listener's share of a delivery. */
    method Deliver(listener: Listener, post: Post)
      modifies io
      ensures io.log == old(io.log) + Relay(listener, post)
      ensures io.rooms == old(io.rooms)
    {
      var relayed := Relay(listener, post);
      if relayed != [] {
        assert relayed == [relayed[0]];
        io.Send(relayed[0]);
      }
    }

    method PublishRoomMessage(room: string, message: ChatMessage)
      modifies redis
      ensures redis.published == old(redis.published) + [Publication(RoomListKey(room), ChatPost(Serialize(message)))]
      ensures redis.roomLists == old(redis.roomLists) && redis.directLists == old(redis.directLists)
      ensures redis.hashes == old(redis.hashes)
    {
      redis.Publish(RoomListKey(room), ChatPost(Serialize(message)));
    }

    method PublishRoomTyping(room: string, event: TypingEvent)
      modifies redis
      ensures redis.published == old(redis.published) + [Publication(RoomTypingChannel(room), TypingPost(Serialize(event)))]
      ensures redis.roomLists == old(redis.roomLists) && redis.directLists == old(redis.directLists)
      ensures redis.hashes == old(redis.hashes)
    {
      redis.Publish(RoomTypingChannel(room), TypingPost(Serialize(event)));
    }

    method PublishUserEvent(username: string, event: UserEvent)
      modifies redis
      ensures redis.published == old(redis.published) + [Publication(UserChannel(username), UserPost(Serialize(event)))]
      ensures redis.roomLists == old(redis.roomLists) && redis.directLists == old(redis.directLists)
      ensures redis.hashes == old(redis.hashes)
    {
      redis.Publish(UserChannel(username), UserPost(Serialize(event)));
    }
  }
}
