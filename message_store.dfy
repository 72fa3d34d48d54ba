/**
 * Bounded history (backend/src/services/messageStore.ts): one list per room
 * and per conversation, newest first, cut to MessageHistoryMax entries after
 * every push; reads take an LRANGE slice and hand it back oldest first.
 */
module MessageStore {
  import opened Common
  import opened Types
  import opened Helper
  import opened Redis

  /** How many recent messages a joining client receives (MESSAGE_HISTORY_LIMIT, default 10). */
  const MessageHistoryLimit: int := 10
  /** How many messages a list keeps (MESSAGE_HISTORY_MAX, default 1000). */
  const MessageHistoryMax: int := 1000

  function Min(a: int, b: int): int
  {
    if a < b then a else b
  }

  /** A list after one store: the new entry in front, the oldest entries beyond the cap gone. */
  function Stored<T>(list: seq<T>, entry: T): (r: seq<T>)
    ensures |r| == Min(|list| + 1, MessageHistoryMax) && |r| <= MessageHistoryMax
    ensures r[0] == entry
    ensures forall i :: 1 <= i < |r| ==> r[i] == list[i - 1]
  {
    ([entry] + list)[..Min(|list| + 1, MessageHistoryMax)]
  }

  /** A list after storing `entries` one after the other. */
  function StoredAll<T>(list: seq<T>, entries: seq<T>): seq<T>
  {
    if entries == [] then list
    else Stored(StoredAll(list, entries[..|entries| - 1]), entries[|entries| - 1])
  }

  /** After n >= 1 stores the list is the new entries, newest first, then the old list, cut to the cap. */
  lemma {:induction false} StoredAllShape<T>(list: seq<T>, entries: seq<T>)
    requires |entries| >= 1
    ensures StoredAll(list, entries) == (Reverse(entries) + list)[..Min(|entries| + |list|, MessageHistoryMax)]
  {
    var n := |entries|;
    var last := entries[n - 1];
    var init := entries[..n - 1];
    assert entries == init + [last];
    ReverseAppend(init, [last]);
    assert Reverse(entries) == [last] + Reverse(init);
    if n == 1 {
      assert init == [];
    } else {
      StoredAllShape(list, init);
      var before := StoredAll(list, init);
      var whole := Reverse(init) + list;
      var c := Min(n - 1 + |list|, MessageHistoryMax);
      assert before == whole[..c];
      var after := Stored(before, last);
      assert |after| == Min(n + |list|, MessageHistoryMax);
      forall i | 0 <= i < |after|
        ensures after[i] == ([last] + whole)[i]
      {
      }
    }
  }

  function SerializeAll<T>(xs: seq<T>): (r: seq<Wire<T>>)
    ensures |r| == |xs| && forall i :: 0 <= i < |xs| ==> r[i] == Json(xs[i])
  {
    seq(|xs|, i requires 0 <= i < |xs| => Serialize(xs[i]))
  }

  /** `storeRoomMessage`: LPUSH the serialized message, then LTRIM to the newest MessageHistoryMax. */
  method StoreRoomMessage(redis: Redis, message: ChatMessage)
    modifies redis
    ensures ListAt(redis.roomLists, RoomListKey(message.room))
         == Stored(ListAt(old(redis.roomLists), RoomListKey(message.room)), Serialize(message))
    ensures forall k :: k != RoomListKey(message.room) ==> ListAt(redis.roomLists, k) == ListAt(old(redis.roomLists), k)
    ensures redis.directLists == old(redis.directLists)
    ensures redis.hashes == old(redis.hashes) && redis.published == old(redis.published)
  {
    var key := RoomListKey(message.room);
    var serialized := Serialize(message);
    ghost var before := ListAt(redis.roomLists, key);
    redis.roomLists := LPush(redis.roomLists, key, serialized);
    redis.roomLists := LTrim(redis.roomLists, key, 0, MessageHistoryMax - 1);
    LRangeSlice([serialized] + before, 0, MessageHistoryMax - 1);
  }

  /** `storeDirectMessage`: the same, under the conversation's key. */
  method StoreDirectMessage(redis: Redis, message: DirectMessage)
    modifies redis
    ensures ListAt(redis.directLists, DirectListKey(message.from, message.to))
         == Stored(ListAt(old(redis.directLists), DirectListKey(message.from, message.to)), Serialize(message))
    ensures forall k :: k != DirectListKey(message.from, message.to) ==>
      ListAt(redis.directLists, k) == ListAt(old(redis.directLists), k)
    ensures redis.roomLists == old(redis.roomLists)
    ensures redis.hashes == old(redis.hashes) && redis.published == old(redis.published)
  {
    var key := DirectListKey(message.from, message.to);
    var serialized := Serialize(message);
    ghost var before := ListAt(redis.directLists, key);
    redis.directLists := LPush(redis.directLists, key, serialized);
    redis.directLists := LTrim(redis.directLists, key, 0, MessageHistoryMax - 1);
    LRangeSlice([serialized] + before, 0, MessageHistoryMax - 1);
  }

  /** `getRecentRoomMessages`: LRANGE 0 .. limit-1, parsed and put oldest first. */
  function GetRecentRoomMessages(lists: map<string, seq<Wire<ChatMessage>>>, room: string, limit: int)
    : (r: seq<ChatMessage>)
    ensures |r| <= |ListAt(lists, RoomListKey(room))|
    ensures 1 <= limit ==> |r| <= limit
  {
    ParseList(LRange(ListAt(lists, RoomListKey(room)), 0, limit - 1))
  }

  /** `getRoomHistory`: LRANGE offset .. offset+limit-1, parsed and put oldest first. */
  function GetRoomHistory(lists: map<string, seq<Wire<ChatMessage>>>, room: string, offset: int, limit: int)
    : (r: seq<ChatMessage>)
    ensures 0 <= offset && 1 <= limit ==> |r| <= limit
    ensures offset >= |ListAt(lists, RoomListKey(room))| ==> r == []
  {
    ParseList(LRange(ListAt(lists, RoomListKey(room)), offset, offset + limit - 1))
  }

  /** `getDirectHistory`: the same over the conversation's list, whichever way round the two names come. */
  function GetDirectHistory(lists: map<string, seq<Wire<DirectMessage>>>, userA: string, userB: string, offset: int, limit: int)
    : (r: seq<DirectMessage>)
    ensures 0 <= offset && 1 <= limit ==> |r| <= limit
    ensures offset >= |ListAt(lists, DirectListKey(userA, userB))| ==> r == []
  {
    ParseList(LRange(ListAt(lists, DirectListKey(userA, userB)), offset, offset + limit - 1))
  }

  /** Both participants read the same conversation, whichever of them asks. */
  lemma DirectHistorySymmetric(lists: map<string, seq<Wire<DirectMessage>>>, userA: string, userB: string, offset: int, limit: int)
    ensures GetDirectHistory(lists, userA, userB, offset, limit) == GetDirectHistory(lists, userB, userA, offset, limit)
  {
    DirectListKeySymmetric(userA, userB);
  }

  /** The recent messages are the newest min(limit, length) entries, oldest first. */
  lemma RecentAreNewest(lists: map<string, seq<Wire<ChatMessage>>>, room: string, limit: int)
    requires 1 <= limit
    requires WellFormed(ListAt(lists, RoomListKey(room)))
    ensures var list := ListAt(lists, RoomListKey(room));
      GetRecentRoomMessages(lists, room, limit) == Reverse(Values(list[..Min(limit, |list|)]))
  {
    var list := ListAt(lists, RoomListKey(room));
    LRangeSlice(list, 0, limit - 1);
    assert LRange(list, 0, limit - 1) == list[..Min(limit, |list|)];
    ParseListWellFormed(list[..Min(limit, |list|)]);
  }

  /** With a limit of 0 the stop index is -1, which Redis reads as the end of the list. */
  lemma RecentWithZeroLimit(lists: map<string, seq<Wire<ChatMessage>>>, room: string)
    ensures GetRecentRoomMessages(lists, room, 0) == ParseList(ListAt(lists, RoomListKey(room)))
  {
    LRangeToEnd(ListAt(lists, RoomListKey(room)));
  }

  /** A history page holds the entries at offset .. offset+limit-1 (cut at the end), oldest first. */
  lemma HistoryPage(lists: map<string, seq<Wire<ChatMessage>>>, room: string, offset: int, limit: int)
    requires 0 <= offset && 1 <= limit
    requires WellFormed(ListAt(lists, RoomListKey(room)))
    ensures var list := ListAt(lists, RoomListKey(room));
      var from := Min(offset, |list|);
      GetRoomHistory(lists, room, offset, limit) == Reverse(Values(list[from..Min(offset + limit, |list|)]))
  {
    var list := ListAt(lists, RoomListKey(room));
    var from := Min(offset, |list|);
    LRangeSlice(list, offset, offset + limit - 1);
    assert LRange(list, offset, offset + limit - 1) == list[from..Min(offset + limit, |list|)];
    ParseListWellFormed(list[from..Min(offset + limit, |list|)]);
  }

  /** A conversation page holds the entries at offset .. offset+limit-1 (cut at the end), oldest first. */
  lemma DirectHistoryPage(lists: map<string, seq<Wire<DirectMessage>>>, userA: string, userB: string, offset: int, limit: int)
    requires 0 <= offset && 1 <= limit
    requires WellFormed(ListAt(lists, DirectListKey(userA, userB)))
    ensures var list := ListAt(lists, DirectListKey(userA, userB));
      var from := Min(offset, |list|);
      GetDirectHistory(lists, userA, userB, offset, limit) == Reverse(Values(list[from..Min(offset + limit, |list|)]))
  {
    var list := ListAt(lists, DirectListKey(userA, userB));
    var from := Min(offset, |list|);
    LRangeSlice(list, offset, offset + limit - 1);
    assert LRange(list, offset, offset + limit - 1) == list[from..Min(offset + limit, |list|)];
    ParseListWellFormed(list[from..Min(offset + limit, |list|)]);
  }

  /**
   * After storing `messages` one after the other into a room's list, the k most
   * recent messages, for 1 <= k <= MessageHistoryMax, are the last k stored, in
   * the order they were stored, whatever the list held before.
   */
  lemma RecentAfterStores(before: map<string, seq<Wire<ChatMessage>>>, after: map<string, seq<Wire<ChatMessage>>>,
                          room: string, messages: seq<ChatMessage>, k: int)
    requires 1 <= k <= |messages| && k <= MessageHistoryMax
    requires ListAt(after, RoomListKey(room)) == StoredAll(ListAt(before, RoomListKey(room)), SerializeAll(messages))
    ensures GetRecentRoomMessages(after, room, k) == messages[|messages| - k..]
  {
    var n := |messages|;
    var entries := SerializeAll(messages);
    var now := ListAt(after, RoomListKey(room));
    FrontOfStoredAll(ListAt(before, RoomListKey(room)), entries, k);
    LRangeSlice(now, 0, k - 1);
    assert LRange(now, 0, k - 1) == now[..k];
    assert entries[n - k..] == SerializeAll(messages[n - k..]);
    ParseReversedSerialized(messages[n - k..]);
  }

  /** The k newest entries of a list after n >= k stores are the last k stored, newest first. */
  lemma FrontOfStoredAll<T>(list: seq<T>, entries: seq<T>, k: int)
    requires 1 <= k <= |entries| && k <= MessageHistoryMax
    ensures |StoredAll(list, entries)| >= k
    ensures StoredAll(list, entries)[..k] == Reverse(entries[|entries| - k..])
  {
    StoredAllShape(list, entries);
    FrontOfCut(list, entries, Min(|entries| + |list|, MessageHistoryMax), k);
  }

  /** Cutting the newest-first list at c >= k leaves its first k entries alone. */
  lemma FrontOfCut<T>(list: seq<T>, entries: seq<T>, c: int, k: int)
    requires 0 <= k <= |entries| && k <= c <= |entries| + |list|
    ensures (Reverse(entries) + list)[..c][..k] == Reverse(entries[|entries| - k..])
  {
    PrefixOfCut(Reverse(entries), list, c, k);
    ReverseFront(entries, k);
  }

  lemma PrefixOfCut<T>(a: seq<T>, b: seq<T>, c: int, k: int)
    requires 0 <= k <= |a| && k <= c <= |a| + |b|
    ensures (a + b)[..c][..k] == a[..k]
  {
    assert forall i :: 0 <= i < k ==> (a + b)[..c][..k][i] == a[i];
  }

  /** The first k entries of a reversed sequence are its last k entries, reversed. */
  lemma {:induction false} ReverseFront<T>(s: seq<T>, k: int)
    requires 0 <= k <= |s|
    ensures Reverse(s)[..k] == Reverse(s[|s| - k..])
    decreases |s|
  {
    if k == |s| {
      assert s[|s| - k..] == s;
    } else {
      var rest := s[1..];
      assert Reverse(s) == Reverse(rest) + [s[0]];
      ReverseFront(rest, k);
      assert rest[|rest| - k..] == s[|s| - k..];
      assert (Reverse(rest) + [s[0]])[..k] == Reverse(rest)[..k];
    }
  }

  /** Reading back, oldest first, what was serialized newest first gives the original sequence. */
  lemma ParseReversedSerialized<T>(xs: seq<T>)
    ensures ParseList(Reverse(SerializeAll(xs))) == xs
  {
    var items := Reverse(SerializeAll(xs));
    assert WellFormed(items);
    ParseListWellFormed(items);
  }

  /**
   * A direct message just stored is the newest entry of both participants'
   * history: the last element of any first page, whoever asks.
   */
  lemma DirectMessageSeenByBoth(before: map<string, seq<Wire<DirectMessage>>>, after: map<string, seq<Wire<DirectMessage>>>,
                                message: DirectMessage, limit: int)
    requires 1 <= limit
    requires ListAt(after, DirectListKey(message.from, message.to))
          == Stored(ListAt(before, DirectListKey(message.from, message.to)), Serialize(message))
    ensures var page := GetDirectHistory(after, message.to, message.from, 0, limit);
      |page| >= 1 && page[|page| - 1] == message
    ensures var page := GetDirectHistory(after, message.from, message.to, 0, limit);
      |page| >= 1 && page[|page| - 1] == message
  {
    var list := ListAt(after, DirectListKey(message.from, message.to));
    var slice := LRange(list, 0, limit - 1);
    assert slice[0] == Json(message);
    assert slice == [slice[0]] + slice[1..];
    ParsedAppend([slice[0]], slice[1..]);
    assert Parsed(slice)[0] == message;
    DirectHistorySymmetric(after, message.to, message.from, 0, limit);
  }
}
