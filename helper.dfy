/**
 * Key and channel names, and lenient parsing of stored lists
 * (backend/src/utils/helper.ts).
 */
module Helper {
  import opened Common
  import opened Types

  /** The list key of a room's history; also the room's message channel. */
  function RoomListKey(room: string): string
  {
    "room:" + room + ":messages"
  }

  /** The broker channel that carries a room's typing events. */
  function RoomTypingChannel(room: string): string
  {
    "room:" + room + ":typing"
  }

  /** The broker channel that carries one user's private events. */
  function UserChannel(user: string): string
  {
    "user:" + user
  }

  /**
   * The order of JavaScript's default `sort` on strings: lexicographic by
   * character, a proper prefix first.
   */
  predicate LexLess(a: string, b: string)
    decreases |a|
  {
    |b| > 0 && (|a| == 0 || a[0] < b[0] || (a[0] == b[0] && LexLess(a[1..], b[1..])))
  }

  lemma {:induction false} LexLessAsymmetric(a: string, b: string)
    ensures !(LexLess(a, b) && LexLess(b, a))
    decreases |a|
  {
    if |a| > 0 && |b| > 0 && a[0] == b[0] {
      LexLessAsymmetric(a[1..], b[1..]);
    }
  }

  lemma {:induction false} LexLessTotal(a: string, b: string)
    requires a != b
    ensures LexLess(a, b) || LexLess(b, a)
    decreases |a|
  {
    if |a| > 0 && |b| > 0 && a[0] == b[0] {
      assert a == [a[0]] + a[1..] && b == [b[0]] + b[1..];
      LexLessTotal(a[1..], b[1..]);
    }
  }

  /**
   * The storage key of a conversation between two users: the two names
   * sorted, so that both directions share one list.
   */
  function DirectListKey(userA: string, userB: string): (key: string)
    ensures LexLess(userA, userB) ==> key == "dm:" + userA + ":" + userB + ":messages"
    ensures LexLess(userB, userA) ==> key == "dm:" + userB + ":" + userA + ":messages"
    ensures userA == userB ==> key == "dm:" + userA + ":" + userA + ":messages"
  {
    LexLessAsymmetric(userA, userB);
    var (left, right) := if LexLess(userB, userA) then (userB, userA) else (userA, userB);
    "dm:" + left + ":" + right + ":messages"
  }

  lemma DirectListKeySymmetric(userA: string, userB: string)
    ensures DirectListKey(userA, userB) == DirectListKey(userB, userA)
  {
    if userA != userB {
      LexLessTotal(userA, userB);
    }
  }

  /** `s` is `prefix + middle + suffix`; the middle is then determined. */
  lemma Middle(s: string, prefix: string, middle: string, suffix: string)
    requires s == prefix + middle + suffix
    ensures |s| >= |prefix| + |suffix|
    ensures middle == s[|prefix|..|s| - |suffix|]
  {
  }

  lemma RoomListKeyInjective(a: string, b: string)
    requires RoomListKey(a) == RoomListKey(b)
    ensures a == b
  {
    Middle(RoomListKey(a), "room:", a, ":messages");
    Middle(RoomListKey(b), "room:", b, ":messages");
  }

  lemma RoomTypingChannelInjective(a: string, b: string)
    requires RoomTypingChannel(a) == RoomTypingChannel(b)
    ensures a == b
  {
    Middle(RoomTypingChannel(a), "room:", a, ":typing");
    Middle(RoomTypingChannel(b), "room:", b, ":typing");
  }

  lemma UserChannelInjective(a: string, b: string)
    requires UserChannel(a) == UserChannel(b)
    ensures a == b
  {
    Middle(UserChannel(a), "user:", a, "");
    Middle(UserChannel(b), "user:", b, "");
  }

  /** A room's message channel is never any room's typing channel: the last characters differ. */
  lemma RoomListKeyNotTypingChannel(a: string, b: string)
    ensures RoomListKey(a) != RoomTypingChannel(b)
  {
    var k, t := RoomListKey(a), RoomTypingChannel(b);
    assert k[|k| - 1] == 's' && t[|t| - 1] == 'g';
  }

  /** User channels start with `user:`, room channels with `room:`. */
  lemma UserChannelNotRoomChannel(user: string, room: string)
    ensures UserChannel(user) != RoomListKey(room)
    ensures UserChannel(user) != RoomTypingChannel(room)
  {
    assert UserChannel(user)[0] == 'u';
    assert RoomListKey(room)[0] == 'r' && RoomTypingChannel(room)[0] == 'r';
  }

  /** Room lists and conversation lists live under disjoint keys. */
  lemma DirectListKeyNotRoomListKey(userA: string, userB: string, room: string)
    ensures DirectListKey(userA, userB) != RoomListKey(room)
  {
    assert DirectListKey(userA, userB)[0] == 'd';
    assert RoomListKey(room)[0] == 'r';
  }

  /** `JSON.parse` guarded by `try`: absent exactly when the text does not parse. */
  function ParseJson<T>(raw: Wire<T>): (r: Option<T>)
    ensures r.None? <==> raw.Malformed?
  {
    match raw
    case Json(x) => Some(x)
    case Malformed(_) => None
  }

  lemma ParseJsonInvertsSerialize<T>(x: T)
    ensures ParseJson(Serialize(x)) == Some(x)
  {
  }

  /** The entries that parse, in input order (the `map` and `filter` steps). */
  function Parsed<T>(items: seq<Wire<T>>): (r: seq<T>)
    ensures |r| <= |items|
  {
    if items == [] then []
    else
      var rest := Parsed(items[1..]);
      match ParseJson(items[0])
      case Some(x) => [x] + rest
      case None => rest
  }

  function Reverse<T>(s: seq<T>): (r: seq<T>)
    ensures |r| == |s|
    ensures forall i :: 0 <= i < |s| ==> r[i] == s[|s| - 1 - i]
  {
    if s == [] then [] else Reverse(s[1..]) + [s[0]]
  }

  /** `parseList`: the entries that parse, newest-first lists coming back oldest-first. */
  function ParseList<T>(items: seq<Wire<T>>): (r: seq<T>)
    ensures |r| <= |items|
  {
    Reverse(Parsed(items))
  }

  predicate WellFormed<T>(items: seq<Wire<T>>)
  {
    forall i :: 0 <= i < |items| ==> items[i].Json?
  }

  function Values<T>(items: seq<Wire<T>>): (r: seq<T>)
    requires WellFormed(items)
    ensures |r| == |items| && forall i :: 0 <= i < |items| ==> items[i] == Json(r[i])
  {
    seq(|items|, i requires 0 <= i < |items| => items[i].value)
  }

  /** Parsing keeps relative order: it distributes over concatenation. */
  lemma {:induction false} ParsedAppend<T>(a: seq<Wire<T>>, b: seq<Wire<T>>)
    ensures Parsed(a + b) == Parsed(a) + Parsed(b)
  {
    if a == [] {
      assert a + b == b;
    } else {
      assert (a + b)[0] == a[0] && (a + b)[1..] == a[1..] + b;
      ParsedAppend(a[1..], b);
    }
  }

  /** A value survives parsing exactly when its serialization is in the list. */
  lemma {:induction false} ParsedMembership<T>(items: seq<Wire<T>>, x: T)
    ensures x in Parsed(items) <==> Json(x) in items
  {
    if items != [] {
      ParsedMembership(items[1..], x);
      assert items == [items[0]] + items[1..];
    }
  }

  lemma {:induction false} ParsedWellFormed<T>(items: seq<Wire<T>>)
    requires WellFormed(items)
    ensures Parsed(items) == Values(items)
  {
    if items != [] {
      ParsedWellFormed(items[1..]);
      assert Values(items) == [items[0].value] + Values(items[1..]);
    }
  }

  /** When every entry parses, `parseList` is plain reversal of the values. */
  lemma ParseListWellFormed<T>(items: seq<Wire<T>>)
    requires WellFormed(items)
    ensures ParseList(items) == Reverse(Values(items))
  {
    ParsedWellFormed(items);
  }

  lemma ReverseAppend<T>(a: seq<T>, b: seq<T>)
    ensures Reverse(a + b) == Reverse(b) + Reverse(a)
  {
  }
}
