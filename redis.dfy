/**
 * The slice of Redis the relay relies on, as values: lists under string keys
 * (LPUSH, LTRIM, LRANGE with Redis's index rules), hashes of integer fields
 * (HINCRBY, HDEL), and the log of PUBLISH calls. The keyspace of lists is kept
 * as one map per document type; the keys of the two kinds never coincide
 * (Helper.DirectListKeyNotRoomListKey).
 */
module Redis {
  import opened Types

  /** The list under `key`; a missing key reads as the empty list. */
  function ListAt<T>(lists: map<string, seq<T>>, key: string): seq<T>
  {
    if key in lists then lists[key] else []
  }

  /**
   * LRANGE: `start` and `stop` are inclusive; a negative index counts from the
   * end; out-of-range indices are clamped; an empty range gives [].
   */
  function LRange<T>(xs: seq<T>, start: int, stop: int): (r: seq<T>)
    ensures |r| <= |xs|
    ensures 0 <= start <= stop ==> |r| <= stop - start + 1
    ensures 0 <= stop < start || |xs| <= start ==> r == []
    ensures 0 <= start ==> r == [] || start + |r| <= |xs|
    ensures forall i :: 0 <= start && 0 <= i < |r| ==> r[i] == xs[start + i]
  {
    var n := |xs|;
    var first := if start < 0 then n + start else start;
    var last := if stop < 0 then n + stop else stop;
    var first := if first < 0 then 0 else first;
    if first > last || first >= n then []
    else
      var last := if last >= n then n - 1 else last;
      xs[first..last + 1]
  }

  /** Over non-negative indices, LRANGE is the slice `[start, stop]` cut at the end of the list. */
  lemma LRangeSlice<T>(xs: seq<T>, start: nat, stop: nat)
    requires start <= stop
    ensures start <= |xs| ==> LRange(xs, start, stop) == xs[start..if stop < |xs| then stop + 1 else |xs|]
  {
  }

  /** A stop index of -1 means "to the end". */
  lemma LRangeToEnd<T>(xs: seq<T>)
    ensures LRange(xs, 0, -1) == xs
  {
    if xs != [] {
      assert xs[0..|xs|] == xs;
    }
  }

  /** LPUSH of one value: it becomes the head of the list. */
  function LPush<T>(lists: map<string, seq<T>>, key: string, v: T): (r: map<string, seq<T>>)
    ensures ListAt(r, key) == [v] + ListAt(lists, key)
    ensures forall k :: k != key ==> ListAt(r, k) == ListAt(lists, k)
  {
    lists[key := [v] + ListAt(lists, key)]
  }

  /** LTRIM: keep what LRANGE with the same indices returns; an emptied list disappears. */
  function LTrim<T>(lists: map<string, seq<T>>, key: string, start: int, stop: int): (r: map<string, seq<T>>)
    ensures ListAt(r, key) == LRange(ListAt(lists, key), start, stop)
    ensures forall k :: k != key ==> ListAt(r, k) == ListAt(lists, k)
  {
    var kept := LRange(ListAt(lists, key), start, stop);
    if kept == [] then lists - {key} else lists[key := kept]
  }

  /** The value of a hash field; a missing key or field reads as 0, as HINCRBY treats it. */
  function FieldAt(hashes: map<string, map<string, int>>, key: string, field: string): int
  {
    if key in hashes && field in hashes[key] then hashes[key][field] else 0
  }

  predicate HasField(hashes: map<string, map<string, int>>, key: string, field: string)
  {
    key in hashes && field in hashes[key]
  }

  /** HINCRBY: adds `increment` to one field, creating the key and the field as needed. */
  function IncrField(hashes: map<string, map<string, int>>, key: string, field: string, increment: int)
    : (r: map<string, map<string, int>>)
    ensures HasField(r, key, field) && FieldAt(r, key, field) == FieldAt(hashes, key, field) + increment
    ensures forall k, f :: k != key || f != field ==>
      HasField(r, k, f) == HasField(hashes, k, f) && FieldAt(r, k, f) == FieldAt(hashes, k, f)
  {
    var hash := if key in hashes then hashes[key] else map[];
    hashes[key := hash[field := FieldAt(hashes, key, field) + increment]]
  }

  /** HDEL: removes one field; a hash left without fields disappears. */
  function DelField(hashes: map<string, map<string, int>>, key: string, field: string)
    : (r: map<string, map<string, int>>)
    ensures !HasField(r, key, field) && FieldAt(r, key, field) == 0
    ensures forall k, f :: k != key || f != field ==>
      HasField(r, k, f) == HasField(hashes, k, f) && FieldAt(r, k, f) == FieldAt(hashes, k, f)
  {
    if key !in hashes then hashes
    else
      var rest := hashes[key] - {field};
      assert forall f :: f != field ==> (f in rest <==> f in hashes[key]);
      if rest == map[] then hashes - {key} else hashes[key := rest]
  }

  /** One PUBLISH call. */
  datatype Publication = Publication(channel: string, post: Post)

  /** The Redis server shared by every instance: stored lists, counter hashes, publications. */
  class Redis {
    var roomLists: map<string, seq<Wire<ChatMessage>>>
    var directLists: map<string, seq<Wire<DirectMessage>>>
    var hashes: map<string, map<string, int>>
    var published: seq<Publication>

    constructor ()
      ensures roomLists == map[] && directLists == map[] && hashes == map[] && published == []
    {
      roomLists, directLists, hashes, published := map[], map[], map[], [];
    }

    method HIncrBy(key: string, field: string, increment: int) returns (next: int)
      modifies this
      ensures hashes == IncrField(old(hashes), key, field, increment)
      ensures next == FieldAt(old(hashes), key, field) + increment
      ensures roomLists == old(roomLists) && directLists == old(directLists) && published == old(published)
    {
      hashes := IncrField(hashes, key, field, increment);
      next := hashes[key][field];
    }

    method HDel(key: string, field: string)
      modifies this
      ensures hashes == DelField(old(hashes), key, field)
      ensures roomLists == old(roomLists) && directLists == old(directLists) && published == old(published)
    {
      hashes := DelField(hashes, key, field);
    }

    method Publish(channel: string, post: Post)
      modifies this
      ensures published == old(published) + [Publication(channel, post)]
      ensures roomLists == old(roomLists) && directLists == old(directLists) && hashes == old(hashes)
    {
      published := published + [Publication(channel, post)];
    }
  }
}
