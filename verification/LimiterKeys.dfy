/** The Redis keys that checkLimit builds for one request. */
module LimiterKeys {
  import opened Prelude
  import Base64Url

  datatype Scope = User | IP | Room

  /** What a limiter key stands for; a room-wide key has no identity of its own. */
  datatype Owner = Owner(room: Bytes, scope: Scope, identity: Bytes) {
    predicate Proper() { scope.Room? ==> identity == [] }
  }

  function ScopeName(scope: Scope): Bytes {
    match scope
    case User => "user"
    case IP => "ip"
    case Room => "room"
  }

  function Suffix(scope: Scope, identity: Bytes): Bytes {
    match scope
    case User => "}:user:" + identity
    case IP => "}:ip:" + identity
    case Room => "}:room"
  }

  function KeyFor(owner: Owner): Bytes {
    "lim:{" + Base64Url.Encode(owner.room) + Suffix(owner.scope, owner.identity)
  }

  /** Index of the first occurrence of c in s at or after position from; |s| when there is none. */
  function IndexFrom(s: Bytes, c: char, from: nat): (i: nat)
    requires from <= |s|
    ensures from <= i <= |s|
    ensures i < |s| ==> s[i] == c
    ensures forall j :: from <= j < i ==> s[j] != c
    decreases |s| - from
  {
    if from == |s| || s[from] == c then from else IndexFrom(s, c, from + 1)
  }

  /** Reads a key back: the slot ends at the first closing brace. */
  function ReadKey(key: Bytes): Option<Owner> {
    var end := IndexFrom(key, '}', 0);
    if end < 5 then None
    else
      var room := Base64Url.Decode(key[5..end]);
      var rest := key[end..];
      if room.None? then None
      else if "}:user:" <= rest then Some(Owner(room.value, User, rest[7..]))
      else if "}:ip:" <= rest then Some(Owner(room.value, IP, rest[5..]))
      else if rest == "}:room" then Some(Owner(room.value, Room, []))
      else None
  }

  lemma SlotEnd(owner: Owner)
    ensures IndexFrom(KeyFor(owner), '}', 0) == 5 + |Base64Url.Encode(owner.room)|
    ensures IndexFrom(KeyFor(owner), '{', 0) == 4
  {
    var slot := Base64Url.Encode(owner.room);
    var key := KeyFor(owner);
    Base64Url.EncodeAlphabet(owner.room);
    assert forall i :: 5 <= i < 5 + |slot| ==> key[i] == slot[i - 5];
    assert key[5 + |slot|] == '}';
    assert key[0] == 'l' && key[1] == 'i' && key[2] == 'm' && key[3] == ':' && key[4] == '{';
  }

  lemma ReadBack(owner: Owner)
    requires owner.Proper()
    ensures ReadKey(KeyFor(owner)) == Some(owner)
  {
    var slot := Base64Url.Encode(owner.room);
    var key := KeyFor(owner);
    SlotEnd(owner);
    Base64Url.RoundTrip(owner.room);
    var end := 5 + |slot|;
    assert key[5..end] == slot;
    var rest := key[end..];
    assert rest == Suffix(owner.scope, owner.identity);
    match owner.scope
    case User =>
      assert rest[7..] == owner.identity;
    case IP =>
      assert rest[2] == 'i';
      assert rest[5..] == owner.identity;
    case Room =>
      assert rest[2] == 'r';
  }

  /** Distinct owners never share a key, for arbitrary byte strings as room, user and address. */
  lemma KeysSeparate(a: Owner, b: Owner)
    requires a.Proper() && b.Proper()
    ensures KeyFor(a) == KeyFor(b) <==> a == b
  {
    ReadBack(a);
    ReadBack(b);
  }

  /** The part of a key that Redis Cluster hashes. */
  function HashTag(key: Bytes): Bytes {
    var open := IndexFrom(key, '{', 0);
    if open == |key| then key
    else
      var close := IndexFrom(key, '}', open + 1);
      if close == |key| || close == open + 1 then key else key[open + 1..close]
  }

  /** Two keys of one room land on the same hash slot exactly because of the room,
      and this works if and only if the room is not empty. */
  lemma SharedHashTag(a: Owner, b: Owner)
    requires a.Proper() && b.Proper() && a != b && a.room == b.room
    ensures HashTag(KeyFor(a)) == HashTag(KeyFor(b)) <==> a.room != []
    ensures a.room != [] ==> HashTag(KeyFor(a)) == Base64Url.Encode(a.room)
  {
    TagOf(a);
    TagOf(b);
    KeysSeparate(a, b);
    Base64Url.EncodeAlphabet(a.room);
  }

  lemma TagOf(owner: Owner)
    ensures HashTag(KeyFor(owner)) == if owner.room == [] then KeyFor(owner) else Base64Url.Encode(owner.room)
  {
    var slot := Base64Url.Encode(owner.room);
    var key := KeyFor(owner);
    SlotEnd(owner);
    Base64Url.EncodeAlphabet(owner.room);
    var close := IndexFrom(key, '}', 5);
    assert key[5 + |slot|] == '}';
    assert close == 5 + |slot|;
    assert key[5..close] == slot;
  }
}
