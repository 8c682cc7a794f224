/** Turn keys: "parent#thread#agent#invoker", the thread prefix they share, and why neither
collides as long as no id contains '#'. */
module TurnKeys {
  predicate IdSafe(id: string) { '#' !in id }

  function TurnKey(parent: string, thread: string, agent: string, invoker: string): string {
    parent + "#" + thread + "#" + agent + "#" + invoker
  }

  function TurnKeyPrefix(parent: string, thread: string): string { parent + "#" + thread + "#" }

  /** Index of the first '#', or the length when there is none. */
  function Hash(s: string): (n: nat)
    ensures n <= |s| && '#' !in s[..n] && (n < |s| ==> s[n] == '#')
  {
    if s == "" then 0 else if s[0] == '#' then 0 else 1 + Hash(s[1..])
  }

  /** The thread prefix of a key, found by cutting it at its first two '#'. */
  function TurnPrefixOf(key: string): string {
    var n := Hash(key);
    if n == |key| then key
    else
      var rest := key[n + 1..];
      var m := Hash(rest);
      if m == |rest| then key else key[..n] + "#" + rest[..m] + "#"
  }

  lemma {:induction false} HashAfterId(id: string, tail: string)
    requires IdSafe(id)
    ensures Hash(id + "#" + tail) == |id|
  {
    var s := id + "#" + tail;
    if id != "" {
      assert s[1..] == id[1..] + "#" + tail;
      HashAfterId(id[1..], tail);
    }
  }

  /** Two strings that start with an id and a '#' agree exactly when both parts agree. */
  lemma CutUnique(id: string, tail: string, id': string, tail': string)
    requires IdSafe(id) && IdSafe(id')
    ensures id + "#" + tail == id' + "#" + tail' <==> id == id' && tail == tail'
  {
    if id + "#" + tail == id' + "#" + tail' {
      HashAfterId(id, tail);
      HashAfterId(id', tail');
      assert id == (id + "#" + tail)[..|id|];
      assert tail == (id + "#" + tail)[|id| + 1..];
      assert tail' == (id' + "#" + tail')[|id'| + 1..];
    }
  }

  lemma PrefixFound(p: string, t: string, tail: string)
    requires IdSafe(p) && IdSafe(t)
    ensures TurnPrefixOf(TurnKeyPrefix(p, t) + tail) == TurnKeyPrefix(p, t)
  {
    var key := TurnKeyPrefix(p, t) + tail;
    assert key == p + "#" + (t + "#" + tail);
    HashAfterId(p, t + "#" + tail);
    assert key[|p| + 1..] == t + "#" + tail;
    HashAfterId(t, tail);
    assert key[..|p|] == p && (t + "#" + tail)[..|t|] == t;
  }

  /** The prefix found in a turn key is the prefix of its own thread. */
  lemma PrefixOfKey(p: string, t: string, a: string, i: string)
    requires IdSafe(p) && IdSafe(t)
    ensures TurnPrefixOf(TurnKey(p, t, a, i)) == TurnKeyPrefix(p, t)
  {
    PrefixFound(p, t, a + "#" + i);
    assert TurnKey(p, t, a, i) == TurnKeyPrefix(p, t) + (a + "#" + i);
  }

  lemma KeysDoNotCollide(p: string, t: string, a: string, i: string, p': string, t': string, a': string, i': string)
    requires IdSafe(p) && IdSafe(t) && IdSafe(a) && IdSafe(p') && IdSafe(t') && IdSafe(a')
    ensures TurnKey(p, t, a, i) == TurnKey(p', t', a', i') <==> p == p' && t == t' && a == a' && i == i'
  {
    assert TurnKey(p, t, a, i) == p + "#" + (t + "#" + (a + "#" + i));
    assert TurnKey(p', t', a', i') == p' + "#" + (t' + "#" + (a' + "#" + i'));
    CutUnique(p, t + "#" + (a + "#" + i), p', t' + "#" + (a' + "#" + i'));
    CutUnique(t, a + "#" + i, t', a' + "#" + i');
    CutUnique(a, i, a', i');
  }

  /** An id with a '#' breaks this: two different turns share one key. */
  lemma HashInIdCollides()
    ensures TurnKey("a#b", "c", "x", "y") == TurnKey("a", "b", "c", "x#y")
  {
    assert TurnKey("a#b", "c", "x", "y") == "a#b#c#x#y";
  }

  lemma PrefixIsPrefix(key: string)
    ensures TurnPrefixOf(key) <= key
  {
    var n := Hash(key);
    if n < |key| {
      var rest := key[n + 1..];
      var m := Hash(rest);
      if m < |rest| {
        assert key[..n] + "#" + rest[..m] + "#" == key[..n + m + 2];
      }
    }
  }

  /** Any key starts with a thread's prefix exactly when the prefix found in it is that one: the
      prefix scan of the in-process map and the per-thread index of Redis agree. */
  lemma PrefixExact(key: string, p: string, t: string)
    requires IdSafe(p) && IdSafe(t)
    ensures TurnKeyPrefix(p, t) <= key <==> TurnPrefixOf(key) == TurnKeyPrefix(p, t)
  {
    PrefixIsPrefix(key);
    if TurnKeyPrefix(p, t) <= key {
      PrefixFound(p, t, key[|TurnKeyPrefix(p, t)|..]);
      assert key == TurnKeyPrefix(p, t) + key[|TurnKeyPrefix(p, t)|..];
    }
  }

  /** The Redis keys of one turn key, and of one thread's index. */
  datatype RedisKey = Slot(key: string) | Park(key: string) | ParkIndex(prefix: string)

  function Text(k: RedisKey): string {
    match k
    case Slot(key) => "orch:turn:" + key
    case Park(key) => "orch:park:" + key
    case ParkIndex(prefix) => "orch:parkidx:" + prefix
  }

  lemma RedisKeysDoNotCollide(k: RedisKey, k': RedisKey)
    ensures Text(k) == Text(k') <==> k == k'
  {
    if Text(k) == Text(k') {
      assert Text(k)[5] == Text(k')[5] && Text(k)[9] == Text(k')[9];
      if !k.ParkIndex? {
        assert k.key == Text(k)[10..] && k'.key == Text(k')[10..];
      } else {
        assert k.prefix == Text(k)[13..] && k'.prefix == Text(k')[13..];
      }
    }
  }
}
