/**
 * The TTL cache (src/services/simpleCache.js) and the colon-joined cache keys that both
 * services build.
 */
module Cache {
  import opened Wrappers
  import opened Text

  /** `cacheKey(prefix, parts)`: `prefix:part0:part1:...`. */
  function Key(prefix: string, parts: seq<string>): string {
    prefix + ":" + Join(parts, ":")
  }

  /**
   * Three-part keys are unambiguous when the first two parts contain no colon: equal keys
   * come from equal parts.
   */
  lemma KeyThreeInjective(prefix: string, a: string, b: string, c: string, a': string, b': string, c': string)
    requires Free(a, ':') && Free(b, ':') && Free(a', ':') && Free(b', ':')
    requires Key(prefix, [a, b, c]) == Key(prefix, [a', b', c'])
    ensures a == a' && b == b' && c == c'
  {
    var j, j' := Join([a, b, c], ":"), Join([a', b', c'], ":");
    JoinThree(a, b, c, ":");
    JoinThree(a', b', c', ":");
    var n := |prefix| + 1;
    assert Key(prefix, [a, b, c]) == (prefix + ":") + j && Key(prefix, [a', b', c']) == (prefix + ":") + j';
    assert j == ((prefix + ":") + j)[n..] == ((prefix + ":") + j')[n..] == j';
    assert j == a + [':'] + (b + ":" + c);
    assert j' == a' + [':'] + (b' + ":" + c');
    SplitAtSeparator(a, b + ":" + c, a', b' + ":" + c', ':');
    SplitAtSeparator(b, c, b', c', ':');
  }

  /** A stored value (`None` is JavaScript's `null`) and its absolute expiry in ms. */
  datatype Entry<V> = Entry(value: Option<V>, expiresAt: int)

  type Store<V> = map<string, Entry<V>>

  /**
   * What `get(key)` returns at clock reading `now` and the store it leaves: a miss and an
   * expired entry both read as `null`, and the expired entry is deleted.
   */
  function Read<V>(store: Store<V>, key: string, now: int): (Option<V>, Store<V>) {
    if key !in store then (None, store)
    else if store[key].expiresAt <= now then (None, store - {key})
    else (store[key].value, store)
  }

  /** The store after `set(key, value, ttlMs)` at clock reading `now`. */
  function Write<V>(store: Store<V>, key: string, value: Option<V>, ttlMs: int, now: int): Store<V> {
    store[key := Entry(value, now + ttlMs)]
  }

  class SimpleCache<V> {
    var store: Store<V>

    constructor ()
      ensures store == map[]
    {
      store := map[];
    }

    /** `get(key)`; `now` is the reading of `Date.now()`. */
    method Get(key: string, now: int) returns (value: Option<V>)
      modifies this
      ensures (value, store) == Read(old(store), key, now)
    {
      if key !in store {
        return None;
      }
      var entry := store[key];
      if entry.expiresAt <= now {
        store := store - {key};
        return None;
      }
      value := entry.value;
    }

    /** `set(key, value, ttlMs)`; `now` is the reading of `Date.now()`. */
    method Set(key: string, value: Option<V>, ttlMs: int, now: int)
      modifies this
      ensures store == Write(old(store), key, value, ttlMs, now)
    {
      store := store[key := Entry(value, now + ttlMs)];
    }
  }

  /** A key that was never set reads as `null` and leaves the store alone. */
  lemma ReadMissing<V>(store: Store<V>, key: string, now: int)
    requires key !in store
    ensures Read(store, key, now) == (None, store)
  {
  }

  /**
   * An entry whose expiry is not after `now` reads as `null` and is evicted, so the
   * store shrinks by exactly one; strictly before expiry the stored value comes back
   * and nothing changes.
   */
  lemma ReadExpiry<V>(store: Store<V>, key: string, now: int)
    requires key in store
    ensures store[key].expiresAt <= now ==>
      var (v, after) := Read(store, key, now);
      v == None && key !in after && after.Keys == store.Keys - {key} && |after| == |store| - 1
    ensures now < store[key].expiresAt ==> Read(store, key, now) == (store[key].value, store)
  {
    if store[key].expiresAt <= now {
      var after := store - {key};
      assert store.Keys == after.Keys + {key};
      assert |store.Keys| == |after.Keys| + 1;
    }
  }

  /** `get` touches only its own key. */
  lemma ReadOtherKeys<V>(store: Store<V>, key: string, now: int, other: string)
    requires other != key
    ensures var after := Read(store, key, now).1;
      (other in after <==> other in store) && (other in store ==> after[other] == store[other])
  {
  }

  /** `set` overwrites its own key and touches no other. */
  lemma WriteOtherKeys<V>(store: Store<V>, key: string, value: Option<V>, ttlMs: int, now: int, other: string)
    requires other != key
    ensures var after := Write(store, key, value, ttlMs, now);
      key in after && after[key] == Entry(value, now + ttlMs)
      && (other in after <==> other in store) && (other in store ==> after[other] == store[other])
  {
  }

  /** A value written at `t` with time-to-live `ttl` reads back until `t + ttl`, and not from then on. */
  lemma WriteThenRead<V>(store: Store<V>, key: string, value: Option<V>, ttlMs: int, t: int, now: int)
    ensures var written := Write(store, key, value, ttlMs, t);
      Read(written, key, now) ==
        if now < t + ttlMs then (value, written) else (None, written - {key})
  {
  }

  /** A live entry holding `null` reads exactly like a key that is not there. */
  lemma StoredNullReadsAsMiss<V>(store: Store<V>, key: string, expiresAt: int, now: int)
    ensures Read(store[key := Entry(None, expiresAt)], key, now).0 == Read(store - {key}, key, now).0
  {
  }

  /** Once an expired entry has been read, the key reads as never set at every later time. */
  lemma ExpiredIsForgotten<V>(store: Store<V>, key: string, now: int, later: int)
    requires key in store && store[key].expiresAt <= now
    ensures var after := Read(store, key, now).1;
      key !in after && Read(after, key, later) == (None, after)
  {
  }
}
