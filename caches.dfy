/** The result caches _load_data consults before fetching a feed URL: a
    plain key/value store and one whose entries expire.  The wall clock is a
    parameter `now`, an integer count of seconds. */
module Caches {
  import opened Wrappers

  /** _default_expiration_in_seconds: one hour. */
  const DefaultExpirationInSeconds: int := 3600

  /** SimpleResultsCache: entries never expire. */
  class SimpleResultsCache<V> {
    var cache: map<string, V>

    constructor ()
      ensures cache == map[]
    {
      cache := map[];
    }

    /** The stored value, or None for a key never set. */
    method Get(key: string) returns (r: Option<V>)
      ensures r.Some? <==> key in cache
      ensures r.Some? ==> r.value == cache[key]
    {
      if key in cache {
        return Some(cache[key]);
      }
      return None;
    }

    /** Stores `value` under `key`, replacing any earlier value. */
    method Set(key: string, value: V)
      modifies this
      ensures cache == old(cache)[key := value]
    {
      cache := cache[key := value];
    }
  }

  // ---------------------------------------------------------------------
  // TimeBasedResultsCache, specified on values

  /** The two dictionaries of TimeBasedResultsCache: values and the instant
      each one expires. */
  datatype TimedStore<V> = TimedStore(cache: map<string, V>, expiration: map<string, int>)

  /** Every value has an expiry and every expiry a value, as `set` keeps
      them. */
  predicate KeysAgree<V>(s: TimedStore<V>) {
    s.cache.Keys == s.expiration.Keys
  }

  /** `set` at time `now` with a lifetime of `ttl` seconds. */
  function Store<V>(s: TimedStore<V>, key: string, value: V, now: int, ttl: int): (r: TimedStore<V>)
    ensures key in r.cache && r.cache[key] == value
    ensures key in r.expiration && r.expiration[key] == now + ttl
    ensures forall k :: k != key ==> (k in r.cache <==> k in s.cache) && (k in r.expiration <==> k in s.expiration)
    ensures forall k | k != key && k in s.cache :: r.cache[k] == s.cache[k]
    ensures forall k | k != key && k in s.expiration :: r.expiration[k] == s.expiration[k]
    ensures KeysAgree(s) ==> KeysAgree(r)
  {
    TimedStore(s.cache[key := value], s.expiration[key := now + ttl])
  }

  /** `get` at time `now`: the store afterwards and the answer.  A value
      comes back exactly when the key has both a value and an expiry not
      earlier than `now`, and then the store is unchanged; an expired key
      is deleted from both dictionaries and no other key is touched. */
  function Lookup<V>(s: TimedStore<V>, key: string, now: int): (r: (TimedStore<V>, Option<V>))
    ensures r.1.Some? <==> key in s.cache && key in s.expiration && now <= s.expiration[key]
    ensures r.1.Some? ==> r.1.value == s.cache[key] && r.0 == s
    ensures key in s.cache && key in s.expiration && s.expiration[key] < now ==>
              key !in r.0.cache && key !in r.0.expiration
    ensures (key !in s.cache || key !in s.expiration) ==> r.0 == s
    ensures forall k | k != key :: (k in r.0.cache <==> k in s.cache) && (k in r.0.expiration <==> k in s.expiration)
    ensures forall k | k in r.0.cache :: r.0.cache[k] == s.cache[k]
    ensures forall k | k in r.0.expiration :: r.0.expiration[k] == s.expiration[k]
  {
    if key !in s.cache || key !in s.expiration then (s, None)
    else if s.expiration[key] < now then
      (TimedStore(s.cache - {key}, s.expiration - {key}), None)
    else (s, Some(s.cache[key]))
  }

  /** `get` keeps the two dictionaries' keys in step. */
  lemma LookupKeepsKeysAgree<V>(s: TimedStore<V>, key: string, now: int)
    requires KeysAgree(s)
    ensures KeysAgree(Lookup(s, key, now).0)
  {
  }

  /** `set` then `get` at a later instant: the value comes back while no
      more than `ttl` seconds have passed, and never afterwards. */
  lemma StoreThenLookup<V>(s: TimedStore<V>, key: string, value: V, now: int, ttl: int, later: int)
    ensures Lookup(Store(s, key, value, now, ttl), key, later).1 ==
              (if later <= now + ttl then Some(value) else None)
  {
  }

  /** A `set` of one key does not change what `get` answers for another. */
  lemma StoreOtherKey<V>(s: TimedStore<V>, key: string, other: string, value: V, now: int, ttl: int, later: int)
    requires other != key
    ensures Lookup(Store(s, key, value, now, ttl), other, later).1 == Lookup(s, other, later).1
  {
  }

  /** Once `get` has answered None for a key, it keeps answering None at
      every later instant until the key is set again. */
  lemma {:induction false} ExpiredStaysGone<V>(s: TimedStore<V>, key: string, now: int, later: int)
    requires now <= later
    requires Lookup(s, key, now).1.None?
    ensures Lookup(Lookup(s, key, now).0, key, later).1.None?
  {
    var s' := Lookup(s, key, now).0;
    if key in s.cache && key in s.expiration {
      assert key !in s'.cache;
    } else {
      assert s' == s;
    }
  }

  /** TimeBasedResultsCache: the two dictionaries and the lifetime new
      entries get. */
  class TimeBasedResultsCache<V> {
    var cache: map<string, V>
    var cacheExpiration: map<string, int>
    var defaultExpirationInSeconds: int

    /** The state as a value. */
    function State(): TimedStore<V>
      reads this
    {
      TimedStore(cache, cacheExpiration)
    }

    constructor ()
      ensures State() == TimedStore(map[], map[])
      ensures defaultExpirationInSeconds == DefaultExpirationInSeconds
    {
      cache := map[];
      cacheExpiration := map[];
      defaultExpirationInSeconds := DefaultExpirationInSeconds;
    }

    /** `get`: None for a key missing from either dictionary; an expired
        key is deleted from both and None returned; otherwise the value. */
    method Get(key: string, now: int) returns (r: Option<V>)
      modifies this
      ensures (State(), r) == Lookup(old(State()), key, now)
      ensures defaultExpirationInSeconds == old(defaultExpirationInSeconds)
    {
      if key !in cache || key !in cacheExpiration {
        return None;
      }
      if cacheExpiration[key] < now {
        if key in cache {
          cache := cache - {key};
        }
        if key in cacheExpiration {
          cacheExpiration := cacheExpiration - {key};
        }
        return None;
      }
      return Some(cache[key]);
    }

    /** `set`: stores the value and its expiry `now` plus the lifetime. */
    method Set(key: string, value: V, now: int)
      modifies this
      ensures State() == Store(old(State()), key, value, now, defaultExpirationInSeconds)
      ensures defaultExpirationInSeconds == old(defaultExpirationInSeconds)
    {
      cache := cache[key := value];
      cacheExpiration := cacheExpiration[key := now + defaultExpirationInSeconds];
    }
  }
}
