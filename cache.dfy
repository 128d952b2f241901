/**
 * The expiring key/value cache the facade keeps twice (index.js:40-51): every entry carries the
 * time it was last set, and an entry older than the cache's timeout is treated as absent.
 * Expiry is lazy: a lookup that meets a stale entry removes it.
 */
module Cache {
  import opened Wrappers

  datatype Stamped<V> = Stamped(value: V, stamp: int)

  /** An entry set at `e.stamp` is still visible at `now`. */
  predicate Fresh<V>(e: Stamped<V>, now: int, ttl: int) {
    now - e.stamp < ttl
  }

  /** What lookups at `now` can see: the unexpired entries, without their stamps. */
  function Live<K(!new), V>(m: map<K, Stamped<V>>, now: int, ttl: int): (live: map<K, V>)
    ensures forall k :: k in live <==> k in m && Fresh(m[k], now, ttl)
    ensures forall k :: k in live ==> live[k] == m[k].value
  {
    map k | k in m && Fresh(m[k], now, ttl) :: m[k].value
  }

  /** `cache.get(key)` at time `now`: the value if the entry is fresh; a stale entry is dropped. */
  function Get<K(!new), V>(m: map<K, Stamped<V>>, key: K, now: int, ttl: int): (r: (Option<V>, map<K, Stamped<V>>))
    ensures r.0 == if key in Live(m, now, ttl) then Some(Live(m, now, ttl)[key]) else None
    ensures r.1 == if r.0.Some? then m else m - {key}
  {
    if key in m && Fresh(m[key], now, ttl) then (Some(m[key].value), m) else (None, m - {key})
  }

  /** Dropping a stale entry changes nothing that lookups can see. */
  lemma GetKeepsLive<K(!new), V>(m: map<K, Stamped<V>>, key: K, now: int, ttl: int)
    ensures Live(Get(m, key, now, ttl).1, now, ttl) == Live(m, now, ttl)
  {
  }

  /** `cache.set(key, value)` at time `now`: overwrites any entry and restarts its age. */
  function Put<K(!new), V>(m: map<K, Stamped<V>>, key: K, value: V, now: int): map<K, Stamped<V>> {
    m[key := Stamped(value, now)]
  }

  /** A value that was set is found again by any lookup less than `ttl` later. */
  lemma {:induction false} PutThenGet<K(!new), V>(m: map<K, Stamped<V>>, key: K, value: V, setAt: int, now: int, ttl: int)
    requires now - setAt < ttl
    ensures Get(Put(m, key, value, setAt), key, now, ttl) == (Some(value), Put(m, key, value, setAt))
  {
  }

  /** Once `ttl` has passed since the last set, a lookup misses and drops the entry. */
  lemma {:induction false} ExpiredGetMisses<K(!new), V>(m: map<K, Stamped<V>>, key: K, now: int, ttl: int)
    requires key in m && now - m[key].stamp >= ttl
    ensures Get(m, key, now, ttl) == (None, m - {key})
    ensures key !in Live(m, now, ttl)
  {
  }
}
