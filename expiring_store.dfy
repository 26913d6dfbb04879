/** The key-value store behind both fast caches, as the cache code sees it:
    `SET key value EX ttl` and `GET key`, on a clock measured in seconds. */
module ExpiringStore {
  import opened Outcomes

  /** A stored value and the instant from which it is gone. */
  datatype Entry<V> = Entry(value: V, expiresAt: int)

  /** `SET key value EX ttl` issued at time `now`: the key now holds the value
      until `now + ttl`, whatever it held before; no other key changes. */
  function Put<V>(m: map<string, Entry<V>>, key: string, value: V, ttl: nat, now: int)
    : (m': map<string, Entry<V>>)
    ensures m'.Keys == m.Keys + {key}
    ensures m'[key] == Entry(value, now + ttl)
    ensures forall k :: k in m && k != key ==> m'[k] == m[k]
  {
    m[key := Entry(value, now + ttl)]
  }

  /** `GET key` at time `now`: the value while it has not expired, else nil. */
  function Fetch<V>(m: map<string, Entry<V>>, key: string, now: int): (r: Option<V>)
    ensures r.Some? <==> key in m && now < m[key].expiresAt
    ensures r.Some? ==> r.value == m[key].value
  {
    if key in m && now < m[key].expiresAt then Some(m[key].value) else None
  }

  /** Within the time-to-live a read returns what was written; from its end on
      the key reads as missing. */
  lemma FetchAfterPut<V>(m: map<string, Entry<V>>, key: string, value: V, ttl: nat, now: int, later: int)
    requires now <= later
    ensures Fetch(Put(m, key, value, ttl, now), key, later)
            == if later < now + ttl then Some(value) else None
  {
  }

  /** A write to one key is invisible through every other key. */
  lemma FetchOtherKey<V>(m: map<string, Entry<V>>, key: string, value: V, ttl: nat, now: int,
                         other: string, later: int)
    requires other != key
    ensures Fetch(Put(m, key, value, ttl, now), other, later) == Fetch(m, other, later)
  {
  }
}
