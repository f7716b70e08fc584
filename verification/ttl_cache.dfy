/**
 * The key-value store behind the read paths: every entry carries its own
 * expiry instant, and the clock is an explicit argument. An entry is live
 * while the clock has not passed its expiry.
 */
module TtlCache {
  import opened Wrappers

  datatype Entry<V> = Entry(value: V, expiresAt: int)

  /** `get`: the value of a live entry, nothing for a missing or expired one. */
  function Get<K, V>(s: map<K, Entry<V>>, k: K, now: int): (r: Option<V>)
    ensures r.Some? <==> k in s && now <= s[k].expiresAt
    ensures r.Some? ==> r.value == s[k].value
  {
    if k in s && now <= s[k].expiresAt then Some(s[k].value) else None
  }

  /** `set(k, v, ttl)` at instant `now`: the entry lives through `now + ttl`. */
  function Set<K, V>(s: map<K, Entry<V>>, k: K, v: V, ttl: nat, now: int): (s': map<K, Entry<V>>)
    ensures s'.Keys == s.Keys + {k}
    ensures forall k' :: k' in s && k' != k ==> s'[k'] == s[k']
    ensures Get(s', k, now) == Some(v)
  {
    s[k := Entry(v, now + ttl)]
  }

  /** `getMany`: one lookup per key, in key order. */
  function GetMany<K, V>(s: map<K, Entry<V>>, keys: seq<K>, now: int): (r: seq<Option<V>>)
    ensures |r| == |keys|
    ensures forall i :: 0 <= i < |keys| ==> r[i] == Get(s, keys[i], now)
  {
    seq(|keys|, i requires 0 <= i < |keys| => Get(s, keys[i], now))
  }

  /** A value written with a time-to-live is read back until the clock passes `now + ttl`, and not after. */
  lemma SetThenGet<K, V>(s: map<K, Entry<V>>, k: K, v: V, ttl: nat, now: int, later: int)
    requires now <= later
    ensures Get(Set(s, k, v, ttl, now), k, later) == if later <= now + ttl then Some(v) else None
  {
  }

  /** Writing one key leaves every other key's reading unchanged. */
  lemma SetKeepsOthers<K, V>(s: map<K, Entry<V>>, k: K, v: V, ttl: nat, now: int, other: K, later: int)
    requires other != k
    ensures Get(Set(s, k, v, ttl, now), other, later) == Get(s, other, later)
  {
  }
}
