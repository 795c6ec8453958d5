/**
 * The part of Redis the services rely on: keys that hold a value and, usually, an expiry time.
 * Times are whole milliseconds on the server clock; a key is there up to and including its expiry time.
 */
module Redis {
  import opened Common

  datatype Expiry = Never | At(ms: int)

  datatype Entry<+V> = Entry(value: V, expiry: Expiry) {
    predicate Alive(now: int) {
      expiry.Never? || now <= expiry.ms
    }
  }

  function Ttl(now: int, seconds: int): Expiry {
    At(now + 1000 * seconds)
  }

  predicate Has<K, V>(keys: map<K, Entry<V>>, k: K, now: int) {
    k in keys && keys[k].Alive(now)
  }

  function Get<K, V>(keys: map<K, Entry<V>>, k: K, now: int): Option<V> {
    if Has(keys, k, now) then Some(keys[k].value) else None
  }

  /** EXPIRE: does nothing to a key that is missing or already expired. */
  function Expire<K, V>(keys: map<K, Entry<V>>, k: K, seconds: int, now: int): map<K, Entry<V>> {
    if Has(keys, k, now) then keys[k := Entry(keys[k].value, Ttl(now, seconds))] else keys
  }

  /** INCR: an absent key counts as 0 and is created without an expiry; a live key keeps its expiry. */
  function Incr<K>(keys: map<K, Entry<int>>, k: K, now: int): map<K, Entry<int>> {
    if Has(keys, k, now) then keys[k := Entry(keys[k].value + 1, keys[k].expiry)]
    else keys[k := Entry(1, Never)]
  }

  /** SADD: an absent key becomes a one-element set without an expiry; a live key keeps its expiry. */
  function SAdd<K, M>(keys: map<K, Entry<set<M>>>, k: K, member: M, now: int): map<K, Entry<set<M>>> {
    if Has(keys, k, now) then keys[k := Entry(keys[k].value + {member}, keys[k].expiry)]
    else keys[k := Entry({member}, Never)]
  }

  /** SREM: a set that becomes empty is deleted together with its key. */
  function SRem<K, M>(keys: map<K, Entry<set<M>>>, k: K, member: M, now: int): map<K, Entry<set<M>>> {
    if !Has(keys, k, now) then keys
    else if keys[k].value - {member} == {} then keys - {k}
    else keys[k := Entry(keys[k].value - {member}, keys[k].expiry)]
  }

  /** SMEMBERS: the empty set for an absent key. */
  function SMembers<K, M>(keys: map<K, Entry<set<M>>>, k: K, now: int): set<M> {
    if Has(keys, k, now) then keys[k].value else {}
  }
}
