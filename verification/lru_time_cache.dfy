/**
 * The time- and capacity-bounded cache both caches of the pipeline are built
 * on (an `LruCache` created with an expiry duration and a capacity).
 * The library's internals are not part of this model; it is abstracted as a
 * map from key to (value, insertion time) with an explicit clock in
 * milliseconds, plus the recency order of the keys (least recently used
 * first). An entry is visible while `now < insertedAt + ttl`; inserting a new
 * key into a full cache evicts the least recently used live key.
 */
module LruTimeCache {
  import opened Errors

  datatype Stamped<V> = Stamped(value: V, insertedAt: nat)

  datatype Cache<K, V> = Cache(entries: map<K, Stamped<V>>, recency: seq<K>, capacity: nat, ttl: nat)

  predicate Distinct<K(==, !new)>(s: seq<K>)
  {
    forall i, j :: 0 <= i < j < |s| ==> s[i] != s[j]
  }

  /** The cache invariant: bounded size, and the recency order lists each stored key once. */
  ghost predicate Valid<K(!new), V>(c: Cache<K, V>)
  {
    && |c.entries| <= c.capacity
    && Distinct(c.recency)
    && (forall k :: k in c.entries <==> k in c.recency)
  }

  /** `k` is stored and has not yet expired at time `now`. */
  predicate Live<K(!new), V>(c: Cache<K, V>, k: K, now: nat)
  {
    k in c.entries && now < c.entries[k].insertedAt + c.ttl
  }

  function Empty<K(!new), V>(capacity: nat, ttl: nat): (c: Cache<K, V>)
    ensures Valid(c) && c.capacity == capacity && c.ttl == ttl
    ensures forall k :: k !in c.entries
  {
    Cache(map[], [], capacity, ttl)
  }

  /** The elements of `s` that belong to `keep`, in their original order. */
  function Filter<K(==, !new)>(s: seq<K>, keep: set<K>): (r: seq<K>)
    ensures forall x :: x in r <==> x in s && x in keep
    ensures Distinct(s) ==> Distinct(r)
    ensures |r| <= |s|
  {
    if s == [] then []
    else
      var rest := Filter(s[1..], keep);
      assert forall x :: x in s[1..] ==> x in s;
      if s[0] in keep then
        assert Distinct(s) ==> s[0] !in s[1..];
        [s[0]] + rest
      else rest
  }

  /** A subset of a finite set is no larger than the set. */
  lemma {:induction false} SubsetCard<K(!new)>(a: set<K>, b: set<K>)
    requires a <= b
    ensures |a| <= |b|
    decreases |b|
  {
    if a != {} {
      var x :| x in a;
      SubsetCard(a - {x}, b - {x});
    }
  }

  /** Drops every entry that has expired at `now`. */
  function Expire<K(!new), V>(c: Cache<K, V>, now: nat): (r: Cache<K, V>)
    requires Valid(c)
    ensures Valid(r) && r.capacity == c.capacity && r.ttl == c.ttl
    ensures forall k :: k in r.entries <==> Live(c, k, now)
    ensures forall k :: k in r.entries ==> k in c.entries && r.entries[k] == c.entries[k]
  {
    var live := map k | k in c.entries && now < c.entries[k].insertedAt + c.ttl :: c.entries[k];
    SubsetCard(live.Keys, c.entries.Keys);
    Cache(live, Filter(c.recency, live.Keys), c.capacity, c.ttl)
  }

  /** Moves `k` to the most recently used end of the order. */
  function Touch<K(==, !new)>(s: seq<K>, k: K): (r: seq<K>)
    ensures forall x :: x in r <==> x in s || x == k
    ensures Distinct(s) ==> Distinct(r)
    ensures |r| > 0 && r[|r| - 1] == k
  {
    var keep := (set x | x in s) - {k};
    var rest := Filter(s, keep);
    rest + [k]
  }

  /**
   * `get`: the stored value if it is live, and the cache with expired entries
   * dropped and `k` made most recently used. A missing or expired key gives
   * `None`, never an error.
   */
  function Get<K(!new), V>(c: Cache<K, V>, k: K, now: nat): (r: (Option<V>, Cache<K, V>))
    requires Valid(c)
    ensures r.0 == if Live(c, k, now) then Some(c.entries[k].value) else None
    ensures Valid(r.1) && r.1.capacity == c.capacity && r.1.ttl == c.ttl
    ensures forall j :: j in r.1.entries <==> Live(c, j, now)
    ensures forall j :: j in r.1.entries ==> j in c.entries && r.1.entries[j] == c.entries[j]
  {
    var e := Expire(c, now);
    if k in e.entries then (Some(e.entries[k].value), e.(recency := Touch(e.recency, k)))
    else (None, e)
  }

  /**
   * `insert`: last write wins for `k`, stamped with `now`. Every other key
   * that survives was live and keeps its value; a live key is dropped only
   * to make room for a new key in a full cache, and then it is the least
   * recently used one.
   */
  function Insert<K(!new), V>(c: Cache<K, V>, k: K, v: V, now: nat): (r: Cache<K, V>)
    requires Valid(c)
    ensures Valid(r) && r.capacity == c.capacity && r.ttl == c.ttl
    ensures c.capacity > 0 ==> k in r.entries && r.entries[k] == Stamped(v, now)
    ensures forall j :: j in r.entries && j != k ==> Live(c, j, now) && r.entries[j] == c.entries[j]
    ensures forall j :: Live(c, j, now) && j != k && j !in r.entries ==>
              !Live(c, k, now) && |Expire(c, now).entries| == c.capacity && j == Expire(c, now).recency[0]
  {
    StoreLive(Expire(c, now), k, v, now)
  }

  /** The insertion proper, on a cache whose expired entries are already gone. */
  function StoreLive<K(!new), V>(e: Cache<K, V>, k: K, v: V, now: nat): (r: Cache<K, V>)
    requires Valid(e)
    ensures Valid(r) && r.capacity == e.capacity && r.ttl == e.ttl
    ensures e.capacity > 0 ==> k in r.entries && r.entries[k] == Stamped(v, now)
    ensures forall j :: j in r.entries && j != k ==> j in e.entries && r.entries[j] == e.entries[j]
    ensures forall j :: j in e.entries && j != k && j !in r.entries ==>
              k !in e.entries && |e.entries| == e.capacity && j == e.recency[0]
  {
    if e.capacity == 0 then
      e
    else if k in e.entries then
      e.(entries := e.entries[k := Stamped(v, now)], recency := Touch(e.recency, k))
    else if |e.entries| < e.capacity then
      assert k !in e.recency;
      e.(entries := e.entries[k := Stamped(v, now)], recency := e.recency + [k])
    else
      Evicting(e, k, v, now)
  }

  /** A new key arriving at a full cache replaces the least recently used key. */
  function Evicting<K(!new), V>(e: Cache<K, V>, k: K, v: V, now: nat): (r: Cache<K, V>)
    requires Valid(e) && e.capacity > 0 && k !in e.entries && |e.entries| == e.capacity
    ensures Valid(r) && r.capacity == e.capacity && r.ttl == e.ttl
    ensures k in r.entries && r.entries[k] == Stamped(v, now)
    ensures |e.recency| > 0
    ensures forall j :: j in r.entries && j != k ==> j in e.entries && r.entries[j] == e.entries[j]
    ensures forall j :: j in e.entries && j !in r.entries ==> j == e.recency[0]
  {
    assert e.entries != map[] by { assert |e.entries| == e.capacity; }
    var someKey :| someKey in e.entries;
    assert someKey in e.recency;
    var victim := e.recency[0];
    var kept := e.entries - {victim};
    assert kept.Keys == e.entries.Keys - {victim};
    assert |kept| == |e.entries| - 1;
    assert forall x :: x in e.recency[1..] ==> x in e.recency;
    assert victim !in e.recency[1..];
    assert k !in e.recency;
    Cache(kept[k := Stamped(v, now)], e.recency[1..] + [k], e.capacity, e.ttl)
  }

  /** A value put into a cache is read back until it expires. */
  lemma PutThenGet<K(!new), V>(c: Cache<K, V>, k: K, v: V, t: nat, t': nat)
    requires Valid(c) && c.capacity > 0
    requires t <= t' < t + c.ttl
    ensures Get(Insert(c, k, v, t), k, t').0 == Some(v)
  {
  }

  /** Once its time to live has passed, a value is no longer visible. */
  lemma GetAfterExpiry<K(!new), V>(c: Cache<K, V>, k: K, v: V, t: nat, t': nat)
    requires Valid(c)
    requires t + c.ttl <= t'
    ensures Get(Insert(c, k, v, t), k, t').0 == None
  {
  }
}
