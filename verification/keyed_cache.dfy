/** The keyed cache of src/services/cache.service.ts: entries `{data, timestamp,
    hits}` stored as JSON strings under `prefix:md5(JSON.stringify(params))`.
    The store is a finite map from keys to slots; the Redis client calls become
    map updates. */
module KeyedCache {
  import opened Wrappers
  import Seqs

  /** `config.cache.ttl`: seconds of store-side expiry given with every write. */
  const Ttl: nat := 3600

  /** At most this many keys are inspected by `getStats`. */
  const SampleSize: nat := 100

  /** At most this many keys are reported by `getStats`. */
  const TopCount: nat := 10

  predicate IsHexDigit(ch: char) {
    '0' <= ch <= '9' || 'a' <= ch <= 'f'
  }

  /** A lower-case hexadecimal MD5 digest: always 32 characters. */
  type HexDigest = s: string | |s| == 32 && forall i | 0 <= i < |s| :: IsHexDigit(s[i])
    witness "00000000000000000000000000000000"

  /** `generateKey`. `fingerprint` stands for `md5hex(JSON.stringify(params))`,
      which the model does not compute. */
  function GenerateKey<P>(fingerprint: P -> HexDigest, prefix: string, params: P): (key: string)
    ensures |key| == |prefix| + 1 + 32
    ensures InNamespace(key, prefix)
  {
    prefix + ":" + fingerprint(params)
  }

  /** The key starts with the prefix and a colon: what `KEYS prefix:*` selects
      when the prefix holds no glob metacharacters. */
  predicate InNamespace(key: string, prefix: string) {
    |prefix| + 1 <= |key| && key[..|prefix| + 1] == prefix + ":"
  }

  /** Two derived keys are equal exactly when prefix and digest are: the digest
      has a fixed length, so no prefix can absorb part of another key. */
  lemma {:induction false} KeyDeterminesPrefixAndDigest<P>(fingerprint: P -> HexDigest, p: string, a: P, q: string, b: P)
    ensures GenerateKey(fingerprint, p, a) == GenerateKey(fingerprint, q, b)
        <==> p == q && fingerprint(a) == fingerprint(b)
  {
    var k1, k2 := GenerateKey(fingerprint, p, a), GenerateKey(fingerprint, q, b);
    if k1 == k2 {
      assert |p| == |q|;
      assert p == k1[..|p|] == k2[..|q|] == q;
      assert fingerprint(a) == k1[|p| + 1..] == k2[|q| + 1..] == fingerprint(b);
    }
  }

  /** The JSON object `{data, timestamp, hits}`. */
  datatype Entry<V> = Entry(data: V, timestamp: int, hits: int)

  /** A stored string: a parseable entry, or text `JSON.parse` rejects. */
  datatype Content<V> = Parsed(entry: Entry<V>) | Unparseable

  /** A stored string together with its store-side expiry (`EX`) in seconds. */
  datatype Slot<V> = Slot(content: Content<V>, expiry: nat)

  type Store<V> = map<string, Slot<V>>

  /** The value a read returns together with the store it leaves behind. */
  datatype Lookup<V> = Lookup(value: Option<V>, store: Store<V>)

  /** True iff `key` holds a parseable entry. */
  predicate HoldsEntry<V>(store: Store<V>, key: string) {
    key in store && store[key].content.Parsed?
  }

  /** `get`: a hit returns the entry's data and writes the entry back with one
      more hit and a fresh expiry; an unparseable value is deleted and reads as a
      miss; an absent key reads as a miss and changes nothing. */
  function Get<P, V>(store: Store<V>, fingerprint: P -> HexDigest, prefix: string, params: P): (r: Lookup<V>)
    ensures var key := GenerateKey(fingerprint, prefix, params);
      && (r.value.Some? <==> HoldsEntry(store, key))
      && (r.value.Some? ==> r.value.value == store[key].content.entry.data)
      && (key !in store ==> r.store == store)
      && (key in store && store[key].content.Unparseable? ==> r.store == store - {key})
      && (HoldsEntry(store, key) ==>
            var e := store[key].content.entry;
            && r.store.Keys == store.Keys
            && r.store[key] == Slot(Parsed(Entry(e.data, e.timestamp, e.hits + 1)), Ttl))
      && (forall k | k in r.store && k != key :: k in store && r.store[k] == store[k])
  {
    var key := GenerateKey(fingerprint, prefix, params);
    if key !in store then Lookup(None, store)
    else
      match store[key].content
      case Unparseable => Lookup(None, store - {key})
      case Parsed(e) =>
        Lookup(Some(e.data), store[key := Slot(Parsed(Entry(e.data, e.timestamp, e.hits + 1)), Ttl)])
  }

  /** `set`: unconditionally replaces whatever the key held with a fresh entry. */
  function Set<P, V>(store: Store<V>, fingerprint: P -> HexDigest, prefix: string, params: P, data: V, now: int): (r: Store<V>)
    ensures var key := GenerateKey(fingerprint, prefix, params);
      && r.Keys == store.Keys + {key}
      && r[key] == Slot(Parsed(Entry(data, now, 0)), Ttl)
      && (forall k | k in store && k != key :: r[k] == store[k])
  {
    store[GenerateKey(fingerprint, prefix, params) := Slot(Parsed(Entry(data, now, 0)), Ttl)]
  }

  /** `invalidate`: with truthy params, removes exactly the derived key; with
      none, or with falsy ones (`null`, `0`, `""`, `false`), removes every key of
      the namespace. `truthy` is JavaScript's truthiness on parameter values.
      Nothing else changes. */
  function Invalidate<P, V>(store: Store<V>, fingerprint: P -> HexDigest, truthy: P -> bool, prefix: string,
                            params: Option<P>): (r: Store<V>)
    ensures params.Some? && truthy(params.value) ==>
      r.Keys == store.Keys - {GenerateKey(fingerprint, prefix, params.value)}
    ensures !(params.Some? && truthy(params.value)) ==> forall k :: k in r <==> k in store && !InNamespace(k, prefix)
    ensures forall k | k in r :: k in store && r[k] == store[k]
  {
    if params.Some? && truthy(params.value) then store - {GenerateKey(fingerprint, prefix, params.value)}
    else map k | k in store && !InNamespace(k, prefix) :: store[k]
  }

  /** A read right after a write returns the written data and counts one hit. */
  lemma SetThenGet<P, V>(store: Store<V>, fingerprint: P -> HexDigest, prefix: string, params: P, data: V, now: int)
    ensures var written := Set(store, fingerprint, prefix, params, data, now);
      var r := Get(written, fingerprint, prefix, params);
      && r.value == Some(data)
      && r.store == written[GenerateKey(fingerprint, prefix, params) := Slot(Parsed(Entry(data, now, 1)), Ttl)]
  {
  }

  /** Reading twice returns the same data and counts two hits. */
  lemma RepeatedGetCountsHits<P, V>(store: Store<V>, fingerprint: P -> HexDigest, prefix: string, params: P)
    requires HoldsEntry(store, GenerateKey(fingerprint, prefix, params))
    ensures var key := GenerateKey(fingerprint, prefix, params);
      var first := Get(store, fingerprint, prefix, params);
      var second := Get(first.store, fingerprint, prefix, params);
      && second.value == first.value == Some(store[key].content.entry.data)
      && second.store[key].content.entry.hits == store[key].content.entry.hits + 2
      && second.store[key].content.entry.timestamp == store[key].content.entry.timestamp
  {
  }

  /** A write under one namespace is invisible to reads under another. */
  lemma {:induction false} NamespacesAreIsolated<P, V>(store: Store<V>, fingerprint: P -> HexDigest,
                                                       p: string, a: P, data: V, now: int, q: string, b: P)
    requires p != q
    ensures Get(Set(store, fingerprint, p, a, data, now), fingerprint, q, b).value == Get(store, fingerprint, q, b).value
  {
    KeyDeterminesPrefixAndDigest(fingerprint, p, a, q, b);
  }

  /** After a namespace is invalidated every read under it misses. */
  lemma InvalidatedNamespaceMisses<P, V>(store: Store<V>, fingerprint: P -> HexDigest, truthy: P -> bool,
                                         prefix: string, given: Option<P>, params: P)
    requires given.None? || !truthy(given.value)
    ensures Get(Invalidate(store, fingerprint, truthy, prefix, given), fingerprint, prefix, params).value.None?
  {
  }

  // ---------------------------------------------------------------------------
  // getStats
  // ---------------------------------------------------------------------------

  datatype KeyStat = KeyStat(key: string, hits: int)

  /** The report of `getStats`; the memory figure comes from the store's INFO
      text and is not modelled. */
  datatype Stats = Stats(totalKeys: nat, topKeys: seq<KeyStat>)

  function HitsOf(s: KeyStat): real {
    s.hits as real
  }

  /** One `{key, hits}` record per listed key whose value parses, in listing
      order; a listed key the store no longer holds reads as empty and is
      skipped like an unparseable one. */
  function Sample<V>(store: Store<V>, keys: seq<string>): (r: seq<KeyStat>)
    ensures |r| <= |keys|
    ensures forall s | s in r :: s.key in keys && HoldsEntry(store, s.key) && s.hits == store[s.key].content.entry.hits
    ensures forall k | k in keys && HoldsEntry(store, k) :: KeyStat(k, store[k].content.entry.hits) in r
    ensures Seqs.Distinct(keys) ==>
      forall i, j | 0 <= i < j < |r| :: Seqs.FirstIndex(keys, r[i].key) < Seqs.FirstIndex(keys, r[j].key)
    decreases |keys|
  {
    if |keys| == 0 then []
    else
      var first := if HoldsEntry(store, keys[0]) then [KeyStat(keys[0], store[keys[0]].content.entry.hits)] else [];
      first + Sample(store, keys[1..])
  }

  /** The records `getStats` ranks: those of the first `SampleSize` listed keys. */
  function Sampled<V>(store: Store<V>, listing: seq<string>): seq<KeyStat> {
    Sample(store, Seqs.Take(listing, SampleSize))
  }

  /** `getStats` over `listing`, the store's answer to `KEYS *`: every key once,
      in the store's order. The key count is the store's size; the top list
      holds the ten sampled records with the most hits (all of them when fewer
      were sampled), most hits first. */
  function GetStats<V>(store: Store<V>, listing: seq<string>): (r: Stats)
    requires Seqs.Distinct(listing)
    requires forall k :: k in listing <==> k in store
    ensures r.totalKeys == |store|
    ensures var sampled := Sampled(store, listing);
      && |r.topKeys| == (if |sampled| < TopCount then |sampled| else TopCount)
      && Seqs.SortedDesc(r.topKeys, HitsOf)
      && (forall t | t in r.topKeys :: t in sampled)
      && multiset(r.topKeys) <= multiset(sampled)
      && (forall x, t | x in sampled && t in r.topKeys :: x in r.topKeys || HitsOf(x) <= HitsOf(t))
  {
    var sampled := Sampled(store, listing);
    Seqs.TopOfSortDesc(sampled, HitsOf, TopCount);
    ListingCountsStore(store, listing);
    Stats(|listing|, Seqs.Take(Seqs.SortDesc(sampled, HitsOf), TopCount))
  }

  lemma ListingCountsStore<V>(store: Store<V>, listing: seq<string>)
    requires Seqs.Distinct(listing)
    requires forall k :: k in listing <==> k in store
    ensures |listing| == |store|
  {
    Seqs.DistinctCardinality(listing);
    assert (set k | k in listing) == store.Keys;
  }
}
