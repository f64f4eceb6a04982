/** The TTL cache of src/services/redis.service.ts: entries `{data, timestamp,
    ttl}` stored under `CACHE_KEY_PREFIX + key`, with a logical expiry check on
    every read. Every operation catches the client's errors: a call that does
    not reach the store degrades to a neutral answer instead of failing.

    The store's own expiry is modelled as well: a slot carries the instant, in
    milliseconds, after which the store no longer has the key. */
module TtlCache {
  import opened Wrappers

  /** The two settings the service reads: the key prefix (`CACHE_KEY_PREFIX`)
      and the default time-to-live in seconds (`REDIS_CACHE_TTL`). */
  datatype Config = Config(keyPrefix: string, defaultTtl: nat)

  /** The JSON object `{data, timestamp, ttl}`; `timestamp` in milliseconds,
      `ttl` in seconds. */
  datatype Entry<V> = Entry(data: V, timestamp: int, ttl: int)

  /** A stored string: an entry, an integer written by `increment`, or text
      `JSON.parse` rejects. */
  datatype Value<V> = Json(entry: Entry<V>) | Counter(count: int) | Unparseable

  /** A stored string and the instant (milliseconds) up to which the store
      keeps it; `None` when the key has no expiry. */
  datatype Slot<V> = Slot(value: Value<V>, deadline: Option<int>)

  type Store<V> = map<string, Slot<V>>

  /** Whether a client call reaches the store; `Down` stands for every error the
      client can raise (connection loss, timeout, a rejected command). */
  datatype Link = Up | Down

  datatype Lookup<V> = Lookup(value: Option<V>, store: Store<V>)

  datatype Count<V> = Count(value: int, store: Store<V>)

  /** The range of the store's integers: INCRBY works on signed 64-bit values
      and refuses an amount or a result outside them. */
  const MinInt64: int := -0x8000_0000_0000_0000
  const MaxInt64: int := 0x7FFF_FFFF_FFFF_FFFF

  predicate InInt64(n: int) {
    MinInt64 <= n <= MaxInt64
  }

  /** The amount `increment` adds when none is given. */
  const DefaultIncrement: int := 1

  /** `getKey`. */
  function StoreKey(cfg: Config, key: string): (k: string)
    ensures HasPrefix(k, cfg.keyPrefix)
    ensures k[|cfg.keyPrefix|..] == key
  {
    cfg.keyPrefix + key
  }

  /** The store still holds `k` at `now`: the key was written and its expiry,
      if any, has not passed. */
  predicate Live<V>(store: Store<V>, k: string, now: int) {
    k in store && (store[k].deadline.None? || now <= store[k].deadline.value)
  }

  /** The store-side deadline of an expiry of `seconds` set at `now`. */
  function Deadline(now: int, seconds: int): int {
    now + seconds * 1000
  }

  /** The logical expiry check: strictly later than `timestamp + ttl` seconds. */
  predicate Expired<V>(e: Entry<V>, now: int) {
    now > e.timestamp + e.ttl * 1000
  }

  /** `get`: returns the data of an unexpired entry; deletes an expired one;
      answers `null` for anything else, including every error. */
  function Get<V>(store: Store<V>, cfg: Config, link: Link, key: string, now: int): (r: Lookup<V>)
    ensures var k := StoreKey(cfg, key);
      && (r.value.Some? <==>
            link.Up? && Live(store, k, now) && store[k].value.Json? && !Expired(store[k].value.entry, now))
      && (r.value.Some? ==> r.value.value == store[k].value.entry.data && r.store == store)
      && (link.Up? && Live(store, k, now) && store[k].value.Json? && Expired(store[k].value.entry, now) ==>
            r.store == store - {k})
      && (!(link.Up? && Live(store, k, now) && store[k].value.Json?) ==> r == Lookup(None, store))
  {
    var k := StoreKey(cfg, key);
    if link.Down? || !Live(store, k, now) then Lookup(None, store)
    else
      match store[k].value
      case Json(e) =>
        if now > e.timestamp + e.ttl * 1000 then Lookup(None, Delete(store, cfg, Up, key))
        else Lookup(Some(e.data), store)
      case Counter(_) => Lookup(None, store)   // a parsed number has no `data` field
      case Unparseable => Lookup(None, store)  // `JSON.parse` throws; caught
  }

  /** The ttl a write uses: the caller's, unless it is missing or zero, in
      which case the configured default. */
  function EffectiveTtl(cfg: Config, ttl: Option<int>): (t: int)
    ensures ttl.Some? && ttl.value != 0 ==> t == ttl.value
    ensures ttl.None? || ttl.value == 0 ==> t == cfg.defaultTtl
  {
    match ttl
    case Some(t) => if t != 0 then t else cfg.defaultTtl
    case None => cfg.defaultTtl
  }

  /** `set`: writes `{data, timestamp: now, ttl}` with a store expiry of the same
      ttl. The store rejects an expiry that is not positive, and that error is
      swallowed like any other. */
  function Set<V>(store: Store<V>, cfg: Config, link: Link, key: string, value: V, ttl: Option<int>, now: int): (r: Store<V>)
    ensures var t := EffectiveTtl(cfg, ttl);
      && (link.Up? && t > 0 ==>
            r == store[StoreKey(cfg, key) := Slot(Json(Entry(value, now, t)), Some(Deadline(now, t)))])
      && (link.Down? || t <= 0 ==> r == store)
  {
    var t := EffectiveTtl(cfg, ttl);
    if link.Down? || t <= 0 then store
    else store[StoreKey(cfg, key) := Slot(Json(Entry(value, now, t)), Some(Deadline(now, t)))]
  }

  /** `delete`: removes the prefixed key; errors are swallowed. */
  function Delete<V>(store: Store<V>, cfg: Config, link: Link, key: string): (r: Store<V>)
    ensures link.Up? ==> r == store - {StoreKey(cfg, key)}
    ensures link.Down? ==> r == store
  {
    if link.Down? then store else store - {StoreKey(cfg, key)}
  }

  /** The key matches the pattern `CACHE_KEY_PREFIX*`. */
  predicate HasPrefix(k: string, prefix: string) {
    |prefix| <= |k| && k[..|prefix|] == prefix
  }

  /** `flush`: removes exactly the keys carrying the prefix; errors are swallowed.
      Keys whose expiry has passed are removed too, which no reader can tell
      apart from the store having dropped them already. */
  function Flush<V>(store: Store<V>, cfg: Config, link: Link): (r: Store<V>)
    ensures link.Up? ==> forall k :: k in r <==> k in store && !HasPrefix(k, cfg.keyPrefix)
    ensures forall k | k in r :: k in store && r[k] == store[k]
    ensures link.Down? ==> r == store
  {
    if link.Down? then store
    else map k | k in store && !HasPrefix(k, cfg.keyPrefix) :: store[k]
  }

  /** `exists`: whether the store holds the key now; false on any error. */
  function Exists<V>(store: Store<V>, cfg: Config, link: Link, key: string, now: int): (b: bool)
    ensures b <==> link.Up? && Live(store, StoreKey(cfg, key), now)
    ensures b ==> Get(store, cfg, link, key, now).value.Some? || !store[StoreKey(cfg, key)].value.Json?
                  || Expired(store[StoreKey(cfg, key)].value.entry, now)
  {
    link.Up? && Live(store, StoreKey(cfg, key), now)
  }

  /** `increment` with its amount `by` defaulting to 1: the store's INCRBY. A key the
      store does not hold counts from zero and gets no expiry; a counter keeps its
      expiry. An amount, a stored count or a sum outside the signed 64-bit range,
      a value that is not a counter, and every other error answer 0 and write
      nothing. */
  function Increment<V>(store: Store<V>, cfg: Config, link: Link, key: string, step: Option<int>, now: int): (r: Count<V>)
    ensures var k := StoreKey(cfg, key);
      var amount := step.GetOr(DefaultIncrement);
      && (link.Down? || !InInt64(amount) ==> r == Count(0, store))
      && (link.Up? && InInt64(amount) && !Live(store, k, now) ==>
            r == Count(amount, store[k := Slot(Counter(amount), None)]))
      && (link.Up? && InInt64(amount) && Live(store, k, now) && store[k].value.Counter? ==>
            var n := store[k].value.count + amount;
            && (InInt64(store[k].value.count) && InInt64(n) ==>
                  r == Count(n, store[k := Slot(Counter(n), store[k].deadline)]))
            && (!(InInt64(store[k].value.count) && InInt64(n)) ==> r == Count(0, store)))
      && (link.Up? && Live(store, k, now) && !store[k].value.Counter? ==> r == Count(0, store))
    ensures r.value != 0 ==> InInt64(r.value)
  {
    var k := StoreKey(cfg, key);
    var amount := step.GetOr(DefaultIncrement);
    if link.Down? || !InInt64(amount) then Count(0, store)
    else if !Live(store, k, now) then Count(amount, store[k := Slot(Counter(amount), None)])
    else
      match store[k].value
      case Counter(n) =>
        if InInt64(n) && InInt64(n + amount) then
          Count(n + amount, store[k := Slot(Counter(n + amount), store[k].deadline)])
        else Count(0, store)   // "increment or decrement would overflow"; caught
      case _ => Count(0, store)
  }

  /** `expire`: gives a key the store holds a new expiry of `seconds` from now; a
      non-positive expiry deletes the key; errors are swallowed. */
  function Expire<V>(store: Store<V>, cfg: Config, link: Link, key: string, seconds: int, now: int): (r: Store<V>)
    ensures var k := StoreKey(cfg, key);
      && (link.Down? || !Live(store, k, now) ==> r == store)
      && (link.Up? && Live(store, k, now) && seconds <= 0 ==> r == store - {k})
      && (link.Up? && Live(store, k, now) && seconds > 0 ==>
            r == store[k := Slot(store[k].value, Some(Deadline(now, seconds)))])
  {
    var k := StoreKey(cfg, key);
    if link.Down? || !Live(store, k, now) then store
    else if seconds <= 0 then store - {k}
    else store[k := Slot(store[k].value, Some(Deadline(now, seconds)))]
  }

  /** A value written and read back no later than its time-to-live after the
      write is returned; at exactly the boundary it is still returned. */
  lemma SetThenGetWithinTtl<V>(store: Store<V>, cfg: Config, key: string, value: V, ttl: Option<int>, now: int, later: int)
    requires EffectiveTtl(cfg, ttl) > 0
    requires later <= now + EffectiveTtl(cfg, ttl) * 1000
    ensures Get(Set(store, cfg, Up, key, value, ttl, now), cfg, Up, key, later).value == Some(value)
  {
  }

  /** Read after its time-to-live, a written value is gone: the store has
      dropped the key, so it no longer exists either. */
  lemma SetThenGetAfterTtl<V>(store: Store<V>, cfg: Config, key: string, value: V, ttl: Option<int>, now: int, later: int)
    requires EffectiveTtl(cfg, ttl) > 0
    requires later > now + EffectiveTtl(cfg, ttl) * 1000
    ensures var written := Set(store, cfg, Up, key, value, ttl, now);
      && Get(written, cfg, Up, key, later).value.None?
      && !Exists(written, cfg, Up, key, later)
  {
  }

  /** A flush hides every value written through the service. */
  lemma FlushThenGetMisses<V>(store: Store<V>, cfg: Config, key: string, now: int)
    ensures Get(Flush(store, cfg, Up), cfg, Up, key, now).value.None?
  {
    assert HasPrefix(StoreKey(cfg, key), cfg.keyPrefix);
  }

  /** A deleted value reads as absent. */
  lemma DeleteThenGetMisses<V>(store: Store<V>, cfg: Config, key: string, now: int)
    ensures Get(Delete(store, cfg, Up, key), cfg, Up, key, now).value.None?
  {
  }

  /** A written key exists until its time-to-live runs out. */
  lemma SetThenExists<V>(store: Store<V>, cfg: Config, key: string, value: V, ttl: Option<int>, now: int, later: int)
    requires EffectiveTtl(cfg, ttl) > 0
    ensures Exists(Set(store, cfg, Up, key, value, ttl, now), cfg, Up, key, later)
        <==> later <= now + EffectiveTtl(cfg, ttl) * 1000
  {
  }

  /** When the store cannot be reached nothing changes and every answer is the
      neutral one: no value, no key, a count of zero. */
  lemma UnreachableStoreIsNeutral<V>(store: Store<V>, cfg: Config, key: string, value: V, ttl: Option<int>,
                                     step: Option<int>, seconds: int, now: int)
    ensures Get(store, cfg, Down, key, now) == Lookup(None, store)
    ensures Set(store, cfg, Down, key, value, ttl, now) == store
    ensures Delete(store, cfg, Down, key) == store
    ensures Flush(store, cfg, Down) == store
    ensures !Exists(store, cfg, Down, key, now)
    ensures Increment(store, cfg, Down, key, step, now) == Count(0, store)
    ensures Expire(store, cfg, Down, key, seconds, now) == store
  {
  }

  /** Until the new store expiry passes, a read answers what the entry's own
      timestamp and ttl say, whatever the old store expiry was. */
  lemma ExpireKeepsLogicalExpiry<V>(store: Store<V>, cfg: Config, key: string, seconds: int, now: int, later: int)
    requires seconds > 0
    requires now <= later <= Deadline(now, seconds)
    ensures var k := StoreKey(cfg, key);
      Get(Expire(store, cfg, Up, key, seconds, now), cfg, Up, key, later).value ==
        if Live(store, k, now) && store[k].value.Json? && !Expired(store[k].value.entry, later)
        then Some(store[k].value.entry.data) else None
  {
  }

  /** Once the new store expiry of a held key has passed the key is gone,
      however long the entry's own ttl still runs. */
  lemma ExpireEvictsAfterDeadline<V>(store: Store<V>, cfg: Config, key: string, seconds: int, now: int, later: int)
    requires Live(store, StoreKey(cfg, key), now)
    requires later > Deadline(now, seconds)
    ensures var expired := Expire(store, cfg, Up, key, seconds, now);
      && Get(expired, cfg, Up, key, later).value.None?
      && !Exists(expired, cfg, Up, key, later)
  {
  }

  /** Successive increments of a key the store does not hold add up while the
      sum stays in range; the default amount is 1. */
  lemma IncrementsAccumulate<V>(store: Store<V>, cfg: Config, key: string, a: int, b: int, now: int)
    requires !Live(store, StoreKey(cfg, key), now)
    requires InInt64(a) && InInt64(b) && InInt64(a + b)
    ensures var first := Increment(store, cfg, Up, key, Some(a), now);
      && first.value == a
      && Increment(first.store, cfg, Up, key, Some(b), now).value == a + b
      && (InInt64(a + 1) ==> Increment(first.store, cfg, Up, key, None, now).value == a + 1)
  {
  }

  /** The largest counter cannot be incremented: the store refuses, the call
      answers 0, and the counter stays as it was. */
  lemma IncrementOverflowAnswersZero<V>(store: Store<V>, cfg: Config, key: string, now: int)
    requires Live(store, StoreKey(cfg, key), now)
    requires store[StoreKey(cfg, key)].value == Counter(MaxInt64)
    ensures Increment(store, cfg, Up, key, None, now) == Count(0, store)
  {
  }
}
