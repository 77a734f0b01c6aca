/** The cache-aside store: a fingerprint of `(text, summary_type, max_words)`
    names an entry of a key/value store whose entries expire, and every store
    error is swallowed (a read error is a miss, a write error returns false). */
module Cache {
  import opened Wrappers
  import opened Text
  import Models

  /** The three request fields the key is derived from. `summaryType` is the
      mode string as the caller passes it, not yet checked against the enum. */
  datatype KeyFields = KeyFields(text: string, summaryType: string, maxWords: Option<int>)

  predicate IsHexDigit(c: char) {
    ('0' <= c <= '9') || ('a' <= c <= 'f')
  }

  /** What `hexdigest()` of an MD5 hash looks like: 32 lower-case hex digits. */
  predicate IsHexDigest(s: string) {
    |s| == 32 && forall i :: 0 <= i < |s| ==> IsHexDigit(s[i])
  }

  function ZeroDigest(fields: KeyFields): string {
    "00000000000000000000000000000000"
  }

  /** The digest of the canonical (key-sorted JSON) form of the fields. The
      serialisation and the hash are not modelled: any function of the fields
      whose every value is a hex digest will do. */
  type Md5 = f: KeyFields -> string | forall x :: IsHexDigest(f(x)) witness ZeroDigest

  const KeyPrefix := "summary:"

  /** `_generate_key`: the store key for a request. */
  function GenerateKey(md5: Md5, fields: KeyFields): (k: string)
    ensures |k| == |KeyPrefix| + 32
    ensures StartsWith(k, KeyPrefix)
    ensures IsHexDigest(k[|KeyPrefix|..])
  {
    assert (KeyPrefix + md5(fields))[|KeyPrefix|..] == md5(fields);
    KeyPrefix + md5(fields)
  }

  /** Equal fields give equal keys, and keys are equal exactly when the digests
      are (the prefix is shared). */
  lemma KeyDeterminedByDigest(md5: Md5, a: KeyFields, b: KeyFields)
    ensures GenerateKey(md5, a) == GenerateKey(md5, b) <==> md5(a) == md5(b)
  {
    if GenerateKey(md5, a) == GenerateKey(md5, b) {
      assert GenerateKey(md5, a)[|KeyPrefix|..] == md5(a);
      assert GenerateKey(md5, b)[|KeyPrefix|..] == md5(b);
    }
  }

  /** A stored summary and the (integer) time at which it expires. */
  datatype Entry = Entry(value: Models.SummarizeResponse, expiry: int)

  /** The backing store: its entries, and whether every call to it currently
      raises (connection refused, timeout, ...). */
  datatype Store = Store(entries: map<string, Entry>, failing: bool)

  /** The cache's configuration: the digest and `CACHE_TTL` in seconds. */
  datatype CacheConfig = CacheConfig(md5: Md5, ttl: int)

  /** An entry is visible while the clock is before its expiry. */
  predicate Live(store: Store, key: string, now: int) {
    key in store.entries && now < store.entries[key].expiry
  }

  /** `CacheService.get`: the live stored summary for the fields, or nothing
      on a miss, on expiry, or when the store raises. */
  function Get(cfg: CacheConfig, store: Store, now: int, fields: KeyFields): (r: Option<Models.SummarizeResponse>)
    ensures store.failing ==> r == None
    ensures r.Some? <==> !store.failing && Live(store, GenerateKey(cfg.md5, fields), now)
    ensures r.Some? ==> r.value == store.entries[GenerateKey(cfg.md5, fields)].value
  {
    if store.failing then None
    else
      var key := GenerateKey(cfg.md5, fields);
      if Live(store, key, now) then Some(store.entries[key].value) else None
  }

  /** The new store after a write, and the boolean `set` returns. */
  datatype Written = Written(store: Store, ok: bool)

  /** `CacheService.set`: writes `data` with expiry `now + ttl`, replacing any
      entry under the key. A store error, including the store's refusal of a
      non-positive expiry, returns false and changes nothing. */
  function Set(cfg: CacheConfig, store: Store, now: int, fields: KeyFields, data: Models.SummarizeResponse): (r: Written)
    ensures r.ok <==> !store.failing && cfg.ttl > 0
    ensures !r.ok ==> r.store == store
    ensures r.store.failing == store.failing
    ensures r.ok ==> r.store.entries.Keys == store.entries.Keys + {GenerateKey(cfg.md5, fields)}
    ensures r.ok ==> r.store.entries[GenerateKey(cfg.md5, fields)] == Entry(data, now + cfg.ttl)
    ensures r.store.entries - {GenerateKey(cfg.md5, fields)} == store.entries - {GenerateKey(cfg.md5, fields)}
  {
    if store.failing || cfg.ttl <= 0 then Written(store, false)
    else
      var key := GenerateKey(cfg.md5, fields);
      Written(Store(store.entries[key := Entry(data, now + cfg.ttl)], store.failing), true)
  }

  /** `CacheService.health_check`: false, never an exception, when the ping fails. */
  function HealthCheck(store: Store): (healthy: bool) {
    !store.failing
  }

  /** A successful write is read back until its TTL elapses. */
  lemma GetAfterSet(cfg: CacheConfig, store: Store, setAt: int, now: int, fields: KeyFields, data: Models.SummarizeResponse)
    requires Set(cfg, store, setAt, fields, data).ok
    requires setAt <= now < setAt + cfg.ttl
    ensures Get(cfg, Set(cfg, store, setAt, fields, data).store, now, fields) == Some(data)
  {
  }

  /** Once the TTL has elapsed, the written entry is a miss. */
  lemma GetAfterExpiry(cfg: CacheConfig, store: Store, setAt: int, now: int, fields: KeyFields, data: Models.SummarizeResponse)
    requires Set(cfg, store, setAt, fields, data).ok
    requires now >= setAt + cfg.ttl
    ensures Get(cfg, Set(cfg, store, setAt, fields, data).store, now, fields) == None
  {
  }

  /** Of two writes for the same fields, the later one is what is read. */
  lemma LastWriteWins(cfg: CacheConfig, store: Store, t1: int, t2: int, now: int, fields: KeyFields,
                      d1: Models.SummarizeResponse, d2: Models.SummarizeResponse)
    requires !store.failing && cfg.ttl > 0
    requires t2 <= now < t2 + cfg.ttl
    ensures
      var s1 := Set(cfg, store, t1, fields, d1).store;
      Get(cfg, Set(cfg, s1, t2, fields, d2).store, now, fields) == Some(d2)
  {
  }

  /** A write never changes what is read for fields with a different key. */
  lemma SetLeavesOtherKeys(cfg: CacheConfig, store: Store, setAt: int, now: int, written: KeyFields,
                           other: KeyFields, data: Models.SummarizeResponse)
    requires GenerateKey(cfg.md5, other) != GenerateKey(cfg.md5, written)
    ensures Get(cfg, Set(cfg, store, setAt, written, data).store, now, other) == Get(cfg, store, now, other)
  {
    var k := GenerateKey(cfg.md5, other);
    var w := Set(cfg, store, setAt, written, data).store;
    assert k in w.entries <==> k in store.entries;
    if k in store.entries {
      assert (w.entries - {GenerateKey(cfg.md5, written)})[k] == w.entries[k];
    }
  }

  /** When the health check fails, every read misses and every write returns
      false and leaves the store as it was; when it passes, a write with a
      positive TTL succeeds. */
  lemma HealthCheckAgreesWithStore(cfg: CacheConfig, store: Store, now: int, fields: KeyFields, data: Models.SummarizeResponse)
    ensures !HealthCheck(store) ==> Get(cfg, store, now, fields) == None
    ensures !HealthCheck(store) ==> Set(cfg, store, now, fields, data) == Written(store, false)
    ensures HealthCheck(store) && cfg.ttl > 0 ==> Set(cfg, store, now, fields, data).ok
  {
  }
}
