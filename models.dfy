/**
 * The ban record and the two cache-sync hooks that run after every save and
 * every delete of a record.
 */
module Models {
  import opened Wrappers
  import opened Keys
  import opened TtlCache

  /**
   * The `kind` column. `Other` stands for any value outside the three choices
   * (the column's default is the non-choice 0).
   */
  datatype Kind = IpAddress | UserAgent | IpAddressWhitelist | Other(code: string)

  /** One row of the registry; `count` defaults to 1 and scales the ban TTL. */
  datatype Banishment = Banishment(kind: Kind, condition: string, count: nat)

  /** What the hooks derive from a record: its flag key, its abuse key and its TTL factor in hours. */
  datatype CacheKeys = CacheKeys(cacheKey: string, abuseKey: string, factor: nat)

  /**
   * The failure of a hook on a record that is neither an IP ban nor a
   * whitelist entry: `cache_key` is read before it was ever assigned.
   */
  datatype HookError = CacheKeyUnbound

  /** The record the registry creates when only kind and condition are given. */
  function NewBanishment(kind: Kind, condition: string): (b: Banishment)
    ensures b.kind == kind && b.condition == condition && b.count == 1
  {
    Banishment(kind, condition, 1)
  }

  /**
   * `_generate_cache_key`: whitelist entries use the whitelist key with a
   * factor of 12 hours, IP bans the ban key with their count; every other kind
   * fails. The abuse key is always that of the condition.
   */
  function GenerateCacheKey(b: Banishment): (r: Result<CacheKeys, HookError>)
    ensures r.Ok? <==> b.kind == IpAddress || b.kind == IpAddressWhitelist
    ensures r.Err? ==> r.error == CacheKeyUnbound
    ensures r.Ok? ==> r.value.abuseKey == AbuseKey(b.condition) && r.value.cacheKey != r.value.abuseKey
    ensures b.kind == IpAddress ==> r == Ok(CacheKeys(BanKey(b.condition), AbuseKey(b.condition), b.count))
    ensures b.kind == IpAddressWhitelist ==> r == Ok(CacheKeys(WhitelistKey(b.condition), AbuseKey(b.condition), 12))
  {
    FamiliesDisjoint(b.condition, b.condition);
    match b.kind
    case IpAddressWhitelist => Ok(CacheKeys(WhitelistKey(b.condition), AbuseKey(b.condition), 12))
    case IpAddress => Ok(CacheKeys(BanKey(b.condition), AbuseKey(b.condition), b.count))
    case _ => Err(CacheKeyUnbound)
  }

  /**
   * The cache after `_update_cache` on `b`: the flag key holds 1 with a TTL of
   * `3600 * factor`, the abuse counter of the condition is gone, and no other
   * key changes. Fails, touching nothing, where the key cannot be generated.
   */
  function AfterSave(c: Store, b: Banishment): (r: Result<Store, HookError>)
    ensures r.Err? <==> GenerateCacheKey(b).Err?
    ensures r.Ok? ==>
      var k := GenerateCacheKey(b).value;
      && k.cacheKey in r.value && r.value[k.cacheKey] == Entry(1, 3600 * k.factor)
      && k.abuseKey !in r.value
      && r.value - {k.cacheKey, k.abuseKey} == c - {k.cacheKey, k.abuseKey}
  {
    match GenerateCacheKey(b)
    case Err(e) => Err(e)
    case Ok(k) => Ok(c[k.cacheKey := Entry(1, 3600 * k.factor)] - {k.abuseKey})
  }

  /**
   * The cache after `_delete_cache` on `b`: only the flag key is removed; the
   * abuse counter and every other key keep their entries.
   */
  function AfterDelete(c: Store, b: Banishment): (r: Result<Store, HookError>)
    ensures r.Err? <==> GenerateCacheKey(b).Err?
    ensures r.Ok? ==>
      var k := GenerateCacheKey(b).value;
      && k.cacheKey !in r.value
      && r.value - {k.cacheKey} == c - {k.cacheKey}
      && (k.abuseKey in r.value <==> k.abuseKey in c)
      && (k.abuseKey in c ==> r.value[k.abuseKey] == c[k.abuseKey])
  {
    match GenerateCacheKey(b)
    case Err(e) => Err(e)
    case Ok(k) => Ok(c - {k.cacheKey})
  }

  /** The cache once a hook has run: its result, or the cache untouched when it failed. */
  function Settle(c: Store, r: Result<Store, HookError>): (settled: Store)
  {
    if r.Ok? then r.value else c
  }

  /** The error a hook raised, if any. */
  function ErrorOf(r: Result<Store, HookError>): (err: Option<HookError>)
  {
    if r.Ok? then None else Some(r.error)
  }

  /** `_update_cache`: set the flag key, then delete the abuse counter. */
  method UpdateCache(cache: Cache, b: Banishment) returns (err: Option<HookError>)
    modifies cache
    ensures cache.entries == Settle(old(cache.entries), AfterSave(old(cache.entries), b))
    ensures err == ErrorOf(AfterSave(old(cache.entries), b))
  {
    var keys := GenerateCacheKey(b);
    if keys.Err? {
      return Some(keys.error);
    }
    cache.Set(keys.value.cacheKey, 1, 3600 * keys.value.factor);
    cache.Delete(keys.value.abuseKey);
    err := None;
  }

  /** `_delete_cache`: delete the flag key. */
  method DeleteCache(cache: Cache, b: Banishment) returns (err: Option<HookError>)
    modifies cache
    ensures cache.entries == Settle(old(cache.entries), AfterDelete(old(cache.entries), b))
    ensures err == ErrorOf(AfterDelete(old(cache.entries), b))
  {
    var keys := GenerateCacheKey(b);
    if keys.Err? {
      return Some(keys.error);
    }
    cache.Delete(keys.value.cacheKey);
    err := None;
  }

  /** Running the save hook twice leaves the cache as running it once. */
  lemma SaveIsIdempotent(c: Store, b: Banishment)
    requires AfterSave(c, b).Ok?
    ensures AfterSave(AfterSave(c, b).value, b) == AfterSave(c, b)
  {
    var k := GenerateCacheKey(b).value;
    var once := AfterSave(c, b).value;
    var twice := AfterSave(once, b).value;
    assert twice == once[k.cacheKey := Entry(1, 3600 * k.factor)] - {k.abuseKey};
    assert once[k.cacheKey := Entry(1, 3600 * k.factor)] == once;
    assert once - {k.abuseKey} == once;
  }

  /** Saving then deleting a record leaves neither its flag key nor its abuse counter. */
  lemma SaveThenDeleteClears(c: Store, b: Banishment)
    requires b.kind == IpAddress || b.kind == IpAddressWhitelist
    ensures
      var k := GenerateCacheKey(b).value;
      var after := AfterDelete(AfterSave(c, b).value, b).value;
      k.cacheKey !in after && k.abuseKey !in after
      && after - {k.cacheKey, k.abuseKey} == c - {k.cacheKey, k.abuseKey}
  {
  }

  /** A hook fails exactly on the records that are neither IP bans nor whitelist entries. */
  lemma HooksFailOnOtherKinds(c: Store, b: Banishment)
    ensures AfterSave(c, b).Err? <==> b.kind == UserAgent || b.kind.Other?
    ensures AfterDelete(c, b).Err? <==> b.kind == UserAgent || b.kind.Other?
  {
  }
}
