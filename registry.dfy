/**
 * The ban registry (the `Banishment` table) and its mutation API. Every save
 * runs the save hook and every delete the delete hook, synchronously, on the
 * shared cache.
 */
module Registry {
  import opened Wrappers
  import opened Keys
  import opened TtlCache
  import opened Models

  /** The shared state the gate works on: the cache and the registry rows. */
  datatype World = World(cache: Store, registry: seq<Banishment>)

  predicate IsIpBanOf(b: Banishment, ip: string)
  {
    b.kind == IpAddress && b.condition == ip
  }

  /**
   * At most one IP-ban row per address: `get_or_create` on (ip-address, ip)
   * fails on a registry with two such rows.
   */
  predicate UniqueIpBans(rs: seq<Banishment>)
  {
    forall i, j :: 0 <= i < j < |rs| && rs[i].kind == IpAddress && rs[j].kind == IpAddress ==> rs[i].condition != rs[j].condition
  }

  /** The index of the first IP-ban row for `ip`, if there is one. */
  function FindIpBan(rs: seq<Banishment>, ip: string): (r: Option<nat>)
    ensures r.Some? ==> r.value < |rs| && IsIpBanOf(rs[r.value], ip)
    ensures r.Some? ==> forall i :: 0 <= i < r.value ==> !IsIpBanOf(rs[i], ip)
    ensures r.None? ==> forall i :: 0 <= i < |rs| ==> !IsIpBanOf(rs[i], ip)
  {
    if rs == [] then None
    else if IsIpBanOf(rs[0], ip) then Some(0)
    else match FindIpBan(rs[1..], ip)
      case None => None
      case Some(i) => Some(i + 1)
  }

  /**
   * The abuse path's registry write: find-or-create the IP-ban row for `ip`.
   * An existing row has its count raised by one and is saved; otherwise a new
   * row with count 1 is created. Either way the save hook then sets the ban
   * flag with a TTL of `3600 * count` and clears the abuse counter.
   */
  function RecordAbuse(w: World, ip: string): (r: World)
    requires UniqueIpBans(w.registry)
    ensures UniqueIpBans(r.registry)
    ensures FindIpBan(r.registry, ip).Some?
    ensures
      var j := FindIpBan(r.registry, ip).value;
      match FindIpBan(w.registry, ip)
      case Some(i) =>
        && j == i && |r.registry| == |w.registry|
        && r.registry[j].count == w.registry[i].count + 1
        && forall k :: 0 <= k < |w.registry| && k != i ==> r.registry[k] == w.registry[k]
      case None =>
        r.registry == w.registry + [Banishment(IpAddress, ip, 1)]
    ensures
      var j := FindIpBan(r.registry, ip).value;
      && BanKey(ip) in r.cache && r.cache[BanKey(ip)] == Entry(1, 3600 * r.registry[j].count)
      && AbuseKey(ip) !in r.cache
      && r.cache - {BanKey(ip), AbuseKey(ip)} == w.cache - {BanKey(ip), AbuseKey(ip)}
  {
    match FindIpBan(w.registry, ip)
    case Some(i) =>
      var ban := w.registry[i].(count := w.registry[i].count + 1);
      var rs := w.registry[i := ban];
      assert FindIpBan(rs, ip) == Some(i) by {
        FindIpBanUnchangedElsewhere(w.registry, i, ban, ip);
      }
      World(Settle(w.cache, AfterSave(w.cache, ban)), rs)
    case None =>
      var ban := NewBanishment(IpAddress, ip);
      var rs := w.registry + [ban];
      FindIpBanAppended(w.registry, ban, ip);
      World(Settle(w.cache, AfterSave(w.cache, ban)), rs)
  }

  /** Replacing the first IP-ban row of `ip` by another IP-ban row of `ip` keeps its position. */
  lemma {:induction false} FindIpBanUnchangedElsewhere(rs: seq<Banishment>, i: nat, ban: Banishment, ip: string)
    requires FindIpBan(rs, ip) == Some(i) && IsIpBanOf(ban, ip)
    ensures FindIpBan(rs[i := ban], ip) == Some(i)
  {
    if i > 0 {
      assert rs[i := ban][1..] == rs[1..][i - 1 := ban];
      FindIpBanUnchangedElsewhere(rs[1..], i - 1, ban, ip);
    }
  }

  /** Appending the first IP-ban row of `ip` puts it at the end. */
  lemma {:induction false} FindIpBanAppended(rs: seq<Banishment>, ban: Banishment, ip: string)
    requires FindIpBan(rs, ip).None? && IsIpBanOf(ban, ip)
    ensures FindIpBan(rs + [ban], ip) == Some(|rs|)
  {
    if rs != [] {
      assert (rs + [ban])[1..] == rs[1..] + [ban];
      FindIpBanAppended(rs[1..], ban, ip);
    }
  }

  /** `Banishment.objects`: the rows, and the cache its hooks write to. */
  class Table {
    const cache: Cache
    var records: seq<Banishment>

    constructor (cache: Cache, records: seq<Banishment>)
      ensures this.cache == cache && this.records == records
    {
      this.cache := cache;
      this.records := records;
    }

    /** Insert a row, then run the save hook; the row stays even when the hook fails. */
    method Create(b: Banishment) returns (err: Option<HookError>)
      modifies this, cache
      ensures records == old(records) + [b]
      ensures cache.entries == Settle(old(cache.entries), AfterSave(old(cache.entries), b))
      ensures err == ErrorOf(AfterSave(old(cache.entries), b))
    {
      records := records + [b];
      err := UpdateCache(cache, b);
    }

    /** Update row `i` to `b`, then run the save hook. */
    method Save(i: nat, b: Banishment) returns (err: Option<HookError>)
      requires i < |records|
      modifies this, cache
      ensures records == old(records)[i := b]
      ensures cache.entries == Settle(old(cache.entries), AfterSave(old(cache.entries), b))
      ensures err == ErrorOf(AfterSave(old(cache.entries), b))
    {
      records := records[i := b];
      err := UpdateCache(cache, b);
    }

    /**
     * Remove row `i` and run the delete hook on it. The hook runs inside the
     * deleting transaction, so when it fails the deletion is rolled back and
     * the row stays.
     */
    method Delete(i: nat) returns (err: Option<HookError>)
      requires i < |records|
      modifies this, cache
      ensures err.None? ==> records == old(records)[..i] + old(records)[i + 1..]
      ensures err.Some? ==> records == old(records)
      ensures cache.entries == Settle(old(cache.entries), AfterDelete(old(cache.entries), old(records)[i]))
      ensures err == ErrorOf(AfterDelete(old(cache.entries), old(records)[i]))
    {
      var b := records[i];
      err := DeleteCache(cache, b);
      if err.None? {
        records := records[..i] + records[i + 1..];
      }
    }

    /**
     * `get_or_create(kind="ip-address", condition=ip)`: the index of the
     * existing row, or of a freshly created one with count 1 (whose creation
     * runs the save hook).
     */
    method GetOrCreateIpBan(ip: string) returns (i: nat, created: bool)
      requires UniqueIpBans(records)
      modifies this, cache
      ensures created <==> FindIpBan(old(records), ip).None?
      ensures !created ==> Some(i) == FindIpBan(old(records), ip) && records == old(records)
      ensures !created ==> cache.entries == old(cache.entries)
      ensures created ==> i == |old(records)| && records == old(records) + [NewBanishment(IpAddress, ip)]
      ensures created ==> cache.entries == AfterSave(old(cache.entries), NewBanishment(IpAddress, ip)).value
      ensures i < |records| && IsIpBanOf(records[i], ip) && UniqueIpBans(records)
    {
      var found := FindIpBan(records, ip);
      if found.Some? {
        i, created := found.value, false;
      } else {
        FindIpBanAppended(records, NewBanishment(IpAddress, ip), ip);
        var err := Create(NewBanishment(IpAddress, ip));
        i, created := |records| - 1, true;
      }
    }
  }
}
