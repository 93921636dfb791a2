/**
 * The request gate: configuration, client address extraction, the flag
 * lookups, the abuse counter, the per-request decision and startup priming.
 * Each operation that changes state is given first as a function on `World`
 * and then as a method of `BanishMiddleware` proved equal to it.
 */
module Middleware {
  import opened Wrappers
  import opened Keys
  import opened TtlCache
  import opened Models
  import opened Registry

  /** The settings read once at construction. */
  datatype Config = Config(abuseThreshold: int, useXForwardedFor: bool, protectedPath: seq<string>, message: string)

  /** The gate's settings as found in the project settings; `None` where a setting is not given. */
  datatype Settings = Settings(
    abuseThreshold: Option<int>, useXForwardedFor: Option<bool>,
    protectedPath: Option<seq<string>>, message: Option<string>)

  /**
   * The configuration read at construction: each given setting is taken as
   * is, and each missing one falls back to its default (threshold 75,
   * forwarded-for trusted, protected paths `["/admin/login/"]`, message
   * "You are banned.").
   */
  function ReadConfig(s: Settings): (cfg: Config)
    ensures cfg.abuseThreshold == if s.abuseThreshold.Some? then s.abuseThreshold.value else 75
    ensures cfg.useXForwardedFor == if s.useXForwardedFor.Some? then s.useXForwardedFor.value else true
    ensures cfg.protectedPath == if s.protectedPath.Some? then s.protectedPath.value else ["/admin/login/"]
    ensures cfg.message == if s.message.Some? then s.message.value else "You are banned."
  {
    Config(
      match s.abuseThreshold case Some(t) => t case None => 75,
      match s.useXForwardedFor case Some(u) => u case None => true,
      match s.protectedPath case Some(p) => p case None => ["/admin/login/"],
      match s.message case Some(m) => m case None => "You are banned.")
  }

  /**
   * What the gate reads from a request: the connection address, the
   * X-Forwarded-For header if sent, the path and the user agent.
   */
  datatype Request = Request(remoteAddr: string, forwardedFor: Option<string>, path: string, userAgent: string)

  /** Pass the request on to the application, or answer it with 403. */
  datatype Decision = Pass | Reject

  /** The characters Python's `str.strip()` removes. */
  predicate IsSpace(c: char)
  {
    var n := c as int;
    (9 <= n <= 13) || (28 <= n <= 32) || n == 0x85 || n == 0xA0 || n == 0x1680
    || (0x2000 <= n <= 0x200A) || n == 0x2028 || n == 0x2029 || n == 0x202F
    || n == 0x205F || n == 0x3000
  }

  /** Every character of `s` from index `lo` up to (not including) `hi` is whitespace. */
  predicate SpacesBetween(s: string, lo: int, hi: int)
  {
    forall k :: lo <= k < hi && 0 <= k < |s| ==> IsSpace(s[k])
  }

  /** The end of the run of whitespace that starts at index `lo` of `s`. */
  function SpacesFrom(s: string, lo: nat): (hi: nat)
    requires lo <= |s|
    ensures lo <= hi <= |s| && SpacesBetween(s, lo, hi)
    ensures hi < |s| ==> !IsSpace(s[hi])
    decreases |s| - lo
  {
    if lo < |s| && IsSpace(s[lo]) then SpacesFrom(s, lo + 1) else lo
  }

  /** The start of the run of whitespace that ends at index `hi` of `s`, going back no further than `lo`. */
  function SpacesBefore(s: string, lo: nat, hi: nat): (start: nat)
    requires lo <= hi <= |s|
    ensures lo <= start <= hi && SpacesBetween(s, start, hi)
    ensures lo < start ==> !IsSpace(s[start - 1])
  {
    if lo < hi && IsSpace(s[hi - 1]) then SpacesBefore(s, lo, hi - 1) else hi
  }

  /**
   * `s.strip()`: the slice of `s` left once the whitespace at both ends is
   * removed. Only whitespace surrounds it, and it neither starts nor ends
   * with whitespace.
   */
  function Strip(s: string): (r: string)
    ensures var i := SpacesFrom(s, 0);
      && i + |r| <= |s| && r == s[i..i + |r|]
      && SpacesBetween(s, 0, i) && SpacesBetween(s, i + |r|, |s|)
    ensures r != [] ==> !IsSpace(r[0]) && !IsSpace(r[|r| - 1])
  {
    var i := SpacesFrom(s, 0);
    s[i..SpacesBefore(s, i, |s|)]
  }

  /** Stripping introduces no character: whatever is in the result was in the text. */
  lemma StripKeepsOnlyCharactersOf(s: string, c: char)
    ensures c in Strip(s) ==> c in s
  {
    var r := Strip(s);
    var i := SpacesFrom(s, 0);
    if c in r {
      var j :| 0 <= j < |r| && r[j] == c;
      assert s[i + j] == c;
    }
  }

  /** `s.partition(',')[0]`: the text before the first comma, or all of `s` when it has none. */
  function BeforeFirstComma(s: string): (r: string)
    ensures ',' !in r
    ensures r <= s
    ensures |r| < |s| ==> s[|r|] == ','
  {
    if s == [] || s[0] == ',' then [] else [s[0]] + BeforeFirstComma(s[1..])
  }

  /**
   * `_get_ip`: with X-Forwarded-For trusted and a non-empty header, the
   * trimmed text before the header's first comma; otherwise the connection
   * address.
   */
  function ClientIp(cfg: Config, req: Request): (ip: string)
    ensures cfg.useXForwardedFor && req.forwardedFor.Some? && req.forwardedFor.value != "" ==>
      && ip == Strip(BeforeFirstComma(req.forwardedFor.value))
      && ',' !in ip
      && (ip != [] ==> !IsSpace(ip[0]) && !IsSpace(ip[|ip| - 1]))
    ensures !(cfg.useXForwardedFor && req.forwardedFor.Some? && req.forwardedFor.value != "") ==>
      ip == req.remoteAddr
  {
    if cfg.useXForwardedFor && req.forwardedFor.Some? && req.forwardedFor.value != "" then
      StripKeepsOnlyCharactersOf(BeforeFirstComma(req.forwardedFor.value), ',');
      Strip(BeforeFirstComma(req.forwardedFor.value))
    else
      req.remoteAddr
  }

  /** Every ban and whitelist flag present in the cache holds 1, the only value ever written to one. */
  ghost predicate FlagsAreOne(c: Store)
  {
    && (forall ip :: BanKey(ip) in c ==> c[BanKey(ip)].value == 1)
    && (forall ip :: WhitelistKey(ip) in c ==> c[WhitelistKey(ip)].value == 1)
  }

  /** `is_banned`: the ban flag of `ip` reads as true. */
  function IsBanned(c: Store, ip: string): (r: bool)
    ensures r ==> BanKey(ip) in c
    ensures FlagsAreOne(c) ==> (r <==> BanKey(ip) in c)
  {
    Truthy(Lookup(c, BanKey(ip)))
  }

  /** `is_whitelisted`: the whitelist flag of `ip` reads as true. */
  function IsWhitelisted(c: Store, ip: string): (r: bool)
    ensures r ==> WhitelistKey(ip) in c
    ensures FlagsAreOne(c) ==> (r <==> WhitelistKey(ip) in c)
  {
    Truthy(Lookup(c, WhitelistKey(ip)))
  }

  /** The abuse counter of `ip` is present and above the threshold. */
  predicate OverLimit(c: Store, ip: string, threshold: int)
  {
    AbuseKey(ip) in c && c[AbuseKey(ip)].value > threshold
  }

  /**
   * `watch_abuse` on a world, returning the new world and whether `ip` is over
   * the limit. `expiredMidway` says whether the counter's TTL lapses between
   * the read and the increment.
   */
  function AbuseStep(w: World, ip: string, threshold: int, expiredMidway: bool): (res: (World, bool))
    requires OverLimit(w.cache, ip, threshold) ==> UniqueIpBans(w.registry)
    ensures UniqueIpBans(w.registry) ==> UniqueIpBans(res.0.registry)
    ensures res.1 <==> OverLimit(w.cache, ip, threshold)
    ensures res.1 ==> res.0 == RecordAbuse(w, ip)
    ensures !res.1 ==>
      res.0.registry == w.registry && res.0.cache - {AbuseKey(ip)} == w.cache - {AbuseKey(ip)}
    ensures AbuseKey(ip) !in w.cache ==>
      AbuseKey(ip) in res.0.cache && res.0.cache[AbuseKey(ip)] == Entry(1, 60)
    ensures AbuseKey(ip) in w.cache && w.cache[AbuseKey(ip)].value <= threshold && !expiredMidway ==>
      var counter := w.cache[AbuseKey(ip)];
      AbuseKey(ip) in res.0.cache && res.0.cache[AbuseKey(ip)] == Entry(counter.value + 1, counter.ttl)
    ensures AbuseKey(ip) in w.cache && w.cache[AbuseKey(ip)].value <= threshold && expiredMidway ==>
      res.0.cache == w.cache - {AbuseKey(ip)}
  {
    var key := AbuseKey(ip);
    match Lookup(w.cache, key)
    case None => (World(w.cache[key := Entry(1, 60)], w.registry), false)
    case Some(count) =>
      if count > threshold then
        (RecordAbuse(w, ip), true)
      else
        var c := if expiredMidway then w.cache - {key} else w.cache;
        var c' := if key in c then c[key := Entry(c[key].value + 1, c[key].ttl)] else c;
        (World(c', w.registry), false)
  }

  /**
   * The request gets past the path, whitelist and ban checks of `__call__`,
   * so `watch_abuse` runs for its client.
   */
  predicate ReachesWatchAbuse(c: Store, cfg: Config, req: Request)
  {
    req.path in cfg.protectedPath && !IsWhitelisted(c, ClientIp(cfg, req)) && !IsBanned(c, ClientIp(cfg, req))
  }

  /**
   * `__call__` on a world: unprotected paths and whitelisted clients pass with
   * nothing changed; a banned client is rejected before the abuse counter is
   * consulted; otherwise the counter runs and the client is rejected when over
   * the limit or when its user agent is banned.
   */
  function GateStep(w: World, cfg: Config, agents: seq<Option<string>>, req: Request, expiredMidway: bool): (res: (World, Decision))
    requires ReachesWatchAbuse(w.cache, cfg, req) && OverLimit(w.cache, ClientIp(cfg, req), cfg.abuseThreshold) ==> UniqueIpBans(w.registry)
    ensures UniqueIpBans(w.registry) ==> UniqueIpBans(res.0.registry)
    ensures req.path !in cfg.protectedPath || IsWhitelisted(w.cache, ClientIp(cfg, req)) ==> res == (w, Pass)
    ensures req.path in cfg.protectedPath && !IsWhitelisted(w.cache, ClientIp(cfg, req)) && IsBanned(w.cache, ClientIp(cfg, req)) ==>
      res == (w, Reject)
    ensures res.0 != w ==>
      req.path in cfg.protectedPath && !IsWhitelisted(w.cache, ClientIp(cfg, req)) && !IsBanned(w.cache, ClientIp(cfg, req))
    ensures res.0.registry != w.registry ==> res.1 == Reject
    ensures req.path in cfg.protectedPath && !IsWhitelisted(w.cache, ClientIp(cfg, req)) && !IsBanned(w.cache, ClientIp(cfg, req)) ==>
      var step := AbuseStep(w, ClientIp(cfg, req), cfg.abuseThreshold, expiredMidway);
      res.0 == step.0 && (res.1 == Reject <==> step.1 || Some(req.userAgent) in agents)
  {
    var ip := ClientIp(cfg, req);
    if req.path !in cfg.protectedPath || IsWhitelisted(w.cache, ip) then (w, Pass)
    else if IsBanned(w.cache, ip) then (w, Reject)
    else
      var step := AbuseStep(w, ip, cfg.abuseThreshold, expiredMidway);
      if step.1 || Some(req.userAgent) in agents then (step.0, Reject) else (step.0, Pass)
  }

  /**
   * One iteration of the priming loop: an IP-ban row sets its ban flag to 1
   * with a TTL of `3600 * count`, a whitelist row its whitelist flag to 1 with
   * a 12-hour TTL; no other key changes, and other rows write nothing.
   */
  function PrimeOne(c: Store, b: Banishment): (r: Store)
    ensures b.kind == IpAddress ==> BanKey(b.condition) in r && r[BanKey(b.condition)] == Entry(1, 3600 * b.count)
    ensures b.kind == IpAddressWhitelist ==> WhitelistKey(b.condition) in r && r[WhitelistKey(b.condition)] == Entry(1, 43200)
    ensures b.kind == IpAddress ==> r - {BanKey(b.condition)} == c - {BanKey(b.condition)}
    ensures b.kind == IpAddressWhitelist ==> r - {WhitelistKey(b.condition)} == c - {WhitelistKey(b.condition)}
    ensures b.kind == UserAgent || b.kind.Other? ==> r == c
  {
    match b.kind
    case IpAddress => c[BanKey(b.condition) := Entry(1, 3600 * b.count)]
    case IpAddressWhitelist => c[WhitelistKey(b.condition) := Entry(1, 3600 * 12)]
    case _ => c
  }

  /** The cache after the priming loop has run over `rs` in order; priming never removes a key. */
  function Primed(c: Store, rs: seq<Banishment>): (r: Store)
    ensures c.Keys <= r.Keys
  {
    if rs == [] then c else PrimeOne(Primed(c, rs[..|rs| - 1]), rs[|rs| - 1])
  }

  /** The user-agent conditions of `rs`, in registry order, as entries of the banned-agent list. */
  function AgentsOf(rs: seq<Banishment>): (r: seq<Option<string>>)
    ensures |r| <= |rs|
    ensures forall a :: a in r <==> exists b :: b in rs && b.kind == UserAgent && a == Some(b.condition)
  {
    if rs == [] then []
    else
      var init := rs[..|rs| - 1];
      var last := rs[|rs| - 1];
      assert rs == init + [last];
      if last.kind == UserAgent then AgentsOf(init) + [Some(last.condition)] else AgentsOf(init)
  }

  class BanishMiddleware {
    const config: Config
    const cache: Cache
    const registry: Table
    var bannedAgents: seq<Option<string>>

    /**
     * `__init__`: the banned-agent list starts as `[None]` and the registry is
     * copied into the cache and the list, row by row.
     */
    constructor (config: Config, cache: Cache, registry: Table)
      requires registry.cache == cache
      modifies cache
      ensures this.config == config && this.cache == cache && this.registry == registry
      ensures cache.entries == Primed(old(cache.entries), registry.records)
      ensures bannedAgents == [None] + AgentsOf(registry.records)
    {
      this.config := config;
      this.cache := cache;
      this.registry := registry;
      bannedAgents := [None];
      new;
      var records := registry.records;
      for i := 0 to |records|
        invariant cache.entries == Primed(old(cache.entries), records[..i])
        invariant bannedAgents == [None] + AgentsOf(records[..i])
      {
        var access := records[i];
        assert records[..i + 1][..i] == records[..i];
        match access.kind {
          case IpAddress =>
            cache.Set(BanKey(access.condition), 1, 3600 * access.count);
          case UserAgent =>
            bannedAgents := bannedAgents + [Some(access.condition)];
          case IpAddressWhitelist =>
            cache.Set(WhitelistKey(access.condition), 1, 3600 * 12);
          case Other(_) =>
        }
      }
      assert records[..|records|] == records;
    }

    /** `watch_abuse`. */
    method WatchAbuse(ip: string, expiredMidway: bool) returns (overLimit: bool)
      requires registry.cache == cache
      requires OverLimit(cache.entries, ip, config.abuseThreshold) ==> UniqueIpBans(registry.records)
      modifies cache, registry
      ensures (World(cache.entries, registry.records), overLimit)
        == AbuseStep(World(old(cache.entries), old(registry.records)), ip, config.abuseThreshold, expiredMidway)
    {
      overLimit := false;
      var key := AbuseKey(ip);
      var abuseCount := cache.Get(key);
      if abuseCount.None? {
        cache.Set(key, 1, 60);
      } else {
        if abuseCount.value > config.abuseThreshold {
          overLimit := true;
          var i, created := registry.GetOrCreateIpBan(ip);
          if !created {
            var ban := registry.records[i];
            var err := registry.Save(i, ban.(count := ban.count + 1));
          }
          return;
        }
        if expiredMidway {
          cache.Delete(key);
        }
        var incremented := cache.Incr(key);
      }
    }

    /** `__call__`. */
    method Call(req: Request, expiredMidway: bool) returns (d: Decision)
      requires registry.cache == cache
      requires ReachesWatchAbuse(cache.entries, config, req) && OverLimit(cache.entries, ClientIp(config, req), config.abuseThreshold) ==>
        UniqueIpBans(registry.records)
      modifies cache, registry
      ensures (World(cache.entries, registry.records), d)
        == GateStep(World(old(cache.entries), old(registry.records)), config, bannedAgents, req, expiredMidway)
    {
      var ip := ClientIp(config, req);
      if req.path !in config.protectedPath {
        return Pass;
      }
      var whitelisted := cache.Get(WhitelistKey(ip));
      if Truthy(whitelisted) {
        return Pass;
      }
      var banned := cache.Get(BanKey(ip));
      if Truthy(banned) {
        return Reject;
      }
      var overLimit := WatchAbuse(ip, expiredMidway);
      if overLimit || Some(req.userAgent) in bannedAgents {
        return Reject;
      }
      return Pass;
    }
  }
}
