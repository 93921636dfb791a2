/**
 * Properties of the gate that relate several operations: startup priming
 * against the save hook, the flag invariant, and the request sequence that
 * crosses the abuse threshold.
 */
module GateProperties {
  import opened Wrappers
  import opened Keys
  import opened TtlCache
  import opened Models
  import opened Registry
  import opened Middleware

  // ---------------------------------------------------------------- priming

  /** Priming overwrites the cache with the writes of the registry and keeps everything else. */
  lemma {:induction false} PrimedIsOverlay(c: Store, rs: seq<Banishment>)
    ensures Primed(c, rs) == c + Primed(map[], rs)
  {
    if rs != [] {
      var init, last := rs[..|rs| - 1], rs[|rs| - 1];
      PrimedIsOverlay(c, init);
      var writes := Primed(map[], init);
      match last.kind {
        case IpAddress =>
          var k := BanKey(last.condition);
          var e := Entry(1, 3600 * last.count);
          assert (c + writes)[k := e] == c + writes[k := e];
        case IpAddressWhitelist =>
          var k := WhitelistKey(last.condition);
          var e := Entry(1, 3600 * 12);
          assert (c + writes)[k := e] == c + writes[k := e];
        case _ =>
      }
    }
  }

  /** Priming the cache twice from the same registry leaves it as priming once. */
  lemma PrimingIsIdempotent(c: Store, rs: seq<Banishment>)
    ensures Primed(Primed(c, rs), rs) == Primed(c, rs)
  {
    PrimedIsOverlay(c, rs);
    PrimedIsOverlay(Primed(c, rs), rs);
    var writes := Primed(map[], rs);
    assert (c + writes) + writes == c + writes;
  }

  /** Every whitelist row leaves its whitelist flag at 1 with a 12-hour TTL. */
  lemma {:induction false} PrimedSetsWhitelistFlag(c: Store, rs: seq<Banishment>, b: Banishment)
    requires b in rs && b.kind == IpAddressWhitelist
    ensures WhitelistKey(b.condition) in Primed(c, rs)
    ensures Primed(c, rs)[WhitelistKey(b.condition)] == Entry(1, 43200)
  {
    var init, last := rs[..|rs| - 1], rs[|rs| - 1];
    assert rs == init + [last];
    if last.kind == IpAddressWhitelist && last.condition == b.condition {
    } else {
      assert b in init;
      PrimedSetsWhitelistFlag(c, init, b);
      FamiliesDisjoint(last.condition, b.condition);
      KeysInjective(last.condition, b.condition);
    }
  }

  /**
   * With at most one IP-ban row per address, every IP-ban row leaves its ban
   * flag at 1 with a TTL of `3600 * count`.
   */
  lemma {:induction false} PrimedSetsBanFlag(c: Store, rs: seq<Banishment>, b: Banishment)
    requires UniqueIpBans(rs) && b in rs && b.kind == IpAddress
    ensures BanKey(b.condition) in Primed(c, rs)
    ensures Primed(c, rs)[BanKey(b.condition)] == Entry(1, 3600 * b.count)
  {
    var init, last := rs[..|rs| - 1], rs[|rs| - 1];
    assert rs == init + [last];
    if last == b {
    } else {
      var i :| 0 <= i < |rs| && rs[i] == b;
      assert i < |rs| - 1;
      assert b in init;
      assert UniqueIpBans(init) by {
        forall i', j' | 0 <= i' < j' < |init| && init[i'].kind == IpAddress && init[j'].kind == IpAddress
          ensures init[i'].condition != init[j'].condition
        {
          assert init[i'] == rs[i'] && init[j'] == rs[j'];
        }
      }
      PrimedSetsBanFlag(c, init, b);
      FamiliesDisjoint(b.condition, last.condition);
      KeysInjective(last.condition, b.condition);
      if last.kind == IpAddress {
        assert rs[i].condition != rs[|rs| - 1].condition;
      }
    }
  }

  /**
   * Priming changes only the ban keys of IP-ban rows and the whitelist keys
   * of whitelist rows: user-agent rows and rows of any other kind write nothing.
   */
  lemma {:induction false} PrimingTouchesOnlyRowFlags(c: Store, rs: seq<Banishment>, key: string)
    requires forall b :: b in rs && b.kind == IpAddress ==> key != BanKey(b.condition)
    requires forall b :: b in rs && b.kind == IpAddressWhitelist ==> key != WhitelistKey(b.condition)
    ensures key in Primed(c, rs) <==> key in c
    ensures key in c ==> Primed(c, rs)[key] == c[key]
  {
    if rs != [] {
      var init, last := rs[..|rs| - 1], rs[|rs| - 1];
      assert rs == init + [last];
      PrimingTouchesOnlyRowFlags(c, init, key);
    }
  }

  /** Priming never touches an abuse counter. */
  lemma {:induction false} PrimingLeavesAbuseCounters(c: Store, rs: seq<Banishment>, ip: string)
    ensures AbuseKey(ip) in Primed(c, rs) <==> AbuseKey(ip) in c
    ensures AbuseKey(ip) in c ==> Primed(c, rs)[AbuseKey(ip)] == c[AbuseKey(ip)]
  {
    if rs != [] {
      var init, last := rs[..|rs| - 1], rs[|rs| - 1];
      PrimingLeavesAbuseCounters(c, init, ip);
      FamiliesDisjoint(last.condition, ip);
      FamiliesDisjoint(ip, last.condition);
    }
  }

  /** Priming writes only flags holding 1. */
  lemma {:induction false} PrimingKeepsFlagsAreOne(c: Store, rs: seq<Banishment>)
    requires FlagsAreOne(c)
    ensures FlagsAreOne(Primed(c, rs))
  {
    if rs != [] {
      var init, last := rs[..|rs| - 1], rs[|rs| - 1];
      PrimingKeepsFlagsAreOne(c, init);
      var before, after := Primed(c, init), Primed(c, rs);
      forall ip | BanKey(ip) in after
        ensures after[BanKey(ip)].value == 1
      {
        FamiliesDisjoint(ip, last.condition);
      }
      forall ip | WhitelistKey(ip) in after
        ensures after[WhitelistKey(ip)].value == 1
      {
        FamiliesDisjoint(last.condition, ip);
      }
    }
  }

  /**
   * After priming, a user agent is in the banned-agent list exactly when a
   * user-agent row names it: the leading `None` never equals a header value.
   */
  lemma BannedAgentsAreTheUserAgentRows(rs: seq<Banishment>, userAgent: string)
    ensures Some(userAgent) in [None] + AgentsOf(rs) <==>
      exists b :: b in rs && b.kind == UserAgent && b.condition == userAgent
  {
  }

  /**
   * The banned-agent list is the registry filtered to its user-agent rows, in
   * order and with repetitions: the list of a concatenation is the
   * concatenation of the lists, and one row contributes its condition exactly
   * when it is a user-agent row.
   */
  lemma {:induction false} AgentsOfIsFilter(a: seq<Banishment>, b: seq<Banishment>)
    ensures AgentsOf(a + b) == AgentsOf(a) + AgentsOf(b)
    ensures |b| == 1 ==> AgentsOf(b) == if b[0].kind == UserAgent then [Some(b[0].condition)] else []
  {
    if b == [] {
      assert a + b == a;
    } else {
      var init, last := b[..|b| - 1], b[|b| - 1];
      assert (a + b)[..|a + b| - 1] == a + init;
      assert (a + b)[|a + b| - 1] == last;
      AgentsOfIsFilter(a, init);
      if |b| == 1 {
        assert init == [];
      }
    }
  }

  /**
   * The save hook writes the same flag and TTL as startup priming does for
   * the same row, and additionally clears the row's abuse counter.
   */
  lemma SaveHookAgreesWithPriming(c: Store, b: Banishment)
    requires b.kind == IpAddress || b.kind == IpAddressWhitelist
    ensures AfterSave(c, b) == Ok(PrimeOne(c, b) - {AbuseKey(b.condition)})
  {
  }

  // ---------------------------------------------------------------- flags

  /** A request keeps every ban and whitelist flag at 1. */
  lemma GateStepKeepsFlagsAreOne(w: World, cfg: Config, agents: seq<Option<string>>, req: Request, expiredMidway: bool)
    requires ReachesWatchAbuse(w.cache, cfg, req) && OverLimit(w.cache, ClientIp(cfg, req), cfg.abuseThreshold) ==> UniqueIpBans(w.registry)
    requires FlagsAreOne(w.cache)
    ensures FlagsAreOne(GateStep(w, cfg, agents, req, expiredMidway).0.cache)
  {
    var ip := ClientIp(cfg, req);
    var after := GateStep(w, cfg, agents, req, expiredMidway).0.cache;
    forall x | BanKey(x) in after
      ensures after[BanKey(x)].value == 1
    {
      FamiliesDisjoint(x, ip);
      KeysInjective(x, ip);
      if after != w.cache && BanKey(x) != BanKey(ip) {
        assert after - {BanKey(ip), AbuseKey(ip)} == w.cache - {BanKey(ip), AbuseKey(ip)};
        assert BanKey(x) in after - {BanKey(ip), AbuseKey(ip)};
      }
    }
    forall x | WhitelistKey(x) in after
      ensures after[WhitelistKey(x)].value == 1
    {
      FamiliesDisjoint(ip, x);
      if after != w.cache {
        assert after - {BanKey(ip), AbuseKey(ip)} == w.cache - {BanKey(ip), AbuseKey(ip)};
        assert WhitelistKey(x) in after - {BanKey(ip), AbuseKey(ip)};
      }
    }
  }

  /** The save and delete hooks keep every ban and whitelist flag at 1. */
  lemma HooksKeepFlagsAreOne(c: Store, b: Banishment)
    requires FlagsAreOne(c)
    ensures FlagsAreOne(Settle(c, AfterSave(c, b)))
    ensures FlagsAreOne(Settle(c, AfterDelete(c, b)))
  {
    var saved, deleted := Settle(c, AfterSave(c, b)), Settle(c, AfterDelete(c, b));
    forall ip | BanKey(ip) in saved
      ensures saved[BanKey(ip)].value == 1
    {
      FamiliesDisjoint(ip, b.condition);
      FamiliesDisjoint(b.condition, ip);
    }
    forall ip | WhitelistKey(ip) in saved
      ensures saved[WhitelistKey(ip)].value == 1
    {
      FamiliesDisjoint(ip, b.condition);
      FamiliesDisjoint(b.condition, ip);
    }
    forall ip | BanKey(ip) in deleted
      ensures deleted[BanKey(ip)].value == 1
    {
      FamiliesDisjoint(ip, b.condition);
    }
    forall ip | WhitelistKey(ip) in deleted
      ensures deleted[WhitelistKey(ip)].value == 1
    {
      FamiliesDisjoint(b.condition, ip);
    }
  }

  /**
   * On a protected path, a client that is neither whitelisted nor banned is
   * rejected when its user agent is named by a user-agent row of the registry
   * the gate was primed from, whatever its abuse counter says.
   */
  lemma BannedAgentIsRejected(w: World, cfg: Config, rs: seq<Banishment>, req: Request, expiredMidway: bool)
    requires OverLimit(w.cache, ClientIp(cfg, req), cfg.abuseThreshold) ==> UniqueIpBans(w.registry)
    requires req.path in cfg.protectedPath
    requires !IsWhitelisted(w.cache, ClientIp(cfg, req)) && !IsBanned(w.cache, ClientIp(cfg, req))
    requires exists b :: b in rs && b.kind == UserAgent && b.condition == req.userAgent
    ensures GateStep(w, cfg, [None] + AgentsOf(rs), req, expiredMidway).1 == Reject
  {
    BannedAgentsAreTheUserAgentRows(rs, req.userAgent);
  }

  /**
   * A client whose whitelist flag is present passes on every path, whatever
   * its ban flag, abuse counter or user agent, and nothing changes.
   */
  lemma WhitelistedClientPasses(w: World, cfg: Config, agents: seq<Option<string>>, req: Request, expiredMidway: bool)
    requires FlagsAreOne(w.cache)
    requires WhitelistKey(ClientIp(cfg, req)) in w.cache
    ensures GateStep(w, cfg, agents, req, expiredMidway) == (w, Pass)
  {
  }

  /** Once an IP-ban row is deleted, its ban flag no longer rejects that address. */
  lemma DeletedBanNoLongerRejects(c: Store, b: Banishment)
    requires b.kind == IpAddress
    ensures !IsBanned(AfterDelete(c, b).value, b.condition)
  {
  }

  // ---------------------------------------------------------------- threshold

  /**
   * A client that sends to a protected path, is neither whitelisted nor
   * banned, has no abuse counter and an unbanned user agent.
   */
  ghost predicate Quiet(w: World, cfg: Config, agents: seq<Option<string>>, req: Request)
  {
    var ip := ClientIp(cfg, req);
    && UniqueIpBans(w.registry)
    && req.path in cfg.protectedPath
    && !IsWhitelisted(w.cache, ip) && !IsBanned(w.cache, ip)
    && AbuseKey(ip) !in w.cache
    && Some(req.userAgent) !in agents
  }

  /** The world and the decisions after `n` identical requests, with no expiry in between. */
  function Replay(w: World, cfg: Config, agents: seq<Option<string>>, req: Request, n: nat): (res: (World, seq<Decision>))
    requires UniqueIpBans(w.registry)
    ensures UniqueIpBans(res.0.registry) && |res.1| == n
  {
    if n == 0 then (w, [])
    else
      var prev := Replay(w, cfg, agents, req, n - 1);
      var step := GateStep(prev.0, cfg, agents, req, false);
      (step.0, prev.1 + [step.1])
  }

  /** Within the window, requests 1 to T+1 pass and leave the counter at their number. */
  lemma {:induction false} CountsUpToThreshold(w: World, cfg: Config, agents: seq<Option<string>>, req: Request, k: nat)
    requires Quiet(w, cfg, agents, req) && 1 <= k <= cfg.abuseThreshold + 1
    ensures Replay(w, cfg, agents, req, k).0 == World(w.cache[AbuseKey(ClientIp(cfg, req)) := Entry(k, 60)], w.registry)
    ensures forall i :: 0 <= i < k ==> Replay(w, cfg, agents, req, k).1[i] == Pass
  {
    var ip := ClientIp(cfg, req);
    var a := AbuseKey(ip);
    FamiliesDisjoint(ip, ip);
    if k > 1 {
      CountsUpToThreshold(w, cfg, agents, req, k - 1);
      var prev := Replay(w, cfg, agents, req, k - 1).0;
      assert Lookup(prev.cache, WhitelistKey(ip)) == Lookup(w.cache, WhitelistKey(ip));
      assert Lookup(prev.cache, BanKey(ip)) == Lookup(w.cache, BanKey(ip));
      assert w.cache[a := Entry(k - 1, 60)][a := Entry(k, 60)] == w.cache[a := Entry(k, 60)];
    }
  }

  /**
   * With threshold T >= 0 and an unbroken window, requests 1 to T+1 pass and
   * request T+2 is the first rejected (the counter read before incrementing
   * must exceed T). That request leaves an IP-ban row for the client (a new
   * one with count 1 when there was none, whose flag has a one-hour TTL), sets
   * the ban flag, clears the abuse counter, and every later request is
   * rejected on the ban flag without changing anything.
   */
  lemma FirstRejectionIsRequestTPlus2(w: World, cfg: Config, agents: seq<Option<string>>, req: Request, expiredMidway: bool)
    requires Quiet(w, cfg, agents, req) && cfg.abuseThreshold >= 0
    ensures
      var run := Replay(w, cfg, agents, req, cfg.abuseThreshold + 2);
      var ip := ClientIp(cfg, req);
      && (forall i :: 0 <= i <= cfg.abuseThreshold ==> run.1[i] == Pass)
      && run.1[cfg.abuseThreshold + 1] == Reject
      && FindIpBan(run.0.registry, ip).Some?
      && BanKey(ip) in run.0.cache && AbuseKey(ip) !in run.0.cache
      && (FindIpBan(w.registry, ip).None? ==>
            run.0.registry == w.registry + [Banishment(IpAddress, ip, 1)]
            && run.0.cache[BanKey(ip)] == Entry(1, 3600))
      && GateStep(run.0, cfg, agents, req, expiredMidway) == (run.0, Reject)
  {
    var t := cfg.abuseThreshold;
    var ip := ClientIp(cfg, req);
    CountsUpToThreshold(w, cfg, agents, req, t + 1);
    var prev := Replay(w, cfg, agents, req, t + 1);
    FamiliesDisjoint(ip, ip);
    assert Lookup(prev.0.cache, WhitelistKey(ip)) == Lookup(w.cache, WhitelistKey(ip));
    assert Lookup(prev.0.cache, BanKey(ip)) == Lookup(w.cache, BanKey(ip));
    assert prev.0.cache[AbuseKey(ip)] == Entry(t + 1, 60);
    var run := Replay(w, cfg, agents, req, t + 2);
    assert run.0 == RecordAbuse(prev.0, ip);
    assert run.1 == prev.1 + [Reject];
    forall i | 0 <= i <= t
      ensures run.1[i] == Pass
    {
      assert run.1[i] == prev.1[i];
    }
    assert IsBanned(run.0.cache, ip);
    if FindIpBan(w.registry, ip).None? {
      assert run.0.registry == w.registry + [Banishment(IpAddress, ip, 1)];
      FindIpBanAppended(w.registry, Banishment(IpAddress, ip, 1), ip);
    }
  }

  /**
   * With a negative threshold T, any counter exceeds it: request 1 creates
   * the counter and passes, and request 2 is the first rejected, with the
   * same effects as request T+2 has for T >= 0.
   */
  lemma FirstRejectionBelowZeroThreshold(w: World, cfg: Config, agents: seq<Option<string>>, req: Request, expiredMidway: bool)
    requires Quiet(w, cfg, agents, req) && cfg.abuseThreshold < 0
    ensures
      var run := Replay(w, cfg, agents, req, 2);
      var ip := ClientIp(cfg, req);
      && run.1 == [Pass, Reject]
      && FindIpBan(run.0.registry, ip).Some?
      && BanKey(ip) in run.0.cache && AbuseKey(ip) !in run.0.cache
      && (FindIpBan(w.registry, ip).None? ==>
            run.0.registry == w.registry + [Banishment(IpAddress, ip, 1)]
            && run.0.cache[BanKey(ip)] == Entry(1, 3600))
      && GateStep(run.0, cfg, agents, req, expiredMidway) == (run.0, Reject)
  {
    var ip := ClientIp(cfg, req);
    FamiliesDisjoint(ip, ip);
    assert Replay(w, cfg, agents, req, 0) == (w, []);
    assert AbuseStep(w, ip, cfg.abuseThreshold, false) == (World(w.cache[AbuseKey(ip) := Entry(1, 60)], w.registry), false);
    var first := Replay(w, cfg, agents, req, 1);
    assert first.0 == World(w.cache[AbuseKey(ip) := Entry(1, 60)], w.registry);
    assert first.1 == [Pass];
    assert Lookup(first.0.cache, WhitelistKey(ip)) == Lookup(w.cache, WhitelistKey(ip));
    assert Lookup(first.0.cache, BanKey(ip)) == Lookup(w.cache, BanKey(ip));
    var run := Replay(w, cfg, agents, req, 2);
    assert run.0 == RecordAbuse(first.0, ip);
    assert run.1 == [Pass] + [Reject];
    assert IsBanned(run.0.cache, ip);
    if FindIpBan(w.registry, ip).None? {
      assert run.0.registry == w.registry + [Banishment(IpAddress, ip, 1)];
      FindIpBanAppended(w.registry, Banishment(IpAddress, ip, 1), ip);
    }
  }
}
