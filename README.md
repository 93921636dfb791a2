# django-banish gate, modelled in Dafny

django-banish is a request gate for Django. For every request it decides
whether the client may reach a protected path. It consults three kinds of
flags in a shared TTL cache: a ban flag per IP, a whitelist flag per IP and
an abuse counter per IP. It also consults an in-memory list of banned user
agents. The `Banishment` table is the durable registry behind the cache.
Every save of a row runs a hook that writes the row's flag into the cache and
clears the row's abuse counter. Every delete runs a hook that removes the flag.
When a client's counter goes above the threshold, the gate records an IP ban
in the registry, and the save hook then bans the client in the cache.

The model has one module per concern:

- `Keys`: the three key prefixes and the keys built from them. The prefixes
  are pairwise unrelated, so keys of different families never collide.
- `TtlCache`: cache entries `(value, ttl)`, the store as a map, and a `Cache`
  class with `Get`, `Set`, `Incr` and `Delete`. Time is not modelled. Each entry
  records the TTL it was written with, and expiry is an explicit removal of the
  key.
- `Models`: the `Banishment` row, `GenerateCacheKey`, and the two hooks. Each
  hook is given as a function on the store (`AfterSave`, `AfterDelete`) and as
  a method on the shared `Cache` (`UpdateCache`, `DeleteCache`). A row of any
  kind other than an IP ban or a whitelist entry makes the hooks fail, because
  `cache_key` is never assigned for it. This is modelled as the error
  `CacheKeyUnbound`.
- `Registry`: the `World` (cache plus rows), the find-or-create of the abuse
  path as a function (`RecordAbuse`), and the class `Table`. Its `Create`,
  `Save` and `Delete` run the hooks synchronously, in place of the
  `post_save`/`post_delete` signals.
- `Middleware`: the configuration read from the settings with its defaults
  (`ReadConfig`: threshold 75, forwarded-for trusted, protected paths
  `["/admin/login/"]`, message "You are banned."), client-address extraction, the flag lookups, and
  `watch_abuse` and `__call__` as functions on `World` (`AbuseStep`,
  `GateStep`). The class `BanishMiddleware` has the startup priming loop and
  the methods `WatchAbuse` and `Call`, each proved equal to its function.
- `GateProperties`: lemmas relating several operations. Priming is
  idempotent and agrees with the save hook. Priming, every request and both
  hooks keep every ban and whitelist flag at 1. With threshold T >= 0, requests 1 to T+1 of an unbroken window pass and
  request T+2 is the first one rejected; with T < 0, request 2 is.

Two places where the model follows what the code does:

- The threshold check is a strict `>` on the counter value read before it is
  incremented. So with threshold T >= 0, the request numbered T+2 is the first one
  rejected, rather than an inclusive reading of the threshold under which it
  would be the T+1st (`GateProperties.FirstRejectionIsRequestTPlus2`).
- The banned-agent list starts with `None`, and the comment "Empty user agent
  is banned by default" at banish/middleware.py:51 says it is meant to ban the
  empty user agent. But the user agent read from the request is always a string, so
  that sentinel never matches anything. An agent is rejected exactly when a
  user-agent row names it (`GateProperties.BannedAgentsAreTheUserAgentRows`).

The environment's nondeterminism enters as parameters. `expiredMidway` says
whether the abuse counter's TTL lapses between the read and the increment in
`watch_abuse`. The configuration is an immutable value given to the
constructor.

## Model

| member | source | states |
|---|---|---|
| `Keys.PrefixesUnrelated` | banish/middleware.py:54-57 | the three prefixes are pairwise distinct and none is a prefix of another |
| `Keys.FamiliesDisjoint` | banish/models.py:22-24 | a ban key, an abuse key and a whitelist key are never equal, whatever their conditions |
| `Keys.KeysInjective` | banish/middleware.py:62-68 | within one family, equal keys mean equal conditions |
| `TtlCache.Cache.Get` | banish/middleware.py:104 | returns the stored value exactly when the key is present |
| `TtlCache.Cache.Set` | banish/middleware.py:107 | overwrites the key with the value and TTL, nothing else changes |
| `TtlCache.Cache.Incr` | banish/middleware.py:120-123 | adds one to a present counter keeping its TTL; fails and changes nothing on an absent key |
| `TtlCache.Cache.Delete` | banish/models.py:90 | removes exactly the key |
| `Models.NewBanishment` | banish/models.py:54 | a new row has count 1 |
| `Models.GenerateCacheKey` | banish/models.py:75-83 | whitelist row gives (whitelist key, abuse key, 12); IP-ban row gives (ban key, abuse key, count); any other kind fails; flag key and abuse key differ |
| `Models.AfterSave` | banish/models.py:86-90 | after the save hook the flag key holds 1 with TTL 3600*factor, the abuse key is absent, every other key is unchanged; fails with nothing written for other kinds |
| `Models.AfterDelete` | banish/models.py:93-95 | after the delete hook only the flag key is gone; the abuse counter and all other keys are unchanged |
| `Models.UpdateCache` | banish/models.py:86-90 | the in-place hook leaves the cache as `AfterSave` says and reports its failure |
| `Models.DeleteCache` | banish/models.py:93-95 | the in-place hook leaves the cache as `AfterDelete` says and reports its failure |
| `Models.SaveIsIdempotent` | banish/models.py:86-90 | running the save hook twice gives the cache of running it once |
| `Models.SaveThenDeleteClears` | banish/models.py:89-95 | save then delete leaves neither the flag key nor the abuse key, other keys as before |
| `Models.HooksFailOnOtherKinds` | banish/models.py:75-83 | both hooks fail exactly on user-agent rows and rows of unknown kind |
| `Registry.FindIpBan` | banish/middleware.py:111-113 | finds the first IP-ban row for the address, or proves there is none |
| `Registry.RecordAbuse` | banish/middleware.py:109-119 | after the abuse ban an IP-ban row for the address exists: the old row with count+1 and no other row changed, or a new row with count 1 appended; ban flag holds 1 with TTL 3600*count; abuse key gone; other keys unchanged; at most one IP-ban row per address still holds |
| `Registry.Table.Create` | banish/models.py:98 | the row is appended and the save hook has run on it |
| `Registry.Table.Save` | banish/models.py:98 | the row is replaced and the save hook has run on it |
| `Registry.Table.Delete` | banish/models.py:93-99 | the delete hook has run on the row; the row is removed when the hook succeeds and kept when it fails, as the deleting transaction rolls back |
| `Registry.Table.GetOrCreateIpBan` | banish/middleware.py:111-113 | returns the existing IP-ban row untouched, or appends one with count 1 and runs the save hook; `created` says which |
| `Middleware.ReadConfig` | banish/middleware.py:40-49 | each setting is the configured value when one is given and otherwise its default: threshold 75, forwarded-for trusted, protected paths `["/admin/login/"]`, message "You are banned." |
| `Middleware.SpacesFrom` | banish/middleware.py:89 | the end of the whitespace run starting at an index: everything in between is whitespace and the next character is not |
| `Middleware.SpacesBefore` | banish/middleware.py:89 | the start of the whitespace run ending at an index, down to a bound: everything in between is whitespace and the character before is not |
| `Middleware.Strip` | banish/middleware.py:89 | a slice of the text, with only whitespace before and after it, that neither starts nor ends with whitespace |
| `Middleware.StripKeepsOnlyCharactersOf` | banish/middleware.py:89 | every character of the stripped text occurs in the text |
| `Middleware.BeforeFirstComma` | banish/middleware.py:89 | the longest prefix without a comma, followed by a comma or by the end of the text |
| `Middleware.ClientIp` | banish/middleware.py:85-90 | with forwarded-for trusted and a non-empty header: the stripped text before the first comma, which has no comma; otherwise the connection address |
| `Middleware.IsBanned` | banish/middleware.py:92-94 | true only when the ban key is present; when flags hold 1, exactly when it is present |
| `Middleware.IsWhitelisted` | banish/middleware.py:96-98 | true only when the whitelist key is present; when flags hold 1, exactly when it is present |
| `Middleware.AbuseStep` | banish/middleware.py:100-125 | over-limit exactly when the counter is present and above the threshold, and then the world is `RecordAbuse`'s; otherwise the registry is unchanged and only the counter moves: set to 1 with TTL 60 when absent, +1 keeping its TTL when present, gone when it expired midway |
| `Middleware.GateStep` | banish/middleware.py:70-83 | unprotected path or whitelisted client: pass, nothing changes; banned client: reject, nothing changes (the counter is not run); otherwise the world is `AbuseStep`'s and the request is rejected exactly when the counter was over the limit or the agent is in the banned list; the registry changes only on a rejection |
| `Middleware.PrimeOne` | banish/middleware.py:60-68 | one row primes the cache: an IP-ban row sets its ban key to 1 with TTL 3600*count, a whitelist row sets its whitelist key to 1 with TTL 43200, any other row writes nothing; no other key changes |
| `Middleware.Primed` | banish/middleware.py:60-68 | priming the rows in order keeps every key already present |
| `Middleware.AgentsOf` | banish/middleware.py:64-65 | the user-agent conditions of the registry, no more and no fewer |
| `Middleware.BanishMiddleware.constructor` | banish/middleware.py:51-68 | the cache is primed row by row and the banned-agent list is `[None]` followed by the user-agent conditions in registry order |
| `Middleware.BanishMiddleware.WatchAbuse` | banish/middleware.py:100-125 | the in-place counter leaves cache, registry and result as `AbuseStep` says |
| `Middleware.BanishMiddleware.Call` | banish/middleware.py:70-83 | the in-place decision leaves cache, registry and decision as `GateStep` says |
| `GateProperties.PrimedIsOverlay` | banish/middleware.py:60-68 | priming overwrites the cache with the registry's writes and keeps every other entry |
| `GateProperties.PrimingIsIdempotent` | banish/middleware.py:60-68 | priming twice from the same registry gives the cache of priming once |
| `GateProperties.PrimedSetsWhitelistFlag` | banish/middleware.py:66-68 | every whitelist row leaves its whitelist key at 1 with TTL 43200 |
| `GateProperties.PrimedSetsBanFlag` | banish/middleware.py:61-63 | with one IP-ban row per address, every IP-ban row leaves its ban key at 1 with TTL 3600*count |
| `GateProperties.PrimingTouchesOnlyRowFlags` | banish/middleware.py:60-68 | a key that is not the ban key of an IP-ban row nor the whitelist key of a whitelist row keeps its entry or its absence; user-agent rows and rows of other kinds write nothing |
| `GateProperties.PrimingLeavesAbuseCounters` | banish/middleware.py:60-68 | priming neither adds, removes nor changes an abuse counter |
| `GateProperties.PrimingKeepsFlagsAreOne` | banish/middleware.py:60-68 | priming writes only flags holding 1 |
| `GateProperties.BannedAgentsAreTheUserAgentRows` | banish/middleware.py:52-65 | a user agent is in the primed list exactly when a user-agent row names it; the `None` sentinel matches no agent |
| `GateProperties.AgentsOfIsFilter` | banish/middleware.py:60-65 | the agent list of two row lists in sequence is the first's followed by the second's, and one row adds its condition exactly when it is a user-agent row: registry order and repetitions are kept |
| `GateProperties.BannedAgentIsRejected` | banish/middleware.py:76-82 | on a protected path, a client neither whitelisted nor banned whose user agent a user-agent row names is rejected whatever its counter |
| `GateProperties.HooksKeepFlagsAreOne` | banish/models.py:86-95 | the save hook and the delete hook keep every ban and whitelist flag at 1 |
| `GateProperties.SaveHookAgreesWithPriming` | banish/models.py:76-90 | the save hook writes the same flag and TTL as priming for the same row, and also clears the abuse counter |
| `GateProperties.GateStepKeepsFlagsAreOne` | banish/middleware.py:70-83 | a request keeps every ban and whitelist flag at 1 |
| `GateProperties.WhitelistedClientPasses` | banish/middleware.py:76-77 | a client with a whitelist flag passes on any path with any ban, counter, registry or agent state, and nothing changes |
| `GateProperties.DeletedBanNoLongerRejects` | banish/models.py:93-95 | after an IP-ban row's delete hook its address is no longer banned in the cache |
| `GateProperties.CountsUpToThreshold` | banish/middleware.py:103-125 | in an unbroken window, requests 1 to T+1 pass and leave the counter at their number with TTL 60 and the registry unchanged |
| `GateProperties.FirstRejectionIsRequestTPlus2` | banish/middleware.py:104-119 | with threshold T >= 0, request T+2 is the first rejected; it leaves an IP-ban row (new with count 1 and TTL 3600 if none existed), the ban flag set and the counter gone; every later request is rejected with nothing changed |
| `GateProperties.FirstRejectionBelowZeroThreshold` | banish/middleware.py:104-119 | with a negative threshold, request 1 passes and request 2 is the first rejected, with the same row, flag and counter effects; every later request is rejected with nothing changed |

## Left out

- The `BANISH_ENABLED` setting and `MiddlewareNotUsed`: a disabled gate is never installed, so the model starts from an installed gate.
- Django's settings object and `getattr`. The settings arrive as a `Settings` value, and `ReadConfig` applies the defaults.
- Rendering the 403 response with `BANISH_MESSAGE`, and `get_response`. The decision is `Pass` or `Reject`, and the message is only carried in `Config`.
- Missing `PATH_INFO`, `HTTP_USER_AGENT` or `REMOTE_ADDR` headers, which raise `KeyError` in the framework. The request carries them as values.
- `logging.info` on a ban.
- `Banishment.is_current`, `__str__`, `get_kind_display` and the `Meta` labels. `is_current` reads fields that are never defined and is never called.
- Signal dispatch. `Table.Create`, `Table.Save` and `Table.Delete` call the hooks directly.
- Django's `get_or_create` raising `MultipleObjectsReturned` on duplicate IP-ban rows. The over-limit path instead requires at most one IP-ban row per address (`Registry.UniqueIpBans`). `GateStep` and `Call` require it only for a request that reaches `watch_abuse` with its counter over the limit.
- The database range of `count` (a small positive integer). It is an unbounded `nat`.
- A `BANISH_PROTECTED_PATH` given as a single string, where `in` would test for a substring. It is a list of paths.
- Real time. TTLs are recorded, never counted down. Expiry is an explicit removal of a key (`Cache.Delete`). Django's special meaning of a zero timeout is not modelled.
- Concurrency between workers. The only race modelled is the counter lapsing between its read and its increment (`expiredMidway`).
