# Verified model of the SaaS framework's stateful core

This Dafny project models the parts of the framework where state, arithmetic and interleaving meet, and
proves what they promise over every input, run or interleaving. Run `dafny verify dfyconfig.toml`.

| files | what they model |
|---|---|
| `CacheProtocol`, `CacheCoherence`, `CacheNecessity` | the version-counter cache as interleaved steps of readers, writers and sessions: its invariant, coherence over all runs, and the exact condition under which a family of cached bodies is coherent |
| `Cache`, `CacheExpiry`, `FeatureFlags`, `Entitlements` | the cache classes with their string keys, what becomes of them when a counter expires, and two families of cached bodies: flag decisions under three counters, entitlements under one |
| `Resolver`, `CatalogSync` | entitlement resolution as a fold against a declared rule; the plan catalog, its validation and its sync into the tables |
| `Metering`, `MeteringConcurrency`, `UsageService` | metering with idempotency ledger and limits: alone, as interleaved transactions with row locks and aborts, and as the service's statements |
| `Proration`, `Invoicing` | money: rounding, chains of mid-period plan changes, drafts, credits carried forward, the invoice lifecycle |
| `Rbac`, `RbacService`, `Fga`, `FgaSync` | roles and the denormalised permission list, the generated relationship model and its meaning, and the tuple sync under outages |
| `Permissions` | the cached permission sets: which operations on roles and memberships the cache hears of |
| `Tokens` | refresh-token rotation, reuse detection, logout and password reset |
| `Subscriptions`, `SubscriptionBilling`, `Webhooks` | the subscription state machine, its agreement with the billing account, and exactly-once webhook ingest over it |
| `RateLimiter`, `Preferences` | the fixed-window limiter and the explicit-stack JSON walk |
| `Wrappers` | the optional value the others share |

Where the code changes state step by step, a class with the same fields does so here, and each method is
proved equal to a function of its old state; the functions carry the lemmas over whole runs, and laws called
`...IsExact` say of each, row by row and field by field and without naming it, what it leaves. The database is
maps of rows; a request is a transaction that commits or rolls back as a unit.

Where the code and its own comments or documentation differ, the model follows the code:

- An organization without an occupying subscription is said to fall back to the default plan's features and
  limits (src/synapse_saas/entitlements/service.py:176-187), but the resolver gives a plan effect only with a
  status; `Entitlements.NoFallback` is the witness and `Entitlements.UnsubscribedHasIff` states what holds.
- A catalog sync is not noticed by cached entitlements until they expire: `Entitlements.CatalogSyncGoesUnnoticed`;
  `Entitlements.CoherentIffCatalogStands` says exactly when cached entitlements stay true.
- Membership changes are said to be visible to the very next request
  (src/synapse_saas/authorization/service.py:308-312); the removal of a member is not: `Permissions.RemovalGoesStale`,
  and `Permissions.CoherentIffNobodyRemoved` and `Permissions.NeverMisleadsIff` for the exact condition.
- A bump is said to leave the new version empty (src/synapse_saas/core/cache.py:78-82); after the counter's
  lifetime it may not: `CacheExpiry.OldVersionComesBack`, and `CacheExpiry.BumpsLeaveNothingIff` for the exact condition.
- Drafting a period is idempotent only while its invoice is a draft: `Invoicing.RedraftIsNoOpIff` and
  `Invoicing.DraftAfterFinalizeChargesTwice`.
- The transition table allows `canceled` to `active`, but no operation takes that step: `Subscriptions.LeftForGood`.
- A custom role may take a system role's key and then hides it: `Rbac.ShadowingGoesThrough` and
  `Rbac.ShadowedKeyIsUnusable`. Because such a
  role can then not be given to anybody, the relationship model still agrees with the roles in every reachable
  state: `RbacService.ModelAgreesWithRoles`.

## Model

| member | source | states |
|---|---|---|
| `CacheProtocol.StepKeeps` | src/synapse_saas/core/cache.py:98-208 | Every step of readers, writers and sessions, in any interleaving and including rollbacks, keeps the invariant, unless sessions are careless: rows behind a body are no older than the versions it is stored under, and for every committed change each key it is news to reads a counter bumped since, or one whose bump is still owed. |
| `CacheProtocol.FlushMovesKey` | src/synapse_saas/core/cache.py:168-176 | A post-commit bump of a counter a key reads makes every token taken before it stale. |
| `CacheProtocol.FlushSettles` | src/synapse_saas/core/cache.py:133-176 | The bump that leaves the debt list lifts its counter past the commit that owed it, so no committed change becomes unsettled. |
| `CacheProtocol.CommitKeeps` | src/synapse_saas/core/cache.py:204-208 | A commit keeps the invariant when, for every key whose value depends on a row it writes, it queued a counter that key reads for the second bump. |
| `CacheProtocol.RollbackKeeps` | src/synapse_saas/core/db.py:296-305 | A rollback keeps the invariant when no body cached from the session's own rows can be hit. |
| `CacheProtocol.StoreKeeps` | src/synapse_saas/core/cache.py:112-117 | Storing under the old version keeps the invariant, whatever was bumped meanwhile. |
| `CacheProtocol.LoadKeeps` | src/synapse_saas/core/cache.py:98-117 | A load one row group at a time keeps the invariant, whatever commits between two of its reads. |
| `CacheProtocol.ReadVersionKeeps` | src/synapse_saas/core/cache.py:119-131 | Counters read one after another, not atomically, still date the body soundly. |
| `CacheCoherence.RunKeeps` | src/synapse_saas/core/cache.py:98-208 | The invariant holds after every run whose commits are heard and whose sessions are not careless. |
| `CacheCoherence.StoredBodyIsFresh` | src/synapse_saas/core/cache.py:98-117 | In every run of heard commits and sessions that are not careless, a body stored under a key's current versions equals a fresh computation from the committed rows, unless a committed writer still owes a bump or the body is that of an open session that loads its own rows; sessions that load none of their own rows may roll back at any time. |
| `CacheCoherence.StoredBodyIsRecent` | src/synapse_saas/core/cache.py:98-117 | When births of rows need not be heard, such a body is still what the committed rows give but for rows that were not there yet. |
| `CacheCoherence.HeldBodyIsFresh` | src/synapse_saas/core/cache.py:98-117 | The same for the value an in-flight reader of the current version is about to store and return. |
| `CacheCoherence.NeverOlderThanTheBump` | src/synapse_saas/core/cache.py:133-173 | Once a commit that is news to a key owes none of its counters, a read of that key that begins then returns a value forced by rows none of which predates the commit, however the read interleaves. |
| `CacheNecessity.CoherentIffHeard` | src/synapse_saas/core/cache.py:133-208 | The exact condition on commits, for sessions that are not careless: no run, rollbacks included, leaves a stale hit if and only if every commit bumps, for each key whose value it can change, a counter that key reads. |
| `CacheNecessity.TouchesIffCanAlter` | src/synapse_saas/core/cache.py:133-173 | A commit can change what a key computes to exactly if it writes a row the value depends on. |
| `CacheNecessity.SilentCommitGoesStale` | src/synapse_saas/core/cache.py:133-173 | For any family, rows and commit that changes what a key computes to without bumping a counter of that key: builds the run after which, with every bump done and nothing owed, the old body is still a hit under the current versions. |
| `CacheNecessity.CoherentIffCovering` | src/synapse_saas/core/cache.py:74-131 | For writers that bump one guarding counter a row, in sessions that are not careless: coherent over all runs if and only if each row a key depends on is guarded by a counter the key reads. |
| `CacheNecessity.CarelessIsCoherentIff` | src/synapse_saas/core/db.py:296-305 | If sessions reload their own uncommitted rows through the cache and roll back as they please, a family is coherent only when no commit could ever change any of its bodies: so sessions must load none of their own rows, or spare the hits. |
| `CacheNecessity.RollbackLeavesGhost` | src/synapse_saas/core/db.py:296-305 | For any family and any uncommitted change that alters a key, whatever was bumped: the run in which the session reloads the key through the cache and is rolled back with its bumps discarded ends, nothing committed, in a stale hit on the never-committed body. |
| `CacheNecessity.Fill` | src/synapse_saas/core/cache.py:98-117 | From any state with an empty store a missing reader leaves exactly the body of the rows it sees, its session's own over the committed ones, under the versions it read. |
| `Cache.ParseDecimal` | src/synapse_saas/core/cache.py:95-96 | Version numbers are written injectively: parsing the decimal text gives the number back. |
| `Cache.BodyKeysDistinct` | src/synapse_saas/core/cache.py:92-96 | Two body keys of a namespace agree only for the same key and version, and no body key is a version key. |
| `Cache.ScopedKeysApart` | src/synapse_saas/core/cache.py:92-131 | A scoped key never collides with a body key or a version key of the namespace. |
| `Cache.ScopedKeysDistinct` | src/synapse_saas/core/cache.py:130-131 | Two scoped keys agree only for the same key and token, when the tokens hold no closing bracket. |
| `Cache.TokenInjective` | src/synapse_saas/core/cache.py:119-126 | For given scopes, equal tokens mean equal versions of every scope. |
| `Cache.DroppingDeadIsInvisible` | src/synapse_saas/core/cache.py:37-45 | Removing an expired cell changes no lookup, now or later. |
| `Cache.TTLDictBackend.Get` | src/synapse_saas/core/cache.py:37-45 | Returns the live value, drops the expired one, and leaves every other lookup as it was. |
| `Cache.TTLDictBackend.Incr` | src/synapse_saas/core/cache.py:54-61 | Counts up from the live count, or from zero once expired, for another lifetime, and touches no other cell. |
| `Cache.VersionedCache.GetVersioned` | src/synapse_saas/core/cache.py:102-106 | Returns the version and the body stored under it, changing nothing visible. |
| `Cache.VersionedCache.Set` | src/synapse_saas/core/cache.py:112-117 | The body is there under the version given until it expires, and no other body and no version changes at any time. |
| `Cache.VersionedCache.Bump` | src/synapse_saas/core/cache.py:133-140 | The key's version is one more until the counter expires and zero afterwards; no other version and no body changes at any time. |
| `Cache.VersionedCache.GetScoped` | src/synapse_saas/core/cache.py:119-126 | Returns the versions of all scopes and the body stored under that token. |
| `Cache.VersionedCache.SetScoped` | src/synapse_saas/core/cache.py:127-131 | Lookups of the same key under the same versions find the body until it expires; no version changes at any time. |
| `Cache.Session.DeferBump` | src/synapse_saas/core/cache.py:152-161 | Queues a bump once per key, in order of first request. |
| `Cache.Session.FlushDeferredBumps` | src/synapse_saas/core/cache.py:168-176 | Every queued key is bumped once, for a counter's lifetime, nothing else changes at any time, and the queue is emptied. |
| `CacheExpiry.BumpsLeaveNothingIff` | src/synapse_saas/core/cache.py:54-61 | The exact condition: right after bumps, however many, there is nothing to hit if and only if no body is alive above the counter. |
| `CacheExpiry.TimeKeepsIff` | src/synapse_saas/core/cache.py:37-61 | Time breaks that condition only where the counter expires, and there exactly if a body is alive under a version other than the first. |
| `CacheExpiry.StoringKeepsIff` | src/synapse_saas/core/cache.py:112-117 | Storing keeps it exactly when the version is not ahead of the counter. |
| `CacheExpiry.RunKeepsSound` | src/synapse_saas/core/cache.py:98-140 | While the counter of a key lives, no run of reads, stores under versions handed out and bumps, of any keys, brings an old body of it back. |
| `CacheExpiry.OldVersionComesBack` | src/synapse_saas/core/cache.py:54-61 | A body stored so late that it outlives the counter is a hit again after as many bumps as its version. |
| `CacheExpiry.BackAfterAnHour` | src/synapse_saas/core/cache.py:54-61 | With the lifetimes of the code: a body stored under version 2 at 3599 seconds is a hit again after the two bumps of one write at 3601. |
| `Cache.Session.DiscardDeferredBumps` | src/synapse_saas/core/cache.py:164-165 | A rollback empties the queue without bumping anything. |
| `FeatureFlags.FlagsCovered` | src/synapse_saas/feature_flags/service.py:46-65 | Flag decisions are a covering family: flag, organization override and user override are each guarded by one of the three counters read. |
| `FeatureFlags.FlagHitIsTheDecision` | src/synapse_saas/feature_flags/service.py:46-94 | Once no session is open, and none was careless, a hit under the current versions of the three counters is the decision the committed rows give. |
| `FeatureFlags.WhoDecides` | src/synapse_saas/feature_flags/service.py:67-92 | Off without a flag row; else the user's override decides, whatever else is set, then the organization's, then the rollout, then the switch. |
| `FeatureFlags.RolloutGrows` | src/synapse_saas/feature_flags/service.py:27-38 | Whatever the hash, raising a rollout takes nobody out; at 0 nobody is in and at 100 everybody. |
| `FeatureFlags.FeatureFlagService.Evaluate` | src/synapse_saas/feature_flags/service.py:67-94 | The lazy evaluation returns the declared decision, and the rows it read force it whatever the unread ones hold. |
| `FeatureFlags.FeatureFlagService.CreateFlag` | src/synapse_saas/feature_flags/service.py:96-118 | A taken key is refused; otherwise the row is written and the global counter queued, so the session may commit. |
| `FeatureFlags.FeatureFlagService.UpdateFlag` | src/synapse_saas/feature_flags/service.py:120-136 | Unset arguments keep the old values and the global counter is queued; unknown or archived flags are refused. |
| `FeatureFlags.FeatureFlagService.SetOverride` | src/synapse_saas/feature_flags/service.py:138-171 | Exactly one of organization and user must be given; the row is written and the matching counter queued. |
| `FeatureFlags.FeatureFlagService.DeleteOverride` | src/synapse_saas/feature_flags/service.py:173-179 | The row goes and its counter is queued. |
| `FeatureFlags.DisciplinedSessionsMayCommit` | src/synapse_saas/feature_flags/service.py:223-232 | A session that queued the counter of every row it changed satisfies the protocol's commit condition. |
| `Entitlements.EntitledHitIsFresh` | src/synapse_saas/entitlements/service.py:43-62 | In every run of the services in sessions that are not careless, none of which writes the plan catalog, a hit under an organization's current version is what its committed rows give, once no session is open. |
| `Entitlements.CoherentIffCatalogStands` | src/synapse_saas/entitlements/service.py:43-62 | The exact condition: writers that bump the organizations whose rows they change, in sessions that are not careless, are coherent with the cached entitlements over all runs if and only if none of their commits writes the catalog. |
| `Entitlements.CatalogSyncGoesUnnoticed` | src/synapse_saas/subscriptions/sync.py:41-124 | A committed catalog sync bumps no entitlement counter: for any rows, organization and new catalog that changes its entitlements there is a run after which the entitlements of the old catalog are still a hit under the current version. |
| `Entitlements.RemovedFeatureIsStillGranted` | src/synapse_saas/subscriptions/sync.py:41-124 | For every organization on an active plan and every feature of it: a run that starts with that subscription, syncs the feature off the plan, and after which a hit still grants it although a fresh computation does not. |
| `Entitlements.RoundTrip` | src/synapse_saas/entitlements/service.py:253-295 | Decoding a serialized body gives the organization and the effective entitlements back, whatever order the features were listed in. |
| `Entitlements.DefaultPlanIsInert` | src/synapse_saas/entitlements/service.py:170-190 | Without an occupying subscription the default plan is named but none of its features or limits takes effect. |
| `Entitlements.UnsubscribedHasIff` | src/synapse_saas/entitlements/service.py:170-190 | Without an occupying subscription an organization has a feature, of the default plan or not, if and only if a grant that wins it enables it. |
| `Entitlements.NoFallback` | src/synapse_saas/entitlements/service.py:170-190 | For any default plan and feature: the plan is offered with it and named in the result, and the organization without a subscription does not have it. |
| `Entitlements.PlanAlone` | src/synapse_saas/entitlements/service.py:170-237 | Without grants an organization gets exactly the features and limits of its plan's rows while its subscription counts, and none otherwise. |
| `Entitlements.GrantDecides` | src/synapse_saas/entitlements/service.py:170-245 | For any rows: the organization's earliest grant row in force of the highest priority decides the feature when it outranks the plan, if that gives it. |
| `Entitlements.PlanDecides` | src/synapse_saas/entitlements/service.py:170-245 | Without a grant row in force about a feature, its plan alone decides it. |
| `Entitlements.GrantCaps` | src/synapse_saas/entitlements/service.py:170-245 | For any rows: the organization's last grant row in force that caps a metric sets its limit, at the plan's soft ratio, priced by the plan or else by the metric. |
| `Entitlements.EntitlementService.EffectiveForOrg` | src/synapse_saas/entitlements/service.py:43-56 | Hit or miss, a corrupt text or not, a read answers what a fresh computation would, and leaves every current text true. |
| `Entitlements.EntitlementService.Change` | src/synapse_saas/entitlements/service.py:58-62 | Moving an organization's subscription or grants with its counter leaves no text under a current version, nor under a later one, behind. |
| `Resolver.Resolve` | src/synapse_saas/entitlements/resolver.py:116-164 | The fold: a feature is in the result iff its earliest highest-priority source enables it, and every limit is the last non-null active enabled grant value at the plan's soft ratio and overage. |
| `Resolver.ResolveFeatures` | src/synapse_saas/entitlements/resolver.py:124-141 | The decision loop computes the fold over plan features and grants. |
| `Resolver.ResolveLimits` | src/synapse_saas/entitlements/resolver.py:143-156 | The limit loop computes the fold over plan limits and limit grants. |
| `Resolver.ResolvedMeetsRule` | src/synapse_saas/entitlements/resolver.py:116-164 | The fold as a value meets the declared rule for features and limits. |
| `Resolver.SomeoneWins` | src/synapse_saas/entitlements/resolver.py:124-141 | Some grant wins, or the plan does, or nobody speaks for the feature. |
| `Resolver.OnlyOneWins` | src/synapse_saas/entitlements/resolver.py:124-141 | At most one source wins a feature. |
| `Resolver.OrderIrrelevant` | src/synapse_saas/entitlements/resolver.py:116-141 | When no two grants at the highest priority that speaks for a feature disagree, the feature does not depend on the order of the grants. |
| `Resolver.OrderIrrelevantIff` | src/synapse_saas/entitlements/resolver.py:116-141 | The exact condition, for every input and feature: all orders of the grants decide it alike if and only if no two grants at the highest priority among those speaking (above the plan where the plan speaks) disagree. |
| `Resolver.LimitOrderIff` | src/synapse_saas/entitlements/resolver.py:143-156 | A limit, with its ratio and overage, is the same in every order of the grants if and only if all caps the grants set on it are equal. |
| `Resolver.EnabledGrantNeverRemoves` | src/synapse_saas/entitlements/resolver.py:116-141 | Inserting an enabled grant anywhere in the list never removes a feature. |
| `Resolver.Bill` | src/synapse_saas/entitlements/resolver.py:56-61 | The billed quantity is the ceiling of the units over, and nothing is billed at or below the limit. |
| `Metering.ServeAllIsSound` | src/synapse_saas/usage/service.py:134-216 | After any sequence of requests each counter is the sum of its events, and each ledger row is settled and backed by exactly one event. |
| `Metering.RefusedIffOvershoots` | src/synapse_saas/usage/service.py:134-178 | When a request is refused and with what: an unknown metric, a gauge, or a consume that is no replay and would take what was logged for its organization, metric and month past its cap. |
| `Metering.ServeCountsItsMonth` | src/synapse_saas/usage/service.py:418-443 | On the rows: serving a request adds its quantity to the counter of its organization, metric and month and to no other, not at all for a replay; the event logged says so, the answer gives that counter's new total, and only its own ledger key is settled. |
| `Metering.ServeAllCounts` | src/synapse_saas/usage/service.py:134-216 | Over a run, a month's counter grows by exactly the quantities of the requests of that organization, metric and month that were no replays. |
| `Metering.MonthsAreApart` | src/synapse_saas/usage/service.py:418-443 | Any number of requests of other months, metrics or organizations changes neither what a request finds counted, nor whether it is refused, nor its answer. |
| `Metering.MonthStartsAtZero` | src/synapse_saas/usage/service.py:418-443 | The first request of a metric in a month is held to its cap alone and answered its own quantity as the total, whatever earlier months hold. |
| `Metering.ServeAllStaysWithin` | src/synapse_saas/usage/service.py:134-200 | A counter can exceed the cap of its consumes only by what was recorded without enforcement. |
| `Metering.RetryReplays` | src/synapse_saas/usage/service.py:339-385 | Whatever is served in between, a retry under the same key changes no table and returns the first metric, quantity and total. |
| `Metering.LedgerIsForever` | src/synapse_saas/usage/service.py:339-365 | A settled ledger row is never changed by later requests. |
| `Metering.CommitsCommute` | src/synapse_saas/usage/service.py:387-443 | A transaction's statements mean the same if another transaction that holds none of its rows commits before them. |
| `Metering.MicrosServe` | src/synapse_saas/usage/service.py:134-216 | Statement by statement a transaction does what serving its whole script at once does, or is refused where that is. |
| `MeteringConcurrency.StepKeeps` | src/synapse_saas/usage/service.py:134-216 | Every step of the interleaved system with row locks, waits and aborts keeps the committed tables explained by the committed scripts. |
| `MeteringConcurrency.Serializable` | src/synapse_saas/usage/service.py:134-216 | Under any interleaving the committed tables and every answer given are those of serving the committed scripts one at a time in commit order. |
| `MeteringConcurrency.RefusalIsJust` | src/synapse_saas/usage/service.py:166-200 | A refused transaction would also be refused if it ran alone against the committed tables of that moment. |
| `MeteringConcurrency.CommittedCountersAreSums` | src/synapse_saas/usage/service.py:387-443 | In every run each committed counter is the sum of the committed events of its bucket, and each key has at most one. |
| `MeteringConcurrency.CapNeverExceeded` | src/synapse_saas/usage/service.py:134-200 | In every run a committed counter metered by consumes alone never exceeds the cap. |
| `MeteringConcurrency.CommittedRetriesReplay` | src/synapse_saas/usage/service.py:339-385 | Among committed requests a later one with an earlier one's key got the earlier answer back and contributed nothing, so the fallback of an unsettled total is never taken. |
| `MeteringConcurrency.KeyTakenOnlyByCommits` | src/synapse_saas/usage/service.py:339-354 | A key is in the ledger only through a committed request: an aborted first attempt leaves it free. |
| `UsageService.UsageService.Meter` | src/synapse_saas/usage/service.py:108-200 | Statement by statement, one request is exactly one served request with the same answer or error; when served, the total of its organization, metric and month, and no other, has grown by its quantity unless it is a replay. Undoing a refused one is the caller's rollback. |
| `UsageService.UsageService.ConsumeMany` | src/synapse_saas/usage/service.py:202-218 | A batch is served whole or leaves no trace. |
| `UsageService.UsageService.ReserveIdempotency` | src/synapse_saas/usage/service.py:339-354 | The insert succeeds exactly for an unused key and leaves used ones alone. |
| `UsageService.UsageService.IncrementCounter` | src/synapse_saas/usage/service.py:418-443 | The upsert adds the quantity and returns the new total. |
| `UsageService.UsageService.SettleIdempotency` | src/synapse_saas/usage/service.py:356-365 | The reserved row gets its total and nothing else changes. |
| `UsageService.UsageService.MaybeEmitSoftLimit` | src/synapse_saas/usage/service.py:445-489 | The soft limit of a bucket is announced at most once, and only when its total has reached the threshold. |
| `UsageService.SoftThreshold` | src/synapse_saas/usage/service.py:445-460 | The threshold is the product of cap and ratio cut off towards zero. |
| `UsageService.UsageService.SetGauge` | src/synapse_saas/usage/service.py:220-236 | A gauge takes the value set, never below zero; counters and unknown metrics are refused. |
| `UsageService.UsageService.AdjustGauge` | src/synapse_saas/usage/service.py:238-283 | An enforced rise past the limit is refused and changes nothing; otherwise the level moves by the delta, never below zero. |
| `UsageService.CheckForetellsConsume` | src/synapse_saas/usage/service.py:84-106 | A consume of a new key is served iff the pre-flight check said it fits. |
| `Proration.AdvanceMatchesArrears` | src/synapse_saas/subscriptions/proration.py:37-80 | For one change the in-advance net less the arrears correction differs from the price difference by at most one cent. |
| `Proration.EmptyPeriodCorrectsInFull` | src/synapse_saas/subscriptions/proration.py:37-76 | A zero-length period counts as fully elapsed: the correction is the old price less the new. |
| `Proration.ChangesBillHeldFractions` | src/synapse_saas/subscriptions/proration.py:37-80 | For any number n of changes the final price plus all corrections is the sum of each price times the fraction it was held, within n/2 cents. |
| `Proration.ChangesBillHeldTime` | src/synapse_saas/subscriptions/proration.py:37-80 | The same measured in time held instead of recorded six-place fractions, with the fraction's own rounding added to the bound. |
| `Invoicing.PeriodBillsTimeHeld` | src/synapse_saas/billing/service.py:234-296 | After any mid-period switches of a live subscription, its price plus the queued corrections is what it owes for the time it held each plan, within that bound. |
| `Invoicing.SwitchAllQueuesAdjustments` | src/synapse_saas/billing/service.py:234-296 | Mid-period switches keep the period and queue exactly one arrears correction each. |
| `Invoicing.MoneyConserved` | src/synapse_saas/billing/invoicing.py:101-190 | Over any run all subtotals ever drafted plus all pending balances grow by exactly the plan charges, overage and corrections incurred. |
| `Invoicing.RunKeepsSound` | src/synapse_saas/billing/invoicing.py:101-298 | In every reachable account each subtotal is max(0, sum of its lines), a period has at most one draft, and no two invoices share a number. |
| `Invoicing.StepIsAllowed` | src/synapse_saas/billing/invoicing.py:82-90 | No operation loses an invoice, changes its lines or amounts, or takes a status step outside the table; a number once given stays. |
| `Invoicing.RedraftIsNoOpIff` | src/synapse_saas/billing/invoicing.py:101-125 | Drafting changes nothing if and only if the period has an open draft or there is nothing to bill. |
| `Invoicing.DraftAfterFinalizeChargesTwice` | src/synapse_saas/billing/invoicing.py:316-324 | Once the draft is finalized, drafting the same period again charges the plan a second time. |
| `Invoicing.AdjustmentLinesSum` | src/synapse_saas/billing/invoicing.py:409-426 | The lines made of the pending corrections add up to them, zero entries dropped. |
| `Invoicing.AdjustmentLinesAre` | src/synapse_saas/billing/invoicing.py:409-426 | One line for each non-zero correction, in order, at its amount, a credit exactly when negative. |
| `Invoicing.OverageLine` | src/synapse_saas/billing/invoicing.py:351-381 | A line exactly when a priced cap is exceeded: of that metric, at the block price, for as many blocks as the units past the cap start. |
| `Invoicing.OverageIsExact` | src/synapse_saas/billing/invoicing.py:342-383 | One line for each metric past its priced cap, in order, each billing exactly that metric's excess. |
| `Invoicing.OverageCosts` | src/synapse_saas/billing/invoicing.py:342-383 | The lines cost the sum over the metrics of the started blocks of the units past the cap, ceil(excess / unit), at the block price. |
| `Invoicing.DraftIsExact` | src/synapse_saas/billing/invoicing.py:101-190 | The whole draft from plan, limits, usage and pending: its lines, its subtotal as price plus cost of the usage past the caps plus corrections, zero when negative, and then the credit carried over. |
| `Invoicing.ChangeIsExact` | src/synapse_saas/billing/service.py:196-253 | What a local plan change leaves: the plan, active; a live paid period kept and the price difference for it queued unless zero, else a new period and nothing queued. |
| `Invoicing.LifecycleIsExact` | src/synapse_saas/billing/invoicing.py:194-298 | Finalizing numbers and opens a draft, a covering payment pays an open invoice, voiding voids a draft or an open one; anything else changes nothing. |
| `Invoicing.InvoicingService.DraftForOrg` | src/synapse_saas/billing/invoicing.py:101-190 | Drafts the period from plan, overage and corrections, carries a negative total forward, and returns an existing draft untouched. |
| `Invoicing.InvoicingService.AdjustmentLinesOf` | src/synapse_saas/billing/invoicing.py:409-426 | The loop makes one line per non-zero correction, credits when negative. |
| `Invoicing.InvoicingService.OverageLines` | src/synapse_saas/billing/invoicing.py:342-383 | The loop makes one line for each metric past its priced cap, in order, for the units past the cap rounded up to blocks, at the block price. |
| `Invoicing.InvoicingService.FinalizeOne` | src/synapse_saas/billing/invoicing.py:194-235 | Opens a draft under the next number, answers an open invoice as it is, and refuses every other status. |
| `Invoicing.InvoicingService.RecordPayment` | src/synapse_saas/billing/invoicing.py:237-283 | Marks an invoice paid where the table allows it and the payment covers it; partial payments and other statuses change nothing. |
| `Invoicing.InvoicingService.VoidInvoiceById` | src/synapse_saas/billing/invoicing.py:285-298 | Voids an invoice where the table allows it; its amounts stay and no correction is given back. |
| `Invoicing.InvoicingService.SwitchOnly` | src/synapse_saas/billing/service.py:205-232 | A provider-billed change or a checkout switches the plan, keeping the period on request, and queues no correction. |
| `Invoicing.InvoicingService.StartSubscription` | src/synapse_saas/subscriptions/service.py:131-172 | A new subscription or trial closes the current one with what it has pending and starts with nothing pending. |
| `Invoicing.InvoicingService.ApplyProviderStatus` | src/synapse_saas/subscriptions/service.py:267-281 | A provider status moves the current subscription, or closes it with what it has pending. |
| `Invoicing.InvoicingService.ChangePlan` | src/synapse_saas/billing/service.py:196-253 | Switches the plan keeping a paid live period and queues its correction unless it rounds to zero. |
| `Fga.CollideIff` | src/synapse_saas/authorization/fga_model.py:28-30 | Two permissions share a relation name exactly when they differ in nothing but colons against underscores. |
| `Fga.UnderscoreFreeIsInjective` | src/synapse_saas/authorization/fga_model.py:28-30 | On keys without underscores, as the shipped catalog's, relation names are one-to-one. |
| `Fga.ShippedRolesAreWellFormed` | src/synapse_saas/authorization/fga_model.py:25-34 | With the shipped role names a relation of a permission is never a role's relation. |
| `Fga.OrganizationType` | src/synapse_saas/authorization/fga_model.py:62-73 | The generated type has one direct relation per role and one relation per permission, the union of direct users and the roles holding it. |
| `Fga.PermissionCheck` | src/synapse_saas/authorization/fga_model.py:62-97 | In the generated model a permission is derived from its direct tuple or from a role holding it, and from nothing else, at any derivation depth. |
| `Fga.DesiredTuples` | src/synapse_saas/authorization/sync.py:36-59 | The loops collect one tuple per system role and one per permission no system role covers. |
| `Fga.TranslationMeaning` | src/synapse_saas/authorization/sync.py:36-59 | With exactly the member's desired tuples in the store, the model allows a permission iff it is in the member's list or held by one of the member's system roles. |
| `Fga.AgreesWithRbacIff` | src/synapse_saas/authorization/service.py:77-88 | Model and permission list agree on the whole catalog if and only if the list contains what the member's system roles stand for. |
| `Fga.CheckMonotone` | src/synapse_saas/authorization/fga.py:88-93 | More tuples never take an answer away, in any model. |
| `Fga.InheritedCheck` | src/synapse_saas/authorization/fga_model.py:54-55 | A relation of direct users and those related to a parent is held by exactly these. |
| `Fga.ProjectEditor` | src/synapse_saas/authorization/fga_model.py:76-89 | A project editor was granted that project, or may manage projects in an organization it belongs to. |
| `Fga.ProjectViewer` | src/synapse_saas/authorization/fga_model.py:76-89 | A project viewer was granted that project as viewer or editor, or may read or manage projects in an organization it belongs to. |
| `FgaSync.FgaStore.Post` | src/synapse_saas/authorization/fga.py:63-79 | One request writes or deletes one tuple; repeats and absences are error replies that change nothing, and a request without an answer may have been carried out. |
| `FgaSync.FgaStore.Write` | src/synapse_saas/authorization/fga.py:104-124 | Writes then deletes, one request each; repeats and absences are tolerated and only an outage stops it, at the prefix answered or one request later. |
| `FgaSync.FgaStore.ApplyTupleSync` | src/synapse_saas/authorization/sync.py:85-125 | Sends the diff of what the read returned; when all of it is carried out, the member's tuples are the desired ones if and only if the read showed every stale one. |
| `FgaSync.PrefixBetween` | src/synapse_saas/authorization/fga.py:104-124 | At every intermediate store other members' and other organizations' tuples are untouched and the member's lie between old and new. |
| `FgaSync.NoDip` | src/synapse_saas/authorization/sync.py:118-125 | Whatever was allowed before a sync and is allowed after it is allowed at every store in between, in any model, for any user. |
| `FgaSync.NoSurge` | src/synapse_saas/authorization/sync.py:118-125 | An organization permission allowed at a store in between was allowed before or is allowed after. |
| `FgaSync.AttemptsSpareOthers` | src/synapse_saas/authorization/sync.py:118-125 | No number of interrupted attempts, whatever they wanted, moves anyone else's tuples. |
| `FgaSync.RetriesConverge` | src/synapse_saas/authorization/sync.py:118-125 | From any store and after any interrupted attempts, one that completes converges exactly when its read showed every stale tuple, and a further attempt has an empty diff. |
| `Rbac.RunKeepsSound` | src/synapse_saas/authorization/service.py:143-306 | After every run of role create, update, delete, assignment, replacement, invite, accept, removal and founding, each membership's permission list equals the union over the roles it holds; keys and memberships stay unique; seats are counted; owners stay. |
| `Rbac.UpdateKeeps` | src/synapse_saas/authorization/service.py:180-204 | Editing a role keeps the invariant and leaves memberships that do not hold it unchanged. |
| `Rbac.DeleteKeeps` | src/synapse_saas/authorization/service.py:206-230 | Deleting a role keeps the invariant and leaves memberships that did not hold it unchanged. |
| `Rbac.CreateKeeps` | src/synapse_saas/authorization/service.py:143-178 | Creating a role keeps the invariant; nobody's permissions move. |
| `Rbac.UpdateIsExact` | src/synapse_saas/authorization/service.py:180-274 | On the rows: an edit leaves the role with exactly the permissions given, a holder with those and what its other roles give, so what is left out is taken away; everything else is as it was. |
| `Rbac.DeleteIsExact` | src/synapse_saas/authorization/service.py:206-230 | On the rows: the role is gone, nobody holds it, a former holder keeps exactly what its other roles give, and everything else is as it was. |
| `Rbac.CreateIsExact` | src/synapse_saas/authorization/service.py:143-178 | On the rows: refused for unknown permissions, then for a taken key; else one new role with exactly the permissions given and nothing else changes. |
| `Rbac.EditGoesThroughIff` | src/synapse_saas/authorization/service.py:180-259 | An edit or deletion goes through exactly for the organization's own role, an edit also only for known permissions; which refusal it is otherwise. |
| `Rbac.AttachKeeps` | src/synapse_saas/tenancy/service.py:413-430 | Adding a role's permissions to the list is adding them to the join; only that member changes; a system key names the system role. |
| `Rbac.ReplaceIsExact` | src/synapse_saas/tenancy/service.py:432-441 | Replacing roles leaves the member exactly the roles the keys name and exactly their permissions, whatever was held before. |
| `Rbac.ChangeKeeps` | src/synapse_saas/tenancy/service.py:302-332 | Replacing roles and changing the status in one call keeps the invariant. |
| `Rbac.InviteWithinLimit` | src/synapse_saas/tenancy/service.py:163-198 | An invite that succeeds sets the seat gauge to active members plus pending invites and stays within the limit. |
| `Rbac.InviteKeeps` | src/synapse_saas/tenancy/service.py:163-242 | Inviting keeps the invariant: the new membership's list is the union of the roles attached. |
| `Rbac.AcceptKeeps` | src/synapse_saas/tenancy/service.py:359-385 | Accepting keeps the invariant, including one membership per user and organization. |
| `Rbac.RemoveKeeps` | src/synapse_saas/tenancy/service.py:334-357 | Removing a member keeps the invariant and never removes the owner. |
| `Rbac.FoundKeeps` | src/synapse_saas/tenancy/service.py:54-125 | Founding an organization gives its owner the owner role and exactly its permissions. |
| `Rbac.InviteIsExact` | src/synapse_saas/tenancy/service.py:163-242 | On the rows: one pending, unlinked membership with exactly the roles named (or the member role) and their permissions, one more seat taken, and nobody else touched. |
| `Rbac.AcceptIsExact` | src/synapse_saas/tenancy/service.py:359-385 | When accepting is refused and with what; else the row is linked and active and no role, list or seat moves. |
| `Rbac.RemoveIsExact` | src/synapse_saas/tenancy/service.py:334-357 | Refused exactly for nobody and for the organization's owner; else the row, its roles and its seat are gone and nothing else moved. |
| `Rbac.StatusIsExact` | src/synapse_saas/tenancy/service.py:302-332 | Suspending frees the seat, reactivating takes it; nothing but the status and that gauge moves. |
| `Rbac.FoundIsExact` | src/synapse_saas/tenancy/service.py:54-125 | Goes through for a new organization once the owner role is seeded, and leaves the owner as its one member with exactly that role and the one seat. |
| `Rbac.ShadowedKeyIsUnusable` | src/synapse_saas/tenancy/service.py:413-430 | A system key is ambiguous in an organization, and no member there can be given a role by it, if and only if the organization has a custom role under it. |
| `Rbac.ShadowingGoesThrough` | src/synapse_saas/authorization/service.py:143-178 | Creating a role under a system key goes through exactly when the organization has none under it yet, and then shadows the key. |
| `RbacService.Services.CreateCustomRole` | src/synapse_saas/authorization/service.py:143-178 | Performs the creation row by row: unknown permissions and taken keys refused, else exactly one role with the permissions given is added and no list moves. |
| `RbacService.Services.UpdateCustomRole` | src/synapse_saas/authorization/service.py:180-204 | The role is left with exactly the permissions given; each holder, recomputed one by one, with those and what its other roles give; non-holders are unchanged. |
| `RbacService.Services.DeleteCustomRole` | src/synapse_saas/authorization/service.py:206-230 | Removes the role and its holdings; each former holder, recomputed one by one, keeps exactly what its other roles give; others are unchanged. |
| `RbacService.Services.RefreshMemberships` | src/synapse_saas/authorization/service.py:276-306 | The loop leaves every holder's list equal to the join and every other membership alone. |
| `RbacService.Services.AttachRole` | src/synapse_saas/tenancy/service.py:413-430 | None, one or several matching roles: refused, attached, or an error. |
| `RbacService.Services.AssignRole` | src/synapse_saas/authorization/service.py:232-249 | Assigns by key with the same lookup; keeps the invariant. |
| `RbacService.Services.UpdateMembership` | src/synapse_saas/tenancy/service.py:302-332 | Replaces the roles and sets the status, or rolls everything back at the first role that cannot be attached. |
| `RbacService.Services.InviteMember` | src/synapse_saas/tenancy/service.py:163-242 | Invites within the limit with the given roles or the default one, or leaves no trace. |
| `RbacService.Services.AcceptInvite` | src/synapse_saas/tenancy/service.py:359-385 | Turns a pending invite into an active membership, linked to the account if there is one. |
| `RbacService.Services.RemoveMember` | src/synapse_saas/tenancy/service.py:334-357 | Removes the membership with its roles; refused exactly for the owner. |
| `RbacService.Services.CreateOrganization` | src/synapse_saas/tenancy/service.py:54-125 | Writes organization, owner membership, owner role and seat gauge. |
| `RbacService.ModelAgreesWithRoles` | src/synapse_saas/authorization/sync.py:36-59 | In every reachable state and for every member whose desired tuples are in the store, the generated model allows exactly the permissions the roles held give; no assumption on custom role keys is needed. |
| `Permissions.LoudIff` | src/synapse_saas/authorization/service.py:180-336 | Everybody whose permissions an operation changes has a counter bumped by it, if and only if it neither removes an active member who could do something nor founds an organization. |
| `Permissions.CoherentIffNobodyRemoved` | src/synapse_saas/authorization/service.py:53-75 | The exact condition, for any set of operations without foundings: in sessions that are not careless the cached permission sets are coherent over all runs if and only if no operation allowed that goes through removes an active member who can do something. |
| `Permissions.NeverMisleadsIff` | src/synapse_saas/authorization/service.py:53-75 | The same with foundings, which bump nobody, when sessions load none of their own rows: no run leaves a stale hit a reader believes, the empty text being taken for a miss, if and only if nobody who can do something is removed. |
| `Permissions.OperationsKeepShowing` | src/synapse_saas/authorization/service.py:53-75 | What an operation commits keeps the cached rows those of the new state, so every run of operations is among the runs covered. |
| `Permissions.RemovalGoesStale` | src/synapse_saas/tenancy/service.py:334-357 | From any state, the removal of an active member who can do something leaves, in some run, exactly that member's old permissions as a hit under the current version, with nothing owed. |
| `Permissions.RemovalTakesAway` | src/synapse_saas/tenancy/service.py:334-357 | A removal changes exactly the removed member's permissions, to none. |
| `Permissions.FoundingGives` | src/synapse_saas/tenancy/service.py:54-125 | Founding changes the owner's permissions only, from no membership to those of the owner role. |
| `Permissions.CanIff` | src/synapse_saas/authorization/service.py:53-75 | Who can do what: a user has a permission in an organization exactly when a membership of theirs there is active and holds a role that gives it; pending and suspended members have none. |
| `Tokens.RunKeepsLinked` | src/synapse_saas/identity/service.py:241-294 | In every run links go from revoked tokens to later ones of the same user and scope, no two to the same one, and no row comes back to life. |
| `Tokens.ChainShape` | src/synapse_saas/identity/service.py:283-294 | A chain is one user's and one scope's, increasing, and only its last token can be live. |
| `Tokens.ChainsThatMeet` | src/synapse_saas/identity/service.py:283-294 | Chains that share a token are one chain: one start lies on the other's chain. |
| `Tokens.AcceptedOnce` | src/synapse_saas/identity/service.py:241-294 | In every run each token is accepted at most once. |
| `Tokens.RevokedForGood` | src/synapse_saas/identity/service.py:262-275 | A revoked token is never accepted again, in any run. |
| `Tokens.RotationHandsOver` | src/synapse_saas/identity/service.py:277-294 | An accepted refresh kills the token, links it to one live successor of the same user and scope, and touches no other row. |
| `Tokens.NothingOldAccepted` | src/synapse_saas/identity/service.py:356-396 | After a detected reuse or a password reset no token issued to that user before is ever accepted again. |
| `Tokens.ReplayIsDetected` | src/synapse_saas/identity/service.py:262-275 | Replaying a rotated token after the grace window and before its expiry is seen whatever happened in between, and ends every session of that user. |
| `Tokens.AcceptedIff` | src/synapse_saas/identity/service.py:252-277 | On the rows: a refresh is accepted exactly for a token that exists, is not past its expiry, was never revoked and belongs to an active user; and exactly when it is told expired, reused or already used. |
| `Tokens.RefusedRefreshIsExact` | src/synapse_saas/identity/service.py:252-275 | A detected reuse revokes exactly the user's live tokens; any other refusal changes no row. |
| `Tokens.ExpiredRefreshDoesNothing` | src/synapse_saas/identity/service.py:258-260 | In every run a token refreshed after its expiry is told so, revoked or not, and the refresh changes no row. |
| `Tokens.ExpiredNeverAccepted` | src/synapse_saas/identity/service.py:258-260 | A token refreshed only after its expiry is not among those a run accepts. |
| `Tokens.SessionsEndByTime` | src/synapse_saas/identity/service.py:206-260 | Once all of a user's tokens have expired, no run without a new login accepts a token of that user or gives the user one. |
| `Tokens.IssueIsExact` | src/synapse_saas/identity/service.py:206-239 | A login adds one live token of the user and scope, valid for the configured time, and touches nothing else. |
| `Tokens.LogoutIsExact` | src/synapse_saas/identity/service.py:296-303 | A logout leaves the token it names revoked, and it is never accepted again in any run; no other row changes. |
| `Tokens.ResetIsExact` | src/synapse_saas/identity/service.py:356-396 | A reset goes through exactly for an unused, unexpired reset of a user who exists; it uses that one up and revokes exactly that user's live tokens, else changes nothing. |
| `Tokens.UsedResetStaysUsed` | src/synapse_saas/identity/service.py:356-377 | A used reset is refused after every run, and changes nothing then. |
| `Tokens.IdentityService.RefreshToken` | src/synapse_saas/identity/service.py:241-294 | Answers by expiry first, then reuse with its grace window, then the user, and performs exactly that transition; accepts exactly unexpired, unrevoked tokens of active users. |
| `Tokens.IdentityService.RevokeLive` | src/synapse_saas/identity/service.py:382-396 | The loop revokes the user's live tokens and leaves earlier revocations and other users alone. |
| `Tokens.IdentityService.LogOut` | src/synapse_saas/identity/service.py:296-303 | Revokes the token if live; unknown and revoked ones change nothing. |
| `Tokens.IdentityService.ResetPassword` | src/synapse_saas/identity/service.py:356-380 | A valid reset token is used up once and every token of the user ends revoked. |
| `Subscriptions.StepFollowsTheTable` | src/synapse_saas/subscriptions/service.py:85-281 | Every command keeps at most one occupying subscription per organization, moves statuses only along the table, touches one organization and freezes rows that no longer occupy. |
| `Subscriptions.RunKeepsConstraints` | src/synapse_saas/subscriptions/service.py:85-281 | In every run an organization has at most one occupying subscription. |
| `Subscriptions.LeftForGood` | src/synapse_saas/subscriptions/state_machine.py:13-29 | A subscription that has left the occupying statuses never changes again, so it never re-enters them, although the table would allow it. |
| `Subscriptions.RunFollowsTheTable` | src/synapse_saas/subscriptions/state_machine.py:13-29 | Over a whole run a row's status follows a path of the table that stays inside the occupying statuses up to its end. |
| `Subscriptions.ResumeUndoesCancel` | src/synapse_saas/subscriptions/service.py:236-265 | Cancelling at the period's end and resuming puts every field back. |
| `Subscriptions.TrialReplaces` | src/synapse_saas/subscriptions/service.py:131-172 | Exactly when a trial starts, and that it ends the occupying subscription and becomes the current one. |
| `Subscriptions.CreateIsExact` | src/synapse_saas/subscriptions/service.py:85-129 | The row a creation adds, and that it goes through exactly when the organization has no occupying one, the reference is free and the status is known. |
| `Subscriptions.TrialIsExact` | src/synapse_saas/subscriptions/service.py:131-172 | The row a trial adds, that the one it replaces is cancelled now, and that no other moves. |
| `Subscriptions.ChangePlanIsExact` | src/synapse_saas/subscriptions/service.py:174-234 | Leaves the organization's current row, or a new one, active on the plan without a cancellation, in a new period or the live one when to be kept; provider and reference those given, else as they were; no other row moves. |
| `Subscriptions.CancelIsExact` | src/synapse_saas/subscriptions/service.py:236-256 | Refused exactly when nothing is current; at once, the row is cancelled now and nothing is current after; at the period's end, the row is only marked and stays current. |
| `Subscriptions.ResumeIsExact` | src/synapse_saas/subscriptions/service.py:258-265 | Refused exactly without a mark on a current row; else only the mark is taken off. |
| `Subscriptions.FindCurrent` | src/synapse_saas/subscriptions/service.py:44-62 | Finds the latest occupying subscription of an organization, or that there is none. |
| `Subscriptions.SubscriptionService.CreateSubscription` | src/synapse_saas/subscriptions/service.py:85-129 | The insert goes through exactly when the table's constraints hold after it. |
| `Subscriptions.SubscriptionService.BeginTrial` | src/synapse_saas/subscriptions/service.py:131-172 | Ends the current subscription and starts the trial, or changes nothing. |
| `Subscriptions.SubscriptionService.SwitchPlan` | src/synapse_saas/subscriptions/service.py:174-234 | Switches in place or creates, keeping a live period only on request, without leaving the table. |
| `Subscriptions.SubscriptionService.CancelSubscription` | src/synapse_saas/subscriptions/service.py:236-256 | Succeeds exactly when something is current; ends it now or marks it. |
| `Subscriptions.SubscriptionService.ResumeSubscription` | src/synapse_saas/subscriptions/service.py:258-265 | Clears the mark; refused without one. |
| `Subscriptions.SubscriptionService.ApplyProviderTransition` | src/synapse_saas/subscriptions/service.py:267-281 | Takes the provider's status only along the table. |
| `SubscriptionBilling.CommandAgrees` | src/synapse_saas/subscriptions/service.py:85-281 | Each subscription command that goes through, and what it does to the billing account, keep the account's subscription equal to the organization's current row in status, plan and period. |
| `SubscriptionBilling.RunAgrees` | src/synapse_saas/billing/service.py:196-253 | In every run of subscription commands of all organizations, local plan changes and invoice operations, row and account stay in agreement, and everything invoiced or pending is what the account's operations incurred. |
| `Webhooks.IngestIsApplyOnce` | src/synapse_saas/billing/webhooks.py:53-119 | After any sequence of deliveries billing equals applying each event once at its first delivery that did not fail, in order, with no ledger at all; and ledger rows exist exactly for those events. |
| `Webhooks.FailuresLeaveNoTrace` | src/synapse_saas/billing/webhooks.py:112-119 | Failed deliveries, wherever the infrastructure gave out, leave ledger and billing as they were. |
| `Webhooks.LedgerIsForever` | src/synapse_saas/billing/webhooks.py:59-78 | A recorded event is never re-recorded and never applied again. |
| `Webhooks.RejectedContributeNothing` | src/synapse_saas/billing/webhooks.py:95-119 | A batch without its rejected events has the same result and rejects none, and the two counts add up to the batch. |
| `Webhooks.IngestKeepsConstraints` | src/synapse_saas/billing/webhooks.py:123-192 | No sequence of deliveries gives an organization two occupying subscriptions or brings back one that had left. |
| `Webhooks.ApplyAdvances` | src/synapse_saas/billing/webhooks.py:123-192 | Each applied event moves subscriptions only along the table. |
| `Webhooks.StatusEventIsExact` | src/synapse_saas/billing/webhooks.py:137-180 | What each status event does to the organization's current row: a cancellation cancels it, a missed payment makes it past due, activation, creation and end of trial activate it, an update gives it the status named or active; the period end is the event's if given and nothing else moves; only updates are rejected, and exactly which. |
| `Webhooks.InvoiceEventIsExact` | src/synapse_saas/billing/webhooks.py:151-225 | What each invoice event leaves: the provider's one row under its id, paid, open or uncollectible, at the event's amount, the payment time set or kept, the organization kept, and every other row as it was. |
| `Webhooks.CheckoutIsExact` | src/synapse_saas/billing/webhooks.py:182-192 | A checkout leaves the organization's current row active on the plan in a new period, at the provider, and the invoice of a plan that costs; it is rejected exactly for an unknown plan and fails exactly when another row has the reference. |
| `Webhooks.NothingToDo` | src/synapse_saas/billing/webhooks.py:123-200 | The events that change nothing: of nobody known, of unhandled kinds, about the status of nothing current, about no invoice, or a checkout without a plan. |
| `Webhooks.OrgForIs` | src/synapse_saas/billing/webhooks.py:123-135 | An event is the known customer's, else the oldest subscription's that carries the reference. |
| `Webhooks.OneEventDelivery` | src/synapse_saas/billing/webhooks.py:53-119 | A new delivery of one event leaves that event's effect and one ledger row that counts it as applied or rejected, or nothing at all if it crashes. |
| `Webhooks.BillingWebhookService.ApplyEvent` | src/synapse_saas/billing/webhooks.py:97-160 | Performs the event inside its savepoint, with the effect on the rows that `Webhooks.StatusEventIsExact`, `Webhooks.InvoiceEventIsExact` and `Webhooks.CheckoutIsExact` give; one that is rejected or crashes leaves the rows alone. |
| `Webhooks.BillingWebhookService.SetStatus` | src/synapse_saas/billing/webhooks.py:162-180 | Moves the current subscription along the table or is rejected; without one there is nothing to do. |
| `Webhooks.BillingWebhookService.PutInvoice` | src/synapse_saas/billing/webhooks.py:194-225 | Inserts or overwrites the provider's invoice, keeping the time it was paid. |
| `Webhooks.BillingWebhookService.CompleteCheckout` | src/synapse_saas/billing/service.py:114-194 | Puts the organization on the paid plan and writes its invoice; an unknown plan is rejected and a broken constraint ends the transaction. |
| `Webhooks.BillingWebhookService.ApplyEvents` | src/synapse_saas/billing/webhooks.py:95-115 | The loop applies the batch event by event and counts applied and rejected, up to a crash or failure. |
| `Webhooks.BillingWebhookService.HandleDelivery` | src/synapse_saas/billing/webhooks.py:53-119 | One delivery: duplicate, recorded or failed, with a failure at any point undoing ledger row and applied events together. |
| `Preferences.CheckShape` | src/synapse_saas/identity/preferences.py:45-62 | The explicit-stack walk terminates and refuses exactly the trees nested deeper than the limit or carrying a NUL, and says truthfully which. |
| `Preferences.Walk` | src/synapse_saas/identity/preferences.py:45-62 | The same in whatever order items are taken off the stack. |
| `Preferences.Expand` | src/synapse_saas/identity/preferences.py:48-62 | Replacing a container on the stack by its children loses and adds no fault and uses nodes up. |
| `Preferences.MergeKeepsShape` | src/synapse_saas/identity/service.py:313-333 | Merging an accepted patch into accepted preferences keeps both bounds, so the stored object need not be walked again. |
| `RateLimiter.WindowAdmitsMin` | src/synapse_saas/core/rate_limit.py:66-84 | In each aligned window exactly min(calls, limit) calls go through. |
| `RateLimiter.AtMostTwiceTheLimit` | src/synapse_saas/core/rate_limit.py:66-84 | Any interval one window long lets at most twice the limit through. |
| `RateLimiter.StraddleGoesThrough` | src/synapse_saas/core/rate_limit.py:66-84 | For every limit, window of at least two ticks and window edge: as many calls as the limit just before the edge and as many at it all go through. |
| `RateLimiter.TwiceIsReached` | src/synapse_saas/core/rate_limit.py:66-84 | Twice the limit is reached by some history and interval exactly when a window is longer than one tick (or the limit is zero). |
| `RateLimiter.Limiter.CheckLocal` | src/synapse_saas/core/rate_limit.py:66-84 | Admits a call iff its window had fewer than the limit so far; a refusal's delay is within one window and lands on the next window's start; other keys do not notice. |
| `CatalogSync.CrossValidate` | src/synapse_saas/subscriptions/catalog.py:97-139 | The error list is empty exactly for valid catalogs. |
| `CatalogSync.Database.SyncPlans` | src/synapse_saas/subscriptions/sync.py:41-124 | The sync leaves exactly the catalog's tables and counts the differences; it fails, leaving no trace, exactly when a plan lists twice a feature it has no row for. |
| `CatalogSync.Database.SyncPlanRows` | src/synapse_saas/subscriptions/sync.py:80-114 | The plan loop writes every listed plan and counts the new and the changed ones. |
| `CatalogSync.Database.SyncPlanFeatures` | src/synapse_saas/subscriptions/sync.py:127-138 | Inserts in order, then deletes: ends with exactly the listed features, or breaks the key at the first row inserted twice, and then nothing stands. |
| `CatalogSync.Database.SyncPlanLimits` | src/synapse_saas/subscriptions/sync.py:141-184 | Limits are inserted, overwritten and deleted to exactly the catalog's. |
| `CatalogSync.Database.Archive` | src/synapse_saas/subscriptions/sync.py:116-121 | Exactly the live unlisted plans are archived and counted; none is deleted. |
| `CatalogSync.Database.SyncMetrics` | src/synapse_saas/subscriptions/sync.py:55-77 | Listed metrics are inserted or overwritten; others stay. |
| `CatalogSync.LiveIsTheCatalog` | src/synapse_saas/subscriptions/sync.py:41-124 | After a sync the live plans are exactly the catalog's and no plan row has gone. |
| `CatalogSync.PlanReadsBack` | src/synapse_saas/entitlements/service.py:215-237 | Each listed plan has the catalog's values, or its defaults for what it leaves out, exactly its features and limits, and each limit is read back with its value, its metric's or the default soft ratio, and the plan's or else the metric's price. |
| `CatalogSync.UnlistedIsArchived` | src/synapse_saas/subscriptions/sync.py:116-121 | A plan no longer listed keeps its values, features and limits and is archived now, or stays archived when it was. |
| `CatalogSync.MetricsReadBack` | src/synapse_saas/subscriptions/sync.py:45-77 | Listed metrics have the catalog's name and price, others stay, and the features are those known before and those listed. |
| `CatalogSync.CountsAreTrue` | src/synapse_saas/subscriptions/sync.py:41-124 | The counts reported are the numbers of listed features, metrics and plans without a row, of listed plans whose row said something else, and of live plans not listed. |
| `CatalogSync.OwnOverage` | src/synapse_saas/subscriptions/catalog.py:147-156 | Looking a plan up by key finds its own override, else the metric's default. |
| `CatalogSync.SecondSyncIsNoop` | src/synapse_saas/subscriptions/sync.py:41-124 | A second sync of the same catalog changes no table and reports all zeros. |
| `CatalogSync.FirstSyncSucceedsIff` | src/synapse_saas/subscriptions/sync.py:80-138 | On empty plan tables the sync succeeds if and only if no plan lists a feature twice. |
| `CatalogSync.RepeatedFeatureFails` | src/synapse_saas/subscriptions/catalog.py:97-139 | Validation does not ask for that: any valid catalog stays valid when a plan lists one of its features again, and its first sync then fails. |
| `CatalogSync.InsertableIff` | src/synapse_saas/subscriptions/sync.py:127-138 | The insert condition means: every feature listed twice already has a row. |

## Left out

- Cache.VersionedCache.Bump: for the in-process backend, whose calls succeed; counters kept elsewhere do not expire.
- CacheProtocol.StepKeeps: counters do not expire during a run, which `CacheExpiry` treats for one key at a time; bodies are functions of rows, so what one would become by the passage of time alone (a grant running out, a trial ending) is not modelled.
- CacheProtocol.RollbackKeeps: requires that the session's own cached bodies cannot be hit; nothing in the code enforces that or keeps a session from reloading its own rows through the cache, and `CacheNecessity.CarelessIsCoherentIff` says what follows.
- Entitlements.EntitledHitIsFresh: for runs without a catalog sync; with one it fails, as `Entitlements.CatalogSyncGoesUnnoticed` and `Entitlements.CoherentIffCatalogStands` say exactly.
- Entitlements.RoundTrip: the JSON value, not its text; cached fields of an unexpected type count as corrupt.
- Cache.ScopedKeysDistinct: for tokens without a closing bracket, which the versions joined by the code never contain but the scope names could.
- MeteringConcurrency.Serializable: transactions of record and consume requests; gauges under concurrency and the soft-limit announcement are only in the one-at-a-time service, since capacity checks rely on a lock their caller holds (src/synapse_saas/usage/service.py:285-309).
- Proration.AdvanceMatchesArrears: quotients are exact before they are rounded to six places; the decimal context's 28 digits are not modelled.
- Invoicing.MoneyConserved: credits left on a subscription cancelled at once stay counted with it, since no code path bills or refunds them; tax, currency and stored line texts are left out.
- Invoicing.RunKeepsSound: numbering with finalizes of one organization taken one after another; the status is read before the organization's lock is taken (src/synapse_saas/billing/invoicing.py:194-203).
- FgaSync.FgaStore.ApplyTupleSync: the read returns some of the object's tuples, since the code ignores the store's pagination; the order of the sorted diff is any order; two syncs of one member running at once are not modelled.
- Fga.TranslationMeaning: users, organizations and projects are (kind, id) pairs rather than their texts; the readable form of the model, conditions and type restrictions are left out.
- Rbac.RunKeepsSound: permission lists are sets (their sorted order is not modelled), e-mail addresses are compared already normalised, system roles are not re-seeded during a run, and reads see current rows.
- Permissions.NeverMisleadsIff: decisions cached from the relationship store are not modelled.
- SubscriptionBilling.RunAgrees: a plan snapshot is the plan's key, price and interval; the open invoice a checkout writes at once is only in `Webhooks`.
- Tokens.AcceptedOnce: each call is one step; two refreshes of one token running at once are not claimed, as the lookup takes no lock (src/synapse_saas/identity/service.py:249-254).
- Webhooks.IngestIsApplyOnce: signature checks and the translation of payloads are parameters; provider-invoice upserts are applied exactly once but their status is assigned without a transition check, so no claim is made about their order; of several subscriptions with one provider reference the lookup takes the oldest.
- RateLimiter.Limiter.CheckLocal: one limit and window per limiter and a clock that does not run backwards; the Redis variant is left out.
- Preferences.CheckShape: key syntax, key counts and byte sizes are left out; numbers are integers.
- CatalogSync.Database.SyncPlans: feature and limit rows are grouped under their plan; parsing of the catalog file and its field patterns are left out, as are descriptions, metric kinds and units.
- Audit rows, outbox events, logging, metrics, HTTP, row-level security, e-mail, PDFs, providers' networks, password and token hashing: I/O and glue; hashes are taken as one-to-one.
- Worker jobs, delivery retries, API keys, storage, agents, notifications, migrations, command line, web console and SDKs: not part of this model.
