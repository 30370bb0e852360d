# otel-fleet, modelled and proved

A Dafny model of the parts of otel-fleet whose behaviour spans many calls, and proofs of what those
parts keep over every run and every input.

- **Pipeline compiler.** Graphs are validated (`Validate`), named (`Slug`, `Naming`) and rendered
  (`Render`, `Renderer`) into collector configurations. A configuration has a denotation, the
  deliveries one tenant's data makes (`Collector`), and rendering preserves the meaning of the
  pipelines (`Compiler`, `EdgeCompiler`), independently of input order and tenant by tenant
  (`Determinism`), with every ID defined once and every reference resolved (`Identifiers`,
  `References`).
- **Secrets.** The schema-directed walk over password fields (`Secrets`, `SecretWalks`,
  `SecretPlaces`, `SecretPaths`, `SecretNames`), the envelope cipher (`Crypto`), and what encrypting,
  redacting and decrypting a graph mean together (`GraphSecrets`, `SecretIssues`, `Redaction`,
  `SecretEdits`), up to the stored version (`Prepare`).
- **OpAMP server.** The message handler, registry and agent rows as one state machine (`OpAMP`), and
  what every run of messages, closes, pushes, restarts and failing writes keeps and records
  (`OpAMPRuns`, `OpAMPEvents`).
- **Ingest authentication.** The LRU of verdicts (`KeyCache`) and the fresh, negative and
  stale-if-error rules (`TenantAuth`, `TenantServing`).
- **Quotas.** Token buckets with lazy sweeps (`TenantQuota`, `QuotaWindows`).
- **Access.** SCIM group requests, derived roles and grants, the last-admin rule and the Guard's
  tenant scope (`Access`, `AccessRuns`, `ScimRequests`), and what a PATCH of several operations does
  (`ScimPatch`).
- **Alerts and leadership.** The two-phase alert pass (`Alerting`, `AlertRules`), what it sends over a run
  (`AlertDelivery`), and leader election over session locks (`LeaderElection`).

Code that changes state is modelled by classes and methods with loops, each proved equal to a
specification function; the theorems are about those functions. Clocks, random nonces, failing
store writes of the OpAMP server, failing reads of an alert pass, failing SCIM recomputes,
control-plane replies, query results and the collector's own validation are parameters, so every
theorem holds for all of them. The component catalog is a parameter too, with slash-free
types and configs that are not themselves passwords (`Validate.PlainTypes`, `Secrets.PlainRoots`),
as the catalog's own entries are. Each store transaction and each OpAMP message is one atomic
step.

Where documentation and code disagree the model follows the code:

- The leader package says exactly one replica runs the work at a time. After a lock session dies the
  old worker may still be running when the next one starts (`LeaderElection.DeathAdmitsSecondWorker`).
  It calls the unlock best-effort because a dead connection frees the lock; an unlock that fails on a
  live session leaves it taken until that session dies (`LeaderElection.FaultLeaks`).
- The quota sweep is described as harmless. It is unseen whenever idle gaps refill the bucket
  (`TenantQuota.SweepsInvisible`) and, of a kind of gap, only then
  (`TenantQuota.SweepInvisibleExactly`); with limits that never rise, exactly for bursts within the
  idle timeout (`TenantQuota.SteadyLimitsExactly`). A burst beyond it breaks the window bound
  (`TenantQuota.WindowBoundNeedsIdleTimeout`).
- A SCIM PATCH whose member change fails keeps its rename without recomputing anyone
  (`AccessRuns.RenamedOnlyAgreesIffHarmless`), and a recompute that fails is only logged
  (`AccessRuns.HandleKeepsAgreement`, `AccessRuns.OnlyStaleDisagree`).
- The operations of a SCIM PATCH are applied at once, not in order (`ScimPatch.SequentialIffSafe`).
- A sentinel is documented as keeping the stored secret. It keeps the one stored at the same path, so
  a node moved to another position takes over the secrets stored there
  (`SecretEdits.KeepsSecretsExactly`, `SecretEdits.SwappedExportersSwapTokens`). Path texts are
  unambiguous for schemas of the catalog's shape (`SecretNames.CatalogGraphsResubmit`); other schemas
  could make them ambiguous (`SecretEdits.DottedGraphFails`).

## Model

| member | source | states |
|---|---|---|
| `TenantQuota.RetryHint` | collector/processor/tenantquota/bucket.go:98-107 | deficit/rate in whole nanoseconds, rounded down, where that lies between 100ms and 30s; 100ms below and 30s beyond |
| `TenantQuota.Registry.constructor` | collector/processor/tenantquota/bucket.go:43-49 | a new registry has no buckets and has never swept |
| `TenantQuota.Registry.MaybeGC` | collector/processor/tenantquota/bucket.go:111-121 | when a sweep is due, exactly the buckets idle for ten minutes or more are removed and the sweep time is set; otherwise nothing changes |
| `TenantQuota.Registry.TakeTokens` | collector/processor/tenantquota/bucket.go:61-94 | the new buckets, the answer and the retry hint are those of one step of the token-bucket specification, all-or-nothing |
| `TenantQuota.Registry.Admit` | collector/processor/tenantquota/processor.go:82-115 | an unknown tenant, no limit or no items passes without touching the registry; everything else is decided by the tenant's bucket |
| `TenantQuota.GcKeepsPotential` | collector/processor/tenantquota/bucket.go:111-121 | a sweep does not change what a tenant could still spend, when a bucket refills within the idle timeout |
| `TenantQuota.StepSpendsPotential` | collector/processor/tenantquota/bucket.go:61-94 | what one call admits is paid from the tokens the tenant held plus what it earned since |
| `TenantQuota.WindowBound` | collector/processor/tenantquota/bucket.go:61-121 | for every run of calls in clock order over any tenants, with positive limits at most `top` for this tenant and a burst within the idle timeout, the items admitted in any interval total at most top × (burst + its length), sweeps included |
| `TenantQuota.WindowBoundNeedsIdleTimeout` | collector/processor/tenantquota/bucket.go:15-18 | for every burst longer than the idle timeout there is a run that breaks the bound |
| `TenantQuota.SweepsInvisible` | collector/processor/tenantquota/bucket.go:69-93 | answers and hints are those of a registry that never deletes, for every run in which each idle gap refills the bucket at the old rate |
| `TenantQuota.SweepsInvisibleForSteadyLimits` | collector/processor/tenantquota/bucket.go:69-121 | in particular for every run whose limits never rise across a gap, with a burst within the idle timeout |
| `TenantQuota.ShortRefillShowsSweep` | collector/processor/tenantquota/bucket.go:69-93 | for any positive burst and limits and any gap of the idle timeout or more in which the old limit earns less than the new limit's bucket holds, a run with no other idle gap shows the sweep |
| `TenantQuota.SweepInvisibleExactly` | collector/processor/tenantquota/bucket.go:69-93 | so over all runs whose idle gaps are of one kind, in length and in the limits on both sides, the sweep is unseen if and only if the old limit earns in the gap what the new limit's bucket holds |
| `TenantQuota.SteadyLimitsExactly` | collector/processor/tenantquota/bucket.go:15-18 | and over all runs whose limits never rise across an idle gap, it is unseen if and only if the burst is within the idle timeout |
| `QuotaWindows.HaveIsLeast` | collector/processor/tenantquota/bucket.go:61-94 | in every run, what a call has to spend is the least that any window of its tenant's calls ending with it leaves of a full bucket plus the tokens earned in it |
| `QuotaWindows.AdmittedExactly` | collector/processor/tenantquota/bucket.go:61-121 | in every run whose idle gaps refill, sweeps included and with any changes of limits, a call is admitted if and only if it fits every such window |
| `QuotaWindows.SteadyAdmittedExactly` | collector/processor/tenantquota/bucket.go:61-121 | with one limit for the tenant and a burst within the idle timeout, a call is admitted if and only if every window ending with it stays within limit × (burst + its length): the converse of the window bound |
| `QuotaWindows.RetryExactly` | collector/processor/tenantquota/bucket.go:84-107 | a rejected call made again by its tenant is admitted if and only if it fits a full bucket and the time waited covers its deficit; waiting out a hint below 30s is enough, and waiting less than one above 100ms is not |
| `KeyCache.Cache.constructor` | collector/extension/tenantauth/cache.go:37-43 | an empty cache of the given bound |
| `KeyCache.Cache.MoveToFront` | collector/extension/tenantauth/cache.go:46-55 | the element becomes the most recent and the others keep their order; list and map still hold the same elements |
| `KeyCache.Cache.Get` | collector/extension/tenantauth/cache.go:46-55 | the entry stored under the key, which becomes the most recent; nothing else changes |
| `KeyCache.Cache.Put` | collector/extension/tenantauth/cache.go:57-74 | an existing key is overwritten and becomes most recent; a new one is pushed in front and the list is cut from the back to the bound; list and map stay in agreement |
| `KeyCache.Cache.EvictOldest` | collector/extension/tenantauth/cache.go:66-73 | the eviction loop cuts the recency list to the bound from the back |
| `KeyCache.OperationsKeepDistinct` | collector/extension/tenantauth/cache.go:46-74 | keys stay distinct, a lookup keeps the size, and an insertion never leaves more than the bound |
| `KeyCache.LastIsOldest` | collector/extension/tenantauth/cache.go:66-73 | the element at the back is the one used longest ago, and the only such one |
| `KeyCache.AgreeStep` | collector/extension/tenantauth/cache.go:46-74 | one operation keeps the list equal to a map with last-use stamps and gives the answer that map gives |
| `KeyCache.ListIsLeastRecentlyUsed` | collector/extension/tenantauth/cache.go:46-74 | over every sequence of operations the list and map answer exactly as an LRU defined by last-use stamps, which evicts only its least recently used key |
| `TenantAuth.EffectiveTTL` | collector/extension/tenantauth/extension.go:163-168 | the shorter of the configured TTL and the server's, when the server gives one |
| `TenantAuth.Authenticator.constructor` | collector/extension/tenantauth/extension.go:70-88 | a new authenticator has an empty cache |
| `TenantAuth.Authenticator.Authenticate` | collector/extension/tenantauth/extension.go:120-188 | the outcome and the new cache are those of one specification step: fresh cache first, then the control plane, then stale-if-error |
| `TenantAuth.Authenticator.AskControlPlane` | collector/extension/tenantauth/extension.go:140-187 | the outcome and cache after a control-plane reply or failure |
| `TenantAuth.VerdictReplaces` | collector/extension/tenantauth/extension.go:154-185 | a verdict obtained from the control plane replaces whatever the cache held for the key |
| `TenantAuth.CacheJustified` | collector/extension/tenantauth/extension.go:120-188 | in every run each cached slot is the entry of the key's latest verdict, and keys are distinct |
| `TenantAuth.BoundedStaleness` | collector/extension/tenantauth/extension.go:120-188 | every accepted request rests on the key's latest verdict so far, which is positive and whose identity is attached; served fresh, that verdict is younger than min(TTL, server TTL), and served stale, younger than stale-if-error; eviction does not matter |
| `TenantAuth.StalenessUnderConfig` | collector/extension/tenantauth/config.go:89-107 | under a validated configuration the verdict behind an accepted request is younger than max(TTL, stale-if-error) |
| `TenantAuth.RevocationHolds` | collector/extension/tenantauth/extension.go:146-161 | after a negative verdict a key is refused until a later positive verdict, fresh or stale |
| `TenantServing.SlotSurvives` | collector/extension/tenantauth/cache.go:46-75 | a verdict's entry is still cached, unchanged, until as many other digests as the cache holds were used |
| `TenantServing.VerdictIsServed` | collector/extension/tenantauth/extension.go:120-188 | over every run, while its slot is not evicted, a key is answered from its latest verdict: accepted with that identity until min(TTL, server TTL), and through control-plane failures until stale-if-error; refused until the negative TTL; afterwards as the control plane answers |
| `TenantServing.UnknownKeyIsAsked` | collector/extension/tenantauth/extension.go:140-187 | a key without an earlier verdict is accepted, refused or unavailable as the control plane answers |
| `TenantServing.MissingKeyExactly` | collector/extension/tenantauth/extension.go:120-125 | exactly requests without a key are refused as such, without touching the cache |
| `LeaderElection.StepLock` | internal/leader/leader.go:85-141 | every step keeps the lock free or with a live session, and with the session of any replica in office whose session lives |
| `LeaderElection.Invariant` | internal/leader/leader.go:68-141 | the session, lock and worker invariants hold after every interleaving of campaigns, worker exits, cancellations, session deaths, and lock, ping and unlock errors on closed or open connections |
| `LeaderElection.OneLiveLeader` | internal/leader/leader.go:68-141 | two replicas that run a worker on a live session are the same one, and its session holds the lock |
| `LeaderElection.UnlockAfterWorker` | internal/leader/leader.go:117-141 | no replica unlocks or releases its connection while its worker runs |
| `LeaderElection.LockOutlivesWorker` | internal/leader/leader.go:103-141 | no step but the session's death or the worker's return takes office from a running leader |
| `LeaderElection.OneWorkerWithoutDeaths` | internal/leader/leader.go:68-141 | in runs where no session dies at most one worker runs at all |
| `LeaderElection.DeathAdmitsSecondWorker` | internal/leader/leader.go:1-12 | in every reachable state with a live leader, the death of its session lets any idle replica start a second worker beside it; so the package's "exactly one replica at a time" is what runs without session deaths have |
| `LeaderElection.TwoWorkersAfterOneDeath` | internal/leader/leader.go:1-12 | such runs exist for any two replicas and sessions |
| `LeaderElection.FailedUnlockKeepsLock` | internal/leader/leader.go:100-109 | an unlock that fails on an open connection leaves the lock with a pooled session that leads nothing |
| `LeaderElection.LeakedUntilDeath` | internal/leader/leader.go:85-141 | a lock held once more than the term under way will give back stays with its session in every run in which that session does not die, later terms and their unlocks included, and no other replica leads with a live session |
| `LeaderElection.FaultLeaks` | internal/leader/leader.go:85-109 | every lock taken behind an error and every unlock that does not run while its session lives leaks the lock in this way; a later term on that session holds it at depth two or more, so its unlock does not free it |
| `LeaderElection.NoFaultNoLeak` | internal/leader/leader.go:68-141 | and in runs without such faults no lock leaks: whenever nobody is in office the lock is free |
| `LeaderElection.CancelledStaysOut` | internal/leader/leader.go:68-81 | a cancelled replica out of office stays out and runs nothing in every later run |
| `LeaderElection.LeadershipHandsOver` | internal/leader/leader.go:68-141 | a cancelled leader that holds the lock once frees it after its worker has returned, and any idle replica can then take office |
| `Alerting.Service.constructor` | internal/alerting/alerting.go:102-107 | nothing is firing at first |
| `Alerting.Service.IndexRefs` | internal/alerting/alerting.go:159-164 | customers are looked up by ID, the last of equal IDs winning |
| `Alerting.Service.ChannelsFor` | internal/alerting/alerting.go:345-353 | the rule's channels that exist, in the rule's order |
| `Alerting.Service.Record` | internal/alerting/alerting.go:203-275 | one observation updates the firing map, the pending notices and the critical scopes as specified |
| `Alerting.Service.EvalPromQL` | internal/alerting/alerting.go:281-343 | the PromQL rule visits its regional observations, or none when listing regions fails |
| `Alerting.Service.EvalCustomers` | internal/alerting/alerting.go:229-275 | a tenant metric visits one observation per customer in scope |
| `Alerting.Service.EvalRule` | internal/alerting/alerting.go:203-275 | a rule visits exactly its specified observations |
| `Alerting.Service.Dispatch` | internal/alerting/alerting.go:191-201 | exactly the pending notices with channels that are not inhibited are sent, in order |
| `Alerting.Service.Evaluate` | internal/alerting/alerting.go:137-187 | a pass visits every enabled rule's observations and then dispatches; it fails exactly when a store read it needs fails, and then, as when silenced, nothing changes and nothing is sent |
| `Alerting.VisitsKeepStep` | internal/alerting/alerting.go:203-343 | a key's transitions so far stay in step with its firing state through any observations |
| `Alerting.TransitionsAlternate` | internal/alerting/alerting.go:137-343 | for any passes, values, failures and rule sets, the transitions of every key alternate firing and resolved, starting with firing, and the last one is the key's state |
| `Alerting.PendingWithoutOrder` | internal/alerting/alerting.go:203-343 | the bag of transitions of a pass is a sum over its observations, each decided by the state before the pass |
| `Alerting.CriticalScopes` | internal/alerting/alerting.go:203-343 | the critical scopes of a pass are the scopes of its breached critical observations |
| `Alerting.RuleOrderIrrelevant` | internal/alerting/alerting.go:137-201 | reordering the rules of a pass changes neither the firing map nor the critical scopes nor the bag of notices sent |
| `Alerting.InhibitionDropsExactly` | internal/alerting/alerting.go:191-201 | a pending notice with channels is dropped exactly when inhibition is on, it is a non-critical firing, and a critical rule of the same pass is breached in its scope |
| `AlertRules.ScopeExactly` | internal/alerting/alerting.go:213-227 | a rule's scope is its pinned customer, if known, else every customer |
| `AlertRules.ChannelsExactly` | internal/alerting/alerting.go:345-355 | a rule notifies exactly the enabled webhooks it lists |
| `AlertRules.CustomerKeyFires` | internal/alerting/alerting.go:203-275 | after a pass, a customer's key fires if and only if the customer's reading, or zero without one, is beyond the threshold on the rule's side |
| `AlertRules.RegionKeyFires` | internal/alerting/alerting.go:281-343 | a region's key fires if and only if its query gives such a value; no data does not |
| `AlertRules.UnaskedKeyKept` | internal/alerting/alerting.go:137-343 | a key no rule asks about, or whose metric or region cannot be read, keeps its state and gets no notice |
| `AlertRules.NoticesExactly` | internal/alerting/alerting.go:229-343 | a pass notifies exactly of the keys whose state changes, with the new state, the rule's severity, the value read and the rule's webhooks |
| `AlertRules.PassKinds` | internal/alerting/alerting.go:137-187 | every pass is quiet, fails to read what it needs or evaluates its rules, and just one of these; unless it evaluates nothing changes and nothing is pending |
| `AlertDelivery.LedgerMatches` | internal/alerting/alerting.go:137-203 | over any run, the key's ledger of transitions, each sent or withheld, has the flags of all its transitions and of the notices sent for it |
| `AlertDelivery.SentAlternateExactly` | internal/alerting/alerting.go:137-203 | over any run, the notices sent for a key alternate, firing first, if and only if an even number of its transitions was withheld before each of them |
| `AlertDelivery.HeardAlternateExactly` | internal/alerting/alerting.go:137-203 | for a key whose transitions all have channels, they alternate if and only if no transition but possibly the last was withheld, and always without inhibition; an inhibited firing that resolves is followed by a resolve nobody was told about |
| `Access.Server.QueryNames` | internal/store/pg_scim_groups.go:326-345 | the names of the groups the user is in |
| `Access.Server.ReadNames` | internal/store/pg_scim_groups.go:347-363 | one pass over the names finds the highest known role, whether any name is mapped, and the named customers; the result is the derivation from the set of names |
| `Access.Server.ResolveSlugs` | internal/store/pg_scim_groups.go:386-398 | the customers of the slugs that exist |
| `Access.Server.RecomputeAccess` | internal/store/pg_scim_groups.go:315-413 | the user's role, grants and managed flag become the derived ones, except that an admin, enabled or disabled, keeps the role while at most one enabled admin exists; an unmapped, unmanaged user is left alone |
| `Access.Server.Recompute` | internal/scim/groups.go:306-315 | every affected user but those whose transaction fails is recomputed, in some order |
| `Access.Server.InsertMembers` | internal/store/pg_scim_groups.go:52-64 | all members are added, or the write fails when one is unknown |
| `Access.Server.UpdateGroup` | internal/store/pg_scim_groups.go:167-227 | the new group row and the affected users, or no change at all when the write fails |
| `Access.Server.ModifyMembers` | internal/store/pg_scim_groups.go:231-275 | members added, then removed; the affected users are those named, or no change at all when the write fails |
| `Access.Server.FoldOperations` | internal/scim/groups.go:184-233 | the operations fold into one plan of name, adds, removes and an optional replacement |
| `Access.Server.CreateGroup` | internal/scim/groups.go:101-129 | the group is created and exactly its members are recomputed, save failing recomputes, or nothing changes |
| `Access.Server.PutGroup` | internal/scim/groups.go:139-159 | name, external ID and members are replaced and everyone affected is recomputed, or nothing changes |
| `Access.Server.PatchGroup` | internal/scim/groups.go:172-281 | the plan's writes and recomputations; when the member write fails after the rename, the rename stays and nobody is recomputed |
| `Access.Server.DeleteGroup` | internal/scim/groups.go:283-299 | the group goes and its members are recomputed |
| `Access.Server.UpdateUser` | internal/store/pg_users.go:205-253 | role and disabled flag change, and the update succeeds, exactly when the user exists and an enabled admin would remain |
| `Access.Server.DeleteUser` | internal/store/pg_users.go:258-282 | the user and its memberships go, and the deletion succeeds, exactly when the user exists and an enabled admin would remain |
| `Access.BestIsDerived` | internal/store/pg_scim_groups.go:347-373 | a role that some name gives and no name exceeds is the derived role |
| `AccessRuns.HandleIsHandler` | internal/scim/groups.go:101-299 | the run model's step is the handlers' effect on the database |
| `AccessRuns.UpdateCovers` | internal/store/pg_scim_groups.go:167-227 | the affected set of a group update covers everyone whose group names changed |
| `AccessRuns.ModifyCovers` | internal/store/pg_scim_groups.go:231-275 | so does that of a member change |
| `AccessRuns.CreateCovers` | internal/store/pg_scim_groups.go:69-96 | so does that of a creation |
| `AccessRuns.DeleteCovers` | internal/store/pg_scim_groups.go:279-300 | so does that of a deletion |
| `AccessRuns.AffectedCoversChanges` | internal/scim/groups.go:101-299 | for every request that succeeds, everyone whose group names changed is recomputed |
| `AccessRuns.RecomputeEstablishes` | internal/store/pg_scim_groups.go:315-413 | recomputing a user makes their access agree with the derivation and touches nobody else's |
| `AccessRuns.RecomputeExactly` | internal/store/pg_scim_groups.go:315-413 | a recompute of a managed or mapped user gives exactly the derived grants and role, except that an admin keeps the role if and only if no two enabled admins exist; nothing else changes, and nobody else is touched |
| `AccessRuns.HandleKeepsAgreement` | internal/scim/groups.go:101-299 | from agreement, a request keeps every user's access in agreement with the derivation from current group names, except exactly a PATCH that fails after a harmful rename and a request that gives other access to a user whose recompute fails |
| `AccessRuns.AgreementOverRuns` | internal/scim/groups.go:101-299 | so does every run of requests without such a PATCH or failure |
| `AccessRuns.RetainedWereSpared` | internal/store/pg_scim_groups.go:374-384 | over every run, whoever is excused from the derived role was once recomputed as an admin while no two enabled admins existed |
| `AccessRuns.IncrementalEqualsFromScratch` | internal/scim/groups.go:101-299 | from a database without groups, after every run of requests without such a PATCH or failure, each user in a mapped group is managed, and each managed user has exactly the derived grants and the derived role, or is an admin kept by the last-admin rule |
| `AccessRuns.RenamedOnlyAgreesIffHarmless` | internal/scim/groups.go:249-270 | when a PATCH fails after its rename, agreement survives if and only if the new name gives every member of the group, on top of their other groups, the grants and role the old one gave |
| `AccessRuns.RenamedOnlyCanDisagree` | internal/scim/groups.go:249-270 | and there is a PATCH that leaves a user with the grants of the old name |
| `AccessRuns.FailedRecomputeCanDisagree` | internal/scim/groups.go:303-315 | there is a failing recompute that leaves a member of a mapped group unmanaged |
| `AccessRuns.OnlyStaleDisagree` | internal/scim/groups.go:101-315 | after every run of requests, whatever fails, only users whose recompute was missed since it last succeeded can differ from the derivation; a recompute repairs its user |
| `AccessRuns.RecomputeKeepsAdmin` | internal/store/pg_scim_groups.go:374-384 | a recomputation never removes the last enabled admin |
| `AccessRuns.AnAdminAlwaysRemains` | internal/store/pg_users.go:205-296 | over every run of user updates, deletions, logins, additions, grant edits and SCIM requests, an enabled admin remains if there was one |
| `AccessRuns.ManagedStaysScoped` | internal/api/middleware.go:150-169 | a managed user stays managed until deleted, so unless admin the Guard scopes them to exactly their grants, and no grants is no customers |
| `AccessRuns.GuardFollowsGroups` | internal/api/middleware.go:150-169 | after any run of group requests without such a PATCH or failure the Guard lets a non-admin in a mapped group reach exactly the customers their groups name |
| `AccessRuns.GuardReachesExactly` | internal/api/middleware.go:150-169 | for every user row: the Guard lets it reach a customer if and only if it is admin, has that grant, or has no grants and is not managed by SCIM |
| `ScimPatch.DoneIsAtOnce` | internal/scim/groups.go:235-281 | a PATCH that succeeds leaves the group's name and members as the folded plan says |
| `ScimPatch.SequenceDecides` | internal/scim/groups.go:188-233 | applied one after the other, the last operation that mentions a user decides, and the last name given stays |
| `ScimPatch.DecidesAlike` | internal/scim/groups.go:188-269 | the folded plan decides a user as the sequence does exactly when the order is safe for them |
| `ScimPatch.SequentialIffSafe` | internal/scim/groups.go:169-281 | applying the operations at once gives, for every group, what applying them in order (section 3.5.2 of RFC 7644) gives, if and only if nobody whose last mention is an add is also removed and, with a replacement, nobody's last mention contradicts the last one |
| `ScimPatch.ReaddIsLost` | internal/scim/groups.go:260-269 | removing a member and adding them back leaves them out |
| `ScimRequests.RoleIsStrongest` | internal/store/pg_scim_groups.go:347-372 | the derived role is the strongest known one a group names, else the default |
| `ScimRequests.GrantsExactly` | internal/store/pg_scim_groups.go:347-398 | a customer is granted if and only if a group is named by the customer prefix and its slug and not by the role prefix |
| `ScimRequests.RequestExactly` | internal/scim/groups.go:101-299 | a request is done if and only if its name is not blank, its group known, its external ID free and its members users; then the group is the one asked for, no other group changes, and only its members and the users named are recomputed |
| `ScimRequests.UserEditExactly` | internal/store/pg_users.go:205-253 | an edit is made if and only if the user is left an enabled admin or there is another one, and changes only what it names |
| `ScimRequests.UserDeleteExactly` | internal/store/pg_users.go:258-282 | a user goes, from every group too, if and only if there is another enabled admin |
| `ScimRequests.LoginExactly` | internal/store/pg.go:343-398 | a login creates an unknown user and changes nothing of a known one but a promotion to admin |
| `ScimRequests.GroupsStaySound` | internal/store/pg_scim_groups.go:20-300 | over every run of requests, user edits and logins, no two groups share an external ID and every member is a user |
| `OpAMP.Handler.constructor` | internal/opamp/handler.go:93-95 | a new server has the rows of the database and no connections |
| `OpAMP.Handler.RegistryPut` | internal/opamp/registry.go:63-74 | the agent is bound to its connection and its previous connection is forgotten |
| `OpAMP.Handler.RegistryUpdate` | internal/opamp/registry.go:89-95 | the live state changes only when the agent is registered |
| `OpAMP.Handler.ResolveAgent` | internal/opamp/handler.go:334-401 | an unregistered agent is seeded from its row, enrolled from a description, asked for its full state, or refused for another customer |
| `OpAMP.Handler.HandleRemoteConfigStatus` | internal/opamp/handler.go:407-460 | the acknowledged hash and the status, in memory and in the row, and the events and hooks, under any failing write |
| `OpAMP.Handler.HandleHealth` | internal/opamp/handler.go:476-507 | the health in memory and in the row, an event exactly on a flip, and nothing when the write fails |
| `OpAMP.Handler.MaybeOfferConfig` | internal/opamp/handler.go:511-535 | the assigned hash is recorded and the config is offered when its hash is not the acknowledged one |
| `OpAMP.Handler.Attach` | internal/opamp/handler.go:227-259 | the agent is registered on the connection, and a new connection is marked in the row |
| `OpAMP.Handler.HandleMessage` | internal/opamp/handler.go:172-287 | one message does what the specification of a message says, on every branch and under any failing writes |
| `OpAMP.Handler.HandleConnectionClose` | internal/opamp/handler.go:539-554 | the close of a current connection removes the agent, marks the row and raises one offline event; any other close does nothing |
| `OpAMP.Handler.EdgeConfigChanged` | internal/opamp/handler.go:563-605 | every capable registered agent of the customer is assigned the current hash unless that write fails, exactly those whose transport takes it are sent the config, and the disconnected agents are counted |
| `OpAMPRuns.AcceptedMessage` | internal/opamp/handler.go:172-287 | what an accepted message does to its own agent, and that it changes no other agent's memory or row |
| `OpAMPRuns.RefusedMessage` | internal/opamp/handler.go:188-225 | a refused message changes no connection, and no row but that of an agent it enrolls |
| `OpAMPRuns.NextCoherent` | internal/opamp/handler.go:334-507 | one step keeps every registered agent's status and health in memory equal to its row, whatever writes fail |
| `OpAMPRuns.MemoryFollowsRows` | internal/opamp/handler.go:334-507 | so does every run, restarts included |
| `OpAMPRuns.NextLogged` | internal/store/pg_fleet.go:400-417 | one step keeps an agent's health events alternating and ending in the health of its row |
| `OpAMPRuns.HealthEventsAlternate` | internal/opamp/handler.go:476-507 | in every run, over reconnects, restarts and failing writes, an agent's healthy and unhealthy events alternate and the last one is what its row shows |
| `OpAMPRuns.RoutesStayCurrent` | internal/opamp/registry.go:63-116 | in every run each connection entry leads to an agent whose current connection it is |
| `OpAMPRuns.SupersededCloseIsSilent` | internal/opamp/registry.go:99-116 | in every run, closing a connection that is nobody's current one changes nothing: no agent is removed and no offline event raised |
| `OpAMPRuns.MapsStayInverse` | internal/opamp/registry.go:63-116 | with one instance UID per connection the two registry maps are inverse in every run |
| `OpAMPRuns.CloseUnregistersExactly` | internal/opamp/registry.go:99-116 | in every run, closing a connection unregisters an agent if and only if the connection map leads to it, whoever else talked over the connection |
| `OpAMPRuns.StrandedOverRuns` | internal/opamp/registry.go:63-116 | a registered agent no connection leads to stays registered, with its row as connected as it was, over every run without its own messages and restarts |
| `OpAMPRuns.SharedConnectionStrands` | internal/opamp/registry.go:63-116 | so when another agent's message arrives over an agent's connection, no later close takes that agent offline until it speaks again or the server restarts |
| `OpAMPRuns.PresenceExactly` | internal/opamp/handler.go:252-259 | from agreement, one step leaves rows and registry in agreement on who is connected exactly when it does not lose a presence change |
| `OpAMPRuns.PresenceOverRuns` | internal/opamp/handler.go:539-554 | in every run that loses none, a row shows connected exactly when its agent is registered |
| `OpAMPRuns.AckExactly` | internal/opamp/handler.go:407-431 | from agreement, one step makes memory and row disagree on the acknowledged hash exactly when it loses a change of it |
| `OpAMPRuns.AckOverRuns` | internal/store/pg_fleet.go:355-364 | in every run that loses no such change, memory and row agree |
| `OpAMPRuns.NextWants` | internal/opamp/handler.go:511-535 | whatever a step does, an agent keeps its customer, and an assigned current config stays assigned while it is current |
| `OpAMPRuns.CurrentIsNeverOffered` | internal/opamp/handler.go:511-535 | once an agent has acknowledged its customer's current config, no message of its is answered with an offer, whatever is assigned, over every run of messages, reconnects, restarts, pushes and failing writes, until the config changes or it reports another hash or none |
| `OpAMPRuns.InSyncIsLeftAlone` | internal/api/handlers_fleet.go:32-38 | and an agent whose assigned hash is also that one stays in sync and is shown in sync over every such run |
| `OpAMPRuns.ComparingAssigns` | internal/opamp/handler.go:511-523 | a connect or description message of a capable agent records the current config as assigned, when that write succeeds |
| `OpAMPRuns.ComparingSettles` | internal/opamp/handler.go:407-431 | such a message of an agent that has, or now reports, the current config brings it in sync |
| `OpAMPRuns.CurrentBecomesInSync` | internal/opamp/handler.go:261-277 | an agent that has the current config, whatever is assigned, is in sync from its first such message and stays so over every run in which the config stays and it reports no other |
| `OpAMPRuns.PushAssigns` | internal/opamp/handler.go:563-576 | a push records the current config for every capable registered agent whose write succeeds |
| `OpAMPRuns.AssignedThenAck` | internal/opamp/handler.go:407-421 | once a config is assigned, any run that keeps it current and loses no acknowledgement, followed by its acknowledgement, brings the agent in sync |
| `OpAMPRuns.OfferExactly` | internal/opamp/handler.go:271-277 | a connect or description message of a capable agent, enrolled before or by it, is answered with the current config exactly when the agent does not have it |
| `OpAMPRuns.ReconnectOffersCurrent` | internal/opamp/handler.go:334-355 | whatever happens while an agent is away, its next connect offers the config current then, unless that is the one it acknowledged or reports |
| `OpAMPRuns.UnsetIsOffered` | internal/opamp/handler.go:422-431 | an agent that connects reporting no config is offered the current one, whatever its row says |
| `OpAMPRuns.OfferThenAck` | internal/opamp/handler.go:261-277 | a recorded offer, then any such run, then its acknowledgement brings the agent in sync |
| `OpAMPRuns.PushThenAck` | internal/opamp/handler.go:563-605 | a push, then any such run, then its acknowledgement brings the agent in sync |
| `OpAMPEvents.ServedExactly` | internal/opamp/handler.go:172-401 | a message is served if and only if its agent is connected or stored as the customer's and the token fits it, or the message describes a new agent that can be enrolled and the token fits; the full state is asked for exactly when the agent can be neither looked up nor enrolled |
| `OpAMPEvents.MessageRecords` | internal/opamp/handler.go:172-535 | a served message records the reported status and health where the writes succeed, logs exactly the enrolled, connected, config and health events its news call for, and raises the webhook of each failed config and lost health and no other |
| `OpAMPEvents.MessageUpdates` | internal/opamp/handler.go:172-535 | the row and the memory of the agent after a served message, field by field, whatever writes fail |
| `OpAMPEvents.CloseRecords` | internal/opamp/handler.go:539-554 | the close of a current connection unregisters its agent, marks and logs it disconnected where that write succeeds, and raises one offline webhook |
| `OpAMPEvents.PushRecords` | internal/opamp/handler.go:563-605 | a push records the current hash for exactly the customer's connected agents that accept configs and whose write succeeds |
| `OpAMPEvents.WebhooksOverRuns` | internal/opamp/handler.go:172-605 | over every run, config-failed and unhealthy webhooks are raised exactly with those events, in order and for their agents, and one offline webhook for each close of a current connection |
| `Crypto.TryKeys` | internal/crypto/crypto.go:110-131 | decryption gives the plaintext of the first key that opens the body, and fails on a short input, another version or an unset master key |
| `Crypto.RotatedKeysStillOpen` | internal/crypto/crypto.go:33-41 | what a cipher encrypts, any cipher decrypts that holds its key anywhere, if no key tried before opens it |
| `Crypto.DecryptsOwn` | internal/crypto/crypto.go:94-131 | a cipher decrypts what it encrypts |
| `Crypto.DecryptExactly` | internal/crypto/crypto.go:109-131 | an envelope decrypts to a text if and only if it is the version, a nonce and a body, and the first key that opens the body under the nonce gives that text |
| `Secrets.FailsByLeaf` | internal/pipelines/secrets.go:44-88 | the walk fails exactly when the function fails on a password leaf |
| `Secrets.OnlyLeavesMatter` | internal/pipelines/secrets.go:44-88 | the result depends on the function only at the password leaves |
| `Secrets.KeepIsIdentity` | internal/pipelines/secrets.go:44-88 | keeping every leaf gives the value back |
| `Secrets.WalksFuse` | internal/pipelines/secrets.go:44-88 | two walks one after the other are one walk with the functions composed |
| `Secrets.LeavesTransformed` | internal/pipelines/secrets.go:44-88 | the leaves of a transformed value are the transformed leaves, at the same paths |
| `Secrets.GraphFails` | internal/pipelines/secrets.go:94-126 | the walk over a graph fails exactly when some leaf does |
| `Secrets.GraphAgree` | internal/pipelines/secrets.go:94-126 | its result depends on the function only at the graph's leaves |
| `Secrets.GraphFuse` | internal/pipelines/secrets.go:94-126 | two walks over a graph are one |
| `Secrets.GraphFixed` | internal/pipelines/secrets.go:94-126 | a walk that gives a graph back changes none of its leaves |
| `Secrets.GraphLeavesTransformed` | internal/pipelines/secrets.go:94-126 | the leaves of a transformed graph are the transformed leaves |
| `SecretPlaces.LeavesExactly` | internal/pipelines/secrets.go:44-88 | the leaves of a walk are exactly the places that fields and items lead to and the schema marks as passwords |
| `SecretPlaces.GraphLeavesExactly` | internal/pipelines/secrets.go:90-124 | the password leaves of a graph are exactly those of nodes with a config and a type in the catalog |
| `SecretWalks.TransformSecrets` | internal/pipelines/secrets.go:44-88 | the recursion over objects and arrays computes the specified walk, in whatever order fields are visited |
| `SecretWalks.TransformGraphSecrets` | internal/pipelines/secrets.go:94-126 | the loops over both sections compute the specified graph walk |
| `SecretWalks.RecordSecrets` | internal/pipelines/secrets.go:139-148 | the recording walk writes every password leaf into the index under its path text, later writes winning |
| `SecretWalks.IndexPrevious` | internal/pipelines/secrets.go:139-148 | the index holds, at each path text of the previous version, some leaf of that text |
| `SecretWalks.SealOne` | internal/pipelines/secrets.go:151-182 | one leaf is kept, encrypted, copied forward, flagged or failed as specified |
| `SecretWalks.SealSecrets` | internal/pipelines/secrets.go:151-182 | the encrypting walk computes its result and, when no leaf fails, exactly the issues of its leaves |
| `SecretWalks.EncryptGraphSecrets` | internal/pipelines/secrets.go:138-190 | the stored graph, the issues or the failure are those specified, for some index the previous version can give |
| `GraphSecrets.MarkerReads` | internal/pipelines/secrets.go:20-39 | an encrypted marker gives its ciphertext back |
| `GraphSecrets.StoredExactly` | internal/pipelines/secrets.go:138-190 | a graph is stored exactly when every leaf is kept, and then it is the walk's result |
| `GraphSecrets.EditRoundTrip` | internal/pipelines/secrets.go:138-203 | re-submitting the redacted form of a stored graph against itself stores the same graph, with no issue and nothing encrypted, with or without a master key |
| `GraphSecrets.EditRoundTripExactly` | internal/pipelines/secrets.go:138-203 | with or without a master key, for every way the index may be filled and all nonces, this holds if and only if every non-null password leaf is a marker and the only value at its path text |
| `GraphSecrets.StoredEditMeans` | internal/pipelines/secrets.go:138-220 | storing an edit and decrypting it is editing the plaintext: sentinels take the plaintext stored at their path, other leaves stay |
| `GraphSecrets.PlaintextRoundTrip` | internal/pipelines/secrets.go:138-220 | a plaintext graph without sentinels or markers is always stored, given a master key and random source, and decrypts to itself |
| `GraphSecrets.OutsideLeavesKept` | internal/pipelines/secrets.go:44-126 | no walk changes anything outside the password leaves |
| `GraphSecrets.RedactionHides` | internal/pipelines/secrets.go:192-203 | in a redacted graph every password leaf is null or the sentinel |
| `GraphSecrets.RedactedAsSubmitted` | internal/pipelines/secrets.go:192-203 | the redacted form of what is stored is the redacted form of what was submitted |
| `SecretIssues.MarkerExactly` | internal/pipelines/secrets.go:21-38 | a value is an encrypted marker if and only if it is an object of one field, the marker key, whose text decodes |
| `SecretIssues.IssuesExactly` | internal/pipelines/secrets.go:155-185 | the missing-secret problem is raised at exactly the sentinels with nothing stored at their path, and the missing-key problem, without a master key, at exactly the leaves to encrypt |
| `SecretIssues.OutcomeExactly` | internal/pipelines/secrets.go:138-190 | an edit fails if and only if no nonce can be drawn for a leaf to encrypt, is otherwise rejected if and only if one of these problems is raised, and is stored in all other cases |
| `SecretIssues.StoredLeaves` | internal/pipelines/secrets.go:149-185 | where a stored edit had a sentinel it has the marker stored before, where it had another string a marker that decrypts to it, all else is as submitted, and no stored leaf is the sentinel |
| `SecretIssues.DecryptGraphExactly` | internal/pipelines/secrets.go:205-221 | a graph decrypts if and only if every marker in it does; then each marker is replaced by its text and all other leaves stay |
| `SecretPaths.PathTextInjective` | internal/pipelines/secrets.go:64-78 | paths of field names without "." and "[" are told apart by their text |
| `SecretPaths.DottedNamesCollide` | internal/pipelines/secrets.go:64-64 | a field name with a "." reads like a nested field |
| `SecretPaths.GraphLeafPerPath` | internal/pipelines/secrets.go:90-126 | a graph has one leaf per path |
| `SecretPaths.PlainNamesResubmit` | internal/pipelines/secrets.go:132-190 | under any catalog, every graph with plain field names whose secrets are markers or null can be re-submitted |
| `SecretNames.TextsTellApart` | internal/pipelines/catalog/catalog.go:254-263 | under a schema of the catalog's shape (plain property names above passwords, free keys only directly on passwords) leaves with one path text are one leaf, whatever the free keys are |
| `SecretNames.GraphTextsTellApart` | internal/pipelines/catalog/catalog.go:254-263 | so path texts tell a graph's secrets apart |
| `SecretNames.CatalogGraphsResubmit` | internal/pipelines/secrets.go:132-190 | and every graph whose secrets are markers or null can be re-submitted, header names with dots and brackets included |
| `Redaction.RedactionOfMask` | internal/pipelines/secrets.go:192-203 | the redacted form is a function of the graph outside its password leaves and of which of these are null |
| `Redaction.RedactionIsBlind` | internal/pipelines/secrets.go:192-203 | two graphs redact to the same graph if and only if they agree outside their password leaves and in which of these are null |
| `Redaction.StoredFormsAgree` | internal/pipelines/service.go:164-215 | and if and only if the graphs stored for them do, under any nonces and previous versions |
| `SecretEdits.ResubmittedIsStored` | internal/pipelines/secrets.go:138-203 | redacting a node and storing it are one walk |
| `SecretEdits.KeepsSecretsExactly` | internal/pipelines/secrets.go:159-167 | under any vault, a node submitted redacted at a position keeps its own secrets, whatever nonces are drawn, if and only if the previous version stored those very secrets at that position |
| `SecretEdits.SwappedExportersSwapTokens` | internal/pipelines/secrets.go:112-113 | two exporters submitted redacted in the other order are stored with each other's token |
| `SecretEdits.DottedGraphFails` | internal/pipelines/secrets.go:64-64 | a hypothetical catalog with a dotted property beside a nested one would break the round trip, for any two different markers, any vault and all nonces |
| `Slug.WriteRunes` | internal/tenants/slug.go:19-32 | the loop writes letters and digits, and one hyphen for each run of others, none at the start |
| `Slug.DeriveSlug` | internal/tenants/slug.go:18-46 | the slug of the lower-cased name, valid for every name and every case table |
| `Slug.SlugIsValid` | internal/tenants/slug.go:9-46 | every name gets 3 to 64 letters, digits and single hyphens, with none at the ends |
| `Slug.FixedSlugs` | internal/tenants/slug.go:9-46 | the texts that are their own slug are exactly the valid slugs without doubled hyphens |
| `Slug.SlugIdempotent` | internal/tenants/slug.go:14-46 | deriving a slug from a slug changes nothing |
| `Slug.SlugJoinsWords` | internal/tenants/slug.go:14-46 | a slug is the name's runs of letters and digits joined by hyphens, cut to 64 characters or 63 where the cut ends in a hyphen, padded with zeros to three, and the fallback for a name without any |
| `Naming.KeyInjective` | internal/pipelines/naming.go:27-29 | a pipeline key determines both slugs |
| `Naming.PipelineIDInjective` | internal/pipelines/naming.go:33-35 | a pipeline ID determines signal and slugs |
| `Naming.ComponentIDInjective` | internal/pipelines/naming.go:39-50 | a component ID determines type, slugs and node suffix |
| `Naming.SameIDExactly` | internal/pipelines/naming.go:39-50 | two nodes of a pipeline, both named or both unnamed, have one ID if and only if they have the same type and the same name, or the same position; so a named node keeps its ID when moved |
| `Naming.TypeReadsBack` | internal/pipelines/naming.go:61-66 | the type is read back from a component ID |
| `Naming.LabelMatchesOnePipeline` | internal/pipelines/naming.go:52-57 | a pipeline's label pattern matches the IDs of its own components and of no other pipeline's |
| `Renderer.SortPipelines` | internal/pipelines/render.go:42-49 | an ordered arrangement of the same pipelines |
| `Renderer.CheckKeys` | internal/pipelines/render.go:51-59 | true exactly when no two pipelines share a key |
| `Renderer.SignalsWith` | internal/pipelines/render.go:61-67 | per signal, the pipelines that list it, in order |
| `Renderer.RoutingTable` | internal/pipelines/render.go:112-126 | one row per client in order of first appearance, with that client's pipelines in order |
| `Renderer.HasSignal` | internal/pipelines/render.go:272-279 | whether the graph lists the signal |
| `Renderer.RenderForwardingConfig` | internal/pipelines/render.go:41-221 | the loops build the specified forwarding config, or refuse a repeated key |
| `Renderer.RenderFragment` | internal/pipelines/render.go:227-270 | the loops build the pipeline's fragment |
| `Renderer.RenderEdgeConfig` | internal/pipelines/render_edge.go:27-146 | the loops build the specified edge config, or refuse a repeated key |
| `Renderer.RenderEdgeFragment` | internal/pipelines/render_edge.go:162-199 | the loops build the edge pipeline's fragment |
| `Identifiers.NodesUnique` | internal/pipelines/naming.go:46-50 | within a pipeline, no two nodes of a section have one ID |
| `Identifiers.NodesApart` | internal/pipelines/naming.go:46-50 | nodes of different pipelines never have one ID |
| `Identifiers.ForwardingDefinedOnce` | internal/pipelines/render.go:41-221 | every receiver, processor, connector, exporter and pipeline ID of the forwarding config is defined once |
| `Identifiers.EdgeDefinedOnce` | internal/pipelines/render_edge.go:27-146 | every ID of an edge config is defined once |
| `References.ForwardingResolves` | internal/pipelines/render.go:41-221 | every ID the forwarding config mentions is defined in it, and every routing target takes data from its connector |
| `References.EdgeResolves` | internal/pipelines/render_edge.go:27-146 | every ID an edge config mentions is defined in it |
| `Compiler.IdleIffUncarried` | internal/pipelines/render.go:61-67 | a signal has no carriers exactly when no graph lists it |
| `Compiler.TableSelects` | internal/pipelines/render.go:109-126 | the routing table sends a tenant to its own pipelines, in order, and other tenants nowhere |
| `Compiler.ThroughOwn` | internal/pipelines/render.go:194-216 | a service pipeline delivers through the pipeline's own processors, in order, to each of its exporters |
| `Compiler.ForwardingMeans` | internal/pipelines/render.go:41-221 | interpreting the config on any signal and tenant gives exactly that tenant's pipelines carrying the signal, each with its own processors in order and its own exporters; a signal nobody carries drains to debug |
| `EdgeCompiler.EdgeMeans` | internal/pipelines/render_edge.go:27-146 | interpreting the edge config on a signal gives every pipeline carrying it, through the defaults and its own processors; without pipelines all signals drain to debug |
| `EdgeCompiler.FragmentsWithin` | internal/pipelines/render.go:223-270 | each pipeline's fragment is part of the full config, forwarding and edge |
| `EdgeCompiler.FragmentsHoldNodes` | internal/pipelines/render.go:223-270 | both fragments define every node of the graph, in order, under its ID and with the config its author wrote, an absent one as empty |
| `EdgeCompiler.NothingButFragments` | internal/pipelines/render.go:82-216 | the forwarding config holds nothing but shared entries and fragments |
| `EdgeCompiler.NothingButEdgeFragments` | internal/pipelines/render_edge.go:27-146 | the edge config holds nothing but its receiver, the default processors and fragments, and without pipelines the debug exporter and the draining pipelines |
| `Determinism.OneOrder` | internal/pipelines/render.go:44-49 | pipelines in distinct places have one ordered arrangement |
| `Determinism.RenderAnyOrder` | internal/pipelines/render.go:29-59 | permuting the pipelines changes neither rendered config nor whether it is refused |
| `Determinism.AnySortWill` | internal/pipelines/render.go:42-59 | nor does it matter how the sort treats equal keys |
| `Determinism.RefusedExactly` | internal/pipelines/render.go:51-59 | rendering is refused exactly when two pipelines share a key |
| `Determinism.RenderedMeans` | internal/pipelines/render_edge.go:14-146 | for every list of well-named pipelines with distinct keys, both renderers succeed and mean the sorted pipelines |
| `Determinism.OwnPipelinesDecide` | internal/pipelines/render.go:109-132 | what a tenant's data reaches is decided by the tenant's own pipelines alone; without any it is dropped, or drained when nobody carries the signal |
| `Determinism.TenantsIsolated` | internal/pipelines/render.go:29-221 | adding, replacing or removing other customers' pipelines never changes which customer exporters a tenant's data reaches |
| `Validate.ValidateSignals` | internal/pipelines/validate.go:63-74 | exactly the issues the signals have: none listed, an unknown one, a repeated one; so none exactly when they are listed, known and distinct |
| `Validate.ValidateNodes` | internal/pipelines/validate.go:85-116 | exactly the issues the nodes have: a bad name, an unknown type, a config that does not conform, or a repetition of the last earlier node of that ID |
| `Validate.NoIssuesIffOk` | internal/pipelines/validate.go:85-116 | no issue exactly when every node has a usable name, a known type, a conforming config and an ID of its own |
| `Validate.ValidateStructural` | internal/pipelines/validate.go:60-83 | exactly the issues of signals, processors and exporters, and of having none of the last; none exactly for well-formed graphs |
| `Validate.ValidIsNamed` | internal/pipelines/validate.go:98-104 | what validation and slug derivation ensure is what unique IDs need |
| `Validate.ValidPipelinesCompile` | internal/pipelines/service.go:164-195 | for every list of valid pipelines with distinct keys, both configs define every ID once, resolve every reference and mean the pipelines |
| `Prepare.PrepareVersion` | internal/pipelines/service.go:164-228 | for some index the previous version can give, the outcome is the specified one: broken, invalid, or ready with its version |
| `Prepare.ReadyExactly` | internal/pipelines/service.go:164-228 | ready exactly when the edit is stored, decrypts and passes validation; broken exactly when encryption or decryption fails; a ready version holds the encrypted graph and the fragment of the redacted submission, and its plaintext is well-formed with a key of its own |
| `Prepare.PassesExactly` | internal/pipelines/service.go:170-193 | a plaintext passes if and only if it is well-formed, its key is free and the collector accepts the config of all active pipelines with it, of the pipeline's tier |
| `Prepare.FragmentExactly` | internal/pipelines/service.go:194-207 | the persisted fragment is that of the pipeline's tier, with every node's own config |
| `Prepare.PlaintextIsReady` | internal/pipelines/service.go:164-228 | with a master key and random source, a plaintext submission never breaks and is ready exactly when the submission itself passes validation |
| `Prepare.FragmentIsBlind` | internal/pipelines/service.go:194-207 | the persisted fragment, and so the config hash, is the same for any two submissions that differ only in password values and have the same ones null |
| `Prepare.PreparedAgainExactly` | internal/pipelines/service.go:164-228 | a ready version, prepared again from its redacted form against itself, is ready with the same graph and fragment for every index and all nonces, if and only if its secrets can be resubmitted |
| `Prepare.PreparedAgain` | internal/pipelines/service.go:164-228 | in particular when it was made ready from string secrets under a catalog of the built-in shape |

## Left out

- YAML, JSON, protobuf and SQL text: configurations, graphs, messages and rows are the decoded values; the fixed extensions and telemetry sections of a rendered config are not modelled.
- Base64 and AES-GCM: function pairs, assumed to give back what they encode or seal; a string stands for a byte sequence.
- JSON Schema validation of a node's config: a given predicate of the catalog entry.
- `otelcol validate`: a given verdict on the full config.
- The Unicode case table of slug derivation: a parameter of `Slug.DeriveSlug`.
- SHA-256: a config is represented by its hash, and the hash of a fragment is a function of the fragment.
- Issue texts and their order: issues of secrets are a set of paths and kinds.
- Float rounding in quotas: tokens, rates and times are reals; a deficit beyond the range of a duration is not modelled.
- Quota limit parsing from the auth data, API key extraction from headers, SHA-256 of the key, and metrics counters.
- Concurrent calls inside one Authenticate, one message or one transaction; several OpAMP replicas sharing an agent; database isolation anomalies.
- OpAMP authentication, agent token offers, heartbeat flushing, effective configs, agent deletion, enrollment races and connections without a transport.
- Alert metric queries, webhook delivery, and the joined text of alert keys, which are modelled as their parts.
- Leader election loops: the campaign is a state machine over its steps rather than the loop of `leader.go`, so back-off times and ping intervals are not modelled.
- Database errors in SCIM group writes and user edits, apart from the failures their own checks find; SCIM user endpoints, listing and filtering of groups, audit entries, sessions and HTTP.
- Activation, rollback and distribution of configs; listing active pipelines.
- User interface, generated code, billing, retention, key re-encryption, log and trace paging, and the IP rate limiter.
