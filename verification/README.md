# Feature flags: a verified model

A Dafny model of the feature flag library: typed flags with dependencies, group inheritance and targeting strategies,
evaluated from immutable snapshots; tenant-isolated management with optimistic concurrency, staged changes and imports; a
durable provider over an atomic document register; a caching provider; and a fleet that refreshes one tenant's snapshot.

`dafny verify dfyconfig.toml` checks the project.

## How it is organised

| file | contents |
|---|---|
| Ordering, Keyed | byte-wise string order, sorting, lists of keyed items as maps |
| Model | values, strategies, definitions, groups, limits, per-item validation |
| DependencyGraph, GroupForest | the dependency check for every map order; group chains |
| Evaluator, Precedence | snapshot construction and evaluation; which strategy decides, read off groups, ancestors and strategy lists |
| Codec, CodecMeaning, Portable | wire records, canonical form, meaning preserved, documents |
| DepthExample | four flags with a chain beyond the bound, and what sorting their dependencies changes |
| Tenant, TenantInvariant, TenantRuns | every management call as a function on one tenant's state, what all of them keep, runs |
| Calls, Imports | when a call succeeds and what it stores, from its own arguments; what an import reports |
| Memory | the in-process provider as a class over its five tenant maps |
| StateDocument, Readability | the stored document, and which calls leave one that can be read |
| Backends, Durable, DurableRuns | the two stores, the retry loop, any number of clients, and what holds along their commits |
| Cache, CacheRuns | the caching provider as a class, and every interleaving of its calls |
| Fleet, FleetRuns, Staleness, Invalidations | the fleet as a class, every interleaving of its lock regions, when staleness is bounded, invalidation hints |

Conventions:

- An operation that updates fields is a method whose contract ties the new state to a function of the old one; what the
  library promises is proved about that function. Concurrency is a step system whose steps are the lock regions.
- Nondeterminism of Go map iteration is explicit: the dependency check takes the order in which features are visited, and
  contracts say for which order a verdict holds and that the order enumerates the features (`Honest`, `Visits`). The depth
  verdict really depends on it.
- Instants and durations are integers; instant zero is the zero `time.Time`; ages saturate at the largest 64-bit duration,
  so a staleness bound of that size bounds nothing (`StalenessIsBoundedExactlyWhen`, `HitsAreFreshExactlyWhen`).
- Strings are byte sequences. Versions, stage identities and revisions are unbounded; the cache ticket, the invalidation
  sequence and the gap counter are 64 bits wide.
- Hashing, time zones, the JSON scanner and caller-supplied strategies are functions of a `Runtime` record.
- Where the code and its comments differ the code is followed. The depth check of the dependency graph does not bound
  chain length (`SomeOrderAcceptsExactlyWhen`), so evaluation of an accepted snapshot may still report excess depth. The
  flat reading is stated for chains within the bound. For the export round trip `ExportImportsInEveryOrderExactlyWhen`
  gives the exact condition of acceptance, and `NormalFormKeepsAnswers` says that answers can differ only in depth
  reports; `ArrangingCanExceedDepth` and `ArrangingCanChangeAnswers` show that both happen.
- A document is checked more strictly when it is read than when it is written: attachments of created, updated and restored
  features and the number of attachments after an assignment are not checked on writing. `DocumentReadsBackExactlyWhen`
  gives the exact condition on a state and `CallsStayReadableExactlyWhen` the exact condition on each call;
  `CreatedDocumentCanBeUnreadable`, `RestoredDocumentCanBeUnreadable` and `AssignedDocumentCanBeUnreadable` are
  reachable failures.

## Model

| member | source | states |
|---|---|---|
| `SnapshotCache.OldestIsUnique` | cache.go:476-496 | at most one entry is the minimum of (fetch time, tenant), so eviction does not depend on map order |
| `SnapshotCache.CachedProvider.EvictOldest` | cache.go:476-496 | the two scans remove exactly that minimum |
| `SnapshotCache.CachedProvider.BeginRefresh` | cache.go:210-226 | admission hands out the next ticket of the tenant's state, rotating to a fresh state before the 64-bit counter wraps |
| `SnapshotCache.CachedProvider.Publish` | cache.go:197-205 | the tenant's current refresh, not yet overtaken, replaces its entry: a cached tenant or a cache below its bound costs nobody an entry, otherwise exactly the oldest goes; any other caller changes nothing |
| `SnapshotCache.PublicationReplaces` | cache.go:197-205 | the same of the publication function, with the bound and the resulting counters written out |
| `SnapshotCache.OnlyTheOldestGoes` | cache.go:198-205 | another tenant's entry survives a publication unchanged exactly unless the publisher was uncached, the cache at its bound, and that entry the oldest |
| `SnapshotCache.CachedProvider.EndRefresh` | cache.go:228-235 | the last reader out of the current state stops its tracking |
| `SnapshotCache.CachedProvider.InvalidateOnSuccess` | cache.go:466-474 | only a successful mutation drops the entry and the refresh state |
| `SnapshotCache.CachedProvider.Close` | cache.go:146-153 | close forgets every entry and every refresh state |
| `SnapshotCache.CachedProvider.Refresh` | cache.go:183-208 | one refresh alone: entries, tracking and states are those of admission, publication and release in a row, and the answer is what was fetched |
| `SnapshotCache.CachedProvider.Snapshot` | cache.go:157-178 | a hit within the age bound leaves the cache alone, otherwise a refresh, otherwise the captured entry within the outage bound under fail-open; answer and whole state |
| `SnapshotCache.RefreshedAlonePublishes` | cache.go:183-235 | an undisturbed refresh always publishes what it fetched, costs nobody an entry unless a new tenant finds the cache full, then exactly the oldest goes; it changes no entry when it fails, nothing at all for a refused tenant, and leaves no tracking behind where there was none |
| `SnapshotCache.HitsAreFreshExactlyWhen` | cache.go:157-178 | an entry hits exactly within the staleness bound; hits respect it at every instant exactly when it is below the largest duration |
| `SnapshotCache.FallbacksAreBoundedExactlyWhen` | cache.go:157-178 | the same for the fallbacks of a fail-open cache and the outage bound |
| `CacheRuns.StepKeepsInv` | cache.go:146-235 | every step of every interleaved call, mutation and close keeps the protocol invariant |
| `CacheRuns.AnswersContainReturnedMutations` | cache.go:157-235 | the fence: in every run each entry was admitted after its tenant's last invalidation or close, and every answer holds every mutation that had returned when its call started, within its age bound unless that is the largest duration |
| `CacheRuns.PublicationOrder` | cache.go:187-226 | over a run a tenant's publications have strictly increasing tickets, and a reader publishes exactly when nothing invalidated, closed, rotated or overtook it |
| `CacheRuns.EntriesChangeOnlyBy` | cache.go:146-205 | in every run an entry disappears only by its own tenant's invalidation, a close, or the publication of an uncached tenant into a cache at its bound, being the oldest; it appears or changes only by its own tenant's publication, to what that call read |
| `CacheRuns.TrackingIsExact` | cache.go:197-235 | each running counter is the number of outstanding refreshes and at most the 64-bit ticket counter, tracking is empty at quiescence, entries fit the tenant bound |
| `Model.WindowIsAWeeklyInterval` | strategy_time.go:158-171 | a weekly window is one half-open interval on the circle of the week's minutes, over midnight and over the week's end |
| `Model.DenialWins` | strategy_sets.go:39-45 | without denials the sets are exact targeting of tenants and subjects, and denials take away exactly whom they name |
| `Model.RolloutIsMonotone` | strategy.go:141-156 | raising a rollout threshold never takes anybody out |
| `Model.RolloutGrowsByBuckets` | strategy.go:141-156 | one step more adds exactly the next bucket, and nobody without tenant and subject is ever in |
| `Model.CriteriaRestrictIndependently` | strategy.go:100-108 | exact targeting is the conjunction of its criteria, and an empty one restricts nothing |
| `Model.WindowsMeetWithoutOverlap` | strategy_time.go:46-61 | cut at an instant inside, a window becomes two that share no instant and miss none; without a time it never matches |
| `Model.SchedulesAreUnions` | strategy_time.go:126-149 | a weekly schedule is the union of its windows on the local clock, and fails exactly in an unknown zone |
| `Model.FactsMatchByValue` | strategy_fact.go:41-54 | a fact matches exactly an equal value of the same type; non-finite floats and zero values never match |
| `DependencyGraph.Visit` | evaluate.go:488-508 | the recursive visit terminates, only adds finished features, and never finishes one that is in progress |
| `DependencyGraph.EveryOrderIsSound` | evaluate.go:467-516 | for every map order: acceptance means acyclic, a cycle report means a cycle, a depth report means a too long chain, and every acyclic graph within the bound is accepted |
| `DependencyGraph.SomeOrderAcceptsExactlyWhen` | evaluate.go:488-513 | some map order accepts a closed graph exactly when it is acyclic and the bound is positive or there are no edges: the check does not bound chain length |
| `DependencyGraph.VisitIsMonotone` | evaluate.go:488-508 | a larger dependency-closed memo never turns an accepted visit into a rejected one |
| `DependencyGraph.EveryOrderAcceptsExactlyWhen` | evaluate.go:488-513 | every map order accepts a closed graph exactly when each feature is accepted when it is visited first |
| `DependencyGraph.VerdictDependsOnOrder` | evaluate.go:495-513 | one graph and bound accepted in one order and rejected in another |
| `DependencyGraph.Visitor.VisitKey` | evaluate.go:485-508 | the closure over the two mutable maps computes the recursive visit and restores the in-progress map on success |
| `DependencyGraph.ReferencesResolve` | evaluate.go:468-483 | the loops accept exactly when every dependency names an existing feature and one of its variants |
| `DependencyGraph.ValidateDependencyGraph` | evaluate.go:467-516 | the verdict is that of the order in which the map was iterated, with the consequences of acceptance and of each error |
| `GroupForest.FitsMeansRooted` | evaluate.go:614-631 | a chain fits the depth bound exactly when the ancestor one past the bound is the root |
| `GroupForest.ForestIsAcyclic` | evaluate.go:614-631 | in an accepted group map no group is among its own ancestors |
| `GroupForest.WalkChain` | evaluate.go:616-627 | one walk succeeds exactly when the chain fits, and a cycle report names a real cycle |
| `GroupForest.ValidateGroupGraph` | evaluate.go:614-631 | accepts exactly the group maps all of whose chains fit |
| `GroupForest.AttachmentsKnown` | evaluate.go:591-608 | accepts exactly when every attached group exists and every inherited strategy targets one of the feature's variants |
| `GroupForest.ValidateGroups` | evaluate.go:518-612 | accepts a list exactly when keys are distinct and the resulting map is valid, closed under parents, within depth and targetable, and returns that map |
| `GroupForest.DeletionKeepsForest` | memory.go:279-284 | removing a group that is nobody's parent keeps the whole group invariant |
| `Evaluator.CollectDefinitions` | evaluate.go:108-121 | accepts exactly distinct, valid, not too many features and returns them by key |
| `Evaluator.NewSnapshotWithGroups` | evaluate.go:103-131 | accepts exactly the accepted graphs, and what it returns is sound |
| `Evaluator.AcceptedExactlyInOrders` | evaluate.go:103-131 | a sound snapshot within the feature limit is accepted exactly in the orders that accept its dependency graph |
| `Evaluator.EvaluateGroup` | evaluate.go:372-405 | with visited ancestors silent, the walk gives the first match of the whole child-first chain and leaves everything newly visited silent |
| `Evaluator.EvaluateGroups` | evaluate.go:313-322 | sharing one visited set across attached groups never changes the first match over the concatenated chains |
| `Evaluator.EvaluateDependencies` | evaluate.go:301-312 | the loop agrees with the recursive reading of dependencies |
| `Evaluator.EvaluateKey` | evaluate.go:279-334 | on a walkable snapshot the visiting set never fires and the result is the denotation within the remaining depth, which `Precedence.DenotationIsRead` reads off the snapshot |
| `Evaluator.Evaluate` | evaluate.go:234-258 | the answer that `Precedence.AnswersFollowPrecedence` reads off the request and the snapshot |
| `Evaluator.AcceptedNeverFailsStructurally` | evaluate.go:134-197 | on an accepted snapshot no request reports a cycle, a missing dependency or an over-deep group, and every value has the requested type |
| `Evaluator.AcceptedBuiltInIsReadable` | evaluate.go:279-334 | an accepted snapshot without custom strategies and with chains within the bound always selects |
| `Evaluator.MoreBudget` | evaluate.go:285-287 | an evaluation the depth bound did not cut short is unchanged by a larger bound |
| `Precedence.DenotationIsRead` | evaluate.go:279-334 | within the depth: an inactive default; else the first dependency not met passes on its error or leaves the default; else whatever speaks first decides, in the order attachments, ancestors, own strategies; else the default |
| `Precedence.AnswersFollowPrecedence` | evaluate.go:234-334 | every answer of an accepted snapshot: the request checks in order, then that reading |
| `Precedence.DecisionIsDetermined` | evaluate.go:313-334 | the precedence rule admits at most one outcome, because whenever a strategy matches or fails one does so first |
| `Precedence.GroupsOverrideTheFeature` | evaluate.go:313-405 | strategy j of the n-th ancestor of the i-th attached group, when nothing earlier in that order matches or fails, selects its variant as a group match whatever the feature's own strategies say, or fails the request |
| `Precedence.GroupsIgnoreOwnStrategies` | evaluate.go:313-326 | replacing the feature's own strategies changes neither that such a strategy is first nor what it selects |
| `Precedence.OwnStrategiesComeLast` | evaluate.go:313-334 | own strategy j decides exactly when no strategy of any ancestor of any attached group and no earlier own one matches or fails, and it does; then with its variant, name and reason |
| `Precedence.FlatReading` | evaluate.go:279-334 | for chains within the bound and no failing strategies, the same without budgets or dependency order |
| `Codec.ValueRoundTrip` | codec.go:288-341 | decoding an encoded value gives it back exactly when it carries a payload |
| `Codec.StrategyRoundTrip` | codec.go:343-439 | encoding fails exactly on custom strategies; decoding gives the strategy with sorted target sets |
| `Codec.MapAll` | codec.go:197-203 | the image of a list, or the first error met |
| `Codec.EncodeStrategies` | codec.go:197-203 | the append loop computes the image or stops at the first error |
| `Codec.DecodeStrategies` | codec.go:237-243 | the append loop computes the image or stops at the first error |
| `Codec.EncodeVariants` | codec.go:181-186 | the map loop encodes every variant |
| `Codec.DecodeVariants` | codec.go:224-233 | the map loop decodes every variant or fails when any payload does not match its type |
| `Codec.EncodeDefinition` | codec.go:169-206 | the built record is the specified one |
| `Codec.DecodeDefinition` | codec.go:208-246 | the built definition or first error is the specified one |
| `Codec.EncodeGroup` | codec.go:248-266 | the built record is the specified one |
| `Codec.DecodeGroup` | codec.go:268-286 | the built group or first error is the specified one |
| `Codec.DefinitionRoundTrip` | codec.go:169-246 | encoding fails exactly on custom strategies; decoding succeeds exactly when all values carry payloads, giving the definition in normal form |
| `Codec.GroupRoundTrip` | codec.go:248-286 | the same for groups |
| `Codec.CanonicalDefinition` | codec.go:169-206 | two definitions have the same wire exactly when they differ only in the arrangement of tags, dependencies and target sets; group and strategy order count |
| `Codec.CanonicalGroup` | codec.go:248-266 | two groups have the same wire exactly when they differ only in the arrangement of tags and target sets |
| `Codec.ReencodingIsIdentity` | codec.go:169-246 | encoding what was decoded gives the same wire |
| `Codec.ReencodingGroupIsIdentity` | codec.go:248-286 | the same for groups |
| `CodecMeaning.NormalStrategyKeeps` | codec.go:461-469 | sorting target sets changes neither what a strategy does nor its validity |
| `CodecMeaning.NormalGraph` | codec.go:187-196 | sorting dependencies changes neither cycles nor chain lengths |
| `CodecMeaning.NormalDefinitionValid` | codec.go:169-206 | a definition and its normal form validate together |
| `CodecMeaning.NormalSound` | codec.go:98-124 | the normal form of a sound snapshot is sound |
| `CodecMeaning.NormalFormKeepsAnswers` | codec.go:98-167 | for every acyclic snapshot without failing strategies, key, type and context, the normal form answers the same exactly when both or neither evaluation is cut short by the depth bound, so no selected value becomes another one; neither is when the feature's own chains fit the bound |
| `Portable.Export` | codec.go:98-124 | rejects exactly what snapshot construction rejects, otherwise encodes features and groups in key order |
| `Portable.Import` | codec.go:130-167 | format, version, decoding and graph checks in order |
| `Portable.ExportIgnoresArrangement` | codec.go:102-105 | listing the same features and groups in another order exports the same document |
| `Portable.DocumentRoundTrip` | codec.go:98-167 | a list without custom strategies exports, and its document decodes to its normal form |
| `Portable.ReencodedDocumentIsIdentity` | codec.go:98-167 | exporting what was imported gives the same document |
| `Portable.PortableRoundTrip` | codec.go:98-167 | export then import: the document decodes, is accepted exactly in the orders that accept the arranged graph, and answers every request as before exactly when both or neither evaluation is cut short by the depth bound; neither is when the requested feature's own chains fit it |
| `Portable.ExportImportsInSomeOrder` | codec.go:98-167 | whatever is exported is importable in some visiting order |
| `Portable.ExportImportsInEveryOrderExactlyWhen` | codec.go:98-167 | the exported document imports in every visiting order exactly when each feature of the arranged graph is accepted when visited first, as it is when chains fit the bound |
| `DepthExample.ArrangingCanExceedDepth` | codec.go:187-196 | four flags that one feature order accepts as declared and rejects in the document they are exported to, because dependencies are sorted |
| `DepthExample.ArrangingCanChangeAnswers` | evaluate.go:301-312 | the same flags: one whose chain exceeds the bound answers its default as declared and reports excess depth as arranged |
| `Tenant.Logged` | memory.go:515-526 | appending keeps the newest entries, never more than the limit |
| `Tenant.SomeChoice` | evaluate.go:509-513 | for every state and call there are visiting orders that enumerate what its checks visit |
| `Tenant.FailureChangesNothing` | memory.go:73-526 | a refused call and a dry run leave the state alone |
| `TenantInvariant.StoreKeeps` | memory.go:143-146 | replacing a record by a strictly newer one keeps the tenant invariant |
| `TenantInvariant.GroupDeleteKeeps` | memory.go:255-289 | deleting an unused group keeps the forest and everything else |
| `TenantInvariant.StageKeeps` | staged.go:26-69 | a new stage keeps one stage per key, identities within the counter and the stage bound |
| `TenantInvariant.ApplyKeeps` | staged.go:141-172 | applying stages keeps the invariant |
| `TenantInvariant.CleanupKeeps` | cleanup.go:31-76 | purging tombstones with their stages keeps every remaining stage tied to a record |
| `TenantInvariant.CleanupConserves` | cleanup.go:31-76 | accepted exactly within the retention limit; purges exactly the tombstones if asked, discards exactly the stages of purged features and those scheduled before the limit, keeps the newest audit entries, and reports what it removed |
| `TenantInvariant.ImportKeeps` | import.go:110-181 | planning and committing keeps the invariant, group forest included |
| `TenantInvariant.PerformKeeps` | memory.go:73-526 | every management call keeps the invariant, and lets records and stages only move forward |
| `TenantRuns.RunKeepsInv` | memory.go:178-289 | over every run the group forest, the bounds and the link from stages to records hold |
| `TenantRuns.WritesAreOptimistic` | memory.go:110-513 | a successful update, lifecycle change, deletion, restoration, attachment, detachment or stage application saw the expected version, stores at the next one exactly what its arguments ask, answers it, logs it under the caller's name and touches nothing else |
| `TenantRuns.VersionsAreReplacedOnce` | memory.go:131-143 | no lost updates: along every evolution of a tenant each version of a record is replaced at most once, by whatever calls, batches and imports included, unless the record was purged in between |
| `TenantRuns.RunEvolves` | memory.go:73-526 | every run of management calls is such an evolution |
| `TenantRuns.SameVersionWritesNeedAPurge` | memory.go:131-143 | two such writes expecting the same version cannot both succeed unless the record was purged in between |
| `TenantRuns.DeleteThenRestore` | memory.go:428-464 | deleting and restoring gives the feature back inactive, two versions on |
| `TenantRuns.AssignThenRemove` | memory.go:293-373 | removing a just assigned group restores the attachment list |
| `TenantRuns.IdentitiesNeverReturn` | staged.go:60-65 | along every evolution of a tenant, in memory or stored, a stage identity that is no longer pending never becomes pending again |
| `TenantRuns.PendingStageSeesItsRecord` | staged.go:42-69 | no ABA, in memory or stored: while a stage is pending its feature's record is the very one it was staged against, or a later version |
| `TenantRuns.AppliedStageReplacesWhatItSaw` | staged.go:93-160 | a stage applied by name or on schedule replaces exactly the record it was staged against, by its definition at the next version, and is never pending again |
| `TenantRuns.StagesEndByApplicationOrCleanup` | staged.go:141-172 | a pending stage ends exactly by being applied or by an accepted cleanup that purges its feature or whose limit lies after its time |
| `TenantRuns.BatchClosedForm` | staged.go:141-161 | a batch applies exactly when each stage is ready against the original records, and the result is described key by key |
| `TenantRuns.BatchIgnoresOrder` | staged.go:141-161 | the order of a batch decides neither its verdict nor its records |
| `TenantRuns.ScheduledIsAllOrNothing` | staged.go:93-119 | a scheduled application takes every due stage or none, exactly when all are ready and the graph is accepted |
| `TenantRuns.RetentionKeepsNewest` | memory.go:515-526 | after any number of appends the log is the end of the old log followed by the new entries |
| `TenantRuns.ImportBalances` | import.go:113-162 | created plus updated plus skipped is the document's size, conflicts are updated plus skipped, one audit entry per change |
| `TenantRuns.PlanFollowsPolicy` | import.go:117-162 | against the tenant as it was: new resources at version one, existing ones replaced at the next version or kept, everything else kept |
| `TenantRuns.DryRunPredictsImport` | import.go:163-181 | a dry run changes nothing, reports the same counts, and succeeds exactly when the graph is accepted; the real run commits exactly the plan or nothing |
| `Imports.ImportReportIsExact` | import.go:113-162 | the conflicts are the document's resources that exist, groups then features, in document order with both versions; the rest are created; conflicts are all updated under the replace policy and all skipped under any other; each change is logged, in order |
| `Calls.CallsSucceedExactlyWhen` | memory.go:73-513 | each of the thirteen calls on one feature, group or stage succeeds exactly under its conditions, and otherwise changes nothing |
| `Calls.ConflictsAreReportedExactlyWhen` | memory.go:110-513 | a well-formed call reports a version conflict exactly when what it names is there at another version, and not found exactly when it is not there, or when the group to remove is not attached |
| `Calls.CallsStoreWhatWasAsked` | memory.go:73-513 | every successful one of them, creations and group calls included, stores what its arguments say apart from the version, answers it, logs it under the caller's name and touches nothing else |
| `Calls.StagesAreAppliedOnTime` | staged.go:26-119 | a change staged with a definition, version, time and actor is pending with exactly these; every successful scheduled application from that time on puts the caller's definition at the next version in place of the record it was staged against, and an earlier one leaves change and record alone |
| `TenantRuns.WithoutConcat` | memory.go:353-362 | removing a group goes through the attachments one by one and keeps the order of what stays |
| `Memory.DefinitionsFromRecords` | import.go:202-211 | the list holds exactly the live definitions, each once |
| `Memory.CheckGraph` | import.go:166-170 | accepts exactly the accepted live graphs, for the order visited |
| `Memory.FindGroupUse` | memory.go:274-283 | finds a live feature attached to the group or a group inheriting from it, exactly when there is one |
| `Memory.FilterOut` | memory.go:353-362 | drops every occurrence of the group and keeps the order of the rest |
| `Memory.CollectDue` | staged.go:107-113 | the identities due at the given time, each once, ascending |
| `Memory.ApplyToCopy` | staged.go:141-161 | the loop over a copy of the records computes the batch or its first error |
| `Memory.PlanDocument` | import.go:113-162 | the two loops compute the import plan |
| `Memory.DidKeepsAll` | memory.go:17-25 | tenant isolation: a call keeps every tenant's invariant and touches no other tenant |
| `Memory.MemoryProvider.Create` | memory.go:73-107 | creates at version one unless invalid, present, deleted or full; the tenant ends in the specified state (`Calls.CallsStoreWhatWasAsked`), every other tenant is untouched, and every tenant keeps its invariant |
| `Memory.MemoryProvider.Update` | memory.go:110-149 | replaces a live feature at its expected version; the tenant ends in the specified state (`Calls.CallsStoreWhatWasAsked`), every other tenant is untouched, and every tenant keeps its invariant |
| `Memory.MemoryProvider.SetLifecycle` | memory.go:484-513 | sets lifecycle and deletion at the expected version; the tenant ends in the specified state (`Calls.CallsStoreWhatWasAsked`), every other tenant is untouched, and every tenant keeps its invariant |
| `Memory.MemoryProvider.Restore` | memory.go:438-464 | brings a tombstone back inactive at its expected version; the tenant ends in the specified state (`Calls.CallsStoreWhatWasAsked`), every other tenant is untouched, and every tenant keeps its invariant |
| `Memory.MemoryProvider.CreateGroup` | memory.go:178-213 | adds a group exactly when the combined graph is accepted; the tenant ends in the specified state (`Calls.CallsStoreWhatWasAsked`), every other tenant is untouched, and every tenant keeps its invariant |
| `Memory.MemoryProvider.UpdateGroup` | memory.go:216-252 | replaces a group at its expected version exactly when the combined graph is accepted; the tenant ends in the specified state (`Calls.CallsStoreWhatWasAsked`), every other tenant is untouched, and every tenant keeps its invariant |
| `Memory.MemoryProvider.DeleteGroup` | memory.go:255-289 | removes a group at its expected version exactly when unused; the tenant ends in the specified state (`Calls.CallsStoreWhatWasAsked`), every other tenant is untouched, and every tenant keeps its invariant |
| `Memory.MemoryProvider.AssignGroup` | memory.go:293-331 | appends an attachment when targetable; an existing one is left alone; the tenant ends in the specified state (`Calls.CallsStoreWhatWasAsked`), every other tenant is untouched, and every tenant keeps its invariant |
| `Memory.MemoryProvider.RemoveGroup` | memory.go:334-373 | removes an attachment at the expected version; the tenant ends in the specified state (`Calls.CallsStoreWhatWasAsked`), every other tenant is untouched, and every tenant keeps its invariant |
| `Memory.MemoryProvider.StageUpdate` | staged.go:26-69 | keeps a pending replacement under the next identity; the tenant ends in the specified state (`Calls.CallsStoreWhatWasAsked`), every other tenant is untouched, and every tenant keeps its invariant |
| `Memory.MemoryProvider.ApplyStages` | staged.go:141-172 | applies the listed stages together or not at all; the tenant ends in the specified state, every other tenant is untouched, and every tenant keeps its invariant, for visiting orders that enumerate what is checked |
| `Memory.MemoryProvider.ApplyStage` | staged.go:72-89 | applies one stage; the tenant ends in the specified state (`Calls.CallsStoreWhatWasAsked`), every other tenant is untouched, and every tenant keeps its invariant, for visiting orders that enumerate what is checked |
| `Memory.MemoryProvider.ApplyScheduled` | staged.go:93-119 | applies every due stage in identity order; the tenant ends in the specified state, every other tenant is untouched, and every tenant keeps its invariant, for visiting orders that enumerate what is checked |
| `Memory.MemoryProvider.Cleanup` | cleanup.go:31-76 | purges, discards and trims as selected; the tenant ends in the specified state, every other tenant is untouched, and every tenant keeps its invariant |
| `Memory.MemoryProvider.ImportCatalog` | import.go:110-181 | plans, checks and applies one decoded catalog; the tenant ends in the specified state, every other tenant is untouched, and every tenant keeps its invariant, for visiting orders that enumerate what is checked |
| `Memory.MemoryProvider.ImportDocument` | import.go:84-181 | plans or applies one document; the tenant ends in the specified state, every other tenant is untouched, and every tenant keeps its invariant, for visiting orders that enumerate what is checked |
| `Memory.MemoryProvider.Snapshot` | memory.go:152-175 | succeeds exactly when the live graph is accepted in an order that enumerates its features; the result is the live graph bound to the tenant, and sound |
| `StateDocument.MarshalTenantState` | durable.go:337-393 | the loops write records, groups and stages in key order, failing exactly on an unsupported strategy or excess size |
| `StateDocument.LoadRecords` | durable.go:412-425 | accepts exactly records that decode, validate and repeat no key |
| `StateDocument.LoadStages` | durable.go:443-465 | accepts exactly stages within the limit that decode, validate and have distinct identities within the counter |
| `StateDocument.UnmarshalTenantState` | durable.go:395-468 | the whole reader: version, size, records, groups against live features, audit and stages |
| `StateDocument.DocumentReadsBackExactlyWhen` | durable.go:337-468 | a document written from a reachable state reads back exactly when every definition validates and every live attachment resolves, and then as the same state up to the codec's arrangement |
| `StateDocument.NormalStateKeepsInv` | durable.go:395-468 | the state read back keeps the provider's invariant |
| `Readability.CallsStayReadableExactlyWhen` | memory.go:73-526 | from a readable state each of the sixteen calls leaves a readable state exactly when it is refused or meets its condition: a created or updated definition, and a restored record, has its groups and targets its variants; an attached group was attached already or leaves the attachments within their limit; every other call always does |
| `Readability.CreatedDocumentCanBeUnreadable` | memory.go:82-104 | creating a feature attached to a missing group succeeds, is stored if its document fits, and cannot be loaded again |
| `Readability.RestoredDocumentCanBeUnreadable` | memory.go:274-460 | a reachable run of five successful calls, readable up to the last: restoring a feature whose group was deleted meanwhile leaves an unreadable document |
| `Readability.AssignedDocumentCanBeUnreadable` | memory.go:318-327 | a reachable run of four successful calls, readable up to the last: attaching one group more than a definition may have leaves an unreadable document |
| `Readability.DeletingStaysReadable` | memory.go:255-289 | deleting a group never detaches a live feature, so the document stays readable |
| `Backends.PostgresBackend.Load` | postgres/backend.go:55-72 | reads the register; no row is absence |
| `Backends.PostgresBackend.CompareAndSwap` | postgres/backend.go:75-105 | insert or update writes the register exactly when its revision is the expected one, with zero meaning absent |
| `Backends.ValkeyBackend.Load` | valkey/native.go:11-17 | reads the same register |
| `Backends.ValkeyBackend.CompareAndSwap` | valkey/native.go:19-34 | the script writes the register under the same condition |
| `Durable.RetryDecides` | durable.go:273-294 | the loop runs out exactly when every attempt had something to write and was disturbed; otherwise its last attempt alone decides, on top of what rivals committed: a load failure, a refusal, a write failure, or the next revision with the call's own document and answer |
| `Durable.DurableMutate` | durable.go:268-313 | over either store the load, compute, swap loop gives that outcome and register within the attempt limit, whatever rivals commit in between; a bad tenant or context is refused first, and other tenants' registers are untouched |
| `Durable.SwapIsARegisterWrite` | durable.go:286-292 | a swap in a run is a write to the stores' register, whose revision counts commits |
| `Durable.StepKeepsWorld` | durable.go:268-313 | every step of any number of clients, including lost replies and backend errors, keeps the chain invariant |
| `Durable.CommitsAreOneSequentialChain` | durable.go:186-313 | commits form one chain of sequential calls each applied to its predecessor; no call commits twice, exceeds its attempts or gives up before using them all; a success is one commit inside the call's interval; a refusal or a dry-run plan is the sequential answer at a point of that interval, for orders that enumerate what is checked; neither these nor an exhausted call committed anything |
| `Durable.ChainStatesKeepInv` | durable.go:297-313 | every readable state on the chain keeps the provider's invariant |
| `DurableRuns.ChainStatesAreOk` | durable.go:297-468 | every readable state on the chain keeps the invariant, can be written and read again, and is in the codec's arranged form |
| `DurableRuns.ChainStaysReadableExactlyWhen` | durable.go:268-313 | a commit leaves a readable document exactly when its call met the condition above, and nothing is committed after one that does not |
| `DurableRuns.ChainEvolves` | durable.go:268-313 | the readable states of any chain of commits, by any number of clients, are an evolution of the tenant |
| `DurableRuns.StoredVersionsAreReplacedOnce` | durable.go:268-313 | no lost updates over stored documents: each version of a record is replaced by at most one commit unless it was purged in between |
| `DurableRuns.StoredStageReplacesWhatItSaw` | staged.go:93-160 | over stored documents too, a stage applied by name or on schedule replaces exactly the record it was staged against, by what it reads back as, and is never pending again |
| `DurableRuns.NormalTwice` | codec.go:169-206 | arranging a definition twice is arranging it once |
| `Fleet.CopyPolicies` | fleet.go:642-662 | accepts exactly policies with a known mode, safe when security sensitive, and no staler than the fleet |
| `Fleet.NewFleetConfig` | fleet.go:577-663 | accepts exactly the configurations within bounds; what it returns is sane and differs only in that a last-known-good policy without a bound has the fleet's |
| `Fleet.EarlyProblem` | fleet.go:1145-1167 | a candidate that passes is complete, not too far in the future and, below the largest duration, not too stale |
| `Fleet.BasisIsBounded` | fleet.go:1348-1397 | a value from a snapshot is within the staleness bound unless a bound is the largest duration, synthesized values have the requested type, security-sensitive flags are never synthesized |
| `Fleet.RefreshKeepsOrReplaces` | fleet.go:1037-1127 | a refresh keeps the active snapshot unless a complete, fresh, not older replacement validated; it leaves no flight and no waiter behind, a failure over a stale snapshot degrades the fleet, and a deferred or refused one changes only the clock |
| `Fleet.RefreshIsAdmittedExactlyWhen` | fleet.go:1042-1078 | refused exactly when stopped, too many waiters exactly at the limit, deferred exactly within the minimum interval |
| `Fleet.ActivationSucceedsExactlyWhen` | fleet.go:1001-1181 | succeeds exactly for a complete accepted candidate of the tenant, not too far ahead, not too old, not behind the active one, in a fleet not stopped; it then becomes active, otherwise only the clock moves |
| `Fleet.RepliesFollowThePolicy` | fleet.go:1348-1397 | fresh: the snapshot's own answer and reason; stale: without a policy or fail-closed refused, fail-open true exactly for boolean requests, use-default the configured value when typed and valid, last-known-good the snapshot's value and variant as a degraded answer exactly within the policy's bound |
| `Fleet.DegradedAnswersExactlyWhen` | fleet.go:1348-1397 | the converse: each degraded answer is given only under its mode, type and bound |
| `Fleet.Fleet.Now` | fleet.go:1399-1409 | fleet time never goes back |
| `Fleet.Fleet.Admit` | fleet.go:1042-1078 | refuse, follow, defer or lead |
| `Fleet.Fleet.FinishFlight` | fleet.go:1083-1098 | ends the flight, degrading stale state after a failure |
| `Fleet.Fleet.MarkStopped` | fleet.go:960-975 | closes once and for all |
| `Fleet.Fleet.Status` | fleet.go:1191-1213 | state aged into degradation, revision, provenance, age, refreshing and waiters of the current state |
| `Fleet.Fleet.ValidateCandidate` | fleet.go:1145-1181 | accepts exactly usable candidates under their own limits, for an order that enumerates their features; the result is bound to the tenant and sound |
| `Fleet.Fleet.Activate` | fleet.go:1001-1030 | installs a usable candidate unless the fleet is closed or its source is older, for an order that enumerates its features |
| `Fleet.Fleet.Refresh` | fleet.go:1037-1127 | a refresh that no other call interrupts: admission, load, activation and the end of the flight give the specified state and reply |
| `Fleet.Fleet.Evaluate` | fleet.go:1348-1397 | the same of the evaluation itself, for the two clock readings it takes |
| `FleetRuns.StepKeepsFleet` | fleet.go:674-1101 | every step of interleaved refreshes, bootstraps, refresh loop, watcher, recorded failures, evaluations and shutdown keeps the invariant |
| `FleetRuns.ServedValuesAreBounded` | fleet.go:1348-1397 | over every run, clock rollback included, a value served at time t comes from an accepted snapshot with t <= source + staleness <= activation + skew + staleness, unless a bound is the largest duration |
| `Staleness.StalenessIsBoundedExactlyWhen` | cache.go:498-504 | over all runs of a fleet served values respect the maximum staleness exactly when neither the freshness bound nor a last-known-good bound is the largest duration, where ages saturate |
| `Staleness.AgelessServesAnyAge` | fleet.go:611-616 | with such a bound, a run that serves a value as late as one likes after its source time |
| `Fleet.StalenessLimits` | fleet.go:611-616 | a maximum staleness below the largest duration is enough |
| `FleetRuns.FreshnessNeedsALaterSource` | fleet.go:1001-1030 | once stale, freshness returns only with a strictly later source time |
| `FleetRuns.StatusIsTruthful` | fleet.go:1191-1213 | over every run the reported state is exact: stopped when closed, else cold without a snapshot, else ready when it is fresh, else degraded |
| `FleetRuns.RefreshesAreSingleFlight` | fleet.go:1037-1101 | one leader at a time, waiters are exactly the attached followers and within the limit, followers and leader answer their flight's published result |
| `FleetRuns.PublishedResultsStay` | fleet.go:1094-1097 | a flight's result is published once and never changes |
| `FleetRuns.AdmissionsAreRateBounded` | fleet.go:1069-1076 | from any admission not made at the zero instant, n further ones take at least n minimum intervals; admissions at the zero instant are the first of the run |
| `FleetRuns.ZeroInstantEscapesTheRate` | fleet.go:1069-1076 | at the zero instant two admissions can follow with no time between them |
| `FleetRuns.SourceTimeNeverDecreases` | fleet.go:1017-1021 | the active source time never decreases over a run |
| `FleetRuns.ShutdownIsFinal` | fleet.go:828-999 | closed exactly when stopped, frozen from then on; after the last of the four successive waits all four groups are empty for ever and no watcher runs |
| `Invalidations.InvalidationTable.Accept` | fleet.go:1222-1269 | classifies a hint and updates the table as specified, on 64-bit arithmetic |
| `Invalidations.SuccessorIsExact` | fleet.go:1251-1251 | where the successor is computed it does not wrap |
| `Invalidations.InvalidationAccounting` | fleet.go:1227-1267 | accepted sequences strictly increase and end at the retained one, the table is bounded, the gap counter is the saturated number of gaps |
| `Invalidations.HintsAreJudgedByHistory` | fleet.go:1222-1260 | over every sequence of hints each is judged invalid, over the limit, duplicate, out of order, gapped or current exactly by what its stream accepted before, without wrap-around |
| `Invalidations.NoGapMeansNothingMissed` | fleet.go:1248-1252 | a stream with no reported gap has accepted exactly one to its last |
| `Invalidations.OldHintsChangeNothing` | fleet.go:1238-1247 | duplicates and reordered hints change nothing |
| `Invalidations.InvalidationTable.Convergence` | fleet.go:1191-1213 | the deadline and whether convergence is breached |
| `Invalidations.BreachIsALateUnmetHint` | fleet.go:1208-1210 | breached exactly when the latest hint that asked for another revision is overdue by the window and that revision is not active |

## Left out

- JSON and time text, input byte limits and `DisallowUnknownFields`: the model starts at the wire records; a document's encoded size is an arbitrary function.
- SHA-256 bucketing, revision digests, deterministic jitter and the Valkey key hash: arbitrary functions, the key hash injective.
- Error texts and most error kinds of the document reader and of snapshot construction: one failure each.
- Context cancellation inside a call, except before admission, as a refresh follower and at a backend: cancellation elsewhere is a failure step.
- The second cancellation check of an import, between decoding and the lock.
- Diagnostics: a strategy's own diagnostics are taken as already bounded, and those of non-matching strategies are not observable.
- Nil versus empty slices and maps, nil strategies and interfaces, and copying for aliasing: values are immutable here.
- Per-call load attempts and the semaphore around loader calls in the fleet, load counters, executor and failure classification.
- Fleet cache stores, failure codes and the sleep and jitter arithmetic of the loops: only their steps on shared state remain.
- Health, capabilities, audit listing, staged-change listing and tenant export of the providers: easy members.
- The pass-through calls of the caching and durable providers and the OpenFeature adapter.
- Wrap-around of versions, stage identities and revisions at 64 bits, and Lua's exact number range.
- Fleet.Fleet.Status: leaves out failure codes, load and gap counters and the watcher flag; the convergence fields are `InvalidationTable.Convergence`.
- CodecMeaning.NormalFormKeepsAnswers: does not cover snapshots whose caller-supplied strategies fail, which cannot be exported.
- Fleet.EarlyProblem: bounds the age of a candidate only where the maximum staleness is below the largest duration, because ages saturate there.
- Fleet.BasisIsBounded: bounds the age of an answer only where no bound is the largest duration, for the same reason.
- FleetRuns.ServedValuesAreBounded: needs the same; `Staleness.StalenessIsBoundedExactlyWhen` shows that it is exactly what is needed.
- Evaluator.AcceptedNeverFailsStructurally: does not exclude a depth error, which accepted graphs with long chains can give.
