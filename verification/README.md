# ResourceGroup controller: a verified model

The ResourceGroup controller keeps, in memory, which resources each ResourceGroup includes, watches the kinds of
those resources, caches a status for each of them, and writes a summary back into the ResourceGroup objects. This
project models that bookkeeping and the event and status loop around it, and proves what the parts promise each
other. Objects whose methods change their fields are classes with the same fields; each is tied to a value-level
specification, and the properties of whole runs are lemmas about that specification.

| file | what it models |
|---|---|
| `ApiTypes.dfy` | the API types and their conversions |
| `ResourceIndex.dfy`, `ReconcileRuns.dfy`, `ResourceMaps.dfy` | the resource map: its contents as a value, whole histories and interleavings, and the class with its heap sets |
| `CrdHandler.dfy` | the event channel and the fan-out of a CRD event |
| `ErrorTracker.dfy`, `WatchProgress.dfy`, `WatchLifecycle.dfy`, `FilteredWatchers.dfy` | the filtered watcher: error limiter, restart version and pauses, base watches, and the class |
| `TypeResolvers.dfy` | the kind to version mapping built from discovery |
| `WatchProtocol.dfy`, `WatchManagers.dfy` | the watch manager: the asynchronous protocol and the class |
| `RootReconcilers.dfy` | the root reconcile, from ResourceGroup to resource map to watches |
| `Conditions.dfy`, `StatusReports.dfy`, `StatusLoop.dfy`, `StatusWrites.dfy` | condition order, what a group is promised to be told of a resource, the status loop and its cache, the two statuses a reconcile writes and the update predicate |
| `CacheAgreement.dfy` | the status cache over whole histories: every lock section of the loops, watchers, CRD handler and reconciles is a step, while the cluster changes |
| `ApiStores.dfy` | the version-checked store and the retried status update |
| `GenerationProtocol.dfy` | snapshot, start write and end write of any number of reconciles |
| `Throttling.dfy` | the throttler and its timer goroutines |

Concurrency is modelled by step relations: unlocked reads and locked commits of `Reconcile`, watchers whose `Run`
returns at any time, timer goroutines that interleave with arriving events, and any number of reconciles against one
store. Classes carry the protocol state as ghost fields, and each method states which step it takes. Time is a
natural number that does not decrease.

What turned out not to hold, with the exact condition under which it does:

- The resource index stays the inverse of the group index only while no two overlapping calls of `Reconcile` share a
  group (`RacingCallsBreakTheInverse`); a diff that is out of date is harmless exactly when `StaleDiffHarmlessIff` says.
- Cached statuses depend on the order of calls for different groups (`StatusesDoNotCommute`). They do not if and only
  if no resource that has a status, and is tracked before and after both calls, would be dropped by one of the calls
  alone and kept by the other alone (`StatusesCommuteIff`).
- A status update that returns nil need not have been stored: after a conflict the retry compares the copy with what
  it has just put there. It is stored if and only if it changes the copy and the copy is of the latest version
  (`RetryUpdate`). A reconcile that starts from an old version writes nothing and reports success (`ReconcileKpt`).
- A watcher that dies late takes the entry of a newer watcher of its kind with it (`LateRemovalLosesLiveWatcher`);
  this is the only way a live watcher leaves the map without being stopped (`OrphanIffStale`).
- An event that arrives between a timer's enqueue and the removal of its mark leaves nothing pending
  (`LateEventIsLost`). An event is followed by an enqueue of its key, or one is pending, if and only if it was accepted,
  was skipped before the pending enqueue, or a later event of its key has been accepted (`EventCoveredIff`).
- The controller's own start write triggers another reconcile if and only if the group's status is disabled
  (`StartWriteIsQuiet`).
- A cached deletion shows in the conditions: where the group has an inventory id, an ownership condition appears that
  a fresh lookup would not give (`CacheIsInvisible`).
- The cache can disagree with the cluster with no news on its way. Six kinds of step can bring this about, and no other
  (`StepKeepsOne`): the loop stores an answer after the object has changed and its event been handled
  (`OvertakenStoreGoesStale`); an event finds its resource untracked but with a cached status
  (`UntrackedStatusGoesStale`); a CRD event passes such a resource over (`UntrackedStatusSurvivesCrd`); a watch event
  from before a CRD change is cached after the reset (`OldEventGoesStale`); a watch that restarts at the most recent
  version, or a watcher that dies, loses the last event of a resource with a status (`LostDeletionGoesStale`); and the
  cluster changes with nobody to report it (`UnreportedDeletionGoesStale`). Such a step does harm if and only if the
  status about to be written, or else the one cached, does not fit what the cluster says (`StepKeepsAgreementIff`);
  a run is free of it throughout if and only if all its steps are safe in this sense (`EveryRunIsConsistentIff`).
- The comment on `Reconcile` says that an empty resource list deletes the group; the code does so only when the
  deletion flag is set, and so does the model.

## Model

| member | source | states |
|---|---|---|
| ResourceMaps.ResourceMap.Reconcile | controllers/resourcemap/resourcemap.go:163-232 | the incremental update leaves all four maps exactly as a rebuild from the group index alone would, drops the cached status of exactly the resources that lost their last group, keeps every bucket non-empty and unshared, and returns each kind that still has a tracked resource once |
| ResourceMaps.ResourceMap.ReadDiff | controllers/resourcemap/resourcemap.go:164-172 | the unlocked read yields precisely what the group must gain and lose, duplicates in the input allowed |
| ResourceMaps.ResourceMap.CommitDiff | controllers/resourcemap/resourcemap.go:174-231 | the locked part, on any diff however old, touches no missing bucket and keeps the kind index in step with the owner index |
| ResourceMaps.ResourceMap.DetachMembers | controllers/resourcemap/resourcemap.go:178-196 | the delete loop over heap sets is the fold of single detachments, each finding the kind bucket it dereferences |
| ResourceMaps.ResourceMap.DetachMember | controllers/resourcemap/resourcemap.go:179-195 | a resource leaves the owner index, the status cache and its kind bucket together, and only with its last group |
| ResourceMaps.ResourceMap.AttachMembers | controllers/resourcemap/resourcemap.go:198-212 | the add loop is the fold of single attachments, and new sets are fresh objects |
| ResourceMaps.ResourceMap.AttachMember | controllers/resourcemap/resourcemap.go:199-211 | a resource enters its kind bucket exactly when its first group claims it |
| ResourceMaps.ResourceMap.ScanKinds | controllers/resourcemap/resourcemap.go:214-231 | scanning the owner index finds exactly the keys of the kind index, each once |
| ResourceMaps.ResourceMap.StoreGroup | controllers/resourcemap/resourcemap.go:220-224 | the group's own set is replaced or removed, and no other map changes |
| ResourceMaps.DiffResources | controllers/resourcemap/resourcemap.go:235-250 | the two lists hold exactly the set differences of old and new |
| ResourceMaps.ResourceMap.SetStatus | controllers/resourcemap/resourcemap.go:294-298 | caches a status for any resource, tracked or not, and leaves the three indexes as they were |
| ResourceMaps.ResourceMap.Get | controllers/resourcemap/resourcemap.go:269-276 | each group that includes the resource, once |
| ResourceMaps.ResourceMap.GetResources | controllers/resourcemap/resourcemap.go:301-315 | each tracked resource of the kind, once |
| ResourceMaps.ResourceMap.EmptyMeansNothingTracked | controllers/resourcemap/resourcemap.go:318-320 | although the check looks at two maps, it answers whether there are groups at all, and a yes means that nothing is tracked or indexed by kind either |
| ResourceMaps.ResourceMap.constructor | controllers/resourcemap/resourcemap.go:323-330 | a new map is valid and empty |
| ResourceIndex.ExactDetermines | controllers/resourcemap/resourcemap.go:127-144 | whenever the maps agree, owners and kinds are the inverse and the partition of the group index, so it alone determines them |
| ResourceIndex.DeterminedIsExact | controllers/resourcemap/resourcemap.go:127-144 | conversely, the inverse and the partition agree with the group index and have no empty bucket |
| ResourceIndex.DetachSound | controllers/resourcemap/resourcemap.go:179-195 | the two kind-bucket lookups of the delete loop always find a bucket, and afterwards kinds again partition the tracked resources |
| ResourceIndex.AttachSound | controllers/resourcemap/resourcemap.go:199-211 | attaching keeps the kind partition |
| ResourceIndex.CommitExactIff | controllers/resourcemap/resourcemap.go:174-224 | a commit leaves the indexes inverse to each other if and only if its diff still turns what the group now holds into what it wants |
| ResourceIndex.CommitStatuses | controllers/resourcemap/resourcemap.go:178-212 | even with an outdated diff exactly the statuses of resources that left the owner index go, and no other changes |
| ResourceIndex.CommitIsRebuild | controllers/resourcemap/resourcemap.go:163-232 | with a current diff the incremental commit equals the direct rebuild, cached statuses included |
| ReconcileRuns.RunExact | controllers/resourcemap/resourcemap.go:163-298 | after every run of reconciles and status writes the indexes are exact inverses and partitions with no empty bucket |
| ReconcileRuns.HistoryIndependence | controllers/resourcemap/resourcemap.go:163-232 | the three indexes depend only on each group's last call |
| ReconcileRuns.DeletingAllEmpties | controllers/resourcemap/resourcemap.go:220-224 | once the last call of every group was a deletion all three indexes are empty |
| ReconcileRuns.DifferentGroupsCommute | controllers/resourcemap/resourcemap.go:163-232 | calls for different groups give the same indexes in either order |
| ReconcileRuns.RepeatChangesNothing | controllers/resourcemap/resourcemap.go:163-232 | repeating a call changes nothing, cached statuses included |
| ReconcileRuns.StatusesDoNotCommute | controllers/resourcemap/resourcemap.go:181-184 | a concrete pair of calls: handing a resource over from one group to another keeps its cached status in one order and loses it in the other |
| ReconcileRuns.StatusesCommuteIff | controllers/resourcemap/resourcemap.go:163-232 | the cached statuses are the same in both orders of two calls for different groups if and only if no tracked resource with a status would be dropped by exactly one of the calls taken alone |
| ReconcileRuns.StaleDiffHarmlessIff | controllers/resourcemap/resourcemap.go:167-176 | a diff read earlier still commits exactly if and only if what the group gained since is wanted and what it was to keep is still there |
| ReconcileRuns.EveryInterleavingIsSerial | controllers/resourcemap/resourcemap.go:167-232 | if no two calls in flight share a group, every interleaving of unlocked reads, commits and status writes ends in the index of the serial run in commit order |
| ReconcileRuns.EveryRunIsSound | controllers/resourcemap/resourcemap.go:178-196 | even calls racing on one group never make a bucket lookup miss or leave a bucket empty |
| ReconcileRuns.RacingCallsBreakTheInverse | controllers/resourcemap/resourcemap.go:167-176 | two overlapping calls for one group can leave an owner that the group does not list |
| CrdHandler.CRDEventHandler.EnqueueEvent | controllers/handler/crd_event_handler.go:62-85 | exactly the tracked resources of the kind lose their cached status, no other entry changes, and each group is sent one event for each distinct resource of the kind it includes; other objects do nothing |
| CrdHandler.CRDEventHandler.ResetAndNotify | controllers/handler/crd_event_handler.go:72-84 | one resource: its status becomes nil and each group that includes it is sent one event |
| CrdHandler.SharedIsOfKind | controllers/handler/crd_event_handler.go:72-84 | counting a group's resources through the kind and owner indexes agrees with counting them in the group itself |
| CrdHandler.ClearAndFanOut | controllers/handler/crd_event_handler.go:72-84 | clearing and fanning out over the kind bucket has the promised effect on every resource and every group |
| ErrorTracker.PruningIsInvisible | controllers/watch/filteredwatcher.go:101-126 | over any clock that does not run backwards, pruning anywhere changes no answer of addError |
| ErrorTracker.AcceptedIffQuiet | controllers/watch/filteredwatcher.go:111-126 | a report is let through if and only if every earlier accepted report of the same error is at least the logging interval old |
| ErrorTracker.TrackerHoldsLatest | controllers/watch/filteredwatcher.go:119-126 | a tracker that never prunes remembers for each error the time of its latest accepted report |
| ErrorTracker.PrunedTrackerHoldsLatest | controllers/watch/filteredwatcher.go:103-126 | the real, pruned tracker does so too, and an error it does not remember has no accepted report younger than the interval |
| FilteredWatchers.FilteredWatcher.PruneErrors | controllers/watch/filteredwatcher.go:103-109 | deleting while ranging removes exactly the expired entries, and keeps the tracker what its calls so far make of it |
| FilteredWatchers.FilteredWatcher.AddError | controllers/watch/filteredwatcher.go:119-126 | answers as the rate limiter does after all calls so far, pruning included |
| WatchProgress.RestartIsLatestSinceExpiry | controllers/watch/filteredwatcher.go:179-198 | the restart version is the last non-empty version handled since the last expiry, or empty if there is none |
| WatchProgress.RetriesCountErrors | controllers/watch/filteredwatcher.go:190-195 | the retry counter is the number of errors since the last good event |
| WatchProgress.StreakIsRetries | controllers/watch/filteredwatcher.go:190-195 | and conversely a streak of n errors puts the counter at n |
| WatchProgress.StreakCost | controllers/watch/filteredwatcher.go:139-146 | n errors in a row cost 2^(n+1) - 2 ms of sleep up to n = 18 and 524286 + 262144 (n - 18) ms beyond |
| WatchLifecycle.EveryRunIsTidy | controllers/watch/filteredwatcher.go:131-137 | in every run of starts, stops and server closures at most one base watch is live, it is the current one, and none is live once stopped |
| WatchLifecycle.StopIsFinal | controllers/watch/filteredwatcher.go:211-237 | after Stop no schedule opens a watch or asks the server for one |
| WatchLifecycle.FailedStartLeavesNoneLive | controllers/watch/filteredwatcher.go:218-234 | a refused start leaves no watch live |
| FilteredWatchers.FilteredWatcher.Stop | controllers/watch/filteredwatcher.go:131-137 | the current base watch is stopped for good and no other watch was live |
| FilteredWatchers.FilteredWatcher.Start | controllers/watch/filteredwatcher.go:211-237 | takes the start step of the life cycle: nothing once stopped, otherwise the server is asked for a watch at the given version and the old base is stopped and replaced, or kept stopped when the server refuses |
| FilteredWatchers.FilteredWatcher.Handle | controllers/watch/filteredwatcher.go:265-328 | for each kind of event the version to go on with, the cached status (NotFound and nothing else for a deletion, otherwise the computed one if there is one) and one event to each group that includes the object; an untracked object or an unusable event changes nothing |
| FilteredWatchers.OutcomeAsPromised | controllers/watch/filteredwatcher.go:293-328 | the same as a table over the kinds of event |
| FilteredWatchers.FilteredWatcher.Drain | controllers/watch/filteredwatcher.go:172-199 | a session handles events up to its first error, each after a pruning of the error tracker; version, counter and pauses stay those of everything heard so far |
| FilteredWatchers.HandledUpToError | controllers/watch/filteredwatcher.go:172-194 | what a session handles is the prefix that ends with its first error |
| FilteredWatchers.FilteredWatcher.WaitUntilNextRetry | controllers/watch/filteredwatcher.go:139-146 | the pause is the capped power of two that the closed form adds up |
| FilteredWatchers.FilteredWatcher.Round | controllers/watch/filteredwatcher.go:157-199 | a round asks the server, unless stopped, for exactly the version it was given |
| FilteredWatchers.FilteredWatcher.Run | controllers/watch/filteredwatcher.go:151-205 | over any sessions, and even if stopped before it begins, the server is asked for the versions the history before each start calls for, the pauses slept are those of the history, the cache holds what the events handled leave, and a finished run leaves no base live |
| FilteredWatchers.Ending | controllers/watch/filteredwatcher.go:157-167 | a run ends at the first session before which it was stopped or whose watch is refused |
| FilteredWatchers.FilteredWatcher.constructor | controllers/watch/filteredwatcher.go:90-99 | a new watcher has an empty base and has asked for nothing |
| TypeResolvers.TypeResolver.Refresh | controllers/typeresolver/typeresolver.go:42-66 | a kind resolves exactly when a parsable list names it, and then to the group, version and kind of its last listing by position; a failed discovery keeps the old mapping |
| TypeResolvers.LastListingsAsPromised | controllers/typeresolver/typeresolver.go:49-62 | reading the lists one after the other makes the last listing by position win |
| TypeResolvers.LastListingIsUnique | controllers/typeresolver/typeresolver.go:49-62 | only one mapping meets that description |
| TypeResolvers.ResolutionsCount | controllers/typeresolver/typeresolver.go:69-74 | because resolution keeps group and kind, a set of kinds resolves to as many versions as it has resolvable kinds |
| WatchProtocol.UpdateKeeps | controllers/watch/manager.go:115-153 | an update keeps every entry a watcher of its own kind that nobody has stopped, and every missing kind accounted for |
| WatchProtocol.UpdateOutcome | controllers/watch/manager.go:115-153 | success exactly when watched equals requested; kept kinds keep their watcher, dropped ones are stopped, and missing ones are those whose creation failed |
| WatchProtocol.EveryRunIsAccounted | controllers/watch/manager.go:109-213 | in every reachable state only requested kinds are watched, and each missing one failed in the last update or has set the update flag |
| WatchProtocol.OrphanIffStale | controllers/watch/manager.go:191-199 | a step makes a running watcher unreachable if and only if it removes an entry that by then belongs to a later watcher |
| WatchProtocol.NoStaleNoOrphans | controllers/watch/manager.go:191-213 | without such removals every running watcher that was not stopped is in the map |
| WatchProtocol.LateRemovalLosesLiveWatcher | controllers/watch/manager.go:191-199 | a concrete run that loses a live watcher |
| WatchManagers.Manager.UpdateWatches | controllers/watch/manager.go:115-153 | takes the update step; nil exactly when the watched kinds are the requested ones; kept watchers are the same objects, dropped ones are stopped, missing kinds get a new one exactly when it can be created, and no update is called for afterwards |
| WatchManagers.Manager.StopObsolete | controllers/watch/manager.go:122-130 | exactly the watchers of kinds no longer wanted are stopped and forgotten |
| WatchManagers.Manager.StartMissing | controllers/watch/manager.go:132-152 | exactly the missing kinds that can be created get a fresh watcher, and an error names one that could not |
| WatchManagers.Manager.StartWatcher | controllers/watch/manager.go:166-187 | a watched kind is left alone, a failed creation changes nothing |
| WatchManagers.Manager.StopWatcher | controllers/watch/manager.go:203-213 | stops and forgets the entry, if there is one |
| WatchManagers.Manager.DropAfterError | controllers/watch/manager.go:191-199 | whatever watcher the kind has by then is forgotten, and an update is called for |
| RootReconcilers.Reconciler.Reconcile | controllers/root/root_controller.go:136-156 | success exactly when the watched versions are those some tracked kind resolves to, and then there are as many watchers as resolvable tracked kinds |
| RootReconcilers.Reconciler.UpdateWatches | controllers/root/root_controller.go:147-156 | the watched kinds are at most the resolutions of the given kinds, and those missing could not be created |
| RootReconcilers.Reconciler.ReconcileKptGroup | controllers/root/root_controller.go:101-174 | a found group that is neither deleting nor disabled holds exactly its resources and, as ResourceGroup objects, its subgroups; any other is gone, and no other group changes; a disabled group's status is emptied by one attempt; a group is announced exactly when it is to be tracked and watched; read and clear failures change no map |
| RootReconcilers.CallFollowsRead | controllers/root/root_controller.go:103-125 | the call each kind of read leads to leaves the group index as promised |
| RootReconcilers.Reconciler.ClearStatus | controllers/root/root_controller.go:159-171 | emptying the status is one attempt, which fails only on an error other than a conflict and only if there is something to empty |
| RootReconcilers.Reconciler.Follow | controllers/root/root_controller.go:125-133 | a tracked group is announced once the watches are in place, and only then |
| RootReconcilers.Reconciler.FollowRead | controllers/root/root_controller.go:103-133 | every read that did not fail is followed into the index, the watches and the announcement |
| RootReconcilers.IsStatusDisabled | controllers/root/root_controller.go:176-183 | a group is disabled exactly by that annotation with that value |
| ApiTypes.ToObjMetadata | apis/kpt.dev/v1alpha1/resourcegroup_types.go:252-262 | each subgroup becomes, in place, a resource with its namespace and name, of kind ResourceGroup in kpt.dev |
| ApiTypes.ToGroupStatuses | apis/kpt.dev/v1alpha1/resourcegroup_types.go:264-277 | each status becomes, in place, the status of the subgroup it names |
| ApiTypes.SubgroupRoundTrip | apis/kpt.dev/v1alpha1/resourcegroup_types.go:252-277 | a subgroup list survives the trip to resources, through any statuses, and back |
| Conditions.AdjustConditionOrder | controllers/resourcegroup/condition.go:55-85 | Reconciling first, Stalled second, by position the last of several of a type, an unknown one standing in for a missing one, then every other condition as often as before, sorted by type |
| Conditions.TextLessIff | controllers/resourcegroup/condition.go:70-72 | sorted means alphabetically: where two types part the smaller code point comes first, and a type before its extensions |
| Conditions.ConditionTrueIff | controllers/root/root_controller.go:291-299 | a condition is true exactly when the first of its type is |
| Conditions.AdjustedReads | controllers/resourcegroup/condition.go:53-54 | in an adjusted list the printed columns and both condition scans read positions 0 and 1 |
| Conditions.AdjustedPair | controllers/resourcegroup/condition.go:55-85 | the pair of conditions the controller writes is left as it is |
| Conditions.AdjustedTwice | controllers/resourcegroup/condition.go:55-85 | adjusting again keeps the first two in place and loses and adds nothing |
| StatusLoop.StatusComputer.ComputeStatus | controllers/resourcegroup/resourcegroup_controller.go:272-355 | one status for each resource in order: the cached one, else what the cluster says of the object the kind resolves to, NotFound or Unknown failing that, then outranked by the actuation of the last prior entry unless NotFound; the cache gains exactly the listed resources found |
| StatusLoop.ComputedReports | controllers/resourcegroup/resourcegroup_controller.go:283-386 | each status is what that table promises, with the source hash and the ownership condition that belong to it |
| StatusLoop.FilledAsPromised | controllers/resourcegroup/resourcegroup_controller.go:322-325 | the loop fills exactly the entries the table says |
| StatusReports.FillingDoesNotShow | controllers/resourcegroup/resourcegroup_controller.go:283-348 | a status promised from the filled cache is promised from the cache before |
| StatusLoop.StatusComputer.Observe | controllers/resourcegroup/resourcegroup_controller.go:284-328 | cache first, then resolution, then the cluster; only an object that was found is cached |
| StatusLoop.GetResourceStatus | controllers/resourcegroup/resourcegroup_controller.go:261-269 | the loop builds the prior-status map that the next row describes |
| StatusLoop.LastPriorCounts | controllers/resourcegroup/resourcegroup_controller.go:264-266 | a resource has a prior status exactly when the list names it, and of several entries the last counts |
| StatusLoop.FilledEntry | controllers/resourcegroup/resourcegroup_controller.go:283-328 | the loop fills exactly the nil or missing entries of listed resources the cluster has, and changes no other |
| StatusLoop.OrderDoesNotShow | controllers/resourcegroup/resourcegroup_controller.go:283-348 | each status depends only on the cache the loop started with, although the loop fills it on the way |
| StatusLoop.FromCacheSame | controllers/resourcegroup/resourcegroup_controller.go:377-386 | timestamps inside a cached entry or of the call change a status in timestamps only |
| StatusLoop.FixedPoint | controllers/resourcegroup/resourcegroup_controller.go:261-386 | with the cluster unchanged, running the loop on its own output and the cache it filled gives the same list up to timestamps and the same cache, duplicates included |
| StatusLoop.SettledOnce | controllers/resourcegroup/resourcegroup_controller.go:337-374 | converting by actuation a second time, from the first outcome, changes nothing |
| StatusLoop.AgreementKept | controllers/resourcegroup/resourcegroup_controller.go:322-325 | an entry that agrees with the cluster still does after the loop |
| StatusLoop.CacheIsInvisible | controllers/resourcegroup/resourcegroup_controller.go:283-343 | with a cache that agrees with the cluster the loop says what it would say with an empty one; conditions differ exactly where a deletion is cached and the group has an inventory id |
| CacheAgreement.StepKeepsAgreementIff | controllers/watch/filteredwatcher.go:299-316 | in any interleaving of loop passes, watchers, CRD handling, reconciles, reported and unreported cluster changes and lost events, a step leaves every status that no news is on its way for in agreement with the cluster if and only if, before the step, each resource it puts at risk has a status (about to be written, or else cached) that fits |
| CacheAgreement.StepKeepsOne | controllers/resourcegroup/resourcegroup_controller.go:288-325 | a resource can lose agreement only when an overtaken answer or event is written, when news finds it untracked but with a status, when its last news is lost, or when nobody reports a change; at all other moments none does |
| CacheAgreement.RiskDecides | controllers/watch/filteredwatcher.go:299-316 | at those moments the outcome can be told from the state before the step |
| CacheAgreement.TruthKept | controllers/resourcegroup/resourcegroup_controller.go:308-325 | an answer or event on its way is either marked as overtaken or what the cluster would say now |
| CacheAgreement.LoopIsARun | controllers/resourcegroup/resourcegroup_controller.go:283-328 | the steps of a pass, left alone, fill the cache exactly as the loop does |
| CacheAgreement.HandleIsTakeAndCache | controllers/watch/filteredwatcher.go:299-316 | what the watcher does with an event is what its two steps do, for tracked and untracked resources |
| CacheAgreement.OvertakenStoreGoesStale | controllers/resourcegroup/resourcegroup_controller.go:308-325 | a concrete run: the object goes and its watcher caches the deletion between a pass's lookup and its store, and the old status stays for a resource tracked all along |
| CacheAgreement.UntrackedStatusSurvivesCrd | controllers/handler/crd_event_handler.go:72-76 | a concrete run in which a CRD event passes over the stale status of a resource that a group claims later |
| CacheAgreement.OldEventGoesStale | controllers/watch/filteredwatcher.go:301-316 | a concrete run in which a watch event from before a CRD change is cached after the reset |
| CacheAgreement.EveryRunIsConsistentIff | controllers/resourcegroup/resourcegroup_controller.go:288-328 | a run keeps each settled status equal to what asking the cluster would give, in every state, if and only if each of its steps is safe where it is taken |
| CacheAgreement.EveryRunIsSound | controllers/resourcemap/resourcemap.go:174-231 | in every such run the indexes stay sound, so a commit can always be taken |
| CacheAgreement.LostDeletionGoesStale | controllers/watch/filteredwatcher.go:179-193 | a concrete run in which a watch restarts past a deletion and a tracked resource keeps the status of an absent object |
| CacheAgreement.UnreportedDeletionGoesStale | controllers/watch/manager.go:191-199 | a concrete run in which the object of a tracked resource goes while nobody watches its kind |
| CacheAgreement.HistoryIsInvisible | controllers/resourcegroup/resourcegroup_controller.go:283-343 | after any run of safe steps a pass reports for a settled resource what it would with an empty cache, and conditions differ exactly where a deletion is cached and the group has an inventory id |
| CacheAgreement.UntrackedStatusGoesStale | controllers/resourcegroup/resourcegroup_controller.go:322-325 | a concrete run in which a status cached for an untracked resource outlives the object and is reported by a group that claims it later |
| StatusWrites.EndReconcilingStatus | controllers/resourcegroup/resourcegroup_controller.go:197-258 | a finished reconcile reports, at the generation it was given, on its resources and subgroups as the table promises from the cache at the call, and its conditions say whether some resource failed; one that timed out keeps the old statuses and generation and is stalled; either has cached what it got through |
| StatusWrites.EndHasFields | controllers/resourcegroup/resourcegroup_controller.go:216-231 | the fields and conditions of the end status, finished, failed or timed out |
| StatusWrites.StartHasFields | controllers/resourcegroup/resourcegroup_controller.go:184-195 | the start status changes nothing but the two conditions |
| StatusWrites.ComputeUntilTimeout | controllers/resourcegroup/resourcegroup_controller.go:211-215 | giving up after any number of resources and subgroups leaves the cache filled for exactly those |
| StatusWrites.ComputeSubGroupStatuses | controllers/resourcegroup/resourcegroup_controller.go:248-258 | subgroups go through the same loop as resources of the ResourceGroup kind |
| StatusWrites.AggregateResourceStatuses | controllers/resourcegroup/resourcegroup_controller.go:388-402 | the group is stalled if and only if some resource has failed |
| StatusWrites.FailedTextsIffFailed | controllers/resourcegroup/resourcegroup_controller.go:389-397 | the message names somebody if and only if some resource has failed |
| StatusWrites.FailedTextsConcat | controllers/resourcegroup/resourcegroup_controller.go:389-396 | the failed resources are named in the order of the list, each once |
| StatusWrites.FailedTextOfOne | controllers/resourcegroup/resourcegroup_controller.go:391-394 | a failed resource is named by group, kind, namespace and name, any other not at all |
| StatusWrites.NeedsUpdateIff | controllers/root/root_controller.go:279-287 | the scan finds out whether any status is out of line with its actuation |
| StatusWrites.LoopOutputNeedsNoUpdate | controllers/resourcegroup/resourcegroup_controller.go:337-347 | whatever the prior status, cache and cluster, a computed list is in line with its actuation |
| StatusWrites.WrittenAsIs | controllers/resourcegroup/resourcegroup_controller.go:172-182 | what is stored is the status as composed, its conditions being in order already |
| StatusWrites.StartWriteIsQuiet | controllers/root/root_controller.go:245-275 | the event of the start write is accepted if and only if the group's status is disabled |
| StatusWrites.EndWriteIsQuietUnless | controllers/root/root_controller.go:245-298 | the event of the end write is accepted if and only if the reconcile timed out, a final status is Failed, or the group's status is disabled |
| StatusWrites.UpdateAcceptedIff | controllers/root/root_controller.go:245-299 | an update event is accepted if and only if the generation moved, the group is stalled, a disabled group still shows conditions, or an idle group has an entry whose status is not the one its actuation calls for |
| StatusWrites.OtherObjectsAreIgnored | controllers/root/root_controller.go:246-254 | events of other objects are never accepted |
| GenerationProtocol.SpecEditIsAccepted | controllers/root/root_controller.go:256-259 | no change of the spec, nor any other that moves the generation, is overlooked |
| GenerationProtocol.ActuationEditIsAcceptedIff | controllers/root/root_controller.go:273-287 | an outside change of actuations starts a reconcile of a quiet group exactly when it puts an entry out of line |
| GenerationProtocol.MetaEditIsAcceptedIff | controllers/root/root_controller.go:256-274 | any other change of metadata starts one exactly when the group is stalled, is disabled with conditions left, or is idle with an entry out of line |
| ApiStores.AttemptLandsIff | controllers/resourcegroup/resourcegroup_controller.go:174-181 | one attempt always leaves the copy with the new status, stored or not |
| ApiStores.ApiStore.RetryUpdate | controllers/resourcegroup/resourcegroup_controller.go:174-181 | the retry loop stores the status if and only if it differs from the copy's, the copy is of the latest version and the API server has no other objection; it reports failure only for such an objection, so after a conflict it reports success |
| GenerationProtocol.UpdateStatusKptGroup | controllers/resourcegroup/resourcegroup_controller.go:172-182 | one attempt with the conditions put in order, its failure reported and nothing stored then |
| ApiStores.TwoWrites | controllers/resourcegroup/resourcegroup_controller.go:118-129 | of the two writes of one reconcile the second is the last word if the copy was of the latest version, and otherwise neither is stored |
| GenerationProtocol.ReconcileKpt | controllers/resourcegroup/resourcegroup_controller.go:102-133 | from the latest version an undisturbed reconcile leaves a version that changes nothing but the status, is honest about its generation, and reports on this group's resources and subgroups under the id of its inventory label, from this cluster, the cache at the call and the statuses read; the cache afterwards is stated too; if the first update fails nothing is stored, if the second does the start status stays; a missing, deleting or outdated object is not written at all |
| GenerationProtocol.FinishReconcile | controllers/resourcegroup/resourcegroup_controller.go:124-129 | the second half, from the copy the start write has left: one attempt at an end status that reports on that copy under the id of its inventory label, and the cache it leaves |
| GenerationProtocol.StepKeeps | controllers/resourcegroup/resourcegroup_controller.go:102-236 | every step, of any number of reconciles and outside edits, keeps all stored versions honest and all copies true to their version |
| GenerationProtocol.EveryVersionIsHonest | controllers/resourcegroup/resourcegroup_controller.go:102-236 | in every run no stored version has observed more than its generation, one that has observed it lists exactly the resources and the subgroups of its spec in order, and the observed generation falls back only to the empty status of a disabled group |
| Throttling.Throttler.Generic | controllers/handler/throttler.go:67-104 | takes the check and mark steps: a marked key is skipped, any other gets a mark and a timer, and an event without an object is ignored |
| Throttling.Throttler.TimerAdds | controllers/handler/throttler.go:96-99 | the timer enqueues its key once the duration has passed |
| Throttling.Throttler.TimerUnmarks | controllers/handler/throttler.go:100-102 | the timer removes its mark in a later step of its own |
| Throttling.TimersKept | controllers/handler/throttler.go:76-103 | every step keeps one timer for each marked key and none for any other |
| Throttling.StepKeeps | controllers/handler/throttler.go:67-104 | every step keeps spacing, accounting and coverage of every key |
| Throttling.EveryEventIsCovered | controllers/handler/throttler.go:76-103 | in every run a key's enqueues plus its timer that has yet to enqueue are its accepted events, and each event accepted, or skipped before that enqueue, has one after it or pending |
| Throttling.EveryRunIsThrottled | controllers/handler/throttler.go:86-103 | in every run the n-th enqueue of a key after another comes at least n durations later, and a closed window of length L holds at most L / duration + 1 of them |
| Throttling.TimesAreEnqueues | controllers/handler/throttler.go:96-99 | the times read off the log are exactly those of the key's enqueues, each as often |
| Throttling.AcceptedAreCounted | controllers/handler/throttler.go:92-94 | and the count of accepted events is theirs |
| Throttling.EventCoveredIff | controllers/handler/throttler.go:76-103 | in every run, an event is followed by an enqueue of its key, or one is pending, if and only if it was accepted, skipped in time, or followed by an accepted event of its key |
| Throttling.EveryRunRescues | controllers/handler/throttler.go:98-102 | a late skip is made good by a later accepted event and by nothing else |
| Throttling.LateEventIsLost | controllers/handler/throttler.go:98-102 | a concrete run in which an event is skipped with nothing left to enqueue for it |

## Left out

- The Kubernetes API server, clients, discovery and REST mapping: reads, lookups, creations and watch openings are
  parameters, and the store of `GenerationProtocol` does version-checked writes only.
- `ComputeStatus` and the kstatus library: one opaque deterministic outcome for each object.
- CacheAgreement: resolving a kind and getting the object is one look at the cluster; restarts of the controller
  itself, which begin with an empty cache, are new runs.
- Metrics, logging, the `hasErr` flag that only feeds a metric, and the derivation of error ids (an id is a string).
- Condition timestamps are compared only modulo their value; message texts are carried but not reasoned about.
- The goroutine that outlives a timed-out reconcile writes the captured status later: not modelled; finishing and
  timing out, and how far it has come by then, are a free choice. What it caches later are steps of `CacheAgreement`.
- RetryUpdate: an update that is stored although its reply is lost is a write followed by `Abandon` in the protocol,
  not an outcome of this method.
- EditActuation: outside writers of the status are assumed to keep the names of the resource statuses and to leave the
  observed generation, the subgroup statuses and the conditions alone; one that does not can make a version dishonest.
- ReconcileKpt: edits between its two writes are modelled by the steps of the protocol, not by this method.
- Throttler: overlapping calls of `Generic` on one throttler; the channel source delivers one event at a time. That
  the work queue merges equal keys is not part of this model.
- ResourceMap: the unsynchronised read before the lock is one atomic step; a data race on the Go map itself is not modelled.
- Blocking on the unbuffered event channel: a send appends to a log.
- ResourceMaps.ResourceMap.GetStatus: a cached status is a value, so sharing of the pointer between callers is not modelled.
- SortByType: an insertion on sequences stands for `sort.Slice`, which sorts in place; only its promise is used.
- AcceptsUpdate: nil and empty conditions are one, since a decoded status has nil conditions exactly when it has none.
- Ranging over a Go map: any order, each key once; a bucket is a set.
- AddError, PruneErrors: one clock reading for each call.
- The random watch timeout, the inventory label (a library constant, here a parameter) and the parsing of group versions
  (a list either parses or not).
- Constructors of conditions, source hashes, timeout clamps and counting helpers: each is settled by reading a few lines.
