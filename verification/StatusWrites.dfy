/** The two statuses one reconcile writes, and the predicate that decides which of the
    resulting update events start another reconcile. */
module StatusWrites {
  import opened ApiTypes
  import opened Conditions
  import opened ResourceMaps
  import opened StatusLoop
  import opened StatusReports
  import opened RootReconcilers

  const START_RECONCILING := "StartReconciling"
  const START_RECONCILING_MSG := "start reconciling"
  const FINISH_RECONCILING := "FinishReconciling"
  const FINISH_RECONCILING_MSG := "finish reconciling"
  const COMPONENT_FAILED := "ComponentFailed"
  const COMPONENT_FAILED_MSG_PREFIX := "The following components failed:"
  const EXCEED_TIMEOUT := "ExceedTimeout"
  const EXCEED_TIMEOUT_MSG :=
    "Exceed timeout, the .status.observedGeneration and .status.resourceStatuses fields are old."

  // ---- the statuses written ----

  function StartReconcilingStatus(status: ResourceGroupStatus, now: Time): ResourceGroupStatus {
    status.(conditions := [
              NewReconcilingCondition(TrueStatus, START_RECONCILING, START_RECONCILING_MSG, now),
              NewStalledCondition(FalseStatus, "", "", now)])
  }

  function ResourceText(res: ObjMetadata): string {
    res.groupKind.group + "/" + res.groupKind.kind + "/" + res.namespace + "/" + res.name
  }

  function FailedTexts(statuses: seq<ResourceStatus>): seq<string> {
    if statuses == [] then [] else
    var last := statuses[|statuses| - 1];
    FailedTexts(statuses[..|statuses| - 1]) + if last.status == Failed then [ResourceText(last.meta)] else []
  }

  function Joined(texts: seq<string>): string {
    if texts == [] then "" else if |texts| == 1 then texts[0]
    else Joined(texts[..|texts| - 1]) + ", " + texts[|texts| - 1]
  }

  function StalledFor(statuses: seq<ResourceStatus>, now: Time): Condition {
    var failed := FailedTexts(statuses);
    if |failed| > 0 then
      NewStalledCondition(TrueStatus, COMPONENT_FAILED, COMPONENT_FAILED_MSG_PREFIX + Joined(failed), now)
    else NewStalledCondition(FalseStatus, FINISH_RECONCILING, FINISH_RECONCILING_MSG, now)
  }

  predicate SomeFailed(statuses: seq<ResourceStatus>) {
    exists s | s in statuses :: s.status == Failed
  }

  lemma {:induction false} FailedTextsIffFailed(statuses: seq<ResourceStatus>)
    ensures FailedTexts(statuses) != [] <==> SomeFailed(statuses)
  {
    if statuses != [] {
      var init, last := statuses[..|statuses| - 1], statuses[|statuses| - 1];
      FailedTextsIffFailed(init);
      assert statuses == init + [last];
    }
  }

  /** Each failed resource is named once, in the order of the list, and no other is. */
  lemma {:induction false} FailedTextsConcat(a: seq<ResourceStatus>, b: seq<ResourceStatus>)
    ensures FailedTexts(a + b) == FailedTexts(a) + FailedTexts(b)
  {
    if b == [] {
      assert a + b == a;
    } else {
      var all := a + b;
      assert all[..|all| - 1] == a + b[..|b| - 1];
      FailedTextsConcat(a, b[..|b| - 1]);
    }
  }

  lemma FailedTextOfOne(s: ResourceStatus)
    ensures var m := s.meta;
            FailedTexts([s]) ==
            if s.status == Failed
            then [m.groupKind.group + "/" + m.groupKind.kind + "/" + m.namespace + "/" + m.name] else []
  {
    assert FailedTexts([s][..0]) == [];
  }

  method AggregateResourceStatuses(statuses: seq<ResourceStatus>, now: Time) returns (c: Condition)
    ensures c == StalledFor(statuses, now)
    ensures c.status == TrueStatus <==> SomeFailed(statuses)
  {
    var failedResources: seq<string> := [];
    for i := 0 to |statuses|
      invariant failedResources == FailedTexts(statuses[..i])
    {
      assert statuses[..i + 1][..i] == statuses[..i];
      if statuses[i].status == Failed {
        failedResources := failedResources + [ResourceText(statuses[i].meta)];
      }
    }
    assert statuses[..|statuses|] == statuses;
    FailedTextsIffFailed(statuses);
    if |failedResources| > 0 {
      var message := COMPONENT_FAILED_MSG_PREFIX + Joined(failedResources);
      return NewStalledCondition(TrueStatus, COMPONENT_FAILED, message, now);
    }
    return NewStalledCondition(FalseStatus, FINISH_RECONCILING, FINISH_RECONCILING_MSG, now);
  }

  function FinishedStatus(statuses: seq<ResourceStatus>, subgroups: seq<GroupStatus>, generation: nat,
                          now: Time): ResourceGroupStatus {
    ResourceGroupStatus(generation, statuses, subgroups, [
      NewReconcilingCondition(FalseStatus, FINISH_RECONCILING, FINISH_RECONCILING_MSG, now),
      StalledFor(statuses, now)])
  }

  function TimedOutStatus(status: ResourceGroupStatus, now: Time): ResourceGroupStatus {
    status.(conditions := [
              NewReconcilingCondition(FalseStatus, EXCEED_TIMEOUT, EXCEED_TIMEOUT_MSG, now),
              NewStalledCondition(TrueStatus, EXCEED_TIMEOUT, EXCEED_TIMEOUT_MSG, now)])
  }

  /** The statuses the loop gives for the group's resources: whatever the cache, the cluster and the prior status. */
  ghost predicate FromLoop(statuses: seq<ResourceStatus>, metas: seq<ObjMetadata>) {
    exists id: string, world: World, prior: Prior, cache: Statuses, clock: Clock ::
      statuses == ComputedAll(id, world, prior, cache, metas, clock)
  }

  ghost predicate SubgroupsFromLoop(statuses: seq<GroupStatus>, subgroups: seq<GroupMetadata>) {
    exists loop :: FromLoop(loop, SubgroupMetas(subgroups)) && statuses == GroupStatusesOf(loop)
  }

  /** The statuses that can end a reconcile of `rg`. */
  ghost predicate EndsReconcile(rg: ResourceGroup, timedOut: bool, now: Time, s: ResourceGroupStatus) {
    if timedOut then s == TimedOutStatus(rg.status, now)
    else
      && FromLoop(s.resourceStatuses, rg.spec.resources)
      && SubgroupsFromLoop(s.subgroupStatuses, rg.spec.subgroups)
      && s == FinishedStatus(s.resourceStatuses, s.subgroupStatuses, rg.generation, now)
  }

  method ComputeSubGroupStatuses(computer: StatusComputer, id: string, status: ResourceGroupStatus,
                                 subgroups: seq<GroupMetadata>, fetch: Fetch, clock: Clock)
    returns (statuses: seq<GroupStatus>, ghost loop: seq<ResourceStatus>)
    requires computer.resMap.Valid()
    modifies computer.resMap`resToStatus
    ensures computer.resMap.Valid()
    ensures var world := World(computer.resolver.typeMapping, fetch);
            var cache, metas := old(computer.resMap.resToStatus), SubgroupMetas(subgroups);
            && loop == ComputedAll(id, world, PriorOf(status.resourceStatuses), cache, metas, clock)
            && statuses == GroupStatusesOf(loop)
            && computer.resMap.resToStatus == FilledBy(world, cache, metas)
    ensures AllGroupsReported(id, computer.resolver.typeMapping, fetch, status.resourceStatuses,
                              old(computer.resMap.resToStatus), subgroups, clock, statuses)
  {
    hide ResourceMap.Valid, FilledBy, ComputedAll, PriorOf, Reports, CacheFilled;
    ghost var cache := computer.resMap.resToStatus;
    var metas := ToObjMetadata(subgroups);
    var groups := computer.ComputeStatus(id, status, metas, fetch, clock);
    loop := groups;
    statuses := ToGroupStatuses(groups);
    GroupsAsPromised(id, computer.resolver.typeMapping, fetch, status.resourceStatuses, cache, subgroups, clock,
                     groups, statuses);
  }

  lemma GroupsAsPromised(id: string, mapping: Mapping, fetch: Fetch, existing: seq<ResourceStatus>, cache: Statuses,
                         subgroups: seq<GroupMetadata>, clock: Clock,
                         loop: seq<ResourceStatus>, statuses: seq<GroupStatus>)
    requires AllReported(id, mapping, fetch, existing, cache, SubgroupMetas(subgroups), clock, loop)
    requires statuses == GroupStatusesOf(loop)
    ensures AllGroupsReported(id, mapping, fetch, existing, cache, subgroups, clock, statuses)
  {
    forall i | 0 <= i < |subgroups|
      ensures GroupReports(id, mapping, fetch, existing, cache, subgroups[i], clock(i), statuses[i])
    {
      assert Reports(id, mapping, fetch, existing, cache, SubgroupMetas(subgroups)[i], clock(i), loop[i]);
    }
  }

  /** The resources computed first leave no trace in what the subgroups report. */
  lemma GroupsBeforeFilling(id: string, mapping: Mapping, fetch: Fetch, existing: seq<ResourceStatus>,
                            before: Statuses, metas: seq<ObjMetadata>, after: Statuses,
                            subgroups: seq<GroupMetadata>, clock: Clock, statuses: seq<GroupStatus>)
    requires CacheFilled(mapping, fetch, metas, before, after)
    requires AllGroupsReported(id, mapping, fetch, existing, after, subgroups, clock, statuses)
    ensures AllGroupsReported(id, mapping, fetch, existing, before, subgroups, clock, statuses)
  {
    hide CacheFilled, Reports;
    forall i | 0 <= i < |subgroups|
      ensures GroupReports(id, mapping, fetch, existing, before, subgroups[i], clock(i), statuses[i])
    {
      assert GroupReports(id, mapping, fetch, existing, after, subgroups[i], clock(i), statuses[i]);
      var g := subgroups[i];
      var res := ObjMetadata(g.namespace, g.name, GroupKind("kpt.dev", "ResourceGroup"));
      var t :| Reports(id, mapping, fetch, existing, after, res, clock(i), t)
               && statuses[i].status == t.status && statuses[i].conditions == t.conditions;
      FillingDoesNotShow(id, mapping, fetch, existing, before, metas, after, res, clock(i), t);
    }
  }

  /** The first `done` of the resources and then the subgroups, or all if there are no more. */
  function FirstOf(rg: ResourceGroup, done: nat): seq<ObjMetadata> {
    var all := rg.spec.resources + SubgroupMetas(rg.spec.subgroups);
    all[..if done <= |all| then done else |all|]
  }

  lemma FirstOfSplits(rg: ResourceGroup, done: nat)
    ensures var n, metas := |rg.spec.resources|, SubgroupMetas(rg.spec.subgroups);
            FirstOf(rg, done) ==
            if done <= n then rg.spec.resources[..done]
            else rg.spec.resources + metas[..if done - n <= |metas| then done - n else |metas|]
  {
  }

  /** What the computing goroutine has cached by the time the reconcile gives up on it. */
  method ComputeUntilTimeout(computer: StatusComputer, id: string, rg: ResourceGroup, fetch: Fetch, clock: Clock,
                             done: nat)
    requires computer.resMap.Valid()
    modifies computer.resMap`resToStatus
    ensures computer.resMap.Valid()
    ensures computer.resMap.resToStatus ==
            FilledBy(World(computer.resolver.typeMapping, fetch), old(computer.resMap.resToStatus), FirstOf(rg, done))
    ensures CacheFilled(computer.resolver.typeMapping, fetch, FirstOf(rg, done),
                        old(computer.resMap.resToStatus), computer.resMap.resToStatus)
  {
    hide ResourceMap.Valid, FilledBy, ComputedAll, PriorOf, SubgroupMetas, FirstOf, AllReported, CacheFilled;
    ghost var world, cache := World(computer.resolver.typeMapping, fetch), computer.resMap.resToStatus;
    FirstOfSplits(rg, done);
    var n := |rg.spec.resources|;
    if done <= n {
      var _ := computer.ComputeStatus(id, rg.status, rg.spec.resources[..done], fetch, clock);
    } else {
      var _ := computer.ComputeStatus(id, rg.status, rg.spec.resources, fetch, clock);
      var metas := ToObjMetadata(rg.spec.subgroups);
      var some := metas[..if done - n <= |metas| then done - n else |metas|];
      var _ := computer.ComputeStatus(id, rg.status, some, fetch, clock);
      FilledInTwo(world, cache, rg.spec.resources, some);
    }
    FilledAsPromised(world, cache, FirstOf(rg, done));
  }

  /** The subgroups are computed after the resources, from the cache those have left.  A
      reconcile that times out drops the statuses but not what has been cached for the
      first `done` of them. */
  method EndReconcilingStatus(computer: StatusComputer, id: string, rg: ResourceGroup, fetch: Fetch, clock: Clock,
                              timedOut: bool, done: nat, now: Time) returns (s: ResourceGroupStatus)
    requires computer.resMap.Valid()
    modifies computer.resMap`resToStatus
    ensures computer.resMap.Valid()
    ensures EndsReconcile(rg, timedOut, now, s)
    ensures timedOut ==>
              computer.resMap.resToStatus ==
              FilledBy(World(computer.resolver.typeMapping, fetch), old(computer.resMap.resToStatus), FirstOf(rg, done))
    ensures !timedOut ==>
              var world, prior := World(computer.resolver.typeMapping, fetch), PriorOf(rg.status.resourceStatuses);
              var cache, metas := old(computer.resMap.resToStatus), SubgroupMetas(rg.spec.subgroups);
              var filled := FilledBy(world, cache, rg.spec.resources);
              && s.resourceStatuses == ComputedAll(id, world, prior, cache, rg.spec.resources, clock)
              && s.subgroupStatuses == GroupStatusesOf(ComputedAll(id, world, prior, filled, metas, clock))
              && computer.resMap.resToStatus == FilledBy(world, filled, metas)
    ensures CacheFilled(computer.resolver.typeMapping, fetch, Visited(rg, timedOut, done),
                        old(computer.resMap.resToStatus), computer.resMap.resToStatus)
    ensures EndFields(rg, timedOut, now, s)
    ensures !timedOut ==>
              && AllReported(id, computer.resolver.typeMapping, fetch, rg.status.resourceStatuses,
                             old(computer.resMap.resToStatus), rg.spec.resources, clock, s.resourceStatuses)
              && AllGroupsReported(id, computer.resolver.typeMapping, fetch, rg.status.resourceStatuses,
                                   old(computer.resMap.resToStatus), rg.spec.subgroups, clock, s.subgroupStatuses)
  {
    if timedOut {
      ComputeUntilTimeout(computer, id, rg, fetch, clock, done);
      s := TimedOutStatus(rg.status, now);
      EndHasFields(rg, timedOut, now, s);
      return;
    }
    hide ResourceMap.Valid, FilledBy, ComputedAll, PriorOf, FromLoop, StalledFor, SomeFailed, EndsReconcile;
    hide SubgroupMetas, GroupStatusesOf, NewReconcilingCondition, EndFields;
    hide AllReported, AllGroupsReported, CacheFilled, Visited;
    ghost var world, prior := World(computer.resolver.typeMapping, fetch), PriorOf(rg.status.resourceStatuses);
    ghost var cache := computer.resMap.resToStatus;
    var resources := computer.ComputeStatus(id, rg.status, rg.spec.resources, fetch, clock);
    LoopGives(id, world, prior, cache, rg.spec.resources, clock);
    ghost var filled, groups := computer.resMap.resToStatus, resources;
    var subgroups;
    subgroups, groups := ComputeSubGroupStatuses(computer, id, rg.status, rg.spec.subgroups, fetch, clock);
    LoopGives(id, world, prior, filled, SubgroupMetas(rg.spec.subgroups), clock);
    var stalled := AggregateResourceStatuses(resources, now);
    s := ResourceGroupStatus(rg.generation, resources, subgroups, [
      NewReconcilingCondition(FalseStatus, FINISH_RECONCILING, FINISH_RECONCILING_MSG, now), stalled]);
    FinishEnds(rg, resources, groups, now);
    EndHasFields(rg, timedOut, now, s);
    FilledByBoth(rg, world, cache, done);
    GroupsBeforeFilling(id, world.mapping, fetch, rg.status.resourceStatuses, cache, rg.spec.resources, filled,
                        rg.spec.subgroups, clock, subgroups);
  }

  /** The resources and subgroups a reconcile has asked about in the end. */
  function Visited(rg: ResourceGroup, timedOut: bool, done: nat): seq<ObjMetadata> {
    if timedOut then FirstOf(rg, done) else rg.spec.resources + SubgroupMetas(rg.spec.subgroups)
  }

  lemma FilledByBoth(rg: ResourceGroup, world: World, cache: Statuses, done: nat)
    ensures var filled := FilledBy(world, FilledBy(world, cache, rg.spec.resources), SubgroupMetas(rg.spec.subgroups));
            CacheFilled(world.mapping, world.fetch, Visited(rg, false, done), cache, filled)
  {
    FilledInTwo(world, cache, rg.spec.resources, SubgroupMetas(rg.spec.subgroups));
    FilledAsPromised(world, cache, rg.spec.resources + SubgroupMetas(rg.spec.subgroups));
  }

  predicate IsCondition(c: Condition, ctype: string, status: ConditionStatus, reason: string, now: Time) {
    c.ctype == ctype && c.status == status && c.reason == reason && c.lastTransitionTime == now
  }

  /** What the group says of itself at the end: done and healthy, done with a failure, or timed out. */
  ghost predicate EndFields(rg: ResourceGroup, timedOut: bool, now: Time, s: ResourceGroupStatus) {
    && |s.conditions| == 2
    && (timedOut ==>
          && s.observedGeneration == rg.status.observedGeneration
          && s.resourceStatuses == rg.status.resourceStatuses && s.subgroupStatuses == rg.status.subgroupStatuses
          && IsCondition(s.conditions[0], "Reconciling", FalseStatus, "ExceedTimeout", now)
          && IsCondition(s.conditions[1], "Stalled", TrueStatus, "ExceedTimeout", now))
    && (!timedOut ==>
          && s.observedGeneration == rg.generation
          && IsCondition(s.conditions[0], "Reconciling", FalseStatus, "FinishReconciling", now)
          && ((exists r :: r in s.resourceStatuses && r.status == Failed) ==>
                IsCondition(s.conditions[1], "Stalled", TrueStatus, "ComponentFailed", now))
          && ((forall r | r in s.resourceStatuses :: r.status != Failed) ==>
                IsCondition(s.conditions[1], "Stalled", FalseStatus, "FinishReconciling", now)))
  }

  lemma EndHasFields(rg: ResourceGroup, timedOut: bool, now: Time, s: ResourceGroupStatus)
    requires EndsReconcile(rg, timedOut, now, s)
    ensures EndFields(rg, timedOut, now, s)
  {
    if !timedOut {
      FailedTextsIffFailed(s.resourceStatuses);
    }
  }

  /** The start write changes the conditions only: Reconciling, and not stalled any more. */
  lemma StartHasFields(status: ResourceGroupStatus, now: Time)
    ensures var s := StartReconcilingStatus(status, now);
            && s.observedGeneration == status.observedGeneration
            && s.resourceStatuses == status.resourceStatuses && s.subgroupStatuses == status.subgroupStatuses
            && |s.conditions| == 2
            && IsCondition(s.conditions[0], "Reconciling", TrueStatus, "StartReconciling", now)
            && IsCondition(s.conditions[1], "Stalled", FalseStatus, "", now)
  {
  }

  lemma FinishEnds(rg: ResourceGroup, resources: seq<ResourceStatus>, groups: seq<ResourceStatus>, now: Time)
    requires FromLoop(resources, rg.spec.resources) && FromLoop(groups, SubgroupMetas(rg.spec.subgroups))
    ensures EndsReconcile(rg, false, now, FinishedStatus(resources, GroupStatusesOf(groups), rg.generation, now))
  {
    hide FromLoop, StalledFor;
  }

  lemma LoopGives(id: string, world: World, prior: Prior, cache: Statuses, metas: seq<ObjMetadata>, clock: Clock)
    ensures FromLoop(ComputedAll(id, world, prior, cache, metas, clock), metas)
  {
  }

  // ---- the predicate ----

  predicate StatusNeedsUpdate(statuses: seq<ResourceStatus>) {
    statuses != [] &&
    (ActuationStatusToLegacy(statuses[0]) != statuses[0].status || StatusNeedsUpdate(statuses[1..]))
  }

  /** None stands for an object that is not a ResourceGroup.  A decoded status has nil
      conditions exactly when it has none. */
  predicate AcceptsUpdate(oldObject: Option<ResourceGroup>, newObject: Option<ResourceGroup>) {
    if newObject.None? || oldObject.None? then false else
    var rgOld, rgNew := oldObject.value, newObject.value;
    if rgNew.generation != rgOld.generation || IsConditionTrue(STALLED, rgNew.status.conditions) then true
    else if IsStatusDisabled(rgNew) then rgNew.status.conditions != []
    else if IsConditionTrue(RECONCILING, rgNew.status.conditions) then false
    else StatusNeedsUpdate(rgNew.status.resourceStatuses)
  }

  lemma {:induction false} NeedsUpdateIff(statuses: seq<ResourceStatus>)
    ensures StatusNeedsUpdate(statuses) <==>
            exists i | 0 <= i < |statuses| :: ActuationStatusToLegacy(statuses[i]) != statuses[i].status
  {
    if statuses != [] {
      NeedsUpdateIff(statuses[1..]);
      if StatusNeedsUpdate(statuses[1..]) {
        var i :| 0 <= i < |statuses[1..]| && ActuationStatusToLegacy(statuses[1..][i]) != statuses[1..][i].status;
        assert statuses[i + 1] == statuses[1..][i];
      } else {
        forall i | 1 <= i < |statuses|
          ensures ActuationStatusToLegacy(statuses[i]) == statuses[i].status
        {
          assert statuses[i] == statuses[1..][i - 1];
        }
      }
    }
  }

  lemma LegacyTwice(s: ResourceStatus)
    ensures var t := s.(status := ActuationStatusToLegacy(s)); ActuationStatusToLegacy(t) == t.status
  {
  }

  lemma ComputedIsInLine(prior: Prior, s: ResourceStatus)
    requires s.actuation == NoActuation
    ensures var t := WithActuation(prior, s); ActuationStatusToLegacy(t) == t.status
  {
    if s.meta in prior {
      var p := prior[s.meta];
      LegacyTwice(s.(actuation := p.actuation, strategy := p.strategy, reconcile := p.reconcile));
    }
  }

  /** Whatever the prior actuation said, a computed list is already in line with it. */
  lemma LoopOutputNeedsNoUpdate(statuses: seq<ResourceStatus>, metas: seq<ObjMetadata>)
    requires FromLoop(statuses, metas)
    ensures !StatusNeedsUpdate(statuses)
  {
    var id: string, world: World, prior: Prior, cache: Statuses, clock: Clock :|
      statuses == ComputedAll(id, world, prior, cache, metas, clock);
    NeedsUpdateIff(statuses);
    hide Observed, ActuationStatusToLegacy, WithActuation, StatusNeedsUpdate, FromLoop;
    forall i | 0 <= i < |statuses|
      ensures ActuationStatusToLegacy(statuses[i]) == statuses[i].status
    {
      OrderDoesNotShow(id, world, prior, cache, metas, clock, i);
      var entry := Entry(cache, metas[i]);
      ObservedAgain(id, world, entry, entry, metas[i], clock(i), clock(i));
      ComputedIsInLine(prior, Observed(id, world, entry, metas[i], clock(i)));
    }
  }

  /** An entry whose status is not the one its actuation calls for. */
  predicate OutOfLine(s: ResourceStatus) {
    && s.status != NotFound
    && ((s.actuation != NoActuation && s.actuation != ActuationSucceeded && s.status != Unknown)
        || (s.actuation == ActuationSucceeded && s.reconcile == ReconcileSucceeded && s.status != Current))
  }

  lemma OutOfLineIff(statuses: seq<ResourceStatus>)
    ensures StatusNeedsUpdate(statuses) <==> exists i :: 0 <= i < |statuses| && OutOfLine(statuses[i])
  {
    NeedsUpdateIff(statuses);
    if StatusNeedsUpdate(statuses) {
      var i :| 0 <= i < |statuses| && ActuationStatusToLegacy(statuses[i]) != statuses[i].status;
      assert OutOfLine(statuses[i]);
    }
    if i :| 0 <= i < |statuses| && OutOfLine(statuses[i]) {
      assert ActuationStatusToLegacy(statuses[i]) != statuses[i].status;
    }
  }

  /** Exactly the events that need a reconcile are accepted: the spec has changed, the group
      is stalled, a disabled group still shows conditions, or, with no reconcile under way,
      somebody has changed an actuation. */
  lemma UpdateAcceptedIff(before: ResourceGroup, after: ResourceGroup)
    ensures AcceptsUpdate(Some(before), Some(after)) <==>
            || before.generation != after.generation
            || FirstIs("Stalled", TrueStatus, after.status.conditions)
            || (IsStatusDisabled(after) && after.status.conditions != [])
            || (!IsStatusDisabled(after) && !FirstIs("Reconciling", TrueStatus, after.status.conditions)
                && exists i :: 0 <= i < |after.status.resourceStatuses| && OutOfLine(after.status.resourceStatuses[i]))
  {
    ConditionTrueIff(STALLED, after.status.conditions);
    ConditionTrueIff(RECONCILING, after.status.conditions);
    OutOfLineIff(after.status.resourceStatuses);
  }

  lemma OtherObjectsAreIgnored(before: Option<ResourceGroup>, after: Option<ResourceGroup>)
    requires before.None? || after.None?
    ensures !AcceptsUpdate(before, after)
  {
  }

  /** `stored` is what the API server holds after `s` has been written with its conditions put in order. */
  ghost predicate Written(rg: ResourceGroup, s: ResourceGroupStatus, now: Time, stored: ResourceGroup) {
    exists conditions ::
      Adjusted(s.conditions, now, conditions) && stored == rg.(status := s.(conditions := conditions))
  }

  lemma WrittenAsIs(rg: ResourceGroup, s: ResourceGroupStatus, now: Time, stored: ResourceGroup)
    requires Written(rg, s, now, stored)
    requires |s.conditions| == 2 && s.conditions[0].ctype == RECONCILING && s.conditions[1].ctype == STALLED
    ensures stored == rg.(status := s)
    ensures IsConditionTrue(RECONCILING, stored.status.conditions) <==> s.conditions[0].status == TrueStatus
    ensures IsConditionTrue(STALLED, stored.status.conditions) <==> s.conditions[1].status == TrueStatus
  {
    var conditions :| Adjusted(s.conditions, now, conditions) && stored == rg.(status := s.(conditions := conditions));
    assert s.conditions == [s.conditions[0], s.conditions[1]];
    AdjustedPair(s.conditions[0], s.conditions[1], now, conditions);
    AdjustedReads(s.conditions, now, conditions);
  }

  /** The event of the start write starts another reconcile only for a disabled group. */
  lemma StartWriteIsQuiet(rg: ResourceGroup, now: Time, stored: ResourceGroup)
    requires Written(rg, StartReconcilingStatus(rg.status, now), now, stored)
    ensures AcceptsUpdate(Some(rg), Some(stored)) <==> IsStatusDisabled(rg)
  {
    WrittenAsIs(rg, StartReconcilingStatus(rg.status, now), now, stored);
  }

  /** The event of the end write starts another reconcile exactly when the reconcile timed
      out, a resource failed or the group is disabled: for every cache, cluster and prior status. */
  lemma EndWriteIsQuietUnless(rg: ResourceGroup, timedOut: bool, now: Time, s: ResourceGroupStatus,
                              stored: ResourceGroup)
    requires EndsReconcile(rg, timedOut, now, s) && Written(rg, s, now, stored)
    ensures AcceptsUpdate(Some(rg), Some(stored)) <==>
            timedOut || SomeFailed(stored.status.resourceStatuses) || IsStatusDisabled(rg)
  {
    WrittenAsIs(rg, s, now, stored);
    if !timedOut {
      FailedTextsIffFailed(s.resourceStatuses);
      LoopOutputNeedsNoUpdate(s.resourceStatuses, rg.spec.resources);
    }
  }
}
