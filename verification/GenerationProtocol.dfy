/** The snapshot, start-write, end-write protocol over a version-checked store. */
module GenerationProtocol {
  import opened ApiTypes
  import opened ApiStores
  import opened Conditions
  import opened ResourceMaps
  import opened StatusLoop
  import opened StatusReports
  import opened RootReconcilers
  import opened StatusWrites

  // ---- the machine ----

  datatype State = State(history: Versions, locals: map<nat, Local>)

  datatype Step =
    | EditSpec(spec: ResourceGroupSpec)
    | EditMeta(labels: map<string, string>, annotations: map<string, string>, deleting: bool, bumps: bool)
    | EditActuation(statuses: seq<ResourceStatus>)
    | Snapshot(id: nat, version: nat)
    | StartWrite(id: nat, now: Time)
    | EndWrite(id: nat, timedOut: bool, now: Time, status: ResourceGroupStatus)
    | ClearWrite(id: nat)
    | Abandon(id: nat)

  function Names(statuses: seq<ResourceStatus>): seq<ObjMetadata> {
    seq(|statuses|, i requires 0 <= i < |statuses| => statuses[i].meta)
  }

  function GroupNames(statuses: seq<GroupStatus>): seq<GroupMetadata> {
    seq(|statuses|, i requires 0 <= i < |statuses| => statuses[i].meta)
  }

  function Stored(s: State, rg: ResourceGroup): State {
    s.(history := s.history + [rg])
  }

  function Tried(s: State, id: nat, status: ResourceGroupStatus): State
    requires id in s.locals
  {
    var (history, local) := Attempt(s.history, s.locals[id], status);
    State(history, s.locals[id := local.(started := true)])
  }

  /** Snapshots may be read from a cache and be old; any number of reconciles and clearings
      may be under way at once. */
  ghost predicate Next(s: State, step: Step, t: State) {
    var rg := Latest(s.history);
    match step
    case EditSpec(spec) => t == Stored(s, rg.(spec := spec, generation := rg.generation + 1))
    case EditMeta(labels, annotations, deleting, bumps) =>
      var generation := if bumps then rg.generation + 1 else rg.generation;
      t == Stored(s, rg.(labels := labels, annotations := annotations, deleting := deleting, generation := generation))
    case EditActuation(statuses) =>
      && Names(statuses) == Names(rg.status.resourceStatuses)
      && t == Stored(s, rg.(status := rg.status.(resourceStatuses := statuses)))
    case Snapshot(id, version) =>
      && id !in s.locals && version < |s.history|
      && t == s.(locals := s.locals[id := Local(version, s.history[version], false)])
    case StartWrite(id, now) =>
      && id in s.locals && !s.locals[id].started
      && t == Tried(s, id, StartReconcilingStatus(s.locals[id].rg.status, now))
    case EndWrite(id, timedOut, now, status) =>
      && id in s.locals && s.locals[id].started
      && EndsReconcile(s.locals[id].rg, timedOut, now, status)
      && t == Tried(s, id, status).(locals := s.locals - {id})
    case ClearWrite(id) =>
      && id in s.locals && !s.locals[id].started && IsStatusDisabled(s.locals[id].rg)
      && t == Tried(s, id, EMPTY_STATUS).(locals := s.locals - {id})
    case Abandon(id) =>
      id in s.locals && t == s.(locals := s.locals - {id})
  }

  /** A version that claims to have observed its generation lists exactly its resources and
      subgroups, in order; none claims a generation that does not exist yet. */
  predicate Honest(rg: ResourceGroup) {
    && 0 < rg.generation
    && rg.status.observedGeneration <= rg.generation
    && (rg.status.observedGeneration == rg.generation ==>
          && Names(rg.status.resourceStatuses) == rg.spec.resources
          && GroupNames(rg.status.subgroupStatuses) == rg.spec.subgroups)
  }

  predicate Cleared(rg: ResourceGroup) {
    rg.status == EMPTY_STATUS && IsStatusDisabled(rg)
  }

  predicate Follows(before: ResourceGroup, after: ResourceGroup) {
    && before.generation <= after.generation
    && (Cleared(after) || before.status.observedGeneration <= after.status.observedGeneration)
  }

  /** A copy has the generation and spec of its version, and if that is still the latest
      version the copy is the stored object. */
  predicate Grounded(history: Versions, local: Local) {
    && local.version < |history|
    && local.rg.generation == history[local.version].generation
    && local.rg.spec == history[local.version].spec
    && (local.version == |history| - 1 ==> local.rg == Latest(history))
  }

  ghost predicate Inv(s: State) {
    && (forall i | 0 <= i < |s.history| :: Honest(s.history[i]))
    && (forall i | 0 < i < |s.history| :: Follows(s.history[i - 1], s.history[i]))
    && (forall id | id in s.locals :: Grounded(s.history, s.locals[id]))
  }

  lemma StoringKeeps(s: State, rg: ResourceGroup)
    requires Inv(s) && Honest(rg) && Follows(Latest(s.history), rg)
    ensures Inv(Stored(s, rg))
  {
    var t := Stored(s, rg);
    forall id | id in t.locals
      ensures Grounded(t.history, t.locals[id])
    {
      assert Grounded(s.history, s.locals[id]);
    }
  }

  /** A write tried from a copy keeps the invariant, if storing it on the version the copy was read from would. */
  lemma TryingKeeps(s: State, id: nat, status: ResourceGroupStatus)
    requires Inv(s) && id in s.locals
    requires var rg := s.locals[id].rg;
             s.locals[id].version == |s.history| - 1 ==>
               Honest(rg.(status := status)) && Follows(rg, rg.(status := status))
    ensures Inv(Tried(s, id, status))
  {
    var local := s.locals[id];
    var t := Tried(s, id, status);
    assert Grounded(s.history, local);
    if local.rg.status != status && local.version == |s.history| - 1 {
      var rg := Latest(s.history).(status := status);
      StoringKeeps(s, rg);
      var u := Stored(s, rg);
      assert t.history == u.history;
      forall i | i in t.locals
        ensures Grounded(t.history, t.locals[i])
      {
        assert i != id ==> t.locals[i] == u.locals[i] && Grounded(u.history, u.locals[i]);
      }
    } else {
      forall i | i in t.locals
        ensures Grounded(t.history, t.locals[i])
      {
        assert i != id ==> t.locals[i] == s.locals[i] && Grounded(s.history, s.locals[i]);
      }
    }
  }

  lemma ForgettingKeeps(s: State, id: nat)
    requires Inv(s)
    ensures Inv(s.(locals := s.locals - {id}))
  {
    var t := s.(locals := s.locals - {id});
    forall i | i in t.locals
      ensures Grounded(t.history, t.locals[i])
    {
      assert Grounded(s.history, s.locals[i]);
    }
  }

  lemma LoopNames(statuses: seq<ResourceStatus>, metas: seq<ObjMetadata>)
    requires FromLoop(statuses, metas)
    ensures Names(statuses) == metas
  {
    var id: string, world: World, prior: Prior, cache: Statuses, clock: Clock :|
      statuses == ComputedAll(id, world, prior, cache, metas, clock);
    forall i | 0 <= i < |metas|
      ensures Names(statuses)[i] == metas[i]
    {
      NamesInOrder(id, world, prior, cache, metas, clock, i);
    }
  }

  lemma SubgroupNames(statuses: seq<GroupStatus>, subgroups: seq<GroupMetadata>)
    requires SubgroupsFromLoop(statuses, subgroups)
    ensures GroupNames(statuses) == subgroups
  {
    var loop: seq<ResourceStatus> :| FromLoop(loop, SubgroupMetas(subgroups)) && statuses == GroupStatusesOf(loop);
    LoopNames(loop, SubgroupMetas(subgroups));
    forall i | 0 <= i < |subgroups|
      ensures loop[i].meta == SubgroupMetas(subgroups)[i]
    {
      assert Names(loop)[i] == loop[i].meta;
    }
    SubgroupRoundTrip(subgroups, loop);
  }

  lemma EndStatusIsHonest(rg: ResourceGroup, timedOut: bool, now: Time, s: ResourceGroupStatus)
    requires Honest(rg) && EndsReconcile(rg, timedOut, now, s)
    ensures Honest(rg.(status := s)) && Follows(rg, rg.(status := s))
  {
    if !timedOut {
      LoopNames(s.resourceStatuses, rg.spec.resources);
      SubgroupNames(s.subgroupStatuses, rg.spec.subgroups);
    }
  }

  lemma StepKeeps(s: State, step: Step, t: State)
    requires Inv(s) && Next(s, step, t)
    ensures Inv(t)
  {
    match step
    case EditSpec(_) => EditKeeps(s, step, t);
    case EditMeta(_, _, _, _) => EditKeeps(s, step, t);
    case EditActuation(_) => EditKeeps(s, step, t);
    case Snapshot(id, version) => SnapshotKeeps(s, id, version);
    case StartWrite(_, _) => WriteKeeps(s, step, t);
    case EndWrite(_, _, _, _) => WriteKeeps(s, step, t);
    case ClearWrite(_) => WriteKeeps(s, step, t);
    case Abandon(id) => ForgettingKeeps(s, id);
  }

  lemma EditKeeps(s: State, step: Step, t: State)
    requires Inv(s) && Next(s, step, t) && (step.EditSpec? || step.EditMeta? || step.EditActuation?)
    ensures Inv(t)
  {
    hide Inv;
    var rg := Latest(t.history);
    assert t == Stored(s, rg);
    assert Honest(Latest(s.history)) by {
      LatestIsHonest(s);
    }
    StoringKeeps(s, rg);
  }

  lemma LatestIsHonest(s: State)
    requires Inv(s)
    ensures Honest(Latest(s.history))
  {
  }

  lemma CopyIsGrounded(s: State, id: nat)
    requires Inv(s) && id in s.locals
    ensures Grounded(s.history, s.locals[id])
  {
  }

  lemma WriteKeeps(s: State, step: Step, t: State)
    requires Inv(s) && Next(s, step, t) && (step.StartWrite? || step.EndWrite? || step.ClearWrite?)
    ensures Inv(t)
  {
    hide Inv, Attempt;
    var id := step.id;
    var rg := s.locals[id].rg;
    CopyIsGrounded(s, id);
    LatestIsHonest(s);
    var status :=
      match step
      case StartWrite(_, now) => StartReconcilingStatus(rg.status, now)
      case EndWrite(_, _, _, status) => status
      case _ => EMPTY_STATUS;
    if step.EndWrite? && s.locals[id].version == |s.history| - 1 {
      EndStatusIsHonest(rg, step.timedOut, step.now, status);
    }
    TryingKeeps(s, id, status);
    ForgettingKeeps(Tried(s, id, status), id);
    assert Tried(s, id, status).locals - {id} == s.locals - {id};
  }

  lemma SnapshotKeeps(s: State, id: nat, version: nat)
    requires Inv(s) && version < |s.history|
    ensures Inv(s.(locals := s.locals[id := Local(version, s.history[version], false)]))
  {
    var t := s.(locals := s.locals[id := Local(version, s.history[version], false)]);
    forall i | i in t.locals
      ensures Grounded(t.history, t.locals[i])
    {
      assert i != id ==> Grounded(s.history, s.locals[i]);
    }
  }

  predicate Created(rg: ResourceGroup) {
    0 < rg.generation && rg.status == EMPTY_STATUS
  }

  ghost predicate IsRun(states: seq<State>, steps: seq<Step>) {
    && |states| == |steps| + 1
    && states[0].locals == map[] && |states[0].history| == 1 && Created(states[0].history[0])
    && forall i | 0 <= i < |steps| :: Next(states[i], steps[i], states[i + 1])
  }

  lemma {:induction false} EveryRunKeeps(states: seq<State>, steps: seq<Step>)
    requires IsRun(states, steps)
    ensures Inv(states[|states| - 1])
    decreases |steps|
  {
    hide Inv, Next;
    if steps != [] {
      var n := |steps| - 1;
      EveryRunKeeps(states[..n + 1], steps[..n]);
      StepKeeps(states[n], steps[n], states[n + 1]);
    } else {
      CreatedIsHonest(states[0]);
    }
  }

  lemma CreatedIsHonest(s: State)
    requires s.locals == map[] && |s.history| == 1 && Created(s.history[0])
    ensures Inv(s)
  {
  }

  /** In every run, every version ever stored is honest, generations never go back, and the
      observed generation never goes back except to the empty status of a disabled group. */
  lemma EveryVersionIsHonest(states: seq<State>, steps: seq<Step>, history: Versions, i: nat, j: nat)
    requires IsRun(states, steps) && history == states[|states| - 1].history
    requires i <= j < |history| && forall k | i < k <= j :: !Cleared(history[k])
    ensures Honest(history[i])
    ensures history[i].generation <= history[j].generation
    ensures history[i].status.observedGeneration <= history[j].status.observedGeneration
  {
    EveryRunKeeps(states, steps);
    NeverGoesBack(history, i, j);
  }

  lemma {:induction false} NeverGoesBack(history: Versions, i: nat, j: nat)
    requires i <= j < |history|
    requires forall k | 0 < k < |history| :: Follows(history[k - 1], history[k])
    requires forall k | i < k <= j :: !Cleared(history[k])
    ensures history[i].generation <= history[j].generation
    ensures history[i].status.observedGeneration <= history[j].status.observedGeneration
    decreases j
  {
    if i < j {
      NeverGoesBack(history, i, j - 1);
      assert Follows(history[j - 1], history[j]);
    }
  }

  // ---- which steps start another reconcile ----

  /** A change of the spec, or any other that moves the generation, is never overlooked. */
  lemma SpecEditIsAccepted(s: State, step: Step, t: State)
    requires Next(s, step, t) && (step.EditSpec? || (step.EditMeta? && step.bumps))
    ensures AcceptsUpdate(Some(Latest(s.history)), Some(Latest(t.history)))
  {
    UpdateAcceptedIff(Latest(s.history), Latest(t.history));
  }

  /** An outside change of the actuations starts a reconcile of a quiet group exactly when it
      puts an entry out of line. */
  lemma ActuationEditIsAcceptedIff(s: State, statuses: seq<ResourceStatus>, t: State)
    requires Next(s, EditActuation(statuses), t)
    requires var rg := Latest(s.history);
             && !IsStatusDisabled(rg) && !FirstIs("Stalled", TrueStatus, rg.status.conditions)
             && !FirstIs("Reconciling", TrueStatus, rg.status.conditions)
    ensures AcceptsUpdate(Some(Latest(s.history)), Some(Latest(t.history))) <==>
            exists i :: 0 <= i < |statuses| && OutOfLine(statuses[i])
  {
    UpdateAcceptedIff(Latest(s.history), Latest(t.history));
  }

  /** Other changes of the metadata start one exactly when the group is stalled, is disabled
      and still shows conditions, or is idle with an entry out of line. */
  lemma MetaEditIsAcceptedIff(s: State, step: Step, t: State)
    requires Next(s, step, t) && step.EditMeta? && !step.bumps
    ensures var rg := Latest(t.history);
            AcceptsUpdate(Some(Latest(s.history)), Some(rg)) <==>
            || FirstIs("Stalled", TrueStatus, rg.status.conditions)
            || (IsStatusDisabled(rg) && rg.status.conditions != [])
            || (!IsStatusDisabled(rg) && !FirstIs("Reconciling", TrueStatus, rg.status.conditions)
                && exists i :: 0 <= i < |rg.status.resourceStatuses| && OutOfLine(rg.status.resourceStatuses[i]))
  {
    UpdateAcceptedIff(Latest(s.history), Latest(t.history));
  }

  // ---- the code ----

  method UpdateStatusKptGroup(store: ApiStore, resgroup: Fetched, newStatus: ResourceGroupStatus, fails: bool,
                              now: Time)
    returns (failed: bool, ghost written: ResourceGroupStatus)
    modifies store, resgroup
    ensures written == newStatus.(conditions := written.conditions)
    ensures Adjusted(newStatus.conditions, now, written.conditions)
    ensures failed == (fails && old(resgroup.rg.status) != written)
    ensures failed ==>
              && store.history == old(store.history) && resgroup.version == old(resgroup.version)
              && resgroup.rg == old(resgroup.rg).(status := written)
    ensures !failed ==>
              var (history, local) :=
                Attempt(old(store.history), Local(old(resgroup.version), old(resgroup.rg), false), written);
              store.history == history && resgroup.version == local.version && resgroup.rg == local.rg
  {
    hide Attempt, Adjusted;
    var conditions := AdjustConditionOrder(newStatus.conditions, now);
    var adjusted := newStatus.(conditions := conditions);
    written := adjusted;
    failed := store.RetryUpdate(resgroup, adjusted, fails);
  }

  function GetInventoryID(labels: map<string, string>, inventoryLabel: string): string {
    if inventoryLabel in labels then labels[inventoryLabel] else ""
  }

  /** An update whose two conditions are already in order is written as it is. */
  method UpdateOrdered(store: ApiStore, resgroup: Fetched, newStatus: ResourceGroupStatus, fails: bool, now: Time)
    returns (failed: bool)
    requires |newStatus.conditions| == 2
    requires newStatus.conditions[0].ctype == RECONCILING && newStatus.conditions[1].ctype == STALLED
    modifies store, resgroup
    ensures failed == (fails && old(resgroup.rg.status) != newStatus)
    ensures failed ==> store.history == old(store.history)
    ensures !failed ==>
              var (history, local) :=
                Attempt(old(store.history), Local(old(resgroup.version), old(resgroup.rg), false), newStatus);
              store.history == history && resgroup.version == local.version && resgroup.rg == local.rg
  {
    hide Attempt, Adjusted;
    ghost var pair, written := newStatus.conditions, newStatus;
    failed, written := UpdateStatusKptGroup(store, resgroup, newStatus, fails, now);
    assert pair == [pair[0], pair[1]];
    AdjustedPair(pair[0], pair[1], now, written.conditions);
  }

  lemma EndHasTwoConditions(rg: ResourceGroup, timedOut: bool, now: Time, s: ResourceGroupStatus)
    requires EndsReconcile(rg, timedOut, now, s)
    ensures |s.conditions| == 2 && s.conditions[0].ctype == RECONCILING && s.conditions[1].ctype == STALLED
    ensures s.conditions[0].status == FalseStatus
    ensures !timedOut ==> s.observedGeneration == rg.generation
  {
  }

  /** The id is the value of the inventory label, or empty without one. */
  predicate IsInventoryID(labels: map<string, string>, inventoryLabel: string, id: string) {
    && (inventoryLabel in labels ==> id == labels[inventoryLabel])
    && (inventoryLabel !in labels ==> id == "")
  }

  /** The statuses of `rg` come from this cluster, this cache, the statuses it had before and
      its own inventory id. */
  ghost predicate ReportsOn(rg: ResourceGroup, inventoryLabel: string, mapping: Mapping, fetch: Fetch,
                            existing: seq<ResourceStatus>, cache: Statuses, clock: Clock, s: ResourceGroupStatus) {
    exists id ::
      && IsInventoryID(rg.labels, inventoryLabel, id)
      && AllReported(id, mapping, fetch, existing, cache, rg.spec.resources, clock, s.resourceStatuses)
      && AllGroupsReported(id, mapping, fetch, existing, cache, rg.spec.subgroups, clock, s.subgroupStatuses)
  }

  /** What the API server holds after one reconcile of its latest version `rg` has run to
      its end with nobody writing in between. */
  ghost predicate Finished(rg: ResourceGroup, timedOut: bool, now: Time, later: Time, end: ResourceGroup) {
    && EndsReconcile(rg.(status := StartReconcilingStatus(rg.status, now)), timedOut, later, end.status)
    && end == rg.(status := end.status)
    && (Honest(rg) ==> Honest(end))
    && EndFields(rg.(status := StartReconcilingStatus(rg.status, now)), timedOut, later, end.status)
  }

  lemma FinishIsHonest(rg: ResourceGroup, timedOut: bool, now: Time, later: Time, s: ResourceGroupStatus)
    requires EndsReconcile(rg.(status := StartReconcilingStatus(rg.status, now)), timedOut, later, s)
    ensures Finished(rg, timedOut, now, later, rg.(status := s))
  {
    var started := rg.(status := StartReconcilingStatus(rg.status, now));
    EndHasFields(started, timedOut, later, s);
    if Honest(rg) {
      EndStatusIsHonest(started, timedOut, later, s);
    }
  }

  /** The second half of a reconcile, from the copy the start write has left. */
  method FinishReconcile(store: ApiStore, computer: StatusComputer, resgroup: Fetched, inventoryLabel: string,
                         fetch: Fetch, clock: Clock, timedOut: bool, done: nat, fails: bool, later: Time)
    returns (failed: bool, ghost end: ResourceGroupStatus)
    requires computer.resMap.Valid() && IsConditionTrue(RECONCILING, resgroup.rg.status.conditions)
    modifies store, resgroup, computer.resMap`resToStatus
    ensures computer.resMap.Valid() && failed == fails
    ensures EndsReconcile(old(resgroup.rg), timedOut, later, end)
    ensures store.history ==
            if failed then old(store.history)
            else Attempt(old(store.history), Local(old(resgroup.version), old(resgroup.rg), false), end).0
    ensures EndFields(old(resgroup.rg), timedOut, later, end)
    ensures !timedOut ==>
              ReportsOn(old(resgroup.rg), inventoryLabel, computer.resolver.typeMapping, fetch,
                        old(resgroup.rg).status.resourceStatuses, old(computer.resMap.resToStatus), clock, end)
    ensures CacheFilled(computer.resolver.typeMapping, fetch, Visited(old(resgroup.rg), timedOut, done),
                        old(computer.resMap.resToStatus), computer.resMap.resToStatus)
  {
    hide ResourceMap.Valid, EndsReconcile, Attempt, AllReported, AllGroupsReported, CacheFilled, Visited, EndFields;
    var rg := resgroup.rg;
    var id := GetInventoryID(rg.labels, inventoryLabel);
    var status := EndReconcilingStatus(computer, id, rg, fetch, clock, timedOut, done, later);
    EndHasTwoConditions(rg, timedOut, later, status);
    assert IsInventoryID(rg.labels, inventoryLabel, id);
    end := status;
    failed := UpdateOrdered(store, resgroup, status, fails, later);
  }

  /** One reconcile that nothing interrupts.  `startFails` and `endFails` say whether the
      API server answers the two updates with an error other than a conflict.  From the
      latest version it leaves a finished one; from an older one it writes nothing, and
      reports success all the same. */
  method ReconcileKpt(store: ApiStore, computer: StatusComputer, read: Read, version: nat, inventoryLabel: string,
                      fetch: Fetch, clock: Clock, timedOut: bool, done: nat, startFails: bool, endFails: bool,
                      now: Time, later: Time) returns (failed: bool)
    requires computer.resMap.Valid() && version < |store.history|
    requires version == |store.history| - 1 && read.Found? ==> read.rg == Latest(store.history)
    modifies store, computer.resMap`resToStatus
    ensures computer.resMap.Valid()
    ensures !read.Found? || read.rg.deleting ==> failed == read.ReadError? && store.history == old(store.history)
    ensures read.Found? && !read.rg.deleting ==>
              var start := StartReconcilingStatus(read.rg.status, now);
              && failed == ((startFails && read.rg.status != start) || endFails)
              && (version != |old(store.history)| - 1 ==> store.history == old(store.history))
              && (version == |old(store.history)| - 1 && startFails && failed && read.rg.status != start ==>
                    store.history == old(store.history))
              && (version == |old(store.history)| - 1 && failed && !(startFails && read.rg.status != start) ==>
                    Latest(store.history) == read.rg.(status := start))
              && (version == |old(store.history)| - 1 && !failed ==>
                    Finished(read.rg, timedOut, now, later, Latest(store.history)))
    ensures read.Found? && !read.rg.deleting && !failed && version == |old(store.history)| - 1 && !timedOut ==>
              ReportsOn(read.rg, inventoryLabel, computer.resolver.typeMapping, fetch,
                        read.rg.status.resourceStatuses, old(computer.resMap.resToStatus), clock,
                        Latest(store.history).status)
    ensures var asks := read.Found? && !read.rg.deleting
                        && !(startFails && read.rg.status != StartReconcilingStatus(read.rg.status, now));
            && (!asks ==> computer.resMap.resToStatus == old(computer.resMap.resToStatus))
            && (asks ==>
                  CacheFilled(computer.resolver.typeMapping, fetch, Visited(read.rg, timedOut, done),
                              old(computer.resMap.resToStatus), computer.resMap.resToStatus))
  {
    if !read.Found? {
      return read.ReadError?;
    }
    if read.rg.deleting {
      return false;
    }
    hide ResourceMap.Valid, EndsReconcile, Honest, Attempt, Finished, CacheFilled, AllReported, AllGroupsReported;
    hide EndFields;
    var resgroup := new Fetched(version, read.rg);
    var start := StartReconcilingStatus(read.rg.status, now);
    failed := UpdateOrdered(store, resgroup, start, startFails, now);
    if failed {
      return;
    }
    ghost var end := start;
    TwoWrites(old(store.history), version, read.rg, start, start);
    failed, end := FinishReconcile(store, computer, resgroup, inventoryLabel, fetch, clock,
                                    timedOut, done, endFails, later);
    TwoWrites(old(store.history), version, read.rg, start, end);
    FinishIsHonest(read.rg, timedOut, now, later, end);
  }
}
