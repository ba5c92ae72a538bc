/** The ResourceGroup API types.  Go's open string types are datatypes with one
    constructor for each declared constant, `Unset` for the empty string and an
    `Other...` constructor for any further text. */
module ApiTypes {
  datatype Option<+T> = None | Some(value: T)

  datatype GroupKind = GroupKind(group: string, kind: string)

  datatype GroupVersionKind = GroupVersionKind(group: string, version: string, kind: string) {
    function GK(): GroupKind {
      GroupKind(group, kind)
    }
  }

  datatype NamespacedName = NamespacedName(namespace: string, name: string)

  datatype ObjMetadata = ObjMetadata(namespace: string, name: string, groupKind: GroupKind) {
    function GK(): GroupKind {
      groupKind
    }
  }

  datatype GroupMetadata = GroupMetadata(namespace: string, name: string)

  const SUBGROUP_GROUP_KIND := GroupKind("kpt.dev", "ResourceGroup")

  datatype Status =
    | Unset
    | InProgress
    | Failed
    | Current
    | Terminating
    | NotFound
    | Unknown
    | OtherStatus(text: string)

  datatype Strategy = NoStrategy | Apply | Delete | OtherStrategy(text: string)

  datatype Actuation =
    | NoActuation
    | ActuationPending
    | ActuationSucceeded
    | ActuationSkipped
    | ActuationFailed
    | OtherActuation(text: string)

  datatype ReconcileResult =
    | NoReconcile
    | ReconcilePending
    | ReconcileSucceeded
    | ReconcileSkipped
    | ReconcileTimeout
    | ReconcileFailed
    | OtherReconcile(text: string)

  datatype ConditionStatus =
    | NoConditionStatus
    | TrueStatus
    | FalseStatus
    | UnknownStatus
    | OtherConditionStatus(text: string)

  /** Condition types are ordered text: the conditions of a group are sorted by it. */
  type ConditionType = string

  const RECONCILING: ConditionType := "Reconciling"
  const STALLED: ConditionType := "Stalled"
  const OWNERSHIP: ConditionType := "OwnershipOverlap"

  type Time = nat

  datatype Condition = Condition(
    ctype: ConditionType,
    status: ConditionStatus,
    reason: string,
    message: string,
    lastTransitionTime: Time)
  {
    predicate IsEmpty() {
      this == Condition("", NoConditionStatus, "", "", 0)
    }
  }

  datatype ResourceStatus = ResourceStatus(
    meta: ObjMetadata,
    status: Status,
    sourceHash: string,
    conditions: seq<Condition>,
    strategy: Strategy,
    actuation: Actuation,
    reconcile: ReconcileResult)

  datatype GroupStatus = GroupStatus(meta: GroupMetadata, status: Status, conditions: seq<Condition>)

  datatype ResourceGroupStatus = ResourceGroupStatus(
    observedGeneration: nat,
    resourceStatuses: seq<ResourceStatus>,
    subgroupStatuses: seq<GroupStatus>,
    conditions: seq<Condition>)

  const EMPTY_STATUS := ResourceGroupStatus(0, [], [], [])

  datatype ResourceGroupSpec = ResourceGroupSpec(resources: seq<ObjMetadata>, subgroups: seq<GroupMetadata>)

  datatype ResourceGroup = ResourceGroup(
    name: NamespacedName,
    generation: nat,
    deleting: bool,
    labels: map<string, string>,
    annotations: map<string, string>,
    spec: ResourceGroupSpec,
    status: ResourceGroupStatus)

  /** What the controller remembers about one resource. */
  datatype CachedStatus = CachedStatus(
    status: Status,
    conditions: seq<Condition>,
    sourceHash: string,
    inventoryID: string)

  /** What a watcher caches for an object that has been deleted. */
  const DELETED_STATUS := CachedStatus(NotFound, [], "", "")

  function ToSet<T>(xs: seq<T>): set<T> {
    set x | x in xs
  }

  function SubgroupMeta(group: GroupMetadata): ObjMetadata {
    ObjMetadata(group.namespace, group.name, SUBGROUP_GROUP_KIND)
  }

  function SubgroupMetas(groups: seq<GroupMetadata>): seq<ObjMetadata> {
    seq(|groups|, i requires 0 <= i < |groups| => SubgroupMeta(groups[i]))
  }

  function GroupStatusOf(status: ResourceStatus): GroupStatus {
    GroupStatus(GroupMetadata(status.meta.namespace, status.meta.name), status.status, status.conditions)
  }

  function GroupStatusesOf(statuses: seq<ResourceStatus>): seq<GroupStatus> {
    seq(|statuses|, i requires 0 <= i < |statuses| => GroupStatusOf(statuses[i]))
  }

  method ToObjMetadata(groups: seq<GroupMetadata>) returns (metas: seq<ObjMetadata>)
    ensures metas == SubgroupMetas(groups)
    ensures |metas| == |groups|
    ensures forall i | 0 <= i < |groups| ::
              metas[i] == ObjMetadata(groups[i].namespace, groups[i].name, GroupKind("kpt.dev", "ResourceGroup"))
  {
    metas := [];
    for i := 0 to |groups|
      invariant metas == SubgroupMetas(groups[..i])
    {
      metas := metas + [SubgroupMeta(groups[i])];
    }
    assert groups[..|groups|] == groups;
  }

  method ToGroupStatuses(statuses: seq<ResourceStatus>) returns (groupStatuses: seq<GroupStatus>)
    ensures groupStatuses == GroupStatusesOf(statuses)
    ensures |groupStatuses| == |statuses|
    ensures forall i | 0 <= i < |statuses| ::
              && groupStatuses[i].meta == GroupMetadata(statuses[i].meta.namespace, statuses[i].meta.name)
              && groupStatuses[i].status == statuses[i].status && groupStatuses[i].conditions == statuses[i].conditions
  {
    groupStatuses := [];
    for i := 0 to |statuses|
      invariant groupStatuses == GroupStatusesOf(statuses[..i])
    {
      groupStatuses := groupStatuses + [GroupStatusOf(statuses[i])];
    }
    assert statuses[..|statuses|] == statuses;
  }

  /** Going to statuses and back to metadata loses only the kind, which is fixed:
      a subgroup list survives the trip through any per-entry status. */
  lemma SubgroupRoundTrip(groups: seq<GroupMetadata>, statuses: seq<ResourceStatus>)
    requires |statuses| == |groups|
    requires forall i | 0 <= i < |groups| :: statuses[i].meta == SubgroupMetas(groups)[i]
    ensures seq(|groups|, i requires 0 <= i < |groups| => GroupStatusesOf(statuses)[i].meta) == groups
  {
    forall i | 0 <= i < |groups|
      ensures GroupStatusesOf(statuses)[i].meta == groups[i]
    {
      assert statuses[i].meta == SubgroupMeta(groups[i]);
    }
  }
}
