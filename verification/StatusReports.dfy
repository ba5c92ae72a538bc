/** What a group is promised to be told about a resource, as a table over what is cached,
    what the cluster answers and what the group said before. */
module StatusReports {
  import opened ApiTypes

  type Statuses = map<ObjMetadata, Option<CachedStatus>>

  type Mapping = map<GroupKind, GroupVersionKind>

  /** What the API server answers for one object; `computed` is ComputeStatus of the object.
      Absent covers NotFound and NoMatch, Unreachable every other error. */
  datatype Lookup = Present(computed: CachedStatus) | Absent | Unreachable

  type Fetch = (GroupVersionKind, string, string) -> Lookup

  type Clock = nat -> Time

  /** An object that belongs to the group itself gets no ownership condition; one that
      belongs to another inventory, or to none, gets one that says so. */
  predicate OwnershipShown(id: string, c: CachedStatus, now: Time, conditions: seq<Condition>) {
    if c.inventoryID == id then conditions == c.conditions
    else
      && |conditions| == |c.conditions| + 1 && c.conditions <= conditions
      && var o := conditions[|c.conditions|];
         && o.ctype == "OwnershipOverlap" && o.lastTransitionTime == now
         && (c.inventoryID == "" ==> o.status == UnknownStatus && o.reason == "Unknown")
         && (c.inventoryID != "" ==> o.status == TrueStatus && o.reason == "Overlap")
  }

  predicate ShowsKnown(id: string, c: CachedStatus, now: Time, base: Status, s: ResourceStatus) {
    base == c.status && s.sourceHash == c.sourceHash && OwnershipShown(id, c, now, s.conditions)
  }

  predicate ShowsNothing(status: Status, base: Status, s: ResourceStatus) {
    base == status && s.sourceHash == "" && s.conditions == []
  }

  predicate IsCached(cache: Statuses, res: ObjMetadata) {
    res in cache && cache[res].Some?
  }

  /** A cached status is shown; without one the cluster decides: an object that is there is
      shown, an unresolved kind or an absent object is NotFound, and any failure Unknown. */
  predicate ShowsBase(id: string, mapping: Mapping, fetch: Fetch, cache: Statuses, res: ObjMetadata, now: Time,
                      base: Status, s: ResourceStatus) {
    && (IsCached(cache, res) ==> ShowsKnown(id, cache[res].value, now, base, s))
    && (!IsCached(cache, res) && res.GK() !in mapping ==> ShowsNothing(NotFound, base, s))
    && (!IsCached(cache, res) && res.GK() in mapping ==>
          match fetch(mapping[res.GK()], res.namespace, res.name)
          case Present(c) => ShowsKnown(id, c, now, base, s)
          case Absent => ShowsNothing(NotFound, base, s)
          case Unreachable => ShowsNothing(Unknown, base, s))
  }

  /** Position j holds the last existing status of the resource. */
  predicate IsPrior(existing: seq<ResourceStatus>, res: ObjMetadata, j: nat) {
    j < |existing| && existing[j].meta == res && forall i | j < i < |existing| :: existing[i].meta != res
  }

  /** Actuation outranks what was seen, except that nothing outranks NotFound. */
  predicate Converts(p: ResourceStatus, base: Status, s: ResourceStatus) {
    && s.actuation == p.actuation && s.strategy == p.strategy && s.reconcile == p.reconcile
    && (base == NotFound ==> s.status == NotFound)
    && (base != NotFound && p.actuation != NoActuation && p.actuation != ActuationSucceeded ==> s.status == Unknown)
    && (base != NotFound && p.actuation == ActuationSucceeded && p.reconcile == ReconcileSucceeded ==>
          s.status == Current)
    && (base != NotFound && p.actuation == ActuationSucceeded && p.reconcile != ReconcileSucceeded ==>
          s.status == base)
    && (base != NotFound && p.actuation == NoActuation ==> s.status == base)
  }

  ghost predicate ShowsPrior(existing: seq<ResourceStatus>, res: ObjMetadata, base: Status, s: ResourceStatus) {
    && (forall j: nat | IsPrior(existing, res, j) :: Converts(existing[j], base, s))
    && ((forall j | 0 <= j < |existing| :: existing[j].meta != res) ==>
          && s.status == base
          && s.actuation == NoActuation && s.strategy == NoStrategy && s.reconcile == NoReconcile)
  }

  /** The whole table, for one resource. */
  ghost predicate Reports(id: string, mapping: Mapping, fetch: Fetch, existing: seq<ResourceStatus>, cache: Statuses,
                          res: ObjMetadata, now: Time, s: ResourceStatus) {
    && s.meta == res
    && exists base ::
         ShowsBase(id, mapping, fetch, cache, res, now, base, s) && ShowsPrior(existing, res, base, s)
  }

  ghost predicate AllReported(id: string, mapping: Mapping, fetch: Fetch, existing: seq<ResourceStatus>,
                              cache: Statuses, metas: seq<ObjMetadata>, clock: Clock,
                              statuses: seq<ResourceStatus>) {
    && |statuses| == |metas|
    && forall i | 0 <= i < |metas| :: Reports(id, mapping, fetch, existing, cache, metas[i], clock(i), statuses[i])
  }

  ghost predicate GroupReports(id: string, mapping: Mapping, fetch: Fetch, existing: seq<ResourceStatus>,
                               cache: Statuses, subgroup: GroupMetadata, now: Time, s: GroupStatus) {
    && s.meta == subgroup
    && var res := ObjMetadata(subgroup.namespace, subgroup.name, GroupKind("kpt.dev", "ResourceGroup"));
       exists t ::
         && Reports(id, mapping, fetch, existing, cache, res, now, t)
         && s.status == t.status && s.conditions == t.conditions
  }

  /** A subgroup is reported as a resource of the ResourceGroup kind. */
  ghost predicate AllGroupsReported(id: string, mapping: Mapping, fetch: Fetch, existing: seq<ResourceStatus>,
                                    cache: Statuses, subgroups: seq<GroupMetadata>, clock: Clock,
                                    statuses: seq<GroupStatus>) {
    && |statuses| == |subgroups|
    && forall i | 0 <= i < |subgroups| ::
         GroupReports(id, mapping, fetch, existing, cache, subgroups[i], clock(i), statuses[i])
  }

  predicate FilledAt(mapping: Mapping, fetch: Fetch, metas: seq<ObjMetadata>, before: Statuses, after: Statuses,
                     r: ObjMetadata) {
    if r in metas && !IsCached(before, r) && r.GK() in mapping
       && fetch(mapping[r.GK()], r.namespace, r.name).Present?
    then r in after && after[r] == Some(fetch(mapping[r.GK()], r.namespace, r.name).computed)
    else (r in after <==> r in before) && (r in before ==> after[r] == before[r])
  }

  /** The listed resources that had no cached status and are there now have one, and no
      other entry has changed. */
  ghost predicate CacheFilled(mapping: Mapping, fetch: Fetch, metas: seq<ObjMetadata>,
                              before: Statuses, after: Statuses) {
    forall r :: FilledAt(mapping, fetch, metas, before, after, r)
  }

  /** What the loop has cached on the way does not show in what it reports next. */
  lemma FillingDoesNotShow(id: string, mapping: Mapping, fetch: Fetch, existing: seq<ResourceStatus>,
                           before: Statuses, metas: seq<ObjMetadata>, after: Statuses,
                           res: ObjMetadata, now: Time, s: ResourceStatus)
    requires CacheFilled(mapping, fetch, metas, before, after)
    requires Reports(id, mapping, fetch, existing, after, res, now, s)
    ensures Reports(id, mapping, fetch, existing, before, res, now, s)
  {
    assert FilledAt(mapping, fetch, metas, before, after, res);
    hide ShowsKnown, ShowsNothing, ShowsPrior;
    var base :| ShowsBase(id, mapping, fetch, after, res, now, base, s) && ShowsPrior(existing, res, base, s);
    assert ShowsBase(id, mapping, fetch, before, res, now, base, s);
  }
}
