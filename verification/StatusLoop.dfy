/** How the statuses of a group's resources are computed: from the cache where it has an
    entry, from the cluster where it has not, filling the cache on the way. */
module StatusLoop {
  import opened ApiTypes
  import opened ResourceIndex
  import opened ResourceMaps
  import opened StatusReports
  import opened TypeResolvers

  /** The cluster as the loop sees it: how kinds resolve and what objects there are. */
  datatype World = World(mapping: map<GroupKind, GroupVersionKind>, fetch: Fetch) {
    function Look(res: ObjMetadata): Lookup {
      if res.GK() in mapping then fetch(mapping[res.GK()], res.namespace, res.name) else Absent
    }
  }

  function Entry(statuses: Statuses, res: ObjMetadata): Option<CachedStatus> {
    if res in statuses then statuses[res] else None
  }

  function ActuationStatusToLegacy(s: ResourceStatus): Status {
    if s.status == NotFound then NotFound
    else if s.actuation != NoActuation && s.actuation != ActuationSucceeded then Unknown
    else if s.actuation == ActuationSucceeded && s.reconcile == ReconcileSucceeded then Current
    else s.status
  }

  const OWNERSHIP_UNMATCH := "Overlap"
  const OWNERSHIP_EMPTY := "Unknown"

  function UnmatchMessage(inv: string): string {
    "This resource is owned by another ResourceGroup " + inv + ". " +
    "The status only reflects the specification for the current object in ResourceGroup " + inv + "."
  }

  const EMPTY_OWNER_MESSAGE := "This object is not owned by any inventory object. " +
    "The status for the current object may not reflect the specification for it in current ResourceGroup."

  function OwnershipCondition(id: string, inv: string, now: Time): Option<Condition> {
    if id == inv then None
    else if inv != "" then Some(Condition(OWNERSHIP, TrueStatus, OWNERSHIP_UNMATCH, UnmatchMessage(inv), now))
    else Some(Condition(OWNERSHIP, UnknownStatus, OWNERSHIP_EMPTY, EMPTY_OWNER_MESSAGE, now))
  }

  function Bare(res: ObjMetadata, status: Status): ResourceStatus {
    ResourceStatus(res, status, "", [], NoStrategy, NoActuation, NoReconcile)
  }

  function FromCache(id: string, res: ObjMetadata, cached: CachedStatus, now: Time): ResourceStatus {
    var owner := OwnershipCondition(id, cached.inventoryID, now);
    Bare(res, cached.status).(
      sourceHash := cached.sourceHash,
      conditions := cached.conditions + if owner.Some? then [owner.value] else [])
  }

  /** The status of one resource before actuation is taken into account. */
  function Observed(id: string, world: World, entry: Option<CachedStatus>, res: ObjMetadata,
                    now: Time): ResourceStatus {
    match entry
    case Some(cached) => FromCache(id, res, cached, now)
    case None =>
      match world.Look(res)
      case Present(computed) => FromCache(id, res, computed, now)
      case Absent => Bare(res, NotFound)
      case Unreachable => Bare(res, Unknown)
  }

  type Prior = map<ObjMetadata, ResourceStatus>

  function WithActuation(prior: Prior, s: ResourceStatus): ResourceStatus {
    if s.meta !in prior then s else
    var p := prior[s.meta];
    var t := s.(actuation := p.actuation, strategy := p.strategy, reconcile := p.reconcile);
    t.(status := ActuationStatusToLegacy(t))
  }

  /** The existing statuses by resource; of several for one resource the last. */
  function PriorOf(statuses: seq<ResourceStatus>): Prior {
    if statuses == [] then map[] else
    var last := statuses[|statuses| - 1];
    PriorOf(statuses[..|statuses| - 1])[last.meta := last]
  }

  function Remembered(world: World, statuses: Statuses, res: ObjMetadata): Statuses {
    match world.Look(res)
    case Present(computed) => if Entry(statuses, res).None? then statuses[res := Some(computed)] else statuses
    case _ => statuses
  }

  /** The cache after the loop over `metas`. */
  function FilledBy(world: World, statuses: Statuses, metas: seq<ObjMetadata>): Statuses {
    if metas == [] then statuses else
    Remembered(world, FilledBy(world, statuses, metas[..|metas| - 1]), metas[|metas| - 1])
  }

  /** What the loop says of the i-th resource, reading the cache the earlier rounds have filled. */
  function Computed(id: string, world: World, prior: Prior, statuses: Statuses, metas: seq<ObjMetadata>,
                    clock: Clock, i: nat): ResourceStatus
    requires i < |metas|
  {
    var entry := Entry(FilledBy(world, statuses, metas[..i]), metas[i]);
    WithActuation(prior, Observed(id, world, entry, metas[i], clock(i)))
  }

  function ComputedAll(id: string, world: World, prior: Prior, statuses: Statuses, metas: seq<ObjMetadata>,
                       clock: Clock): seq<ResourceStatus> {
    seq(|metas|, i requires 0 <= i < |metas| => Computed(id, world, prior, statuses, metas, clock, i))
  }

  // ---- the loop does not depend on its own order ----

  lemma {:induction false} FilledEntry(world: World, statuses: Statuses, metas: seq<ObjMetadata>, res: ObjMetadata)
    ensures Entry(FilledBy(world, statuses, metas), res) ==
            if Entry(statuses, res).None? && res in metas && world.Look(res).Present?
            then Some(world.Look(res).computed) else Entry(statuses, res)
  {
    if metas != [] {
      FilledEntry(world, statuses, metas[..|metas| - 1], res);
    }
  }

  /** Each entry depends only on the cache the loop started with: that an earlier round has
      meanwhile cached the same resource never shows. */
  lemma OrderDoesNotShow(id: string, world: World, prior: Prior, statuses: Statuses, metas: seq<ObjMetadata>,
                         clock: Clock, i: nat)
    requires i < |metas|
    ensures Computed(id, world, prior, statuses, metas, clock, i) ==
            WithActuation(prior, Observed(id, world, Entry(statuses, metas[i]), metas[i], clock(i)))
  {
    FilledEntry(world, statuses, metas[..i], metas[i]);
  }

  lemma NamesInOrder(id: string, world: World, prior: Prior, statuses: Statuses, metas: seq<ObjMetadata>,
                     clock: Clock, i: nat)
    requires i < |metas|
    ensures Computed(id, world, prior, statuses, metas, clock, i).meta == metas[i]
  {
  }

  /** Two loops in a row fill what one over both lists would. */
  lemma {:induction false} FilledInTwo(world: World, statuses: Statuses, metas: seq<ObjMetadata>,
                                       more: seq<ObjMetadata>)
    ensures FilledBy(world, statuses, metas + more) == FilledBy(world, FilledBy(world, statuses, metas), more)
  {
    if more == [] {
      assert metas + more == metas;
    } else {
      var all := metas + more;
      assert all[..|all| - 1] == metas + more[..|more| - 1];
      FilledInTwo(world, statuses, metas, more[..|more| - 1]);
    }
  }

  // ---- equality up to timestamps ----

  function Timeless(conditions: seq<Condition>): seq<Condition> {
    seq(|conditions|, i requires 0 <= i < |conditions| => conditions[i].(lastTransitionTime := 0))
  }

  predicate SameStatus(s: ResourceStatus, t: ResourceStatus) {
    && s.(conditions := []) == t.(conditions := [])
    && Timeless(s.conditions) == Timeless(t.conditions)
  }

  predicate SameCached(c: CachedStatus, d: CachedStatus) {
    && c.(conditions := []) == d.(conditions := [])
    && Timeless(c.conditions) == Timeless(d.conditions)
  }

  predicate SameLists(ss: seq<ResourceStatus>, ts: seq<ResourceStatus>) {
    |ss| == |ts| && forall i | 0 <= i < |ss| :: SameStatus(ss[i], ts[i])
  }

  lemma TimelessConcat(a: seq<Condition>, b: seq<Condition>)
    ensures Timeless(a + b) == Timeless(a) + Timeless(b)
  {
  }

  /** Neither the time of the call nor timestamps inside the cached entry change a status. */
  lemma FromCacheSame(id: string, res: ObjMetadata, c: CachedStatus, d: CachedStatus, now: Time, later: Time)
    requires SameCached(c, d)
    ensures SameStatus(FromCache(id, res, c, now), FromCache(id, res, d, later))
  {
    hide UnmatchMessage;
    assert c.inventoryID == c.(conditions := []).inventoryID == d.inventoryID;
    assert c.status == c.(conditions := []).status == d.status;
    assert c.sourceHash == c.(conditions := []).sourceHash == d.sourceHash;
    var o, p := OwnershipCondition(id, c.inventoryID, now), OwnershipCondition(id, d.inventoryID, later);
    TimelessConcat(c.conditions, if o.Some? then [o.value] else []);
    TimelessConcat(d.conditions, if p.Some? then [p.value] else []);
  }

  // ---- fixed point ----

  /** Of several existing statuses for one resource the last counts. */
  lemma {:induction false} LastPriorCounts(statuses: seq<ResourceStatus>, res: ObjMetadata) returns (j: nat)
    ensures res in PriorOf(statuses) <==> exists i | 0 <= i < |statuses| :: statuses[i].meta == res
    ensures res in PriorOf(statuses) ==>
              && j < |statuses| && statuses[j].meta == res && PriorOf(statuses)[res] == statuses[j]
              && forall i | j < i < |statuses| :: statuses[i].meta != res
  {
    j := 0;
    if statuses != [] {
      var n := |statuses| - 1;
      var init := statuses[..n];
      j := LastPriorCounts(init, res);
      if statuses[n].meta == res {
        j := n;
      } else if res in PriorOf(init) {
        assert statuses[j].meta == res;
        forall i | j < i < |statuses|
          ensures statuses[i].meta != res
        {
          assert i < n ==> init[i] == statuses[i];
        }
      } else {
        forall i | 0 <= i < |statuses|
          ensures statuses[i].meta != res
        {
          assert i < n ==> init[i] == statuses[i];
        }
      }
    }
  }

  /** An entry, after the loop has perhaps filled it. */
  function Filled(world: World, entry: Option<CachedStatus>, res: ObjMetadata): Option<CachedStatus> {
    if entry.None? && world.Look(res).Present? then Some(world.Look(res).computed) else entry
  }

  lemma ObservedAgain(id: string, world: World, entry: Option<CachedStatus>, entry': Option<CachedStatus>,
                      res: ObjMetadata, now: Time, later: Time)
    requires entry' == entry || entry' == Filled(world, entry, res)
    ensures SameStatus(Observed(id, world, entry, res, now), Observed(id, world, entry', res, later))
    ensures Observed(id, world, entry, res, now).meta == Observed(id, world, entry', res, later).meta == res
    ensures Observed(id, world, entry, res, now).actuation == NoActuation
  {
    hide SameStatus, OwnershipCondition;
    match entry
    case Some(c) => FromCacheSame(id, res, c, c, now, later);
    case None =>
      match world.Look(res)
      case Present(c) => FromCacheSame(id, res, c, c, now, later);
      case Absent => NothingToCompare(Bare(res, NotFound));
      case Unreachable => NothingToCompare(Bare(res, Unknown));
  }

  lemma NothingToCompare(s: ResourceStatus)
    ensures SameStatus(s, s)
  {
  }

  lemma SameButConditions(s: ResourceStatus, t: ResourceStatus)
    requires SameStatus(s, t)
    ensures t == s.(conditions := t.conditions)
  {
    assert t == t.(conditions := []).(conditions := t.conditions);
  }

  lemma ActuationIgnoresConditions(prior: Prior, s: ResourceStatus, t: ResourceStatus)
    requires s.(conditions := []) == t.(conditions := [])
    ensures WithActuation(prior, s).(conditions := []) == WithActuation(prior, t).(conditions := [])
    ensures WithActuation(prior, s).conditions == s.conditions && WithActuation(prior, t).conditions == t.conditions
  {
    assert t == s.(conditions := []).(conditions := t.conditions);
  }

  lemma ActuationKeepsSame(prior: Prior, s: ResourceStatus, t: ResourceStatus)
    requires SameStatus(s, t)
    ensures SameStatus(WithActuation(prior, s), WithActuation(prior, t))
  {
    SameButConditions(s, t);
  }

  /** Computing again one resource's status, from its own outcome and the filled cache, gives the same. */
  lemma SettledOnce(id: string, world: World, prior: Prior, entry: Option<CachedStatus>, res: ObjMetadata,
                    now: Time, again: Prior, later: Time)
    requires res in again && SameStatus(again[res], WithActuation(prior, Observed(id, world, entry, res, now)))
    ensures SameStatus(WithActuation(again, Observed(id, world, Filled(world, entry, res), res, later)),
                       WithActuation(prior, Observed(id, world, entry, res, now)))
  {
    hide Observed;
    ObservedAgain(id, world, entry, Filled(world, entry, res), res, now, later);
    var o := Observed(id, world, entry, res, now);
    var o' := Observed(id, world, Filled(world, entry, res), res, later);
    SameButConditions(o, o');
    SameButConditions(again[res], WithActuation(prior, o));
  }

  lemma SettledTwiceSame(id: string, world: World, prior: Prior, entry: Option<CachedStatus>, res: ObjMetadata,
                         now: Time, later: Time)
    ensures SameStatus(WithActuation(prior, Observed(id, world, entry, res, now)),
                       WithActuation(prior, Observed(id, world, entry, res, later)))
  {
    hide Observed;
    ObservedAgain(id, world, entry, entry, res, now, later);
    ActuationKeepsSame(prior, Observed(id, world, entry, res, now), Observed(id, world, entry, res, later));
  }

  /** With the cluster unchanged, running the loop on its own output and the cache it filled
      changes neither: same list up to timestamps, same cache, duplicates included. */
  lemma FixedPoint(id: string, world: World, prior: Prior, statuses: Statuses, metas: seq<ObjMetadata>,
                   clock: Clock, clock': Clock)
    ensures var once := ComputedAll(id, world, prior, statuses, metas, clock);
            var filled := FilledBy(world, statuses, metas);
            && SameLists(ComputedAll(id, world, PriorOf(once), filled, metas, clock'), once)
            && FilledBy(world, filled, metas) == filled
  {
    var once := ComputedAll(id, world, prior, statuses, metas, clock);
    var filled := FilledBy(world, statuses, metas);
    var twice := ComputedAll(id, world, PriorOf(once), filled, metas, clock');
    forall i | 0 <= i < |metas|
      ensures SameStatus(twice[i], once[i])
    {
      FixedPointAt(id, world, prior, statuses, metas, clock, clock', i);
    }
    FilledTwice(world, statuses, metas, metas);
  }

  lemma {:induction false} FilledTwice(world: World, statuses: Statuses, metas: seq<ObjMetadata>,
                                       some: seq<ObjMetadata>)
    requires forall r | r in some :: r in metas
    ensures FilledBy(world, FilledBy(world, statuses, metas), some) == FilledBy(world, statuses, metas)
  {
    if some != [] {
      var res := some[|some| - 1];
      assert res in some;
      FilledTwice(world, statuses, metas, some[..|some| - 1]);
      FilledEntry(world, statuses, metas, res);
    }
  }

  lemma FixedPointAt(id: string, world: World, prior: Prior, statuses: Statuses, metas: seq<ObjMetadata>,
                     clock: Clock, clock': Clock, i: nat)
    requires i < |metas|
    ensures var once := ComputedAll(id, world, prior, statuses, metas, clock);
            var filled := FilledBy(world, statuses, metas);
            SameStatus(ComputedAll(id, world, PriorOf(once), filled, metas, clock')[i], once[i])
  {
    var once := ComputedAll(id, world, prior, statuses, metas, clock);
    var filled := FilledBy(world, statuses, metas);
    var res := metas[i];
    NamesInOrder(id, world, prior, statuses, metas, clock, i);
    assert once[i].meta == res;
    var j := LastPriorCounts(once, res);
    NamesInOrder(id, world, prior, statuses, metas, clock, j);
    assert metas[j] == res;
    OrderDoesNotShow(id, world, prior, statuses, metas, clock, i);
    OrderDoesNotShow(id, world, prior, statuses, metas, clock, j);
    OrderDoesNotShow(id, world, PriorOf(once), filled, metas, clock', i);
    FilledEntry(world, statuses, metas, res);
    SettledTwiceSame(id, world, prior, Entry(statuses, res), res, clock(j), clock(i));
    SettledOnce(id, world, prior, Entry(statuses, res), res, clock(i), PriorOf(once), clock'(i));
  }

  // ---- agreement of the cache with the cluster ----

  /** An entry is what asking the cluster now would give, or a deletion seen by a watcher. */
  predicate AgreesWith(world: World, entry: Option<CachedStatus>, r: ObjMetadata) {
    match entry
    case None => true
    case Some(c) =>
      || (world.Look(r).Present? && SameCached(c, world.Look(r).computed))
      || (world.Look(r).Absent? && c == DELETED_STATUS)
  }

  predicate Agrees(world: World, statuses: Statuses, r: ObjMetadata) {
    AgreesWith(world, Entry(statuses, r), r)
  }

  /** Filling the cache keeps it in agreement. */
  lemma AgreementKept(world: World, statuses: Statuses, metas: seq<ObjMetadata>, r: ObjMetadata)
    requires Agrees(world, statuses, r)
    ensures Agrees(world, FilledBy(world, statuses, metas), r)
  {
    FilledEntry(world, statuses, metas, r);
  }

  /** One resource, before actuation, with its entry and without. */
  lemma EntryIsInvisible(id: string, world: World, entry: Option<CachedStatus>, res: ObjMetadata, now: Time,
                         later: Time)
    requires AgreesWith(world, entry, res)
    ensures var s, t := Observed(id, world, entry, res, now), Observed(id, world, None, res, later);
            && s.(conditions := []) == t.(conditions := [])
            && (Timeless(s.conditions) == Timeless(t.conditions) <==>
                !(entry == Some(DELETED_STATUS) && world.Look(res).Absent? && id != ""))
  {
    hide UnmatchMessage;
    match entry
    case None => ObservedAgain(id, world, None, None, res, now, later);
    case Some(c) =>
      if world.Look(res).Present? {
        FromCacheSame(id, res, c, world.Look(res).computed, now, later);
      } else {
        assert |Timeless(Observed(id, world, entry, res, now).conditions)| == if id == "" then 0 else 1;
      }
  }

  /** An agreeing cache is invisible in everything but the conditions, and in those it shows
      exactly where a deletion is cached and the group has an inventory id. */
  lemma CacheIsInvisible(id: string, world: World, prior: Prior, statuses: Statuses, metas: seq<ObjMetadata>,
                         clock: Clock, clock': Clock, i: nat)
    requires i < |metas| && Agrees(world, statuses, metas[i])
    ensures var s := Computed(id, world, prior, statuses, metas, clock, i);
            var t := Computed(id, world, prior, map[], metas, clock', i);
            && s.(conditions := []) == t.(conditions := [])
            && (Timeless(s.conditions) == Timeless(t.conditions) <==>
                !(Entry(statuses, metas[i]) == Some(DELETED_STATUS) && world.Look(metas[i]).Absent? && id != ""))
  {
    var res := metas[i];
    OrderDoesNotShow(id, world, prior, statuses, metas, clock, i);
    OrderDoesNotShow(id, world, prior, map[], metas, clock', i);
    EntryIsInvisible(id, world, Entry(statuses, res), res, clock(i), clock'(i));
    ActuationIgnoresConditions(prior, Observed(id, world, Entry(statuses, res), res, clock(i)),
                               Observed(id, world, None, res, clock'(i)));
    hide Observed, Computed, Timeless, WithActuation;
  }

  // ---- the loop keeps what is promised ----

  lemma FromCacheShows(id: string, res: ObjMetadata, c: CachedStatus, now: Time)
    ensures ShowsKnown(id, c, now, c.status, FromCache(id, res, c, now))
  {
    hide UnmatchMessage;
  }

  lemma ObservedShows(id: string, world: World, cache: Statuses, res: ObjMetadata, now: Time)
    ensures var s := Observed(id, world, Entry(cache, res), res, now);
            && ShowsBase(id, world.mapping, world.fetch, cache, res, now, s.status, s)
            && s.meta == res && s.actuation == NoActuation && s.strategy == NoStrategy && s.reconcile == NoReconcile
  {
    hide ShowsKnown, OwnershipCondition;
    if Entry(cache, res).Some? {
      FromCacheShows(id, res, Entry(cache, res).value, now);
    } else if world.Look(res).Present? {
      FromCacheShows(id, res, world.Look(res).computed, now);
    }
  }

  lemma ConversionShows(existing: seq<ResourceStatus>, o: ResourceStatus)
    requires o.actuation == NoActuation && o.strategy == NoStrategy && o.reconcile == NoReconcile
    ensures ShowsPrior(existing, o.meta, o.status, WithActuation(PriorOf(existing), o))
  {
    hide PriorOf;
    var k := LastPriorCounts(existing, o.meta);
    forall j: nat | IsPrior(existing, o.meta, j)
      ensures j == k && o.meta in PriorOf(existing)
    {
      assert existing[j].meta == o.meta;
    }
  }

  lemma ConversionKeepsBase(id: string, world: World, cache: Statuses, res: ObjMetadata, now: Time,
                            prior: Prior, o: ResourceStatus, base: Status)
    requires ShowsBase(id, world.mapping, world.fetch, cache, res, now, base, o)
    ensures ShowsBase(id, world.mapping, world.fetch, cache, res, now, base, WithActuation(prior, o))
    ensures WithActuation(prior, o).meta == o.meta
  {
    hide OwnershipShown;
  }

  /** Every status the loop computes is what the table promises. */
  lemma ComputedReports(id: string, world: World, existing: seq<ResourceStatus>, cache: Statuses,
                        metas: seq<ObjMetadata>, clock: Clock, i: nat)
    requires i < |metas|
    ensures Reports(id, world.mapping, world.fetch, existing, cache, metas[i], clock(i),
                    Computed(id, world, PriorOf(existing), cache, metas, clock, i))
  {
    OrderDoesNotShow(id, world, PriorOf(existing), cache, metas, clock, i);
    ObservedShows(id, world, cache, metas[i], clock(i));
    var o := Observed(id, world, Entry(cache, metas[i]), metas[i], clock(i));
    ConversionShows(existing, o);
    ConversionKeepsBase(id, world, cache, metas[i], clock(i), PriorOf(existing), o, o.status);
  }

  lemma AllComputedReported(id: string, world: World, existing: seq<ResourceStatus>, cache: Statuses,
                            metas: seq<ObjMetadata>, clock: Clock)
    ensures AllReported(id, world.mapping, world.fetch, existing, cache, metas, clock,
                        ComputedAll(id, world, PriorOf(existing), cache, metas, clock))
  {
    hide Reports, Computed;
    forall i | 0 <= i < |metas|
      ensures Reports(id, world.mapping, world.fetch, existing, cache, metas[i], clock(i),
                      ComputedAll(id, world, PriorOf(existing), cache, metas, clock)[i])
    {
      ComputedReports(id, world, existing, cache, metas, clock, i);
    }
  }

  lemma {:induction false} FilledAsPromised(world: World, cache: Statuses, metas: seq<ObjMetadata>)
    ensures CacheFilled(world.mapping, world.fetch, metas, cache, FilledBy(world, cache, metas))
  {
    if metas != [] {
      var init, last := metas[..|metas| - 1], metas[|metas| - 1];
      FilledAsPromised(world, cache, init);
      assert metas == init + [last];
      forall r
        ensures FilledAt(world.mapping, world.fetch, metas, cache, FilledBy(world, cache, metas), r)
      {
        assert FilledAt(world.mapping, world.fetch, init, cache, FilledBy(world, cache, init), r);
      }
    }
  }

  // ---- the loop ----

  method GetResourceStatus(existing: ResourceGroupStatus) returns (statuses: Prior)
    ensures statuses == PriorOf(existing.resourceStatuses)
  {
    statuses := map[];
    var list := existing.resourceStatuses;
    for i := 0 to |list|
      invariant statuses == PriorOf(list[..i])
    {
      assert list[..i + 1][..i] == list[..i];
      statuses := statuses[list[i].meta := list[i]];
    }
    assert list[..|list|] == list;
  }

  class StatusComputer {
    const resMap: ResourceMap
    const resolver: TypeResolver

    constructor (resMap: ResourceMap, resolver: TypeResolver)
      ensures this.resMap == resMap && this.resolver == resolver
    {
      this.resMap, this.resolver := resMap, resolver;
    }

    /** The body of the loop for one resource, up to the conversion by actuation. */
    method Observe(id: string, res: ObjMetadata, fetch: Fetch, now: Time) returns (resStatus: ResourceStatus)
      requires resMap.Valid()
      modifies resMap`resToStatus
      ensures resMap.Valid()
      ensures resStatus ==
              Observed(id, World(resolver.typeMapping, fetch), Entry(old(resMap.resToStatus), res), res, now)
      ensures resMap.resToStatus == Remembered(World(resolver.typeMapping, fetch), old(resMap.resToStatus), res)
    {
      hide ResourceMap.Valid;
      var cachedStatus := resMap.GetStatus(res);
      if cachedStatus.Some? {
        return FromCache(id, res, cachedStatus.value, now);
      }
      var gvk := resolver.Resolve(res.GK());
      if gvk.None? {
        return Bare(res, NotFound);
      }
      match fetch(gvk.value, res.namespace, res.name)
      case Absent =>
        resStatus := Bare(res, NotFound);
      case Unreachable =>
        resStatus := Bare(res, Unknown);
      case Present(computed) =>
        resMap.SetStatus(res, Some(computed));
        resStatus := FromCache(id, res, computed, now);
    }

    method ComputeStatus(id: string, existing: ResourceGroupStatus, metas: seq<ObjMetadata>, fetch: Fetch, clock: Clock)
      returns (statuses: seq<ResourceStatus>)
      requires resMap.Valid()
      modifies resMap`resToStatus
      ensures resMap.Valid()
      ensures var world := World(resolver.typeMapping, fetch);
              && statuses ==
                 ComputedAll(id, world, PriorOf(existing.resourceStatuses), old(resMap.resToStatus), metas, clock)
              && resMap.resToStatus == FilledBy(world, old(resMap.resToStatus), metas)
      ensures AllReported(id, resolver.typeMapping, fetch, existing.resourceStatuses, old(resMap.resToStatus),
                          metas, clock, statuses)
      ensures CacheFilled(resolver.typeMapping, fetch, metas, old(resMap.resToStatus), resMap.resToStatus)
    {
      hide AllReported, CacheFilled;
      hide ResourceMap.Valid, Observed, PriorOf, Remembered;
      ghost var world, cache := World(resolver.typeMapping, fetch), resMap.resToStatus;
      var actuationStatuses := GetResourceStatus(existing);
      statuses := [];
      for i := 0 to |metas|
        invariant resMap.Valid()
        invariant resMap.resToStatus == FilledBy(world, cache, metas[..i])
        invariant |statuses| == i
        invariant forall j | 0 <= j < i :: statuses[j] == Computed(id, world, actuationStatuses, cache, metas, clock, j)
      {
        assert metas[..i + 1][..i] == metas[..i];
        var resStatus := Observe(id, metas[i], fetch, clock(i));
        statuses := statuses + [WithActuation(actuationStatuses, resStatus)];
      }
      assert metas[..|metas|] == metas;
      assert statuses == ComputedAll(id, world, actuationStatuses, cache, metas, clock);
      AllComputedReported(id, world, existing.resourceStatuses, cache, metas, clock);
      FilledAsPromised(world, cache, metas);
    }
  }
}
