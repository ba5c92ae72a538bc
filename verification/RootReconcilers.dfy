/** The root controller: it keeps the resource map in step with the ResourceGroup objects
    and the watches in step with the resource map. */
module RootReconcilers {
  import opened ApiTypes
  import opened ApiStores
  import opened ResourceIndex
  import opened ResourceMaps
  import opened CrdHandler
  import opened TypeResolvers
  import opened WatchManagers
  import WatchProtocol

  const DISABLE_STATUS_KEY := "configsync.gke.io/status"
  const DISABLE_STATUS_VALUE := "disabled"

  predicate IsStatusDisabled(rg: ResourceGroup): (disabled: bool)
    ensures disabled <==> ("configsync.gke.io/status", "disabled") in rg.annotations.Items
  {
    DISABLE_STATUS_KEY in rg.annotations && rg.annotations[DISABLE_STATUS_KEY] == DISABLE_STATUS_VALUE
  }

  /** What reading the ResourceGroup from the API server gives. */
  datatype Read = Found(rg: ResourceGroup) | Missing | ReadError

  datatype Failure = ReadFailed | ClearFailed | WatchFailed(gvk: GroupVersionKind)

  /** The call on the resource map that a read leads to; None when the read fails. */
  function CallFor(name: NamespacedName, read: Read): Option<Call> {
    match read
    case ReadError => None
    case Missing => Some(Call(name, [], true))
    case Found(rg) =>
      if IsStatusDisabled(rg) || rg.deleting then Some(Call(name, [], true))
      else Some(Call(name, rg.spec.resources + SubgroupMetas(rg.spec.subgroups), false))
  }

  /** Some group includes a resource of the kind. */
  ghost predicate KindTracked(x: Index, k: GroupKind) {
    exists g, r :: Owns(x, g, r) && r.GK() == k
  }

  lemma KindTrackedIff(x: Index, k: GroupKind)
    ensures KindTracked(x, k) <==> k in KindKeys(Tracked(x.groups))
  {
    if KindTracked(x, k) {
      var g, r :| Owns(x, g, r) && r.GK() == k;
      assert g in x.groups && r in x.groups[g];
    }
    if k in KindKeys(Tracked(x.groups)) {
      var r :| r in Tracked(x.groups) && r.GK() == k;
      var g :| g in x.groups && r in x.groups[g];
      assert Owns(x, g, r);
    }
  }

  /** A version is wanted when its kind is tracked by some group and resolves to it. */
  ghost predicate IsWanted(x: Index, mapping: map<GroupKind, GroupVersionKind>, gvk: GroupVersionKind) {
    exists k :: KindTracked(x, k) && k in mapping && mapping[k] == gvk
  }

  lemma WantedIff(x: Index, mapping: map<GroupKind, GroupVersionKind>, gvk: GroupVersionKind)
    ensures IsWanted(x, mapping, gvk) <==> gvk in Resolutions(mapping, KindKeys(Tracked(x.groups)))
  {
    hide KindTracked, KindKeys, Tracked;
    if IsWanted(x, mapping, gvk) {
      var k :| KindTracked(x, k) && k in mapping && mapping[k] == gvk;
      KindTrackedIff(x, k);
    }
    if gvk in Resolutions(mapping, KindKeys(Tracked(x.groups))) {
      var k :| k in KindKeys(Tracked(x.groups)) && k in mapping && mapping[k] == gvk;
      KindTrackedIff(x, k);
    }
  }

  lemma AllWantedIff(x: Index, mapping: map<GroupKind, GroupVersionKind>, watched: set<GroupVersionKind>)
    ensures watched == Resolutions(mapping, KindKeys(Tracked(x.groups))) <==>
            forall gvk :: gvk in watched <==> IsWanted(x, mapping, gvk)
  {
    hide IsWanted, Resolutions, KindKeys, Tracked;
    var wanted := Resolutions(mapping, KindKeys(Tracked(x.groups)));
    forall gvk
      ensures IsWanted(x, mapping, gvk) <==> gvk in wanted
    {
      WantedIff(x, mapping, gvk);
    }
  }

  // ---- what a read leads to ----

  /** A group whose resources are to be tracked. */
  predicate ToTrack(read: Read) {
    read.Found? && !read.rg.deleting && !IsStatusDisabled(read.rg)
  }

  /** The resource is listed by the group, itself or as a subgroup. */
  ghost predicate IsMember(rg: ResourceGroup, r: ObjMetadata) {
    || r in rg.spec.resources
    || exists i ::
         && 0 <= i < |rg.spec.subgroups|
         && r == ObjMetadata(rg.spec.subgroups[i].namespace, rg.spec.subgroups[i].name,
                             GroupKind("kpt.dev", "ResourceGroup"))
  }

  /** The group index after a read has been followed: the group holds its members, or is
      gone, and no other group has changed. */
  ghost predicate FollowsRead(x: Index, name: NamespacedName, read: Read, y: Index) {
    && (ToTrack(read) ==> name in y.groups && forall r :: r in y.groups[name] <==> IsMember(read.rg, r))
    && (!ToTrack(read) ==> name !in y.groups)
    && (forall g | g != name :: (g in y.groups <==> g in x.groups) && (g in x.groups ==> y.groups[g] == x.groups[g]))
  }

  lemma CallFollowsRead(x: Index, name: NamespacedName, read: Read)
    requires !read.ReadError?
    ensures FollowsRead(x, name, read, Reconciled(x, CallFor(name, read).value))
    ensures CallFor(name, read).value.deleteRG <==> !ToTrack(read)
  {
    if ToTrack(read) {
      var subgroups := SubgroupMetas(read.rg.spec.subgroups);
      forall r
        ensures r in ToSet(read.rg.spec.resources + subgroups) <==> IsMember(read.rg, r)
      {
        if r in subgroups {
          var i :| 0 <= i < |subgroups| && subgroups[i] == r;
          assert r == ObjMetadata(read.rg.spec.subgroups[i].namespace, read.rg.spec.subgroups[i].name,
                                  GroupKind("kpt.dev", "ResourceGroup"));
        }
        if IsMember(read.rg, r) && r !in read.rg.spec.resources {
          var i :| && 0 <= i < |read.rg.spec.subgroups|
                   && r == ObjMetadata(read.rg.spec.subgroups[i].namespace, read.rg.spec.subgroups[i].name,
                                       GroupKind("kpt.dev", "ResourceGroup"));
          assert subgroups[i] == r;
        }
      }
    }
  }

  class Reconciler {
    const resMap: ResourceMap
    const resolver: TypeResolver
    const channel: EventChannel
    const watches: Manager

    constructor (resMap: ResourceMap, resolver: TypeResolver, channel: EventChannel, watches: Manager)
      ensures this.resMap == resMap && this.resolver == resolver
      ensures this.channel == channel && this.watches == watches
    {
      this.resMap, this.resolver, this.channel, this.watches := resMap, resolver, channel, watches;
    }

    method UpdateWatches(gks: seq<GroupKind>, canCreate: GroupVersionKind -> bool)
      returns (err: Option<GroupVersionKind>)
      requires watches.Valid()
      modifies watches, watches.spawned, watches.Bases()
      ensures watches.Valid()
      ensures err.None? <==> watches.watcherMap.Keys == Resolutions(resolver.typeMapping, ToSet(gks))
      ensures watches.watcherMap.Keys <= Resolutions(resolver.typeMapping, ToSet(gks))
      ensures forall gvk | gvk in Resolutions(resolver.typeMapping, ToSet(gks)) && gvk !in watches.watcherMap ::
                !canCreate(gvk)
    {
      var gvkMap: set<GroupVersionKind> := {};
      for i := 0 to |gks|
        invariant gvkMap == Resolutions(resolver.typeMapping, ToSet(gks[..i]))
      {
        assert ToSet(gks[..i + 1]) == ToSet(gks[..i]) + {gks[i]};
        var gvk := resolver.Resolve(gks[i]);
        if gvk.Some? {
          gvkMap := gvkMap + {gvk.value};
        }
      }
      assert gks[..|gks|] == gks;
      hide Manager.Bases, WatchProtocol.Updated, WatchProtocol.Accounted;
      ghost var before := watches.state;
      err := watches.UpdateWatches(gvkMap, canCreate);
      WatchProtocol.UpdateOutcome(before, gvkMap, canCreate, watches.state);
    }

    /** Success means: the watched kinds are exactly what the kinds of all resources tracked
        by any group resolve to, one watcher for each tracked kind that resolves. */
    method Reconcile(name: NamespacedName, resources: seq<ObjMetadata>, deleteRG: bool,
                     canCreate: GroupVersionKind -> bool) returns (err: Option<GroupVersionKind>)
      requires resMap.Valid() && resolver.Valid() && watches.Valid()
      modifies resMap, resMap.OwnerRepr, resMap.GroupRepr, resMap.KindRepr
      modifies watches, watches.spawned, watches.Bases()
      ensures resMap.Valid() && watches.Valid()
      ensures resMap.View() == Reconciled(old(resMap.View()), Call(name, resources, deleteRG))
      ensures var kinds := KindKeys(Tracked(resMap.View().groups));
              && (err.None? <==> watches.watcherMap.Keys == Resolutions(resolver.typeMapping, kinds))
              && (err.None? ==> |watches.watcherMap| == |kinds * resolver.typeMapping.Keys|)
              && (forall gvk | gvk in Resolutions(resolver.typeMapping, kinds) && gvk !in watches.watcherMap ::
                    !canCreate(gvk))
      ensures err.None? <==>
              forall gvk :: gvk in watches.watcherMap.Keys <==> IsWanted(resMap.View(), resolver.typeMapping, gvk)
    {
      hide IsWanted;
      hide ResourceMap.Valid, Manager.Valid, Manager.Bases, Tracked, KindKeys, Resolutions, Reconciled;
      ReconciledKinds(resMap.View(), Call(name, resources, deleteRG));
      var gks := resMap.Reconcile(name, resources, deleteRG);
      err := UpdateWatches(gks, canCreate);
      ResolutionsCount(resolver.typeMapping, ToSet(gks));
      assert |watches.watcherMap| == |watches.watcherMap.Keys|;
      AllWantedIff(resMap.View(), resolver.typeMapping, watches.watcherMap.Keys);
    }

    method Desired(name: NamespacedName, read: Read) returns (call: Call)
      requires !read.ReadError?
      ensures CallFor(name, read) == Some(call) && call.group == name
    {
      if read.Missing? || IsStatusDisabled(read.rg) || read.rg.deleting {
        return Call(name, [], true);
      }
      var subgroups := ToObjMetadata(read.rg.spec.subgroups);
      return Call(name, read.rg.spec.resources + subgroups, false);
    }

    /** The copy that was read, of the given version, is written back with an empty status;
        `fails` says whether the API server answers with an error other than a conflict. */
    method ClearStatus(store: ApiStore, version: nat, rg: ResourceGroup, fails: bool) returns (failed: bool)
      modifies store
      ensures failed == (fails && rg.status != EMPTY_STATUS)
      ensures store.history ==
              if failed then old(store.history)
              else Attempt(old(store.history), Local(version, rg, false), EMPTY_STATUS).0
    {
      var resgroup := new Fetched(version, rg);
      failed := store.RetryUpdate(resgroup, EMPTY_STATUS, fails);
    }

    method ReconcileKptGroup(name: NamespacedName, read: Read, store: ApiStore, version: nat, fails: bool,
                             canCreate: GroupVersionKind -> bool) returns (failure: Option<Failure>)
      requires resMap.Valid() && resolver.Valid() && watches.Valid()
      modifies resMap, resMap.OwnerRepr, resMap.GroupRepr, resMap.KindRepr
      modifies watches, watches.spawned, watches.Bases(), channel, store
      ensures resMap.Valid() && watches.Valid()
      ensures failure == Some(ReadFailed) <==> read.ReadError?
      ensures failure == Some(ClearFailed) <==>
                && read.Found? && IsStatusDisabled(read.rg) && fails
                && read.rg.status != ResourceGroupStatus(0, [], [], [])
      ensures store.history ==
              if read.Found? && IsStatusDisabled(read.rg) && failure != Some(ClearFailed)
              then Attempt(old(store.history), Local(version, read.rg, false), ResourceGroupStatus(0, [], [], [])).0
              else old(store.history)
      ensures failure == Some(ReadFailed) || failure == Some(ClearFailed) ==>
                && resMap.View() == old(resMap.View()) && watches.watcherMap == old(watches.watcherMap)
      ensures failure.None? || failure.value.WatchFailed? ==>
                && CallFor(name, read).Some?
                && resMap.View() == Reconciled(old(resMap.View()), CallFor(name, read).value)
                && FollowsRead(old(resMap.View()), name, read, resMap.View())
      ensures failure.None? ==>
                forall gvk :: gvk in watches.watcherMap.Keys <==> IsWanted(resMap.View(), resolver.typeMapping, gvk)
      ensures channel.sent == old(channel.sent) +
                if failure.None? && ToTrack(read) then [name] else []
    {
      hide ResourceMap.Valid, Manager.Valid, Manager.Bases, Reconciled, Tracked, KindKeys, Resolutions;
      hide TypeResolver.Valid, IsStatusDisabled, Attempt, CallFor, FollowsRead, ToTrack, IsWanted;
      if read.ReadError? {
        return Some(ReadFailed);
      }
      if read.Found? && IsStatusDisabled(read.rg) {
        var failed := ClearStatus(store, version, read.rg, fails);
        if failed {
          return Some(ClearFailed);
        }
      }
      failure := FollowRead(name, read, canCreate);
    }

    /** The part all reads lead to that did not fail. */
    method FollowRead(name: NamespacedName, read: Read, canCreate: GroupVersionKind -> bool)
      returns (failure: Option<Failure>)
      requires resMap.Valid() && resolver.Valid() && watches.Valid() && !read.ReadError?
      modifies resMap, resMap.OwnerRepr, resMap.GroupRepr, resMap.KindRepr
      modifies watches, watches.spawned, watches.Bases(), channel
      ensures resMap.Valid() && watches.Valid()
      ensures failure.None? || failure.value.WatchFailed?
      ensures CallFor(name, read).Some?
      ensures resMap.View() == Reconciled(old(resMap.View()), CallFor(name, read).value)
      ensures FollowsRead(old(resMap.View()), name, read, resMap.View())
      ensures failure.None? ==>
                forall gvk :: gvk in watches.watcherMap.Keys <==> IsWanted(resMap.View(), resolver.typeMapping, gvk)
      ensures channel.sent == old(channel.sent) + if failure.None? && ToTrack(read) then [name] else []
    {
      hide ResourceMap.Valid, Manager.Valid, Manager.Bases, Reconciled, Tracked, KindKeys, Resolutions;
      hide TypeResolver.Valid, IsStatusDisabled, CallFor, FollowsRead, ToTrack, IsWanted;
      var call := Desired(name, read);
      CallFollowsRead(resMap.View(), name, read);
      failure := Follow(name, call, canCreate);
    }

    /** Reconcile, and announce a group that is tracked. */
    method Follow(name: NamespacedName, call: Call, canCreate: GroupVersionKind -> bool)
      returns (failure: Option<Failure>)
      requires resMap.Valid() && resolver.Valid() && watches.Valid() && call.group == name
      modifies resMap, resMap.OwnerRepr, resMap.GroupRepr, resMap.KindRepr
      modifies watches, watches.spawned, watches.Bases(), channel
      ensures resMap.Valid() && watches.Valid()
      ensures failure.None? || failure.value.WatchFailed?
      ensures resMap.View() == Reconciled(old(resMap.View()), call)
      ensures failure.None? ==>
                forall gvk :: gvk in watches.watcherMap.Keys <==> IsWanted(resMap.View(), resolver.typeMapping, gvk)
      ensures channel.sent == old(channel.sent) + if failure.None? && !call.deleteRG then [name] else []
    {
      hide ResourceMap.Valid, Manager.Valid, Manager.Bases, Reconciled, Tracked, KindKeys, Resolutions;
      hide TypeResolver.Valid, IsWanted;
      var err := Reconcile(name, call.resources, call.deleteRG, canCreate);
      if err.Some? {
        return Some(WatchFailed(err.value));
      }
      if !call.deleteRG {
        channel.Send(name);
      }
      failure := None;
    }
  }
}
