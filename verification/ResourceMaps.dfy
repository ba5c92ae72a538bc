/** The resource map itself: four maps whose buckets are sets on the heap, created and
    dropped as they fill and empty. */
module ResourceMaps {
  import opened ApiTypes
  import opened ResourceIndex

  predicate NoDuplicates<T(==)>(xs: seq<T>) {
    forall i, j | 0 <= i < j < |xs| :: xs[i] != xs[j]
  }

  /** Ranging over a Go map visits each key once, in any order. */
  method SliceOf<T(==)>(data: set<T>) returns (items: seq<T>)
    ensures ToSet(items) == data && NoDuplicates(items)
  {
    items := [];
    var rest := data;
    while rest != {}
      invariant ToSet(items) + rest == data && ToSet(items) !! rest
      invariant NoDuplicates(items)
      decreases rest
    {
      var item :| item in rest;
      assert item !in ToSet(items);
      items, rest := items + [item], rest - {item};
    }
  }

  /** A mutable set of resources. */
  class ResourceSet {
    var data: set<ObjMetadata>

    constructor (items: seq<ObjMetadata>)
      ensures data == ToSet(items)
    {
      data := {};
      new;
      for i := 0 to |items|
        invariant data == ToSet(items[..i])
      {
        Add(items[i]);
      }
      assert items[..|items|] == items;
    }

    method Add(item: ObjMetadata)
      modifies this
      ensures data == old(data) + {item}
    {
      data := data + {item};
    }

    method Remove(item: ObjMetadata)
      modifies this
      ensures data == old(data) - {item}
    {
      data := data - {item};
    }

    predicate Has(item: ObjMetadata)
      reads this
    {
      item in data
    }

    function Len(): nat
      reads this
    {
      |data|
    }

    method ToSlice() returns (items: seq<ObjMetadata>)
      ensures ToSet(items) == data && NoDuplicates(items)
    {
      items := SliceOf(data);
    }
  }

  /** A mutable set of group names. */
  class ResourceGroupSet {
    var data: set<NamespacedName>

    constructor (items: seq<NamespacedName>)
      ensures data == ToSet(items)
    {
      data := {};
      new;
      for i := 0 to |items|
        invariant data == ToSet(items[..i])
      {
        Add(items[i]);
      }
      assert items[..|items|] == items;
    }

    method Add(item: NamespacedName)
      modifies this
      ensures data == old(data) + {item}
    {
      data := data + {item};
    }

    method Remove(item: NamespacedName)
      modifies this
      ensures data == old(data) - {item}
    {
      data := data - {item};
    }

    predicate Has(item: NamespacedName)
      reads this
    {
      item in data
    }

    function Len(): nat
      reads this
    {
      |data|
    }

    method ToSlice() returns (items: seq<NamespacedName>)
      ensures ToSet(items) == data && NoDuplicates(items)
    {
      items := SliceOf(data);
    }
  }

  method DiffResources(oldResources: seq<ObjMetadata>, newResources: seq<ObjMetadata>)
    returns (toAdd: seq<ObjMetadata>, toDelete: seq<ObjMetadata>)
    ensures IsDiff(ToSet(oldResources), newResources, toAdd, toDelete)
  {
    toAdd, toDelete := [], [];
    var newSet := new ResourceSet(newResources);
    for i := 0 to |oldResources|
      invariant forall r :: r in toDelete <==> r in oldResources[..i] && r !in newResources
    {
      if !newSet.Has(oldResources[i]) {
        toDelete := toDelete + [oldResources[i]];
      }
    }
    var oldSet := new ResourceSet(oldResources);
    for i := 0 to |newResources|
      invariant forall r :: r in toAdd <==> r in newResources[..i] && r !in oldResources
    {
      if !oldSet.Has(newResources[i]) {
        toAdd := toAdd + [newResources[i]];
      }
    }
  }

  class ResourceMap {
    var resToResgroups: map<ObjMetadata, ResourceGroupSet>
    var resToStatus: map<ObjMetadata, Option<CachedStatus>>
    var resgroupToResources: map<NamespacedName, ResourceSet>
    var gkToResources: map<GroupKind, ResourceSet>

    // The contents of the three maps of sets, and the set objects each may use.
    ghost var owners: map<ObjMetadata, set<NamespacedName>>
    ghost var groups: map<NamespacedName, set<ObjMetadata>>
    ghost var kinds: map<GroupKind, set<ObjMetadata>>
    ghost var OwnerRepr: set<ResourceGroupSet>
    ghost var GroupRepr: set<ResourceSet>
    ghost var KindRepr: set<ResourceSet>

    /** The contents of the four maps as one value. */
    ghost function View(): Index
      reads this
    {
      Index(groups, owners, kinds, resToStatus)
    }

    /** Each bucket holds what the ghost map says, and no two keys share a set object. */
    ghost predicate OwnersLinked()
      reads this`resToResgroups, this`owners, this`OwnerRepr, OwnerRepr
    {
      && resToResgroups.Keys == owners.Keys
      && (forall r | r in resToResgroups :: resToResgroups[r] in OwnerRepr && resToResgroups[r].data == owners[r])
      && (forall r, r' | r in resToResgroups && r' in resToResgroups && r != r' ::
            resToResgroups[r] != resToResgroups[r'])
    }

    ghost predicate GroupsLinked()
      reads this`resgroupToResources, this`groups, this`GroupRepr, GroupRepr
    {
      && resgroupToResources.Keys == groups.Keys
      && (forall g | g in resgroupToResources ::
            resgroupToResources[g] in GroupRepr && resgroupToResources[g].data == groups[g])
      && (forall g, g' | g in resgroupToResources && g' in resgroupToResources && g != g' ::
            resgroupToResources[g] != resgroupToResources[g'])
    }

    ghost predicate KindsLinked()
      reads this`gkToResources, this`kinds, this`KindRepr, KindRepr
    {
      && gkToResources.Keys == kinds.Keys
      && (forall k | k in gkToResources :: gkToResources[k] in KindRepr && gkToResources[k].data == kinds[k])
      && (forall k, k' | k in gkToResources && k' in gkToResources && k != k' ::
            gkToResources[k] != gkToResources[k'])
    }

    ghost predicate Indexed()
      reads this, OwnerRepr, KindRepr
    {
      OwnersLinked() && KindsLinked()
    }

    ghost predicate Linked()
      reads this, OwnerRepr, GroupRepr, KindRepr
    {
      Indexed() && GroupsLinked() && GroupRepr !! KindRepr
    }

    /** Only newly made set objects have joined the ones in use. */
    twostate predicate Grown()
      reads this
    {
      fresh(OwnerRepr - old(OwnerRepr)) && fresh(GroupRepr - old(GroupRepr)) && fresh(KindRepr - old(KindRepr))
    }

    ghost predicate Valid()
      reads this, OwnerRepr, GroupRepr, KindRepr
    {
      Linked() && Exact(View())
    }

    constructor ()
      ensures Valid() && OwnerRepr == {} && GroupRepr == {} && KindRepr == {}
      ensures View() == EMPTY_INDEX
    {
      resToResgroups, resToStatus, resgroupToResources, gkToResources := map[], map[], map[], map[];
      owners, groups, kinds := map[], map[], map[];
      OwnerRepr, GroupRepr, KindRepr := {}, {}, {};
    }

    method UnlistKind(res: ObjMetadata)
      requires KindsLinked() && res.GK() in kinds
      modifies this`gkToResources, this`kinds, KindRepr
      ensures KindsLinked()
      ensures kinds == Unlist(old(View()), res).kinds
    {
      hide OwnersLinked, GroupsLinked;
      var gk := res.GK();
      var bucket := gkToResources[gk];
      bucket.Remove(res);
      if bucket.Len() == 0 {
        gkToResources := gkToResources - {gk};
        kinds := kinds - {gk};
      } else {
        kinds := kinds[gk := bucket.data];
      }
    }

    method ListKind(res: ObjMetadata)
      requires KindsLinked()
      modifies this`gkToResources, this`kinds, this`KindRepr, KindRepr
      ensures KindsLinked() && fresh(KindRepr - old(KindRepr))
      ensures kinds == List(old(View()), res).kinds
    {
      var gk := res.GK();
      if gk !in gkToResources {
        var bucket := new ResourceSet([res]);
        gkToResources, KindRepr := gkToResources[gk := bucket], KindRepr + {bucket};
        assert bucket.data == {res};
        kinds := kinds[gk := bucket.data];
      } else {
        var bucket := gkToResources[gk];
        bucket.Add(res);
        kinds := kinds[gk := bucket.data];
      }
    }

    method RemoveHolder(group: NamespacedName, res: ObjMetadata) returns (last: bool)
      requires OwnersLinked() && res in owners
      modifies this`resToResgroups, this`owners, OwnerRepr
      ensures OwnersLinked()
      ensures var left := old(owners)[res] - {group};
              && last == (left == {})
              && owners == if last then old(owners) - {res} else old(owners)[res := left]
    {
      var holders := resToResgroups[res];
      holders.Remove(group);
      last := holders.Len() == 0;
      if last {
        resToResgroups := resToResgroups - {res};
        owners := owners - {res};
      } else {
        owners := owners[res := holders.data];
      }
    }

    /** Returns whether the resource is new to the map. */
    method AddHolder(group: NamespacedName, res: ObjMetadata) returns (first: bool)
      requires OwnersLinked()
      modifies this`resToResgroups, this`owners, this`OwnerRepr, OwnerRepr
      ensures OwnersLinked() && fresh(OwnerRepr - old(OwnerRepr))
      ensures first == (res !in old(owners))
      ensures owners == old(owners)[res := (if first then {} else old(owners)[res]) + {group}]
    {
      first := res !in resToResgroups;
      if first {
        var holders := new ResourceGroupSet([group]);
        resToResgroups, OwnerRepr := resToResgroups[res := holders], OwnerRepr + {holders};
        assert holders.data == {} + {group};
        owners := owners[res := holders.data];
      } else {
        var holders := resToResgroups[res];
        holders.Add(group);
        owners := owners[res := holders.data];
      }
    }

    /** The keys of the owner index are those of its contents. */
    lemma OwnerKeys()
      requires OwnersLinked()
      ensures resToResgroups.Keys == owners.Keys
    {
    }

    method DetachMember(group: NamespacedName, res: ObjMetadata)
      requires Indexed() && (res in owners ==> res.GK() in kinds)
      modifies this`resToResgroups, this`resToStatus, this`owners, OwnerRepr
      modifies this`gkToResources, this`kinds, KindRepr
      ensures Indexed()
      ensures View() == Detach(old(View()), group, res)
    {
      OwnerKeys();
      hide OwnersLinked, KindsLinked;
      if res in resToResgroups {
        var last := RemoveHolder(group, res);
        if last {
          resToStatus := resToStatus - {res};
          UnlistKind(res);
        }
      }
    }

    method AttachMember(group: NamespacedName, res: ObjMetadata)
      requires Indexed()
      modifies this`resToResgroups, this`owners, this`OwnerRepr, OwnerRepr
      modifies this`gkToResources, this`kinds, this`KindRepr, KindRepr
      ensures Indexed() && fresh(OwnerRepr - old(OwnerRepr)) && fresh(KindRepr - old(KindRepr))
      ensures View() == Attach(old(View()), group, res)
    {
      hide OwnersLinked, KindsLinked;
      var first := AddHolder(group, res);
      assert {} + {group} == {group};
      if first {
        ListKind(res);
      }
    }

    /** The part of Reconcile that runs before the lock is taken. */
    method ReadDiff(group: NamespacedName, resources: seq<ObjMetadata>)
      returns (toAdd: seq<ObjMetadata>, toDelete: seq<ObjMetadata>)
      requires Linked()
      ensures IsDiff(Held(View(), group), resources, toAdd, toDelete)
    {
      var oldResources := [];
      if group in resgroupToResources {
        oldResources := resgroupToResources[group].ToSlice();
      }
      toAdd, toDelete := DiffResources(oldResources, resources);
    }

    method DetachMembers(group: NamespacedName, gone: seq<ObjMetadata>)
      requires Indexed() && Sound(View())
      modifies this`resToResgroups, this`resToStatus, this`owners, OwnerRepr
      modifies this`gkToResources, this`kinds, KindRepr
      ensures Indexed()
      ensures View() == DetachAll(old(View()), group, gone)
    {
      hide Indexed, Detach;
      for i := 0 to |gone|
        invariant Indexed()
        invariant View() == DetachAll(old(View()), group, gone[..i])
      {
        assert gone[..i + 1][..i] == gone[..i];
        DetachSound(View(), group, gone[i]);
        DetachMember(group, gone[i]);
      }
      assert gone[..|gone|] == gone;
    }

    method AttachMembers(group: NamespacedName, added: seq<ObjMetadata>)
      requires Indexed() && Sound(View())
      modifies this`resToResgroups, this`owners, this`OwnerRepr, OwnerRepr
      modifies this`gkToResources, this`kinds, this`KindRepr, KindRepr
      ensures Indexed() && fresh(OwnerRepr - old(OwnerRepr)) && fresh(KindRepr - old(KindRepr))
      ensures View() == AttachAll(old(View()), group, added)
    {
      hide Indexed, Attach;
      for i := 0 to |added|
        invariant Indexed() && fresh(OwnerRepr - old(OwnerRepr)) && fresh(KindRepr - old(KindRepr))
        invariant View() == AttachAll(old(View()), group, added[..i])
      {
        assert added[..i + 1][..i] == added[..i];
        AttachMember(group, added[i]);
      }
      assert added[..|added|] == added;
    }

    method ApplyDiff(group: NamespacedName, toAdd: seq<ObjMetadata>, toDelete: seq<ObjMetadata>)
      returns (gks: seq<GroupKind>)
      requires Indexed() && Sound(View())
      modifies this`resToResgroups, this`resToStatus, this`owners, this`OwnerRepr, OwnerRepr
      modifies this`gkToResources, this`kinds, this`KindRepr, KindRepr
      ensures Indexed() && fresh(OwnerRepr - old(OwnerRepr)) && fresh(KindRepr - old(KindRepr))
      ensures View() == AttachAll(DetachAll(old(View()), group, toDelete), group, toAdd)
      ensures NoDuplicates(gks) && ToSet(gks) == kinds.Keys
    {
      DetachMembers(group, toDelete);
      AttachMembers(group, toAdd);
      gks := ScanKinds();
    }

    method StoreGroup(call: Call)
      requires GroupsLinked()
      modifies this`resgroupToResources, this`groups, this`GroupRepr
      ensures GroupsLinked() && fresh(GroupRepr - old(GroupRepr))
      ensures View() == SetGroup(old(View()), call)
    {
      if call.deleteRG {
        resgroupToResources := resgroupToResources - {call.group};
        groups := groups - {call.group};
      } else {
        var held := new ResourceSet(call.resources);
        resgroupToResources, GroupRepr := resgroupToResources[call.group := held], GroupRepr + {held};
        groups := groups[call.group := ToSet(call.resources)];
      }
    }

    /** The kinds to watch, found by scanning the owner index rather than the kind index. */
    method ScanKinds() returns (gks: seq<GroupKind>)
      requires Indexed() && Sound(View())
      ensures NoDuplicates(gks) && ToSet(gks) == kinds.Keys
    {
      var seen: set<GroupKind> := {};
      var rest := resToResgroups.Keys;
      while rest != {}
        invariant rest <= resToResgroups.Keys
        invariant forall r | r in resToResgroups.Keys - rest :: r.GK() in seen
        invariant forall k | k in seen :: k in View().kinds
        decreases rest
      {
        var res :| res in rest;
        assert Listed(View(), res.GK(), res);
        seen, rest := seen + {res.GK()}, rest - {res};
      }
      forall k | k in View().kinds
        ensures k in seen
      {
        var r :| r in View().kinds[k];
        assert Listed(View(), k, r);
      }
      assert seen == kinds.Keys;
      gks := SliceOf(seen);
    }

    /** The locked part of Reconcile, for any diff, stale or not. */
    method CommitDiff(call: Call, toAdd: seq<ObjMetadata>, toDelete: seq<ObjMetadata>) returns (gks: seq<GroupKind>)
      requires Linked() && Sound(View())
      modifies this, OwnerRepr, GroupRepr, KindRepr
      ensures Linked() && Grown()
      ensures View() == Commit(old(View()), call, toAdd, toDelete)
      ensures NoDuplicates(gks) && ToSet(gks) == View().kinds.Keys
    {
      hide OwnersLinked, KindsLinked, GroupsLinked, AttachAll, DetachAll, NoDuplicates;
      gks := ApplyDiff(call.group, toAdd, toDelete);
      StoreGroup(call);
    }

    method Reconcile(group: NamespacedName, resources: seq<ObjMetadata>, deleteRG: bool) returns (gks: seq<GroupKind>)
      requires Valid()
      modifies this, OwnerRepr, GroupRepr, KindRepr
      ensures Valid() && Grown()
      ensures View() == Reconciled(old(View()), Call(group, resources, deleteRG))
      ensures NoDuplicates(gks) && ToSet(gks) == View().kinds.Keys
    {
      ghost var was := View();
      var call := Call(group, resources, deleteRG);
      var toAdd, toDelete := ReadDiff(group, call.Wanted());
      gks := CommitDiff(call, toAdd, toDelete);
      CommitIsRebuild(was, call, toAdd, toDelete);
    }

    predicate HasResource(res: ObjMetadata): (has: bool)
      requires Valid()
      reads this, OwnerRepr, GroupRepr, KindRepr
      ensures has == (res in View().owners)
    {
      res in resToResgroups
    }

    method Get(res: ObjMetadata) returns (holders: seq<NamespacedName>)
      requires Valid()
      ensures NoDuplicates(holders)
      ensures ToSet(holders) == if res in View().owners then View().owners[res] else {}
    {
      if res in resToResgroups {
        holders := resToResgroups[res].ToSlice();
      } else {
        holders := [];
      }
    }

    function GetStatus(res: ObjMetadata): Option<CachedStatus>
      reads this
    {
      if res in resToStatus then resToStatus[res] else None
    }

    method SetStatus(res: ObjMetadata, status: Option<CachedStatus>)
      requires Valid()
      modifies this`resToStatus
      ensures Valid()
      ensures View() == old(View()).(statuses := old(View()).statuses[res := status])
    {
      hide Exact, OwnersLinked, KindsLinked, GroupsLinked;
      StatusesIrrelevant(View(), resToStatus[res := status]);
      resToStatus := resToStatus[res := status];
    }

    method GetResources(gk: GroupKind) returns (resources: seq<ObjMetadata>)
      requires Valid()
      ensures NoDuplicates(resources)
      ensures ToSet(resources) == if gk in View().kinds then View().kinds[gk] else {}
    {
      if gk !in gkToResources {
        resources := [];
      } else {
        resources := gkToResources[gk].ToSlice();
      }
    }

    predicate IsEmpty()
      reads this
    {
      |resgroupToResources| == 0 && |resToResgroups| == 0
    }

    /** IsEmpty looks at two maps; together with validity the answer covers all three. */
    lemma EmptyMeansNothingTracked()
      requires Valid()
      ensures IsEmpty() <==> View().groups == map[]
      ensures IsEmpty() ==> View().owners == map[] && View().kinds == map[]
    {
      assert |resgroupToResources| == 0 <==> resgroupToResources == map[];
      if View().groups == map[] {
        ExactDetermines(View());
        assert Tracked(View().groups) == {};
        assert resToResgroups.Keys == {};
        assert resgroupToResources.Keys == {};
      }
    }
  }
}
