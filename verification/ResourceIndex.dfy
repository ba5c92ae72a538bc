/** The four maps of the resource map as one value, the steps of Reconcile on it,
    and what those steps add up to. */
module ResourceIndex {
  import opened ApiTypes

  datatype Index = Index(
    groups: map<NamespacedName, set<ObjMetadata>>,
    owners: map<ObjMetadata, set<NamespacedName>>,
    kinds: map<GroupKind, set<ObjMetadata>>,
    statuses: map<ObjMetadata, Option<CachedStatus>>)

  const EMPTY_INDEX := Index(map[], map[], map[], map[])

  /** One call of Reconcile; deleting a group ignores the resources it is given. */
  datatype Call = Call(group: NamespacedName, resources: seq<ObjMetadata>, deleteRG: bool) {
    function Wanted(): seq<ObjMetadata> {
      if deleteRG then [] else resources
    }
  }

  ghost predicate Owns(x: Index, g: NamespacedName, r: ObjMetadata) {
    g in x.groups && r in x.groups[g]
  }

  ghost predicate OwnedBy(x: Index, r: ObjMetadata, g: NamespacedName) {
    r in x.owners && g in x.owners[r]
  }

  ghost predicate Listed(x: Index, k: GroupKind, r: ObjMetadata) {
    k in x.kinds && r in x.kinds[k]
  }

  /** The kind buckets hold exactly the tracked resources, each under its own kind,
      and no bucket of either index is empty. */
  ghost predicate Sound(x: Index) {
    && (forall r | r in x.owners :: x.owners[r] != {})
    && (forall k | k in x.kinds :: x.kinds[k] != {})
    && (forall k, r :: Listed(x, k, r) <==> r in x.owners && r.GK() == k)
  }

  /** Sound, and the owner index is the inverse of the group index. */
  ghost predicate Exact(x: Index) {
    && Sound(x)
    && forall r, g :: OwnedBy(x, r, g) <==> Owns(x, g, r)
  }

  ghost function Tracked(groups: map<NamespacedName, set<ObjMetadata>>): set<ObjMetadata> {
    set g, r | g in groups && r in groups[g] :: r
  }

  /** The inverse of a group index, written down directly. */
  ghost function OwnersOf(groups: map<NamespacedName, set<ObjMetadata>>): map<ObjMetadata, set<NamespacedName>> {
    map r | r in Tracked(groups) :: set g | g in groups && r in groups[g]
  }

  ghost function KindKeys(tracked: set<ObjMetadata>): set<GroupKind> {
    set r | r in tracked :: r.GK()
  }

  /** The partition of a resource set by kind, written down directly. */
  ghost function KindsOf(tracked: set<ObjMetadata>): map<GroupKind, set<ObjMetadata>> {
    map k | k in KindKeys(tracked) :: set r | r in tracked && r.GK() == k
  }

  lemma TrackedIffOwned(x: Index, r: ObjMetadata)
    requires Exact(x)
    ensures r in x.owners <==> r in Tracked(x.groups)
  {
    if r in x.owners {
      var g :| g in x.owners[r];
      assert OwnedBy(x, r, g) && Owns(x, g, r);
    }
    if r in Tracked(x.groups) {
      var g :| g in x.groups && r in x.groups[g];
      assert Owns(x, g, r) && OwnedBy(x, r, g);
    }
  }

  /** The group index alone determines the other two: this is what "the maps agree" means. */
  lemma ExactDetermines(x: Index)
    requires Exact(x)
    ensures x.owners.Keys == Tracked(x.groups)
    ensures x.owners == OwnersOf(x.groups)
    ensures x.kinds == KindsOf(Tracked(x.groups))
  {
    forall r
      ensures r in x.owners <==> r in Tracked(x.groups)
    {
      TrackedIffOwned(x, r);
    }
    assert x.owners.Keys == Tracked(x.groups);
    forall r | r in x.owners
      ensures x.owners[r] == OwnersOf(x.groups)[r]
    {
      forall g
        ensures g in x.owners[r] <==> g in OwnersOf(x.groups)[r]
      {
        assert OwnedBy(x, r, g) <==> Owns(x, g, r);
      }
    }
    SoundDetermines(x);
  }

  lemma SoundDetermines(x: Index)
    requires Sound(x)
    ensures x.kinds == KindsOf(x.owners.Keys)
  {
    forall k
      ensures k in x.kinds <==> k in KindKeys(x.owners.Keys)
    {
      if k in x.kinds {
        var r :| r in x.kinds[k];
        assert Listed(x, k, r);
        assert r in x.owners.Keys;
      }
      if k in KindKeys(x.owners.Keys) {
        var r :| r in x.owners.Keys && r.GK() == k;
        assert Listed(x, k, r);
      }
    }
    forall k | k in x.kinds
      ensures x.kinds[k] == KindsOf(x.owners.Keys)[k]
    {
      forall r
        ensures r in x.kinds[k] <==> r in KindsOf(x.owners.Keys)[k]
      {
        assert Listed(x, k, r) <==> r in x.owners && r.GK() == k;
      }
    }
  }

  lemma DeterminedIsExact(x: Index)
    requires x.owners == OwnersOf(x.groups) && x.kinds == KindsOf(Tracked(x.groups))
    ensures Exact(x)
  {
    assert x.owners.Keys == Tracked(x.groups);
    forall k | k in x.kinds
      ensures x.kinds[k] != {}
    {
      var r :| r in Tracked(x.groups) && r.GK() == k;
      assert r in x.kinds[k];
    }
    forall r | r in x.owners
      ensures x.owners[r] != {}
    {
      var g :| g in x.groups && r in x.groups[g];
      assert g in x.owners[r];
    }
  }

  // ---- the steps of Reconcile ----

  /** Take a resource out of its kind bucket, and the bucket away when that empties it. */
  function Unlist(x: Index, r: ObjMetadata): Index
    requires r.GK() in x.kinds
  {
    var bucket := x.kinds[r.GK()] - {r};
    x.(kinds := if bucket == {} then x.kinds - {r.GK()} else x.kinds[r.GK() := bucket])
  }

  /** Put a resource into its kind bucket, making the bucket when there is none. */
  function List(x: Index, r: ObjMetadata): Index {
    x.(kinds := x.kinds[r.GK() := if r.GK() in x.kinds then x.kinds[r.GK()] + {r} else {r}])
  }

  /** One pass of the loop over the resources the group lost. */
  function Detach(x: Index, g: NamespacedName, r: ObjMetadata): Index
    requires r in x.owners ==> r.GK() in x.kinds
  {
    if r !in x.owners then x else
    var left := x.owners[r] - {g};
    if left != {} then x.(owners := x.owners[r := left]) else
    Unlist(x.(owners := x.owners - {r}, statuses := x.statuses - {r}), r)
  }

  /** One pass of the loop over the resources the group gained. */
  function Attach(x: Index, g: NamespacedName, r: ObjMetadata): Index {
    if r in x.owners then x.(owners := x.owners[r := x.owners[r] + {g}]) else
    List(x.(owners := x.owners[r := {g}]), r)
  }

  lemma DetachSound(x: Index, g: NamespacedName, r: ObjMetadata)
    requires Sound(x)
    ensures r in x.owners ==> r.GK() in x.kinds
    ensures Sound(Detach(x, g, r))
  {
    if r in x.owners {
      assert Listed(x, r.GK(), r);
      var y := Detach(x, g, r);
      forall k, s
        ensures Listed(y, k, s) <==> s in y.owners && s.GK() == k
      {
        assert Listed(x, k, s) <==> s in x.owners && s.GK() == k;
      }
    }
  }

  lemma ListAdds(x: Index, r: ObjMetadata, k: GroupKind, s: ObjMetadata)
    ensures Listed(List(x, r), k, s) <==> Listed(x, k, s) || (s == r && k == r.GK())
    ensures k in List(x, r).kinds <==> k in x.kinds || k == r.GK()
    ensures r in List(x, r).kinds[r.GK()] && (k in x.kinds && k != r.GK() ==> List(x, r).kinds[k] == x.kinds[k])
  {
  }

  lemma AttachSound(x: Index, g: NamespacedName, r: ObjMetadata)
    requires Sound(x)
    ensures Sound(Attach(x, g, r))
  {
    var y := Attach(x, g, r);
    if r !in x.owners {
      var w := x.(owners := x.owners[r := {g}]);
      assert y == List(w, r);
      hide List, Attach, Listed;
      forall k, s
        ensures Listed(y, k, s) <==> s in y.owners && s.GK() == k
      {
        assert Listed(x, k, s) <==> s in x.owners && s.GK() == k;
        ListAdds(w, r, k, s);
        OwnersDoNotList(x, w, k, s);
      }
      forall k | k in y.kinds
        ensures y.kinds[k] != {}
      {
        ListAdds(w, r, k, r);
      }
      ListKeepsOwners(w, r);
    } else {
      forall k, s
        ensures Listed(y, k, s) <==> Listed(x, k, s)
      {
      }
    }
  }

  lemma OwnersDoNotList(x: Index, y: Index, k: GroupKind, s: ObjMetadata)
    requires x.kinds == y.kinds
    ensures Listed(x, k, s) <==> Listed(y, k, s)
  {
  }

  lemma ListKeepsOwners(x: Index, r: ObjMetadata)
    ensures List(x, r).owners == x.owners
  {
  }

  function DetachAll(x: Index, g: NamespacedName, rs: seq<ObjMetadata>): (y: Index)
    requires Sound(x)
    ensures Sound(y)
  {
    if rs == [] then x else
    var y := DetachAll(x, g, rs[..|rs| - 1]);
    DetachSound(y, g, rs[|rs| - 1]);
    Detach(y, g, rs[|rs| - 1])
  }

  function AttachAll(x: Index, g: NamespacedName, rs: seq<ObjMetadata>): (y: Index)
    requires Sound(x)
    ensures Sound(y)
  {
    if rs == [] then x else
    var y := AttachAll(x, g, rs[..|rs| - 1]);
    AttachSound(y, g, rs[|rs| - 1]);
    Attach(y, g, rs[|rs| - 1])
  }

  function SetGroup(x: Index, call: Call): Index {
    x.(groups := if call.deleteRG then x.groups - {call.group}
                 else x.groups[call.group := ToSet(call.resources)])
  }

  lemma SetGroupSound(x: Index, call: Call)
    requires Sound(x)
    ensures Sound(SetGroup(x, call))
  {
    var y := SetGroup(x, call);
    forall k, r
      ensures Listed(y, k, r) <==> Listed(x, k, r)
    {
    }
  }

  /** The locked part of Reconcile, on whatever diff the unlocked part produced. */
  function Commit(x: Index, call: Call, toAdd: seq<ObjMetadata>, toDelete: seq<ObjMetadata>): (y: Index)
    requires Sound(x)
    ensures Sound(y)
  {
    var z := AttachAll(DetachAll(x, call.group, toDelete), call.group, toAdd);
    SetGroupSound(z, call);
    SetGroup(z, call)
  }

  /** Neither kind of agreement looks at the cached statuses. */
  lemma StatusesIrrelevant(x: Index, statuses: map<ObjMetadata, Option<CachedStatus>>)
    ensures Sound(x) ==> Sound(x.(statuses := statuses))
    ensures Exact(x) ==> Exact(x.(statuses := statuses))
  {
    var y := x.(statuses := statuses);
    forall k, r
      ensures Listed(y, k, r) <==> Listed(x, k, r)
    {
    }
    forall r, g
      ensures OwnedBy(y, r, g) <==> OwnedBy(x, r, g)
      ensures Owns(y, g, r) <==> Owns(x, g, r)
    {
    }
  }

  /** What the group holds now; a group the map does not know holds nothing. */
  function Held(x: Index, g: NamespacedName): set<ObjMetadata> {
    if g in x.groups then x.groups[g] else {}
  }

  ghost predicate IsDiff(held: set<ObjMetadata>, wanted: seq<ObjMetadata>, toAdd: seq<ObjMetadata>,
                         toDelete: seq<ObjMetadata>) {
    && (forall r :: r in toAdd <==> r in wanted && r !in held)
    && (forall r :: r in toDelete <==> r in held && r !in wanted)
  }

  /** Reconcile without a diff: replace the group's set and derive everything else from the group index. */
  ghost function Reconciled(x: Index, call: Call): Index {
    var groups := SetGroup(x, call).groups;
    Index(groups, OwnersOf(groups), KindsOf(Tracked(groups)), x.statuses - (x.owners.Keys - Tracked(groups)))
  }

  /** What detaching `rs` from `g` does to the entries of one resource. */
  ghost predicate Detached(x: Index, g: NamespacedName, rs: set<ObjMetadata>, y: Index, r: ObjMetadata) {
    && (r in y.owners <==> r in x.owners && !(r in rs && x.owners[r] <= {g}))
    && (r in y.owners ==> y.owners[r] == if r in rs then x.owners[r] - {g} else x.owners[r])
    && (r in y.statuses <==> r in x.statuses && !(r in x.owners && r !in y.owners))
    && (r in y.statuses ==> y.statuses[r] == x.statuses[r])
  }

  /** What attaching `rs` to `g` does to the entries of one resource. */
  ghost predicate Attached(x: Index, g: NamespacedName, rs: set<ObjMetadata>, y: Index, r: ObjMetadata) {
    && (r in y.owners <==> r in x.owners || r in rs)
    && (r in y.owners ==>
          y.owners[r] == (if r in x.owners then x.owners[r] else {}) + (if r in rs then {g} else {}))
  }

  lemma ReconciledKinds(x: Index, call: Call)
    ensures Reconciled(x, call).kinds.Keys == KindKeys(Tracked(Reconciled(x, call).groups))
  {
  }

  lemma {:induction false} DetachAllEffect(x: Index, g: NamespacedName, rs: seq<ObjMetadata>, r: ObjMetadata)
    requires Sound(x)
    ensures DetachAll(x, g, rs).groups == x.groups
    ensures Detached(x, g, ToSet(rs), DetachAll(x, g, rs), r)
  {
    if rs != [] {
      var init, last := rs[..|rs| - 1], rs[|rs| - 1];
      DetachAllEffect(x, g, init, r);
      DetachSound(DetachAll(x, g, init), g, last);
      assert rs == init + [last];
      assert ToSet(rs) == ToSet(init) + {last};
      DetachOneMore(x, g, ToSet(init), DetachAll(x, g, init), last, r);
    }
  }

  lemma DetachOneMore(x: Index, g: NamespacedName, rs: set<ObjMetadata>, y: Index, last: ObjMetadata, r: ObjMetadata)
    requires last in y.owners ==> last.GK() in y.kinds
    requires Detached(x, g, rs, y, r)
    requires r in x.owners ==> x.owners[r] != {}
    ensures Detached(x, g, rs + {last}, Detach(y, g, last), r)
  {
    if r == last && r in y.owners {
      assert y.owners[r] - {g} == x.owners[r] - {g};
      assert y.owners[r] - {g} == {} <==> x.owners[r] <= {g};
    }
  }

  lemma {:induction false} AttachAllEffect(x: Index, g: NamespacedName, rs: seq<ObjMetadata>, r: ObjMetadata)
    requires Sound(x)
    ensures AttachAll(x, g, rs).groups == x.groups
    ensures AttachAll(x, g, rs).statuses == x.statuses
    ensures Attached(x, g, ToSet(rs), AttachAll(x, g, rs), r)
  {
    if rs != [] {
      var init, last := rs[..|rs| - 1], rs[|rs| - 1];
      AttachAllEffect(x, g, init, r);
      assert rs == init + [last];
      assert ToSet(rs) == ToSet(init) + {last};
      AttachOneMore(x, g, ToSet(init), AttachAll(x, g, init), last, r);
    }
  }

  lemma AttachOneMore(x: Index, g: NamespacedName, rs: set<ObjMetadata>, y: Index, last: ObjMetadata, r: ObjMetadata)
    requires Attached(x, g, rs, y, r)
    ensures Attached(x, g, rs + {last}, Attach(y, g, last), r)
  {
  }

  /** What a commit does to the entries of one resource, whatever the diff. */
  lemma CommitEffect(x: Index, call: Call, toAdd: seq<ObjMetadata>, toDelete: seq<ObjMetadata>, r: ObjMetadata)
    requires Sound(x)
    ensures var d, y := DetachAll(x, call.group, toDelete), Commit(x, call, toAdd, toDelete);
            && y.groups == SetGroup(x, call).groups
            && y.statuses == d.statuses
            && Detached(x, call.group, ToSet(toDelete), d, r)
            && Attached(d, call.group, ToSet(toAdd), y, r)
  {
    DetachAllEffect(x, call.group, toDelete, r);
    AttachAllEffect(DetachAll(x, call.group, toDelete), call.group, toAdd, r);
  }

  lemma CommitMembership(x: Index, call: Call, toAdd: seq<ObjMetadata>, toDelete: seq<ObjMetadata>,
                         h: NamespacedName, r: ObjMetadata)
    requires Exact(x)
    ensures var y := Commit(x, call, toAdd, toDelete);
            && (h != call.group ==> (OwnedBy(y, r, h) <==> Owns(y, h, r)))
            && (Owns(y, call.group, r) <==> r in ToSet(call.Wanted()))
            && (OwnedBy(y, r, call.group) <==> r in Held(x, call.group) - ToSet(toDelete) + ToSet(toAdd))
  {
    CommitEffect(x, call, toAdd, toDelete, r);
    assert OwnedBy(x, r, h) <==> Owns(x, h, r);
    assert OwnedBy(x, r, call.group) <==> Owns(x, call.group, r);
  }

  /** Committing a diff leaves the maps exact if and only if, at commit time, the diff
      still turns what the group holds into what it wants. */
  lemma CommitExactIff(x: Index, call: Call, toAdd: seq<ObjMetadata>, toDelete: seq<ObjMetadata>)
    requires Exact(x)
    ensures Exact(Commit(x, call, toAdd, toDelete)) <==>
            Held(x, call.group) - ToSet(toDelete) + ToSet(toAdd) == ToSet(call.Wanted())
  {
    var g := call.group;
    var y := Commit(x, call, toAdd, toDelete);
    var after, wanted := Held(x, g) - ToSet(toDelete) + ToSet(toAdd), ToSet(call.Wanted());
    forall h, r
      ensures h != g ==> (OwnedBy(y, r, h) <==> Owns(y, h, r))
      ensures OwnedBy(y, r, g) <==> r in after
      ensures Owns(y, g, r) <==> r in wanted
    {
      CommitMembership(x, call, toAdd, toDelete, h, r);
    }
    if Exact(y) {
      forall r
        ensures r in after <==> r in wanted
      {
        assert OwnedBy(y, r, g) <==> Owns(y, g, r);
      }
      assert after == wanted;
    }
  }

  /** True of every commit, even one whose diff is out of date. */
  lemma CommitStatuses(x: Index, call: Call, toAdd: seq<ObjMetadata>, toDelete: seq<ObjMetadata>)
    requires Sound(x)
    requires ToSet(toAdd) !! ToSet(toDelete)
    ensures var y := Commit(x, call, toAdd, toDelete);
            y.statuses == x.statuses - (x.owners.Keys - y.owners.Keys)
  {
    var y := Commit(x, call, toAdd, toDelete);
    var left := x.statuses - (x.owners.Keys - y.owners.Keys);
    forall r
      ensures r in y.statuses <==> r in left
      ensures r in left ==> y.statuses[r] == x.statuses[r]
    {
      CommitEffect(x, call, toAdd, toDelete, r);
    }
  }

  /** With a diff that is still right, the incremental commit is the full rebuild:
      same groups, owners, kinds, and exactly the statuses of the resources that lost
      their last group dropped. */
  lemma CommitIsRebuild(x: Index, call: Call, toAdd: seq<ObjMetadata>, toDelete: seq<ObjMetadata>)
    requires Exact(x)
    requires IsDiff(Held(x, call.group), call.Wanted(), toAdd, toDelete)
    ensures Exact(Commit(x, call, toAdd, toDelete))
    ensures Commit(x, call, toAdd, toDelete) == Reconciled(x, call)
  {
    var y := Commit(x, call, toAdd, toDelete);
    assert Exact(y) by {
      assert Held(x, call.group) - ToSet(toDelete) + ToSet(toAdd) == ToSet(call.Wanted());
      CommitExactIff(x, call, toAdd, toDelete);
    }
    assert y.groups == SetGroup(x, call).groups by {
      CommitEffect(x, call, toAdd, toDelete, ObjMetadata("", "", GroupKind("", "")));
    }
    ExactDetermines(y);
    CommitStatuses(x, call, toAdd, toDelete);
  }
}
