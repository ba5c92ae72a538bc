/** The preferred version of each kind, as discovery last reported it. */
module TypeResolvers {
  import opened ApiTypes

  datatype GroupVersion = GroupVersion(group: string, version: string)

  /** One discovered list; None stands for a group version that does not parse. */
  datatype ResourceList = ResourceList(groupVersion: Option<GroupVersion>, kinds: seq<string>)

  function KindEntries(gv: GroupVersion, kinds: seq<string>): seq<GroupVersionKind> {
    seq(|kinds|, i requires 0 <= i < |kinds| => GroupVersionKind(gv.group, gv.version, kinds[i]))
  }

  /** Everything discovery listed that parses, in order. */
  function Entries(lists: seq<ResourceList>): seq<GroupVersionKind> {
    if lists == [] then [] else
    var last := lists[|lists| - 1];
    Entries(lists[..|lists| - 1]) +
    if last.groupVersion.Some? then KindEntries(last.groupVersion.value, last.kinds) else []
  }

  /** A kind resolves exactly when it is listed, and then to its last listing. */
  ghost predicate LastListed(mapping: map<GroupKind, GroupVersionKind>, entries: seq<GroupVersionKind>) {
    && (forall i | 0 <= i < |entries| :: entries[i].GK() in mapping)
    && (forall gk | gk in mapping :: mapping[gk].GK() == gk)
    && (forall gk | gk in mapping :: exists i | 0 <= i < |entries| :: IsLast(entries, i, mapping[gk]))
  }

  ghost predicate IsLast(entries: seq<GroupVersionKind>, i: nat, gvk: GroupVersionKind)
    requires i < |entries|
  {
    entries[i] == gvk && forall j | i < j < |entries| :: entries[j].GK() != gvk.GK()
  }

  lemma LastListedGrows(mapping: map<GroupKind, GroupVersionKind>, entries: seq<GroupVersionKind>,
                        gvk: GroupVersionKind)
    requires LastListed(mapping, entries)
    ensures LastListed(mapping[gvk.GK() := gvk], entries + [gvk])
  {
    var mapping', entries' := mapping[gvk.GK() := gvk], entries + [gvk];
    forall gk | gk in mapping'
      ensures exists i | 0 <= i < |entries'| :: IsLast(entries', i, mapping'[gk])
    {
      if gk == gvk.GK() {
        assert IsLast(entries', |entries|, gvk);
      } else {
        var i :| 0 <= i < |entries| && IsLast(entries, i, mapping[gk]);
        assert IsLast(entries', i, mapping'[gk]);
      }
    }
  }

  lemma LastListingIsUnique(entries: seq<GroupVersionKind>, m: map<GroupKind, GroupVersionKind>, n: map<GroupKind,
                            GroupVersionKind>)
    requires LastListed(m, entries) && LastListed(n, entries)
    ensures m == n
  {
    forall gk | gk in m
      ensures gk in n && n[gk] == m[gk]
    {
      var i :| 0 <= i < |entries| && IsLast(entries, i, m[gk]);
      assert entries[i].GK() in n;
      var j :| 0 <= j < |entries| && IsLast(entries, j, n[gk]);
    }
    forall gk | gk in n
      ensures gk in m
    {
      var j :| 0 <= j < |entries| && IsLast(entries, j, n[gk]);
      assert entries[j].GK() in m;
    }
  }

  /** The j-th kind of the i-th list, with that list's version, is what the kind was listed as. */
  predicate ListedAs(lists: seq<ResourceList>, i: nat, j: nat, gvk: GroupVersionKind)
  {
    && i < |lists| && lists[i].groupVersion.Some? && j < |lists[i].kinds|
    && gvk.group == lists[i].groupVersion.value.group
    && gvk.version == lists[i].groupVersion.value.version
    && gvk.kind == lists[i].kinds[j]
  }

  /** No later place lists the kind again. */
  ghost predicate NotListedAfter(lists: seq<ResourceList>, i: nat, j: nat, gk: GroupKind) {
    forall i', j', gvk ::
      0 <= i' && 0 <= j' && ListedAs(lists, i', j', gvk) && (i' > i || (i' == i && j' > j)) ==> gvk.GK() != gk
  }

  /** The mapping knows exactly the listed kinds, each as it was listed last. */
  ghost predicate MapsLastListings(mapping: map<GroupKind, GroupVersionKind>, lists: seq<ResourceList>) {
    && (forall i, j, gvk :: 0 <= i && 0 <= j && ListedAs(lists, i, j, gvk) ==> gvk.GK() in mapping)
    && (forall gk | gk in mapping :: mapping[gk].GK() == gk && ListedLast(lists, mapping[gk]))
  }

  ghost predicate ListedLast(lists: seq<ResourceList>, gvk: GroupVersionKind) {
    exists i, j :: 0 <= i && 0 <= j && ListedAs(lists, i, j, gvk) && NotListedAfter(lists, i, j, gvk.GK())
  }

  lemma {:induction false} ListingIsEntry(lists: seq<ResourceList>, i: nat, j: nat, gvk: GroupVersionKind)
    requires ListedAs(lists, i, j, gvk)
    ensures gvk in Entries(lists)
  {
    var init, last := lists[..|lists| - 1], lists[|lists| - 1];
    if i < |init| {
      ListingIsEntry(init, i, j, gvk);
    } else {
      assert KindEntries(last.groupVersion.value, last.kinds)[j] == gvk;
    }
  }

  lemma {:induction false} LastEntryIsListedLast(lists: seq<ResourceList>, e: nat, gvk: GroupVersionKind)
    requires e < |Entries(lists)| && IsLast(Entries(lists), e, gvk)
    ensures ListedLast(lists, gvk)
  {
    var init, last := lists[..|lists| - 1], lists[|lists| - 1];
    var before := Entries(init);
    var own := if last.groupVersion.Some? then KindEntries(last.groupVersion.value, last.kinds) else [];
    assert Entries(lists) == before + own;
    forall j, later | 0 <= j && ListedAs(lists, |init|, j, later) && later.GK() == gvk.GK()
      ensures |before| + j <= e
    {
      assert own[j] == later && Entries(lists)[|before| + j] == later;
    }
    if e < |before| {
      forall k | e < k < |before|
        ensures before[k].GK() != gvk.GK()
      {
        assert Entries(lists)[k] == before[k];
      }
      LastEntryIsListedLast(init, e, gvk);
      var i, j :| 0 <= i && 0 <= j && ListedAs(init, i, j, gvk) && NotListedAfter(init, i, j, gvk.GK());
      assert ListedAs(lists, i, j, gvk);
      forall i', j', later | 0 <= i' && 0 <= j' && ListedAs(lists, i', j', later) && (i' > i || (i' == i && j' > j))
        ensures later.GK() != gvk.GK()
      {
        if i' < |init| {
          assert ListedAs(init, i', j', later);
        }
      }
      assert NotListedAfter(lists, i, j, gvk.GK());
    } else {
      assert ListedAs(lists, |init|, e - |before|, gvk);
      assert NotListedAfter(lists, |init|, e - |before|, gvk.GK());
    }
  }

  lemma LastListingsAsPromised(mapping: map<GroupKind, GroupVersionKind>, lists: seq<ResourceList>)
    requires LastListed(mapping, Entries(lists))
    ensures MapsLastListings(mapping, lists)
  {
    forall i, j, gvk | 0 <= i && 0 <= j && ListedAs(lists, i, j, gvk)
      ensures gvk.GK() in mapping
    {
      ListingIsEntry(lists, i, j, gvk);
    }
    forall gk | gk in mapping
      ensures ListedLast(lists, mapping[gk])
    {
      var e :| 0 <= e < |Entries(lists)| && IsLast(Entries(lists), e, mapping[gk]);
      LastEntryIsListedLast(lists, e, mapping[gk]);
    }
  }

  /** What a set of kinds resolves to. */
  function Resolutions(mapping: map<GroupKind, GroupVersionKind>, gks: set<GroupKind>): set<GroupVersionKind> {
    set gk | gk in gks && gk in mapping :: mapping[gk]
  }

  ghost predicate KeepsKind(mapping: map<GroupKind, GroupVersionKind>) {
    forall gk | gk in mapping :: mapping[gk].GK() == gk
  }

  lemma ResolutionsGrow(mapping: map<GroupKind, GroupVersionKind>, rest: set<GroupKind>, gk: GroupKind)
    requires KeepsKind(mapping) && gk !in rest
    ensures |Resolutions(mapping, rest + {gk})| == |Resolutions(mapping, rest)| + if gk in mapping then 1 else 0
  {
    if gk in mapping {
      forall other | other in rest && other in mapping
        ensures mapping[other] != mapping[gk]
      {
        assert mapping[other].GK() == other && mapping[gk].GK() == gk;
      }
      assert Resolutions(mapping, rest + {gk}) == Resolutions(mapping, rest) + {mapping[gk]};
    } else {
      assert Resolutions(mapping, rest + {gk}) == Resolutions(mapping, rest);
    }
  }

  lemma KnownGrow(known: set<GroupKind>, rest: set<GroupKind>, gk: GroupKind)
    requires gk !in rest
    ensures |(rest + {gk}) * known| == |rest * known| + if gk in known then 1 else 0
  {
    if gk in known {
      assert (rest + {gk}) * known == rest * known + {gk};
    } else {
      assert (rest + {gk}) * known == rest * known;
    }
  }

  /** Resolution keeps group and kind, so no two kinds resolve to the same thing. */
  lemma {:induction false} ResolutionsCount(mapping: map<GroupKind, GroupVersionKind>, gks: set<GroupKind>)
    requires KeepsKind(mapping)
    ensures |Resolutions(mapping, gks)| == |gks * mapping.Keys|
    decreases gks
  {
    if gk :| gk in gks {
      hide Resolutions, KeepsKind;
      var rest := gks - {gk};
      ResolutionsCount(mapping, rest);
      assert gks == rest + {gk};
      ResolutionsGrow(mapping, rest, gk);
      KnownGrow(mapping.Keys, rest, gk);
    } else {
      assert gks * mapping.Keys == {};
      assert Resolutions(mapping, gks) == {};
    }
  }

  class TypeResolver {
    var typeMapping: map<GroupKind, GroupVersionKind>

    constructor ()
      ensures typeMapping == map[]
    {
      typeMapping := map[];
    }

    ghost predicate Valid()
      reads this
    {
      KeepsKind(typeMapping)
    }

    /** None stands for a failed discovery call, which leaves the old mapping in place. */
    method Refresh(discovered: Option<seq<ResourceList>>)
      requires Valid()
      modifies this
      ensures Valid()
      ensures discovered.None? ==> typeMapping == old(typeMapping)
      ensures discovered.Some? ==> MapsLastListings(typeMapping, discovered.value)
    {
      if discovered.None? {
        return;
      }
      var mapping: map<GroupKind, GroupVersionKind> := map[];
      var lists := discovered.value;
      for i := 0 to |lists|
        invariant LastListed(mapping, Entries(lists[..i]))
      {
        assert lists[..i + 1][..i] == lists[..i];
        if lists[i].groupVersion.Some? {
          var gv, kinds := lists[i].groupVersion.value, lists[i].kinds;
          ghost var before := Entries(lists[..i]);
          assert before + KindEntries(gv, kinds[..0]) == before;
          for j := 0 to |kinds|
            invariant LastListed(mapping, before + KindEntries(gv, kinds[..j]))
          {
            var gvk := GroupVersionKind(gv.group, gv.version, kinds[j]);
            LastListedGrows(mapping, before + KindEntries(gv, kinds[..j]), gvk);
            mapping := mapping[gvk.GK() := gvk];
            assert before + KindEntries(gv, kinds[..j + 1]) == before + KindEntries(gv, kinds[..j]) + [gvk];
          }
          assert kinds[..|kinds|] == kinds;
        } else {
          assert Entries(lists[..i + 1]) == Entries(lists[..i]);
        }
      }
      assert lists[..|lists|] == lists;
      LastListingsAsPromised(mapping, lists);
      typeMapping := mapping;
    }

    function Resolve(gk: GroupKind): (gvk: Option<GroupVersionKind>)
      reads this
      ensures gvk.Some? <==> gk in typeMapping
      ensures gvk.Some? ==> gvk.value == typeMapping[gk]
    {
      if gk in typeMapping then Some(typeMapping[gk]) else None
    }
  }
}
