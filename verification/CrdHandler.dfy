/** The handler of CRD events: a change of a kind clears what is cached for its
    resources and wakes every group that includes one. */
module CrdHandler {
  import opened ApiTypes
  import opened ResourceIndex
  import opened ResourceMaps

  /** The channel of generic events, as the log of the groups sent on it. */
  class EventChannel {
    var sent: seq<NamespacedName>

    constructor ()
      ensures sent == []
    {
      sent := [];
    }

    method Send(group: NamespacedName)
      modifies this
      ensures sent == old(sent) + [group]
    {
      sent := sent + [group];
    }

    method SendAll(groups: seq<NamespacedName>)
      modifies this
      ensures sent == old(sent) + groups
    {
      for i := 0 to |groups|
        invariant sent == old(sent) + groups[..i]
      {
        Send(groups[i]);
      }
    }
  }

  function Bucket(x: Index, k: GroupKind): set<ObjMetadata> {
    if k in x.kinds then x.kinds[k] else {}
  }

  function Cleared(x: Index, rs: set<ObjMetadata>): Index {
    x.(statuses := x.statuses + map r | r in rs :: None)
  }

  /** The resources of one list that a group includes. */
  ghost function Shared(x: Index, rs: set<ObjMetadata>, g: NamespacedName): set<ObjMetadata> {
    set r | r in rs && OwnedBy(x, r, g)
  }

  /** The resources of one kind that a group includes, straight from the group index. */
  ghost function OfKind(x: Index, g: NamespacedName, k: GroupKind): set<ObjMetadata> {
    set r | r in Held(x, g) && r.GK() == k
  }

  lemma SharedIsOfKind(x: Index, g: NamespacedName, k: GroupKind)
    requires Exact(x)
    ensures Shared(x, Bucket(x, k), g) == OfKind(x, g, k)
  {
    forall r
      ensures r in Shared(x, Bucket(x, k), g) <==> r in OfKind(x, g, k)
    {
      assert Listed(x, k, r) <==> r in x.owners && r.GK() == k;
      assert OwnedBy(x, r, g) <==> Owns(x, g, r);
    }
  }

  lemma {:induction false} CountInDistinct<T>(xs: seq<T>, x: T)
    requires NoDuplicates(xs)
    ensures multiset(xs)[x] == if x in xs then 1 else 0
  {
    if xs != [] {
      CountInDistinct(xs[..|xs| - 1], x);
      assert xs == xs[..|xs| - 1] + [xs[|xs| - 1]];
    }
  }

  lemma SharedGrows(x: Index, rs: set<ObjMetadata>, r: ObjMetadata, g: NamespacedName)
    requires r !in rs
    ensures |Shared(x, rs + {r}, g)| == |Shared(x, rs, g)| + if OwnedBy(x, r, g) then 1 else 0
  {
    if OwnedBy(x, r, g) {
      assert Shared(x, rs + {r}, g) == Shared(x, rs, g) + {r};
    } else {
      assert Shared(x, rs + {r}, g) == Shared(x, rs, g);
    }
  }

  ghost predicate Sent(x: Index, rs: set<ObjMetadata>, events: seq<NamespacedName>, g: NamespacedName) {
    multiset(events)[g] == |Shared(x, rs, g)|
  }

  /** Each group has been sent one event for each listed resource it includes. */
  ghost predicate FannedOut(x: Index, rs: set<ObjMetadata>, events: seq<NamespacedName>) {
    forall g :: Sent(x, rs, events, g)
  }

  lemma FanOutOneMore(x: Index, rs: set<ObjMetadata>, events: seq<NamespacedName>, r: ObjMetadata,
                      holders: seq<NamespacedName>)
    requires r !in rs && FannedOut(x, rs, events)
    requires NoDuplicates(holders) && ToSet(holders) == if r in x.owners then x.owners[r] else {}
    ensures FannedOut(x, rs + {r}, events + holders)
  {
    forall g
      ensures Sent(x, rs + {r}, events + holders, g)
    {
      assert g in holders <==> g in ToSet(holders);
      assert Sent(x, rs, events, g);
      CountInDistinct(holders, g);
      SharedGrows(x, rs, r, g);
      assert multiset(events + holders) == multiset(events) + multiset(holders);
    }
  }

  lemma PrefixGrows<T>(xs: seq<T>, i: nat)
    requires i < |xs| && NoDuplicates(xs)
    ensures xs[i] !in ToSet(xs[..i])
    ensures ToSet(xs[..i + 1]) == ToSet(xs[..i]) + {xs[i]}
  {
    assert xs[..i + 1] == xs[..i] + [xs[i]];
  }

  lemma ClearOneMore(x: Index, rs: set<ObjMetadata>, r: ObjMetadata)
    ensures Cleared(x, rs + {r}) == Cleared(x, rs).(statuses := Cleared(x, rs).statuses[r := None])
  {
  }

  /** One CRD event makes the cached status of exactly the tracked resources of its kind
      nil, touches nothing else, and sends each group exactly one event for each distinct
      resource of the kind it includes. */
  ghost predicate CrdOutcome(x: Index, k: GroupKind, y: Index, events: seq<NamespacedName>) {
    && y.groups == x.groups && y.owners == x.owners && y.kinds == x.kinds
    && (forall r :: r in x.owners && r.GK() == k ==> r in y.statuses && y.statuses[r] == None)
    && (forall r :: !(r in x.owners && r.GK() == k) ==>
          (r in y.statuses <==> r in x.statuses) && (r in y.statuses ==> y.statuses[r] == x.statuses[r]))
    && (forall g :: multiset(events)[g] == |OfKind(x, g, k)|)
  }

  lemma ClearAndFanOut(x: Index, k: GroupKind, events: seq<NamespacedName>)
    requires Exact(x) && FannedOut(x, Bucket(x, k), events)
    ensures CrdOutcome(x, k, Cleared(x, Bucket(x, k)), events)
  {
    forall r
      ensures r in Bucket(x, k) <==> r in x.owners && r.GK() == k
    {
      assert Listed(x, k, r) <==> r in x.owners && r.GK() == k;
    }
    forall g
      ensures multiset(events)[g] == |OfKind(x, g, k)|
    {
      assert Sent(x, Bucket(x, k), events, g);
      SharedIsOfKind(x, g, k);
    }
  }

  class CRDEventHandler {
    const mapping: ResourceMap
    const channel: EventChannel

    constructor (mapping: ResourceMap, channel: EventChannel)
      ensures this.mapping == mapping && this.channel == channel
    {
      this.mapping, this.channel := mapping, channel;
    }

    method ResetAndNotify(gknn: ObjMetadata) returns (holders: seq<NamespacedName>)
      requires mapping.Valid()
      modifies mapping`resToStatus, channel
      ensures mapping.Valid()
      ensures mapping.View() == old(mapping.View()).(statuses := old(mapping.View()).statuses[gknn := None])
      ensures channel.sent == old(channel.sent) + holders && NoDuplicates(holders)
      ensures ToSet(holders) == if gknn in mapping.View().owners then mapping.View().owners[gknn] else {}
    {
      hide ResourceMap.Valid;
      mapping.SetStatus(gknn, None);
      holders := mapping.Get(gknn);
      channel.SendAll(holders);
    }

    method ResetAll(resources: seq<ObjMetadata>) returns (ghost events: seq<NamespacedName>)
      requires mapping.Valid() && NoDuplicates(resources)
      modifies mapping`resToStatus, channel
      ensures mapping.Valid()
      ensures mapping.View() == Cleared(old(mapping.View()), ToSet(resources))
      ensures channel.sent == old(channel.sent) + events
      ensures FannedOut(old(mapping.View()), ToSet(resources), events)
    {
      hide ResourceMap.Valid;
      ghost var x := mapping.View();
      events := [];
      for i := 0 to |resources|
        invariant mapping.Valid()
        invariant mapping.resToStatus == Cleared(x, ToSet(resources[..i])).statuses
        invariant channel.sent == old(channel.sent) + events
        invariant FannedOut(x, ToSet(resources[..i]), events)
      {
        var holders := ResetAndNotify(resources[i]);
        PrefixGrows(resources, i);
        ClearOneMore(x, ToSet(resources[..i]), resources[i]);
        FanOutOneMore(x, ToSet(resources[..i]), events, resources[i], holders);
        events := events + holders;
      }
      assert resources[..|resources|] == resources;
    }

    /** `crd` is the kind the CRD defines; None stands for an object that is not a CRD. */
    method EnqueueEvent(crd: Option<GroupKind>)
      requires mapping.Valid()
      modifies mapping`resToStatus, channel
      ensures mapping.Valid()
      ensures old(channel.sent) <= channel.sent
      ensures crd.None? ==> mapping.View() == old(mapping.View()) && channel.sent == old(channel.sent)
      ensures crd.Some? ==>
                CrdOutcome(old(mapping.View()), crd.value, mapping.View(), channel.sent[|old(channel.sent)|..])
    {
      if crd.None? {
        return;
      }
      ghost var x := mapping.View();
      var resources := mapping.GetResources(crd.value);
      ghost var events := ResetAll(resources);
      assert ToSet(resources) == Bucket(x, crd.value);
      ClearAndFanOut(x, crd.value, events);
      assert channel.sent[|old(channel.sent)|..] == events;
    }
  }
}
