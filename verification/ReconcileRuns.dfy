/** Whole histories of the resource map: what a run of calls leaves behind, and why
    reading the old set before taking the lock is harmless exactly when nobody else
    reconciles the same group in between. */
module ReconcileRuns {
  import opened ApiTypes
  import opened ResourceIndex

  datatype Op =
    | DoReconcile(call: Call)
    | DoSetStatus(res: ObjMetadata, status: Option<CachedStatus>)

  ghost function Apply(x: Index, op: Op): Index {
    match op
    case DoReconcile(call) => Reconciled(x, call)
    case DoSetStatus(res, status) => x.(statuses := x.statuses[res := status])
  }

  ghost function RunOps(x: Index, ops: seq<Op>): Index {
    if ops == [] then x else Apply(RunOps(x, ops[..|ops| - 1]), ops[|ops| - 1])
  }

  lemma ApplyExact(x: Index, op: Op)
    requires Exact(x)
    ensures Exact(Apply(x, op))
  {
    match op
    case DoReconcile(call) => DeterminedIsExact(Reconciled(x, call));
    case DoSetStatus(res, status) =>
      StatusesIrrelevant(x, x.statuses[res := status]);
  }

  lemma {:induction false} RunExact(x: Index, ops: seq<Op>)
    requires Exact(x)
    ensures Exact(RunOps(x, ops))
  {
    if ops != [] {
      RunExact(x, ops[..|ops| - 1]);
      ApplyExact(RunOps(x, ops[..|ops| - 1]), ops[|ops| - 1]);
    }
  }

  // ---- history independence ----

  /** What the last call for a group asked for; None when there was none or it deleted the group. */
  function LastWish(ops: seq<Op>, g: NamespacedName): Option<set<ObjMetadata>> {
    if ops == [] then None else
    match ops[|ops| - 1]
    case DoReconcile(call) =>
      if call.group != g then LastWish(ops[..|ops| - 1], g)
      else if call.deleteRG then None
      else Some(ToSet(call.resources))
    case DoSetStatus(_, _) => LastWish(ops[..|ops| - 1], g)
  }

  lemma {:induction false} GroupHoldsLastWish(ops: seq<Op>, g: NamespacedName)
    ensures var x := RunOps(EMPTY_INDEX, ops);
            (if g in x.groups then Some(x.groups[g]) else None) == LastWish(ops, g)
  {
    if ops != [] {
      GroupHoldsLastWish(ops[..|ops| - 1], g);
    }
  }

  lemma SameGroupsSameMaps(x: Index, y: Index)
    requires Exact(x) && Exact(y) && x.groups == y.groups
    ensures x.owners == y.owners && x.kinds == y.kinds
  {
    ExactDetermines(x);
    ExactDetermines(y);
  }

  /** Two histories whose last calls agree group by group leave the same three maps. */
  lemma HistoryIndependence(ops: seq<Op>, ops': seq<Op>)
    requires forall g :: LastWish(ops, g) == LastWish(ops', g)
    ensures var x, y := RunOps(EMPTY_INDEX, ops), RunOps(EMPTY_INDEX, ops');
            x.groups == y.groups && x.owners == y.owners && x.kinds == y.kinds
  {
    var x, y := RunOps(EMPTY_INDEX, ops), RunOps(EMPTY_INDEX, ops');
    forall g
      ensures g in x.groups <==> g in y.groups
      ensures g in x.groups ==> x.groups[g] == y.groups[g]
    {
      GroupHoldsLastWish(ops, g);
      GroupHoldsLastWish(ops', g);
    }
    assert x.groups == y.groups;
    RunExact(EMPTY_INDEX, ops);
    RunExact(EMPTY_INDEX, ops');
    SameGroupsSameMaps(x, y);
  }

  /** Once every group's last call was a deletion nothing is left to watch. */
  lemma DeletingAllEmpties(ops: seq<Op>)
    requires forall g :: LastWish(ops, g) == None
    ensures var x := RunOps(EMPTY_INDEX, ops);
            x.groups == map[] && x.owners == map[] && x.kinds == map[]
  {
    HistoryIndependence(ops, []);
  }

  lemma DifferentGroupsCommute(x: Index, c: Call, d: Call)
    requires Exact(x) && c.group != d.group
    ensures var a, b := Reconciled(Reconciled(x, c), d), Reconciled(Reconciled(x, d), c);
            a.groups == b.groups && a.owners == b.owners && a.kinds == b.kinds
  {
    var a, b := Reconciled(Reconciled(x, c), d), Reconciled(Reconciled(x, d), c);
    assert a.groups == b.groups;
  }

  /** Repeating a call changes nothing at all, cached statuses included. */
  lemma RepeatChangesNothing(x: Index, c: Call)
    requires Exact(x)
    ensures Reconciled(Reconciled(x, c), c) == Reconciled(x, c)
  {
    var y := Reconciled(x, c);
    DeterminedIsExact(y);
    ExactDetermines(y);
    assert SetGroup(y, c).groups == y.groups;
    assert y.owners.Keys - Tracked(y.groups) == {};
  }

  /** Cached statuses do depend on the order: moving a resource from one group to
      another keeps its status only when the new group claims it first. */
  lemma StatusesDoNotCommute(g: NamespacedName, h: NamespacedName, r: ObjMetadata, s: CachedStatus)
    requires g != h
    ensures var x := RunOps(EMPTY_INDEX, [DoReconcile(Call(g, [r], false)), DoSetStatus(r, Some(s))]);
            var drop, claim := Call(g, [], false), Call(h, [r], false);
            && r in Reconciled(Reconciled(x, claim), drop).statuses
            && r !in Reconciled(Reconciled(x, drop), claim).statuses
  {
    var first, second := DoReconcile(Call(g, [r], false)), DoSetStatus(r, Some(s));
    assert [first, second][..1] == [first];
    assert [first][..0] == [];
    var w := Reconciled(EMPTY_INDEX, first.call);
    var x := RunOps(EMPTY_INDEX, [first, second]);
    assert RunOps(EMPTY_INDEX, [first]) == w;
    assert x == Apply(w, second);
    assert g in w.groups && r in w.groups[g];
    assert r in Tracked(w.groups);
    var drop, claim := Call(g, [], false), Call(h, [r], false);
    var claimed := Reconciled(x, claim);
    assert h in claimed.groups && r in claimed.groups[h];
    assert r in Tracked(claimed.groups);
    var both := SetGroup(claimed, drop).groups;
    assert h in both && r in both[h];
    assert r in Tracked(both);
    var dropped := SetGroup(x, drop).groups;
    assert r !in Tracked(dropped);
    assert r !in Reconciled(x, drop).statuses;
  }

  /** What two calls in a row leave of one resource's cached status. */
  lemma StatusAfterTwo(x: Index, c: Call, d: Call, r: ObjMetadata)
    requires Exact(x)
    ensures var y, z := SetGroup(x, c).groups, SetGroup(SetGroup(x, c), d).groups;
            var statuses := Reconciled(Reconciled(x, c), d).statuses;
            && (r in statuses <==>
                  r in x.statuses && !(r in x.owners && r !in Tracked(y)) && !(r in Tracked(y) && r !in Tracked(z)))
            && (r in statuses ==> statuses[r] == x.statuses[r])
  {
    assert Reconciled(x, c).owners.Keys == Tracked(SetGroup(x, c).groups);
  }

  lemma TrackedAfterTwo(x: Index, c: Call, d: Call, r: ObjMetadata)
    requires c.group != d.group
    ensures r in Tracked(SetGroup(x, c).groups) ==>
              r in Tracked(SetGroup(SetGroup(x, c), d).groups) || r in Tracked(x.groups)
  {
    var y, z := SetGroup(x, c).groups, SetGroup(SetGroup(x, c), d).groups;
    if r in Tracked(y) {
      var g :| g in y && r in y[g];
      if g != d.group {
        assert g in z && r in z[g];
      } else {
        assert g in x.groups && r in x.groups[g];
      }
    }
  }

  /** The resource has a status, stays tracked, and yet one of the calls alone would drop it
      and the other would not. */
  ghost predicate OrderMatters(x: Index, c: Call, d: Call, r: ObjMetadata) {
    && r in x.statuses && r in x.owners && r in Tracked(SetGroup(SetGroup(x, c), d).groups)
    && (r in Tracked(SetGroup(x, c).groups) <==> r !in Tracked(SetGroup(x, d).groups))
  }

  lemma StatusCommutesIff(x: Index, c: Call, d: Call, r: ObjMetadata)
    requires Exact(x) && c.group != d.group
    ensures var a, b := Reconciled(Reconciled(x, c), d).statuses, Reconciled(Reconciled(x, d), c).statuses;
            && ((r in a <==> r in b) <==> !OrderMatters(x, c, d, r))
            && (r in a ==> a[r] == x.statuses[r]) && (r in b ==> b[r] == x.statuses[r])
  {
    StatusAfterTwo(x, c, d, r);
    StatusAfterTwo(x, d, c, r);
    TrackedAfterTwo(x, c, d, r);
    TrackedAfterTwo(x, d, c, r);
    TrackedIffOwned(x, r);
    hide Reconciled, Tracked, Exact;
    assert SetGroup(SetGroup(x, d), c).groups == SetGroup(SetGroup(x, c), d).groups;
  }

  /** Two calls for different groups leave the same cached statuses in either order if and
      only if there is no resource whose status depends on it. */
  lemma StatusesCommuteIff(x: Index, c: Call, d: Call)
    requires Exact(x) && c.group != d.group
    ensures Reconciled(Reconciled(x, c), d).statuses == Reconciled(Reconciled(x, d), c).statuses <==>
            forall r :: !OrderMatters(x, c, d, r)
  {
    hide Reconciled, OrderMatters, Exact;
    var a, b := Reconciled(Reconciled(x, c), d).statuses, Reconciled(Reconciled(x, d), c).statuses;
    forall r
      ensures (r in a <==> r in b) <==> !OrderMatters(x, c, d, r)
      ensures r in a && r in b ==> a[r] == b[r]
    {
      StatusCommutesIff(x, c, d, r);
    }
  }

  // ---- the unlocked read ----

  /** A diff read when the group held `before` is harmless now exactly when what the
      group gained since is wanted and what was kept has not been lost since. */
  lemma StaleDiffHarmlessIff(x: Index, call: Call, before: set<ObjMetadata>,
                             toAdd: seq<ObjMetadata>, toDelete: seq<ObjMetadata>)
    requires Exact(x) && IsDiff(before, call.Wanted(), toAdd, toDelete)
    ensures var now, wanted := Held(x, call.group), ToSet(call.Wanted());
            Exact(Commit(x, call, toAdd, toDelete)) <==> now - before <= wanted && before * wanted <= now
  {
    CommitExactIff(x, call, toAdd, toDelete);
    var now, wanted := Held(x, call.group), ToSet(call.Wanted());
    assert ToSet(toDelete) == before - wanted;
    assert ToSet(toAdd) == wanted - before;
    if now - (before - wanted) + (wanted - before) == wanted {
      forall r | r in now - before
        ensures r in wanted
      {
        assert r in now - (before - wanted) + (wanted - before);
      }
      forall r | r in before * wanted
        ensures r in now
      {
        assert r in now - (before - wanted) + (wanted - before);
      }
    }
  }

  datatype Pending = Pending(call: Call, toAdd: seq<ObjMetadata>, toDelete: seq<ObjMetadata>)

  /** The index, the calls that have read but not yet committed, and the operations in the order they took effect. */
  datatype Machine = Machine(index: Index, inflight: map<nat, Pending>, log: seq<Op>)

  datatype Step =
    | Begin(id: nat, pending: Pending)
    | Finish(id: nat)
    | Cache(res: ObjMetadata, status: Option<CachedStatus>)

  ghost predicate Next(m: Machine, step: Step, m': Machine) {
    match step
    case Begin(id, p) =>
      && id !in m.inflight
      && IsDiff(Held(m.index, p.call.group), p.call.Wanted(), p.toAdd, p.toDelete)
      && m' == m.(inflight := m.inflight[id := p])
    case Finish(id) =>
      && id in m.inflight
      && Sound(m.index)
      && var p := m.inflight[id];
         m' == Machine(Commit(m.index, p.call, p.toAdd, p.toDelete), m.inflight - {id}, m.log + [DoReconcile(p.call)])
    case Cache(res, status) =>
      m' == m.(index := Apply(m.index, DoSetStatus(res, status)), log := m.log + [DoSetStatus(res, status)])
  }

  ghost predicate IsRun(x: Index, states: seq<Machine>, steps: seq<Step>) {
    && |states| == |steps| + 1
    && states[0] == Machine(x, map[], [])
    && forall i | 0 <= i < |steps| :: Next(states[i], steps[i], states[i + 1])
  }

  ghost predicate Exclusive(m: Machine) {
    forall i, j | i in m.inflight && j in m.inflight && i != j :: m.inflight[i].call.group != m.inflight[j].call.group
  }

  /** The index is the sequential outcome, and every diff in flight is still right. */
  ghost predicate Serial(x: Index, m: Machine) {
    && Exact(m.index)
    && m.index == RunOps(x, m.log)
    && forall i | i in m.inflight ::
         var p := m.inflight[i];
         IsDiff(Held(m.index, p.call.group), p.call.Wanted(), p.toAdd, p.toDelete)
  }

  lemma RunOpsAppend(x: Index, ops: seq<Op>, op: Op)
    ensures RunOps(x, ops + [op]) == Apply(RunOps(x, ops), op)
  {
    assert (ops + [op])[..|ops|] == ops;
  }

  lemma OthersKeepWhatTheyHold(x: Index, call: Call, g: NamespacedName)
    requires g != call.group
    ensures Held(Reconciled(x, call), g) == Held(x, g)
  {
  }

  lemma SerialKept(x: Index, m: Machine, step: Step, m': Machine)
    requires Serial(x, m) && Exclusive(m) && Next(m, step, m')
    ensures Serial(x, m')
  {
    match step
    case Begin(id, p) =>
    case Finish(id) =>
      var p := m.inflight[id];
      CommitIsRebuild(m.index, p.call, p.toAdd, p.toDelete);
      RunOpsAppend(x, m.log, DoReconcile(p.call));
      assert m'.index == Reconciled(m.index, p.call);
      forall i | i in m'.inflight
        ensures var q := m'.inflight[i];
                IsDiff(Held(m'.index, q.call.group), q.call.Wanted(), q.toAdd, q.toDelete)
      {
        assert m'.inflight[i] == m.inflight[i];
        OthersKeepWhatTheyHold(m.index, p.call, m.inflight[i].call.group);
      }
    case Cache(res, status) =>
      ApplyExact(m.index, DoSetStatus(res, status));
      RunOpsAppend(x, m.log, DoSetStatus(res, status));
  }

  /** If no two calls in flight share a group, every interleaving of unlocked reads, locked
      commits and status writes ends in the very index that running the operations one at a
      time, in commit order, would give, cached statuses included. */
  lemma {:induction false} EveryInterleavingIsSerial(x: Index, states: seq<Machine>, steps: seq<Step>)
    requires Exact(x) && IsRun(x, states, steps)
    requires forall m | m in states :: Exclusive(m)
    ensures Serial(x, states[|states| - 1])
    decreases |steps|
  {
    if steps != [] {
      var n := |steps| - 1;
      var states', steps' := states[..n + 1], steps[..n];
      assert forall m | m in states' :: m in states;
      EveryInterleavingIsSerial(x, states', steps');
      assert states[n] in states;
      SerialKept(x, states[n], steps[n], states[n + 1]);
    }
  }

  /** Even calls racing on one group never leave a resource without its kind bucket, so the
      two bucket lookups in the delete loop never miss, and no bucket is ever empty. */
  lemma {:induction false} EveryRunIsSound(x: Index, states: seq<Machine>, steps: seq<Step>)
    requires Sound(x) && IsRun(x, states, steps)
    ensures Sound(states[|states| - 1].index)
    decreases |steps|
  {
    if steps != [] {
      var n := |steps| - 1;
      EveryRunIsSound(x, states[..n + 1], steps[..n]);
      assert Next(states[n], steps[n], states[n + 1]);
      if steps[n].Cache? {
        var x := states[n].index;
        StatusesIrrelevant(x, x.statuses[steps[n].res := steps[n].status]);
      }
    }
  }

  lemma ExtendRun(x: Index, states: seq<Machine>, steps: seq<Step>, step: Step, m: Machine)
    requires IsRun(x, states, steps) && Next(states[|states| - 1], step, m)
    ensures IsRun(x, states + [m], steps + [step])
  {
  }

  lemma FinishNext(m: Machine, id: nat) returns (m': Machine)
    requires id in m.inflight && Sound(m.index)
    ensures Next(m, Finish(id), m')
    ensures var p := m.inflight[id];
            m'.index == Commit(m.index, p.call, p.toAdd, p.toDelete) && m'.inflight == m.inflight - {id}
  {
    var p := m.inflight[id];
    m' := Machine(Commit(m.index, p.call, p.toAdd, p.toDelete), m.inflight - {id}, m.log + [DoReconcile(p.call)]);
  }

  /** Two overlapping calls for one group can leave an owner the group does not list. */
  lemma RacingCallsBreakTheInverse(g: NamespacedName, r: ObjMetadata)
    returns (states: seq<Machine>, steps: seq<Step>)
    ensures IsRun(EMPTY_INDEX, states, steps)
    ensures var x := states[|states| - 1].index;
            OwnedBy(x, r, g) && !Owns(x, g, r)
  {
    var p, q := Pending(Call(g, [r], false), [r], []), Pending(Call(g, [], false), [], []);
    var m0 := Machine(EMPTY_INDEX, map[], []);
    var m1 := m0.(inflight := m0.inflight[0 := p]);
    var m2 := m1.(inflight := m1.inflight[1 := q]);
    var m3 := FinishNext(m2, 0);
    var m4 := FinishNext(m3, 1);
    states, steps := [m0], [];
    ExtendRun(EMPTY_INDEX, [m0], [], Begin(0, p), m1);
    ExtendRun(EMPTY_INDEX, [m0] + [m1], [] + [Begin(0, p)], Begin(1, q), m2);
    ExtendRun(EMPTY_INDEX, [m0] + [m1] + [m2], [] + [Begin(0, p)] + [Begin(1, q)], Finish(0), m3);
    states := [m0] + [m1] + [m2] + [m3] + [m4];
    steps := [] + [Begin(0, p)] + [Begin(1, q)] + [Finish(0)] + [Finish(1)];
    ExtendRun(EMPTY_INDEX, states[..4], steps[..3], Finish(1), m4);
    assert states == states[..4] + [m4] && steps == steps[..3] + [Finish(1)];
    RaceOutcome(g, r);
  }

  lemma RaceOutcome(g: NamespacedName, r: ObjMetadata)
    ensures var x := Commit(EMPTY_INDEX, Call(g, [r], false), [r], []);
            var y := Commit(x, Call(g, [], false), [], []);
            OwnedBy(y, r, g) && !Owns(y, g, r)
  {
    var x := Commit(EMPTY_INDEX, Call(g, [r], false), [r], []);
    CommitEffect(EMPTY_INDEX, Call(g, [r], false), [r], [], r);
    assert r in ToSet([r]);
    CommitEffect(x, Call(g, [], false), [], [], r);
  }
}
