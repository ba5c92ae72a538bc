/** The watch manager as a state machine over numbered watchers: updates, watchers whose
    Run returns at any time, and the later removal of their map entry. */
module WatchProtocol {
  import opened ApiTypes

  /** `made[i]` is the kind watcher i was created for.  A watcher is running until its Run
      returns; after an error it is dying until its map entry has been removed.
      `requested` and `failed` remember the last update. */
  datatype Watchers = Watchers(
    watched: map<GroupVersionKind, nat>,
    needsUpdate: bool,
    made: seq<GroupVersionKind>,
    stopped: set<nat>,
    running: set<nat>,
    dying: set<nat>,
    requested: set<GroupVersionKind>,
    failed: set<GroupVersionKind>)

  const NO_WATCHERS := Watchers(map[], false, [], {}, {}, {}, {}, {})

  function Serials(s: Watchers, kinds: set<GroupVersionKind>): set<nat> {
    set k | k in kinds && k in s.watched :: s.watched[k]
  }

  function StopOne(s: Watchers, k: GroupVersionKind): Watchers
    requires k in s.watched
  {
    s.(watched := s.watched - {k}, stopped := s.stopped + {s.watched[k]})
  }

  function StopKinds(s: Watchers, kinds: set<GroupVersionKind>): Watchers {
    s.(watched := s.watched - kinds, stopped := s.stopped + Serials(s, kinds))
  }

  lemma StopNone(s: Watchers)
    ensures StopKinds(s, {}) == s
  {
  }

  lemma StopOneMore(s: Watchers, kinds: set<GroupVersionKind>, k: GroupVersionKind)
    requires k in s.watched && k !in kinds
    ensures k in StopKinds(s, kinds).watched
    ensures StopOne(StopKinds(s, kinds), k) == StopKinds(s, kinds + {k})
  {
    assert Serials(s, kinds + {k}) == Serials(s, kinds) + {s.watched[k]};
  }

  function StartOne(s: Watchers, k: GroupVersionKind): Watchers {
    s.(watched := s.watched[k := |s.made|], made := s.made + [k], running := s.running + {|s.made|})
  }

  predicate IsNew(s: Watchers, i: nat) {
    |s.made| <= i
  }

  function NewSerials(s: Watchers, t: Watchers): set<nat> {
    set i | 0 <= i < |t.made| && IsNew(s, i)
  }

  /** t is s after trying to start a watcher for each of `tried` that had none. */
  ghost predicate Started(s: Watchers, tried: set<GroupVersionKind>, canCreate: GroupVersionKind -> bool, t: Watchers) {
    && s.made <= t.made
    && (forall k :: k in t.watched <==> k in s.watched || (k in tried && canCreate(k)))
    && (forall k | k in s.watched :: t.watched[k] == s.watched[k])
    && (forall k | k in t.watched && k !in s.watched ::
          |s.made| <= t.watched[k] < |t.made| && t.made[t.watched[k]] == k)
    && (forall i | |s.made| <= i < |t.made| :: t.made[i] in t.watched && t.watched[t.made[i]] == i)
    && t == s.(watched := t.watched, made := t.made, running := s.running + NewSerials(s, t))
  }

  lemma StartedNone(s: Watchers, canCreate: GroupVersionKind -> bool)
    ensures Started(s, {}, canCreate, s)
  {
    assert NewSerials(s, s) == {};
  }

  lemma StartedOneMore(s: Watchers, tried: set<GroupVersionKind>, canCreate: GroupVersionKind -> bool, t: Watchers,
                       k: GroupVersionKind)
    requires Started(s, tried, canCreate, t)
    ensures k in t.watched || !canCreate(k) ==> Started(s, tried + {k}, canCreate, t)
    ensures k !in t.watched && canCreate(k) ==> Started(s, tried + {k}, canCreate, StartOne(t, k))
  {
    var u := StartOne(t, k);
    assert NewSerials(s, u) == NewSerials(s, t) + {|t.made|};
  }

  /** UpdateWatches: stop what is no longer wanted, try to start what is missing, and forget
      that an update was needed. */
  ghost predicate Updated(s: Watchers, wanted: set<GroupVersionKind>, canCreate: GroupVersionKind -> bool,
                          t: Watchers) {
    && t.requested == wanted
    && t.failed == wanted - t.watched.Keys
    && Started(StopKinds(s.(needsUpdate := false), s.watched.Keys - wanted), wanted, canCreate,
               t.(requested := s.requested, failed := s.failed))
  }

  lemma FinishUpdate(s: Watchers, wanted: set<GroupVersionKind>, canCreate: GroupVersionKind -> bool, t: Watchers)
    requires Started(StopKinds(s.(needsUpdate := false), s.watched.Keys - wanted), wanted, canCreate, t)
    ensures Updated(s, wanted, canCreate, t.(requested := wanted, failed := wanted - t.watched.Keys))
  {
  }

  datatype Step =
    | Update(wanted: set<GroupVersionKind>, canCreate: GroupVersionKind -> bool)
    | RunReturns(watcher: nat, failed: bool)
    | DropEntry(watcher: nat)

  /** Run returns nil only after Stop; an error leads, some time later, to the removal of
      whatever entry the map then holds for the kind. */
  ghost predicate Next(s: Watchers, step: Step, t: Watchers) {
    match step
    case Update(wanted, canCreate) => Updated(s, wanted, canCreate, t)
    case RunReturns(w, failed) =>
      && w in s.running
      && (failed || w in s.stopped)
      && t == s.(running := s.running - {w}, dying := if failed then s.dying + {w} else s.dying)
    case DropEntry(w) =>
      && w in s.dying && w < |s.made|
      && t == s.(dying := s.dying - {w}, watched := s.watched - {s.made[w]}, needsUpdate := true)
  }

  /** Only requested kinds are watched, and each missing one is accounted for; each entry
      is a watcher of that very kind that nobody has stopped. */
  ghost predicate Accounted(s: Watchers) {
    && s.watched.Keys <= s.requested
    && (forall k | k in s.requested && k !in s.watched :: k in s.failed || s.needsUpdate)
    && (forall k | k in s.watched ::
          var w := s.watched[k];
          w < |s.made| && s.made[w] == k && w !in s.stopped && (w in s.running || w in s.dying))
    && (forall w :: w in s.running || w in s.dying || w in s.stopped ==> w < |s.made|)
    && s.running !! s.dying
  }

  lemma UpdateKeeps(s: Watchers, wanted: set<GroupVersionKind>, canCreate: GroupVersionKind -> bool, t: Watchers)
    requires Accounted(s) && Updated(s, wanted, canCreate, t)
    ensures Accounted(t)
  {
    var dropped := s.watched.Keys - wanted;
    var u := StopKinds(s.(needsUpdate := false), dropped);
    forall w | w in Serials(s, dropped)
      ensures w < |s.made| && s.made[w] in dropped
    {
    }
    assert t.stopped == s.stopped + Serials(s, dropped);
    assert t.running == s.running + NewSerials(u, t);
    forall k | k in t.watched
      ensures var w := t.watched[k];
              w < |t.made| && t.made[w] == k && w !in t.stopped && (w in t.running || w in t.dying)
    {
      var w := t.watched[k];
      if k in u.watched {
        assert k in s.watched && w == s.watched[k] && s.made[w] == k && k !in dropped;
        assert w !in Serials(s, dropped);
      } else {
        assert IsNew(u, w) && w in NewSerials(u, t);
      }
    }
  }

  /** What one update achieves: it reports success exactly when everything requested is
      watched, keeps the watcher of every kept kind, has stopped every watcher it dropped,
      and misses only kinds whose watcher could not be created. */
  lemma UpdateOutcome(s: Watchers, wanted: set<GroupVersionKind>, canCreate: GroupVersionKind -> bool, t: Watchers)
    requires Accounted(s) && Updated(s, wanted, canCreate, t)
    ensures t.failed == {} <==> t.watched.Keys == wanted
    ensures !t.needsUpdate && t.requested == wanted
    ensures forall k | k in t.watched && k !in s.watched :: |s.made| <= t.watched[k] < |t.made|
    ensures forall k | k in s.watched && k in wanted :: k in t.watched && t.watched[k] == s.watched[k]
    ensures forall k | k in s.watched && k !in wanted :: k !in t.watched && s.watched[k] in t.stopped
    ensures forall k | k in wanted :: k !in t.watched <==> k !in s.watched && !canCreate(k)
  {
    var u := StopKinds(s.(needsUpdate := false), s.watched.Keys - wanted);
    forall k | k in s.watched && k !in wanted
      ensures k !in t.watched && s.watched[k] in t.stopped
    {
      assert k in s.watched.Keys - wanted;
      assert s.watched[k] in Serials(s, s.watched.Keys - wanted);
    }
    UpdateKeeps(s, wanted, canCreate, t);
    if t.failed == {} {
      assert wanted <= t.watched.Keys;
    }
  }

  lemma StepKeeps(s: Watchers, step: Step, t: Watchers)
    requires Accounted(s) && Next(s, step, t)
    ensures Accounted(t)
  {
    match step
    case Update(wanted, canCreate) => UpdateKeeps(s, wanted, canCreate, t);
    case RunReturns(w, failed) =>
    case DropEntry(w) =>
  }

  ghost predicate IsRun(states: seq<Watchers>, steps: seq<Step>) {
    && |states| == |steps| + 1
    && states[0] == NO_WATCHERS
    && forall i | 0 <= i < |steps| :: Next(states[i], steps[i], states[i + 1])
  }

  /** In every reachable state every requested kind that is not watched either failed in the
      last update or the manager knows that it needs one, and nothing unrequested is watched. */
  lemma {:induction false} EveryRunIsAccounted(states: seq<Watchers>, steps: seq<Step>)
    requires IsRun(states, steps)
    ensures Accounted(states[|states| - 1])
    decreases |steps|
  {
    if steps != [] {
      var n := |steps| - 1;
      EveryRunIsAccounted(states[..n + 1], steps[..n]);
      StepKeeps(states[n], steps[n], states[n + 1]);
    }
  }

  // ---- orphans ----

  /** Watchers still running that nobody can stop any more, because no entry names them. */
  ghost function Orphans(s: Watchers): set<nat> {
    set w | w in s.running && w !in s.stopped && !(w < |s.made| && s.made[w] in s.watched && s.watched[s.made[w]] == w)
  }

  /** Entries are removed by kind, so a removal is stale when the entry by then belongs to a later watcher. */
  ghost predicate Stale(s: Watchers, step: Step) {
    && step.DropEntry? && step.watcher < |s.made|
    && var k := s.made[step.watcher];
       k in s.watched && s.watched[k] != step.watcher && s.watched[k] in s.running
  }

  lemma UpdateMakesNoOrphan(s: Watchers, wanted: set<GroupVersionKind>, canCreate: GroupVersionKind -> bool,
                            t: Watchers)
    requires Accounted(s) && Updated(s, wanted, canCreate, t)
    ensures Orphans(t) <= Orphans(s)
  {
    forall w | w in Orphans(t)
      ensures w in Orphans(s)
    {
      assert w !in NewSerials(s, t);
      if w < |s.made| && s.made[w] in s.watched && s.watched[s.made[w]] == w {
        assert t.made[w] == s.made[w];
        UpdateOutcome(s, wanted, canCreate, t);
      }
    }
  }

  /** A step makes a new orphan if and only if it is a stale removal. */
  lemma OrphanIffStale(s: Watchers, step: Step, t: Watchers)
    requires Accounted(s) && Next(s, step, t)
    ensures Orphans(t) <= Orphans(s) <==> !Stale(s, step)
  {
    match step
    case Update(wanted, canCreate) => UpdateMakesNoOrphan(s, wanted, canCreate, t);
    case RunReturns(w, failed) =>
    case DropEntry(w) =>
      var k := s.made[w];
      if Stale(s, step) {
        var v := s.watched[k];
        assert s.made[v] == k;
        assert v in Orphans(t) && v !in Orphans(s);
      } else {
        forall v | v in Orphans(t)
          ensures v in Orphans(s)
        {
        }
      }
  }

  /** So as long as no removal is stale, every live watcher is in the map. */
  lemma {:induction false} NoStaleNoOrphans(states: seq<Watchers>, steps: seq<Step>)
    requires IsRun(states, steps)
    requires forall i | 0 <= i < |steps| :: !Stale(states[i], steps[i])
    ensures Orphans(states[|states| - 1]) == {}
    decreases |steps|
  {
    if steps != [] {
      var n := |steps| - 1;
      NoStaleNoOrphans(states[..n + 1], steps[..n]);
      EveryRunIsAccounted(states[..n + 1], steps[..n]);
      OrphanIffStale(states[n], steps[n], states[n + 1]);
    }
  }

  lemma ExtendRun(states: seq<Watchers>, steps: seq<Step>, step: Step, t: Watchers)
    requires IsRun(states, steps) && Next(states[|states| - 1], step, t)
    ensures IsRun(states + [t], steps + [step])
  {
  }

  lemma StartJust(s: Watchers, k: GroupVersionKind) returns (t: Watchers)
    requires s.watched == map[]
    ensures Updated(s, {k}, _ => true, t)
    ensures t == StartOne(s, k).(needsUpdate := false, requested := {k}, failed := {})
  {
    var all := (_: GroupVersionKind) => true;
    t := StartOne(s, k).(needsUpdate := false, requested := {k}, failed := {});
    var u := StopKinds(s.(needsUpdate := false), s.watched.Keys - {k});
    assert u == s.(needsUpdate := false);
    StartedNone(u, all);
    StartedOneMore(u, {}, all, u, k);
    assert {} + {k} == {k};
    assert t.failed == {k} - t.watched.Keys;
  }

  lemma StopTheOnly(s: Watchers, k: GroupVersionKind) returns (t: Watchers)
    requires s.watched.Keys == {k}
    ensures Updated(s, {}, _ => true, t)
    ensures t == StopOne(s, k).(needsUpdate := false, requested := {}, failed := {})
  {
    t := StopOne(s, k).(needsUpdate := false, requested := {}, failed := {});
    var u := StopKinds(s.(needsUpdate := false), s.watched.Keys - {});
    assert s.watched.Keys - {} == {k};
    assert Serials(s, {k}) == {s.watched[k]};
    StartedNone(u, (_: GroupVersionKind) => true);
    assert t.watched == u.watched;
  }

  /** The fault is real: a watcher dies, its kind is dropped and requested again before the
      death is recorded, and the late removal then loses the new, running watcher. */
  lemma LateRemovalLosesLiveWatcher(k: GroupVersionKind) returns (states: seq<Watchers>, steps: seq<Step>)
    ensures IsRun(states, steps)
    ensures var s := states[|states| - 1];
            Orphans(s) == {1} && s.watched == map[] && s.requested == {k} && s.needsUpdate
  {
    var all := (_: GroupVersionKind) => true;
    var s0 := NO_WATCHERS;
    var s1 := StartJust(s0, k);
    var s2 := s1.(running := s1.running - {0}, dying := s1.dying + {0});
    var s3 := StopTheOnly(s2, k);
    assert s3.watched == map[];
    var s4 := StartJust(s3, k);
    var s5 := s4.(dying := s4.dying - {0}, watched := s4.watched - {s4.made[0]}, needsUpdate := true);
    assert s5.watched == map[];
    var run1, run2 := [s0] + [s1], [s0] + [s1] + [s2];
    var steps1 := [] + [Update({k}, all)];
    ExtendRun([s0], [], Update({k}, all), s1);
    ExtendRun(run1, steps1, RunReturns(0, true), s2);
    var steps2 := steps1 + [RunReturns(0, true)];
    ExtendRun(run2, steps2, Update({}, all), s3);
    var run3, steps3 := run2 + [s3], steps2 + [Update({}, all)];
    ExtendRun(run3, steps3, Update({k}, all), s4);
    var run4, steps4 := run3 + [s4], steps3 + [Update({k}, all)];
    ExtendRun(run4, steps4, DropEntry(0), s5);
    states, steps := run4 + [s5], steps4 + [DropEntry(0)];
  }
}
