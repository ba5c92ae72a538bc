/** The watch manager: one filtered watcher for each watched kind. */
module WatchManagers {
  import opened ApiTypes
  import opened ResourceMaps
  import opened CrdHandler
  import opened FilteredWatchers
  import opened WatchProtocol

  class Manager {
    const resources: ResourceMap
    const channel: EventChannel
    var watcherMap: map<GroupVersionKind, FilteredWatcher>
    var needsUpdate: bool

    // Every watcher made so far, and the protocol state the fields stand for.
    ghost var spawned: seq<FilteredWatcher>
    ghost var state: Watchers

    ghost predicate Linked()
      reads this, spawned
    {
      && needsUpdate == state.needsUpdate
      && |spawned| == |state.made|
      && (forall i, j | 0 <= i < j < |spawned| :: spawned[i] != spawned[j])
      && (forall i | 0 <= i < |spawned| :: spawned[i].stopped <==> i in state.stopped)
      && (forall i | i in state.stopped :: i < |spawned|)
      && watcherMap.Keys == state.watched.Keys
      && (forall k | k in watcherMap ::
            state.watched[k] < |spawned| && watcherMap[k] == spawned[state.watched[k]])
    }

    ghost predicate Valid()
      reads this, spawned
    {
      Linked() && Accounted(state)
    }

    constructor (resources: ResourceMap, channel: EventChannel)
      ensures Valid() && state == NO_WATCHERS
      ensures this.resources == resources && this.channel == channel && spawned == []
    {
      this.resources, this.channel := resources, channel;
      watcherMap, needsUpdate := map[], false;
      spawned, state := [], NO_WATCHERS;
    }

    ghost function Bases(): set<BaseWatch>
      reads this, spawned
    {
      set w | w in spawned :: w.base
    }

    method StopWatcher(gvk: GroupVersionKind)
      requires Linked()
      modifies this`watcherMap, this`state, spawned, Bases()
      ensures Linked() && spawned == old(spawned) && Bases() == old(Bases())
      ensures state == if gvk in old(state).watched then StopOne(old(state), gvk) else old(state)
      ensures gvk in old(watcherMap) ==> old(watcherMap)[gvk].stopped && !old(watcherMap)[gvk].base.live
    {
      hide FilteredWatcher.Valid;
      if gvk !in watcherMap {
        return;
      }
      var w := watcherMap[gvk];
      w.Stop();
      assert Bases() == old(Bases());
      hide Bases;
      watcherMap := watcherMap - {gvk};
      state := StopOne(state, gvk);
    }

    /** `creates` says whether createWatcherFunc succeeds. */
    method StartWatcher(gvk: GroupVersionKind, creates: bool) returns (failed: bool)
      requires Linked()
      modifies this`watcherMap, this`state, this`spawned
      ensures Linked() && old(spawned) <= spawned && (forall i | |old(spawned)| <= i < |spawned| :: fresh(spawned[i]))
      ensures failed == (gvk !in old(state).watched && !creates)
      ensures state == if gvk in old(state).watched || failed then old(state) else StartOne(old(state), gvk)
    {
      if gvk in watcherMap {
        return false;
      }
      if !creates {
        return true;
      }
      var w := new FilteredWatcher(resources, channel);
      watcherMap := watcherMap[gvk := w];
      spawned, state := spawned + [w], StartOne(state, gvk);
      return false;
    }

    method StopObsolete(wanted: set<GroupVersionKind>)
      requires Linked()
      modifies this`watcherMap, this`state, spawned, Bases()
      ensures Linked() && spawned == old(spawned)
      ensures state == StopKinds(old(state), old(state).watched.Keys - wanted)
    {
      assert watcherMap.Keys == state.watched.Keys;
      hide StopKinds, StopOne, Serials, Linked, Bases;
      ghost var s := state;
      var rest := watcherMap.Keys;
      ghost var dropped := {};
      StopNone(s);
      while rest != {}
        invariant Linked() && spawned == old(spawned) && Bases() == old(Bases())
        invariant forall k :: k in dropped <==> k in s.watched && k !in rest && k !in wanted
        invariant forall k | k in rest :: k in s.watched
        invariant state == StopKinds(s, dropped)
        decreases rest
      {
        var gvk :| gvk in rest;
        if gvk !in wanted {
          StopOneMore(s, dropped, gvk);
          StopWatcher(gvk);
          dropped := dropped + {gvk};
        }
        rest := rest - {gvk};
      }
      assert dropped == s.watched.Keys - wanted;
    }

    method StartMissing(wanted: set<GroupVersionKind>, canCreate: GroupVersionKind -> bool)
      returns (err: Option<GroupVersionKind>)
      requires Linked()
      modifies this`watcherMap, this`state, this`spawned
      ensures Linked() && old(spawned) <= spawned && (forall i | |old(spawned)| <= i < |spawned| :: fresh(spawned[i]))
      ensures Started(old(state), wanted, canCreate, state)
      ensures err.None? <==> wanted <= state.watched.Keys
      ensures err.Some? ==> err.value in wanted && err.value !in state.watched && !canCreate(err.value)
    {
      hide Started, NewSerials, Linked;
      ghost var s := state;
      var rest, tried := wanted, {};
      var errs: seq<GroupVersionKind> := [];
      StartedNone(s, canCreate);
      while rest != {}
        invariant Linked() && old(spawned) <= spawned
        invariant forall i | |old(spawned)| <= i < |spawned| :: fresh(spawned[i])
        invariant forall k :: k in tried <==> k in wanted && k !in rest
        invariant forall k | k in rest :: k in wanted
        invariant Started(s, tried, canCreate, state)
        invariant forall k :: k in errs <==> k in tried && k !in state.watched
        invariant forall k | k in errs :: !canCreate(k)
        decreases rest
      {
        var gvk :| gvk in rest;
        StartedOneMore(s, tried, canCreate, state, gvk);
        var failed := StartWatcher(gvk, canCreate(gvk));
        if failed {
          errs := errs + [gvk];
        }
        rest, tried := rest - {gvk}, tried + {gvk};
      }
      assert tried == wanted;
      if errs == [] {
        return None;
      }
      assert errs[0] in errs;
      return Some(errs[0]);
    }

    /** Stop, then start; the locked body of UpdateWatches. */
    method StopAndStart(wanted: set<GroupVersionKind>, canCreate: GroupVersionKind -> bool)
      returns (err: Option<GroupVersionKind>)
      requires Linked()
      modifies this, spawned, Bases()
      ensures Linked() && old(spawned) <= spawned && (forall i | |old(spawned)| <= i < |spawned| :: fresh(spawned[i]))
      ensures Updated(old(state), wanted, canCreate, state)
      ensures err.None? <==> state.failed == {}
      ensures err.Some? ==> err.value in wanted && err.value !in state.watched && !canCreate(err.value)
    {
      hide Started, StopKinds, Serials, Updated;
      ghost var s := state;
      needsUpdate, state := false, state.(needsUpdate := false);
      StopObsolete(wanted);
      err := StartMissing(wanted, canCreate);
      FinishUpdate(s, wanted, canCreate, state);
      state := state.(requested := wanted, failed := wanted - state.watched.Keys);
      forall k | state.failed == {} && k in wanted
        ensures k in state.watched
      {
        assert k !in state.failed;
      }
    }

    /** `wanted` is the key set of the Go map; the error is that of the first failed creation. */
    method UpdateWatches(wanted: set<GroupVersionKind>, canCreate: GroupVersionKind -> bool)
      returns (err: Option<GroupVersionKind>)
      requires Valid()
      modifies this, spawned, Bases()
      ensures Valid() && old(spawned) <= spawned && (forall i | |old(spawned)| <= i < |spawned| :: fresh(spawned[i]))
      ensures Updated(old(state), wanted, canCreate, state)
      ensures err.None? <==> watcherMap.Keys == wanted
      ensures err.Some? ==> err.value in wanted && err.value !in watcherMap && !canCreate(err.value)
      ensures forall k | k in old(watcherMap) && k in wanted :: k in watcherMap && watcherMap[k] == old(watcherMap)[k]
      ensures forall k | k in old(watcherMap) && k !in wanted :: k !in watcherMap && old(watcherMap)[k].stopped
      ensures forall k | k in wanted && k !in old(watcherMap) :: k in watcherMap <==> canCreate(k)
      ensures forall k | k in watcherMap && k !in old(watcherMap) :: fresh(watcherMap[k])
      ensures !needsUpdate
    {
      hide Updated, Accounted;
      ghost var s := state;
      err := StopAndStart(wanted, canCreate);
      UpdateKeeps(s, wanted, canCreate, state);
      UpdateOutcome(s, wanted, canCreate, state);
    }

    /** Run of the given watcher returns. */
    ghost method NoteRunReturned(watcher: nat, failed: bool)
      requires Valid() && watcher in state.running && (failed || watcher in state.stopped)
      modifies this`state
      ensures Valid()
      ensures Next(old(state), RunReturns(watcher, failed), state)
    {
      var s := state;
      state := state.(running := state.running - {watcher},
                      dying := if failed then state.dying + {watcher} else state.dying);
      StepKeeps(s, RunReturns(watcher, failed), state);
    }

    /** The locked part of runWatcher, for a watcher of kind `gvk` whose Run returned an error. */
    method DropAfterError(gvk: GroupVersionKind, ghost watcher: nat)
      requires Valid() && watcher in state.dying && state.made[watcher] == gvk
      modifies this`watcherMap, this`needsUpdate, this`state
      ensures Valid() && needsUpdate
      ensures Next(old(state), DropEntry(watcher), state)
      ensures watcherMap == old(watcherMap) - {gvk}
    {
      assert watcher < |state.made|;
      hide Accounted;
      ghost var s := state;
      watcherMap, needsUpdate := watcherMap - {gvk}, true;
      state := state.(dying := state.dying - {watcher}, watched := state.watched - {gvk}, needsUpdate := true);
      StepKeeps(s, DropEntry(watcher), state);
    }
  }
}
