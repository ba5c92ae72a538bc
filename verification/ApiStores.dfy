/** The API server's side of a status update: a version-checked store, which keeps every
    version of one ResourceGroup ever stored; a resource version is an index into it. */
module ApiStores {
  import opened ApiTypes

  const BLANK := ResourceGroup(NamespacedName("", ""), 0, false, map[], map[], ResourceGroupSpec([], []), EMPTY_STATUS)

  type Versions = history: seq<ResourceGroup> | |history| > 0 witness [BLANK]

  function Latest(history: Versions): ResourceGroup {
    history[|history| - 1]
  }

  /** A copy some reconcile works on, and whether its start write is behind it. */
  datatype Local = Local(version: nat, rg: ResourceGroup, started: bool)

  /** One status update with its retry: skipped when the copy already has the status,
      stored when the copy is of the latest version, and otherwise refused; the copy keeps
      the new status either way, so the retry after a refusal finds nothing left to do. */
  function Attempt(history: Versions, local: Local, s: ResourceGroupStatus): (Versions, Local) {
    if local.rg.status == s then (history, local)
    else if local.version == |history| - 1 then
      var stored := Latest(history).(status := s);
      (history + [stored], local.(version := |history|, rg := stored))
    else (history, local.(rg := local.rg.(status := s)))
  }

  /** The update is stored if and only if it changes something and nobody wrote in between;
      the caller is told of success in every case. */
  lemma AttemptLandsIff(history: Versions, local: Local, s: ResourceGroupStatus)
    ensures var (history', local') := Attempt(history, local, s);
            && local'.rg.status == s
            && (history' != history <==> local.rg.status != s && local.version == |history| - 1)
            && (history' != history ==> Latest(history').status == s)
  {
    if local.rg.status != s && local.version == |history| - 1 {
      assert |Attempt(history, local, s).0| == |history| + 1;
    }
  }

  /** Two writes from one copy: both are stored when the copy was of the latest version and
      the statuses differ from what it held, and neither is when it was not. */
  lemma TwoWrites(history: Versions, version: nat, rg: ResourceGroup, s: ResourceGroupStatus, e: ResourceGroupStatus)
    requires version == |history| - 1 ==> rg == Latest(history)
    requires version < |history|
    ensures var (history', local') := Attempt(history, Local(version, rg, false), s);
            var (history'', local'') := Attempt(history', local', e);
            && local'.rg == rg.(status := s)
            && (version != |history| - 1 ==> history'' == history)
            && (version == |history| - 1 ==> Latest(history'') == rg.(status := e))
  {
  }

  class ApiStore {
    var history: Versions

    constructor (rg: ResourceGroup)
      ensures history == [rg]
    {
      history := [rg];
    }

    /** Status().Update: refused when the copy is not of the latest version.  `fails` says
        whether the API server answers with an error of any other kind. */
    method UpdateStatus(resgroup: Fetched, fails: bool) returns (conflict: bool, failed: bool)
      modifies this, resgroup
      ensures failed == fails && conflict == (!fails && old(resgroup.version) != |old(history)| - 1)
      ensures conflict || failed ==>
                history == old(history) && resgroup.version == old(resgroup.version) && resgroup.rg == old(resgroup.rg)
      ensures !conflict && !failed ==>
                && history == old(history) + [Latest(old(history)).(status := old(resgroup.rg.status))]
                && resgroup.version == |old(history)| && resgroup.rg == Latest(history)
    {
      if fails {
        return false, true;
      }
      if resgroup.version != |history| - 1 {
        return true, false;
      }
      history := history + [Latest(history).(status := resgroup.rg.status)];
      resgroup.version, resgroup.rg := |history| - 1, Latest(history);
      return false, false;
    }

    /** The update under RetryOnConflict: one attempt, whatever the number of retries allowed. */
    method RetryUpdate(resgroup: Fetched, newStatus: ResourceGroupStatus, fails: bool) returns (failed: bool)
      modifies this, resgroup
      ensures failed == (fails && old(resgroup.rg.status) != newStatus)
      ensures history != old(history) <==>
              !fails && old(resgroup.rg.status) != newStatus && old(resgroup.version) == |old(history)| - 1
      ensures failed ==>
                && history == old(history) && resgroup.version == old(resgroup.version)
                && resgroup.rg == old(resgroup.rg).(status := newStatus)
      ensures !failed ==>
                var before := Local(old(resgroup.version), old(resgroup.rg), false);
                var (history', local) := Attempt(old(history), before, newStatus);
                history == history' && resgroup.version == local.version && resgroup.rg == local.rg
    {
      var conflict := true;
      while conflict && resgroup.rg.status != newStatus
        invariant conflict ==> history == old(history) && resgroup.version == old(resgroup.version)
        invariant conflict ==>
                    || resgroup.rg == old(resgroup.rg)
                    || (resgroup.rg == old(resgroup.rg).(status := newStatus)
                        && !fails && old(resgroup.version) != |old(history)| - 1)
        invariant !conflict ==>
                    && !fails && old(resgroup.rg).status != newStatus && old(resgroup.version) == |old(history)| - 1
                    && history == old(history) + [Latest(old(history)).(status := newStatus)]
                    && resgroup.version == |old(history)| && resgroup.rg == Latest(history)
        decreases conflict, resgroup.rg.status != newStatus
      {
        resgroup.rg := resgroup.rg.(status := newStatus);
        conflict, failed := UpdateStatus(resgroup, fails);
        if failed {
          return;
        }
      }
      assert !conflict ==> |history| == |old(history)| + 1;
      return false;
    }
  }

  /** The ResourceGroup object a reconcile holds and changes. */
  class Fetched {
    var version: nat
    var rg: ResourceGroup

    constructor (version: nat, rg: ResourceGroup)
      ensures this.version == version && this.rg == rg
    {
      this.version, this.rg := version, rg;
    }
  }
}
