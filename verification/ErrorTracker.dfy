/** The rate limiter of watch-error logs, and why forgetting old entries never shows. */
module ErrorTracker {
  /** One second, in nanoseconds. */
  const ERROR_LOGGING_INTERVAL: nat := 1_000_000_000

  type Tracker = map<string, nat>

  predicate Expired(last: nat, now: nat) {
    now - last >= ERROR_LOGGING_INTERVAL
  }

  function Pruned(tracker: Tracker, now: nat): Tracker {
    map e | e in tracker && !Expired(tracker[e], now) :: tracker[e]
  }

  predicate Accepts(tracker: Tracker, errorID: string, now: nat) {
    errorID !in tracker || Expired(tracker[errorID], now)
  }

  function Added(tracker: Tracker, errorID: string, now: nat): Tracker {
    if Accepts(tracker, errorID, now) then tracker[errorID := now] else tracker
  }

  datatype Op = AddError(errorID: string, now: nat) | PruneErrors(now: nat)

  predicate Clocked(ops: seq<Op>) {
    forall i, j | 0 <= i < j < |ops| :: ops[i].now <= ops[j].now
  }

  /** The tracker after a run; with `prunes` off, pruning calls do nothing. */
  function After(ops: seq<Op>, prunes: bool): Tracker {
    if ops == [] then map[] else
    var tracker := After(ops[..|ops| - 1], prunes);
    match ops[|ops| - 1]
    case AddError(errorID, now) => Added(tracker, errorID, now)
    case PruneErrors(now) => if prunes then Pruned(tracker, now) else tracker
  }

  /** What the i-th call, an addError, answers. */
  predicate Answer(ops: seq<Op>, i: nat, prunes: bool)
    requires i < |ops| && ops[i].AddError?
  {
    Accepts(After(ops[..i], prunes), ops[i].errorID, ops[i].now)
  }

  /** The pruned tracker is the full one less entries that no longer matter. */
  ghost predicate Shadows(small: Tracker, full: Tracker, now: nat) {
    && (forall e | e in small :: e in full && full[e] == small[e])
    && (forall e | e in full && e !in small :: Expired(full[e], now))
  }

  lemma {:induction false} PrunedShadows(ops: seq<Op>, now: nat)
    requires Clocked(ops) && forall i | 0 <= i < |ops| :: ops[i].now <= now
    ensures Shadows(After(ops, true), After(ops, false), now)
  {
    if ops != [] {
      var init, last := ops[..|ops| - 1], ops[|ops| - 1];
      PrunedShadows(init, last.now);
    }
  }

  /** Over any clock that does not run backwards, pruning anywhere changes no answer. */
  lemma PruningIsInvisible(ops: seq<Op>, i: nat)
    requires Clocked(ops) && i < |ops| && ops[i].AddError?
    ensures Answer(ops, i, true) == Answer(ops, i, false)
  {
    PrunedShadows(ops[..i], ops[i].now);
  }

  /** Call i is the latest accepted report of this error among the first n. */
  ghost predicate LatestAccepted(ops: seq<Op>, n: nat, errorID: string, i: nat)
    requires n <= |ops|
  {
    && i < n && ops[i].AddError? && ops[i].errorID == errorID && Answer(ops, i, false)
    && forall j | i < j < n && ops[j].AddError? && ops[j].errorID == errorID :: !Answer(ops, j, false)
  }

  /** Without pruning, the tracker holds for each error the time of its latest accepted report. */
  lemma {:induction false} TrackerHoldsLatest(ops: seq<Op>, n: nat, errorID: string) returns (i: nat)
    requires n <= |ops|
    ensures errorID in After(ops[..n], false) ==>
              LatestAccepted(ops, n, errorID, i) && After(ops[..n], false)[errorID] == ops[i].now
    ensures errorID !in After(ops[..n], false) ==>
              forall j | 0 <= j < n && ops[j].AddError? && ops[j].errorID == errorID :: !Answer(ops, j, false)
  {
    i := 0;
    if n != 0 {
      assert ops[..n][..n - 1] == ops[..n - 1];
      i := TrackerHoldsLatest(ops, n - 1, errorID);
      if ops[n - 1].AddError? && ops[n - 1].errorID == errorID && Answer(ops, n - 1, false) {
        i := n - 1;
      }
    }
  }

  /** With pruning, an entry is still the time of the latest accepted report, and where
      there is none every accepted report is at least the interval old. */
  lemma PrunedTrackerHoldsLatest(ops: seq<Op>, n: nat, errorID: string, now: nat) returns (i: nat)
    requires Clocked(ops) && n <= |ops| && forall j | 0 <= j < n :: ops[j].now <= now
    ensures errorID in After(ops[..n], true) ==>
              LatestAccepted(ops, n, errorID, i) && After(ops[..n], true)[errorID] == ops[i].now
    ensures errorID !in After(ops[..n], true) ==>
              forall j | 0 <= j < n && ops[j].AddError? && ops[j].errorID == errorID && Answer(ops, j, true) ::
                now - ops[j].now >= ERROR_LOGGING_INTERVAL
  {
    i := TrackerHoldsLatest(ops, n, errorID);
    PrunedShadows(ops[..n], now);
    if errorID !in After(ops[..n], true) {
      forall j | 0 <= j < n && ops[j].AddError? && ops[j].errorID == errorID && Answer(ops, j, true)
        ensures now - ops[j].now >= ERROR_LOGGING_INTERVAL
      {
        PruningIsInvisible(ops, j);
        assert errorID in After(ops[..n], false);
        assert j <= i && ops[j].now <= ops[i].now;
      }
    }
  }

  /** A report is let through exactly when no accepted report of the same error lies less
      than the interval before it; so two accepted ones are never closer than that. */
  lemma AcceptedIffQuiet(ops: seq<Op>, j: nat)
    requires Clocked(ops) && j < |ops| && ops[j].AddError?
    ensures Answer(ops, j, true) <==>
            forall i | 0 <= i < j && ops[i].AddError? && ops[i].errorID == ops[j].errorID && Answer(ops, i, true) ::
              ops[j].now - ops[i].now >= ERROR_LOGGING_INTERVAL
  {
    forall i | 0 <= i <= j && ops[i].AddError?
      ensures Answer(ops, i, true) == Answer(ops, i, false)
    {
      PruningIsInvisible(ops, i);
    }
    var k := TrackerHoldsLatest(ops, j, ops[j].errorID);
    if ops[j].errorID in After(ops[..j], false) {
      assert LatestAccepted(ops, j, ops[j].errorID, k);
      assert forall i | 0 <= i < j && ops[i].AddError? && ops[i].errorID == ops[j].errorID && Answer(ops, i, false) ::
        i <= k && ops[i].now <= ops[k].now;
    }
  }
}
