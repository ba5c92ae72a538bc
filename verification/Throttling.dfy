/** The throttler: an accepted event is put on the queue once the duration has passed, and
    further events for its key are skipped until then. */
module Throttling {
  import opened ApiTypes

  type Key = NamespacedName

  /** A timer goroutine, from the moment it is started until it has removed its mark. */
  datatype Timer = Timer(key: Key, born: nat, fired: bool)

  /** What happened, in order.  A skip is late when the pending timer had already enqueued. */
  datatype Event =
    | Accepted(key: Key)
    | Skipped(key: Key, late: bool)
    | Enqueued(key: Key, at: nat)

  /** `checked` holds the key of an event that found no mark and has not set one yet. */
  datatype State = State(now: nat, mapping: set<Key>, timers: map<nat, Timer>, checked: Option<Key>, log: seq<Event>)

  const IDLE := State(0, {}, map[], None, [])

  /** Events arrive one at a time; timers and the clock move in between, even between the
      look at the mapping and the mark. */
  datatype Step =
    | Tick(elapsed: nat)
    | Check(key: Key)
    | Mark(timer: nat)
    | Fire(timer: nat)
    | Unmark(timer: nat)

  ghost predicate HasPending(s: State, k: Key) {
    exists i | i in s.timers :: s.timers[i].key == k && !s.timers[i].fired
  }

  ghost predicate Next(s: State, duration: nat, step: Step, t: State) {
    match step
    case Tick(elapsed) => t == s.(now := s.now + elapsed)
    case Check(k) =>
      && s.checked.None?
      && t == if k in s.mapping then s.(log := s.log + [Skipped(k, !HasPending(s, k))]) else s.(checked := Some(k))
    case Mark(i) =>
      && s.checked.Some? && i !in s.timers
      && var k := s.checked.value;
         t == State(s.now, s.mapping + {k}, s.timers[i := Timer(k, s.now, false)], None, s.log + [Accepted(k)])
    case Fire(i) =>
      && i in s.timers && !s.timers[i].fired && s.now >= s.timers[i].born + duration
      && t == s.(timers := s.timers[i := s.timers[i].(fired := true)],
                 log := s.log + [Enqueued(s.timers[i].key, s.now)])
    case Unmark(i) =>
      && i in s.timers && s.timers[i].fired
      && t == s.(timers := s.timers - {i}, mapping := s.mapping - {s.timers[i].key})
  }

  ghost predicate IsRun(states: seq<State>, duration: nat, steps: seq<Step>) {
    && |states| == |steps| + 1
    && states[0] == IDLE
    && forall i | 0 <= i < |steps| :: Next(states[i], duration, steps[i], states[i + 1])
  }

  // ---- readings of the log ----

  /** The times at which a key was put on the queue. */
  function Times(log: seq<Event>, k: Key): seq<nat> {
    if log == [] then [] else
    var last := log[|log| - 1];
    Times(log[..|log| - 1], k) + if last.Enqueued? && last.key == k then [last.at] else []
  }

  function CountAccepted(log: seq<Event>, k: Key): nat {
    if log == [] then 0 else
    CountAccepted(log[..|log| - 1], k) + if log[|log| - 1] == Accepted(k) then 1 else 0
  }

  /** The keys put on the queue, in order. */
  function Added(log: seq<Event>): seq<Key> {
    if log == [] then [] else
    var last := log[|log| - 1];
    Added(log[..|log| - 1]) + if last.Enqueued? then [last.key] else []
  }

  predicate Spaced(times: seq<nat>, duration: nat) {
    forall i, j | 0 <= i < j < |times| :: times[j] >= times[i] + duration
  }

  /** An event some pending enqueue was to stand for: it was accepted, or skipped in time. */
  predicate NeedsEnqueue(event: Event, k: Key) {
    event == Accepted(k) || event == Skipped(k, false)
  }

  ghost predicate EnqueuedAfter(log: seq<Event>, i: nat, k: Key) {
    exists j | i < j < |log| :: log[j].Enqueued? && log[j].key == k
  }

  /** Every event that needs one is followed by an enqueue of its key, or one is still pending. */
  ghost predicate Covered(s: State, i: nat, k: Key)
    requires i < |s.log|
  {
    NeedsEnqueue(s.log[i], k) ==> HasPending(s, k) || EnqueuedAfter(s.log, i, k)
  }

  // ---- the invariant ----

  ghost predicate HasTimer(s: State, k: Key) {
    exists i | i in s.timers :: s.timers[i].key == k
  }

  /** Each marked key has exactly one timer and no other key has any. */
  ghost predicate OneTimerEach(s: State) {
    && (forall k | k in s.mapping :: HasTimer(s, k))
    && (forall i | i in s.timers :: s.timers[i].key in s.mapping)
    && (forall i, j | i in s.timers && j in s.timers && s.timers[i].key == s.timers[j].key :: i == j)
    && (s.checked.Some? ==> s.checked.value !in s.mapping)
  }

  predicate NoneAfter(times: seq<nat>, bound: int) {
    forall i | 0 <= i < |times| :: times[i] <= bound
  }

  ghost predicate KeyInv(s: State, duration: nat, k: Key) {
    && Spaced(Times(s.log, k), duration)
    && NoneAfter(Times(s.log, k), s.now)
    && (forall i | i in s.timers && s.timers[i].key == k && !s.timers[i].fired ::
          NoneAfter(Times(s.log, k), s.timers[i].born))
    && |Times(s.log, k)| + (if HasPending(s, k) then 1 else 0) == CountAccepted(s.log, k)
    && (forall i | 0 <= i < |s.log| :: Covered(s, i, k))
  }

  ghost predicate Inv(s: State, duration: nat) {
    && OneTimerEach(s)
    && (forall i | i in s.timers :: s.timers[i].born <= s.now)
    && (forall k :: KeyInv(s, duration, k))
  }

  lemma LogGrows(log: seq<Event>, event: Event, k: Key)
    ensures Times(log + [event], k) == Times(log, k) + if event.Enqueued? && event.key == k then [event.at] else []
    ensures Added(log + [event]) == Added(log) + if event.Enqueued? then [event.key] else []
    ensures CountAccepted(log + [event], k) == CountAccepted(log, k) + if event == Accepted(k) then 1 else 0
    ensures forall i, h | 0 <= i < |log| && EnqueuedAfter(log, i, h) :: EnqueuedAfter(log + [event], i, h)
  {
    assert (log + [event])[..|log|] == log;
    forall i, h | 0 <= i < |log| && EnqueuedAfter(log, i, h)
      ensures EnqueuedAfter(log + [event], i, h)
    {
      var j :| i < j < |log| && log[j].Enqueued? && log[j].key == h;
      assert (log + [event])[j] == log[j];
    }
  }

  lemma MarkHasTimer(s: State, duration: nat, step: Step, t: State, k: Key)
    requires OneTimerEach(s) && Next(s, duration, step, t) && k in t.mapping
    ensures HasTimer(t, k)
  {
    if step.Mark? && k == s.checked.value {
      assert t.timers[step.timer].key == k;
    } else {
      assert HasTimer(s, k);
      var j :| j in s.timers && s.timers[j].key == k;
      assert t.timers[j].key == k;
    }
  }

  lemma TimersKept(s: State, duration: nat, step: Step, t: State)
    requires OneTimerEach(s) && Next(s, duration, step, t)
    ensures OneTimerEach(t)
  {
    forall k | k in t.mapping
      ensures HasTimer(t, k)
    {
      MarkHasTimer(s, duration, step, t, k);
    }
    hide HasTimer, HasPending;
    match step
    case Unmark(i) => UnmarkKeepsOne(s, duration, i, t);
    case _ =>
  }

  lemma UnmarkKeepsOne(s: State, duration: nat, i: nat, t: State)
    requires OneTimerEach(s) && Next(s, duration, Unmark(i), t)
    ensures forall j | j in t.timers :: t.timers[j].key in t.mapping
    ensures t.checked.Some? ==> t.checked.value !in t.mapping
    ensures forall j, k | j in t.timers && k in t.timers && t.timers[j].key == t.timers[k].key :: j == k
  {
    hide HasTimer, HasPending;
    forall j | j in t.timers
      ensures t.timers[j].key in t.mapping && j in s.timers && t.timers[j] == s.timers[j]
    {
      assert s.timers[j].key == s.timers[i].key ==> j == i;
    }
  }

  lemma PendingKept(s: State, t: State, k: Key)
    requires forall i | i in s.timers && s.timers[i].key == k && !s.timers[i].fired ::
               i in t.timers && t.timers[i] == s.timers[i]
    requires forall i | i in t.timers && t.timers[i].key == k && !t.timers[i].fired ::
               i in s.timers && t.timers[i] == s.timers[i]
    ensures HasPending(t, k) == HasPending(s, k)
  {
    if HasPending(s, k) {
      var i :| i in s.timers && s.timers[i].key == k && !s.timers[i].fired;
      assert t.timers[i].key == k;
    }
    if HasPending(t, k) {
      var i :| i in t.timers && t.timers[i].key == k && !t.timers[i].fired;
      assert s.timers[i].key == k;
    }
  }

  lemma CoveredKept(s: State, t: State, event: Event, k: Key)
    requires t.log == s.log + [event]
    requires forall i | 0 <= i < |s.log| :: Covered(s, i, k)
    requires HasPending(s, k) ==> HasPending(t, k) || (event.Enqueued? && event.key == k)
    requires NeedsEnqueue(event, k) ==> HasPending(t, k)
    ensures forall i | 0 <= i < |t.log| :: Covered(t, i, k)
  {
    LogGrows(s.log, event, k);
    forall i | 0 <= i < |t.log|
      ensures Covered(t, i, k)
    {
      if i < |s.log| {
        assert t.log[i] == s.log[i];
        assert Covered(s, i, k);
        assert t.log[|s.log|] == event;
      }
    }
  }

  lemma KeyKeptQuiet(s: State, duration: nat, t: State, k: Key)
    requires KeyInv(s, duration, k) && t.log == s.log && t.now >= s.now
    requires forall i | i in s.timers && !s.timers[i].fired :: i in t.timers && t.timers[i] == s.timers[i]
    requires forall i | i in t.timers && !t.timers[i].fired :: i in s.timers && t.timers[i] == s.timers[i]
    ensures KeyInv(t, duration, k)
  {
    PendingKept(s, t, k);
    forall i | 0 <= i < |t.log|
      ensures Covered(t, i, k)
    {
      assert Covered(s, i, k);
    }
  }

  lemma KeyKeptSkip(s: State, duration: nat, h: Key, t: State, k: Key)
    requires Inv(s, duration) && h in s.mapping && t == s.(log := s.log + [Skipped(h, !HasPending(s, h))])
    ensures KeyInv(t, duration, k)
  {
    var event := Skipped(h, !HasPending(s, h));
    assert KeyInv(s, duration, k);
    LogGrows(s.log, event, k);
    assert Times(t.log, k) == Times(s.log, k);
    PendingKept(s, t, k);
    assert NeedsEnqueue(event, k) ==> HasPending(s, k);
    CoveredKept(s, t, event, k);
  }

  lemma KeyKeptMark(s: State, duration: nat, i: nat, t: State, k: Key)
    requires Inv(s, duration) && Next(s, duration, Mark(i), t)
    ensures KeyInv(t, duration, k)
  {
    var h := s.checked.value;
    assert KeyInv(s, duration, k);
    LogGrows(s.log, Accepted(h), k);
    if k == h {
      assert t.timers[i].key == k && !t.timers[i].fired;
      assert HasPending(t, k);
      assert !HasPending(s, k);
    } else {
      PendingKept(s, t, k);
    }
    CoveredKept(s, t, Accepted(h), k);
  }

  /** The timer that fires was the only one of its key, so now none is pending. */
  lemma FireClears(s: State, duration: nat, i: nat, t: State)
    requires OneTimerEach(s) && Next(s, duration, Fire(i), t)
    ensures HasPending(s, s.timers[i].key) && !HasPending(t, s.timers[i].key)
  {
  }

  lemma KeyKeptFire(s: State, duration: nat, i: nat, t: State, k: Key)
    requires Inv(s, duration) && Next(s, duration, Fire(i), t)
    ensures KeyInv(t, duration, k)
  {
    var h := s.timers[i].key;
    assert KeyInv(s, duration, k);
    LogGrows(s.log, Enqueued(h, s.now), k);
    FireClears(s, duration, i, t);
    if k == h {
      assert NoneAfter(Times(s.log, k), s.timers[i].born);
      assert NoneAfter(Times(s.log, k), s.now - duration);
      assert forall j | j in t.timers && t.timers[j].key == k && !t.timers[j].fired :: HasPending(t, k);
    } else {
      PendingKept(s, t, k);
    }
    CoveredKept(s, t, Enqueued(h, s.now), k);
    hide OneTimerEach, Inv, HasPending, Covered;
  }

  lemma KeyKept(s: State, duration: nat, step: Step, t: State, k: Key)
    requires Inv(s, duration) && Next(s, duration, step, t)
    ensures KeyInv(t, duration, k)
  {
    hide KeyInv, OneTimerEach;
    match step
    case Tick(_) => KeyKeptQuiet(s, duration, t, k);
    case Check(h) =>
      if h in s.mapping {
        KeyKeptSkip(s, duration, h, t, k);
      } else {
        KeyKeptQuiet(s, duration, t, k);
      }
    case Mark(i) => KeyKeptMark(s, duration, i, t, k);
    case Fire(i) => KeyKeptFire(s, duration, i, t, k);
    case Unmark(_) => KeyKeptQuiet(s, duration, t, k);
  }

  lemma StepKeeps(s: State, duration: nat, step: Step, t: State)
    requires Inv(s, duration) && Next(s, duration, step, t)
    ensures Inv(t, duration)
  {
    hide KeyInv, OneTimerEach;
    TimersKept(s, duration, step, t);
    forall k
      ensures KeyInv(t, duration, k)
    {
      KeyKept(s, duration, step, t, k);
    }
  }

  lemma {:induction false} EveryRunKeeps(states: seq<State>, duration: nat, steps: seq<Step>)
    requires IsRun(states, duration, steps)
    ensures Inv(states[|states| - 1], duration)
    decreases |steps|
  {
    if steps != [] {
      var n := |steps| - 1;
      EveryRunKeeps(states[..n + 1], duration, steps[..n]);
      StepKeeps(states[n], duration, steps[n], states[n + 1]);
    } else {
      forall k
        ensures KeyInv(IDLE, duration, k)
      {
        assert !HasPending(IDLE, k);
      }
    }
  }

  // ---- what it means for a run ----

  /** Accounting and coverage, in every run: enqueues plus pending timers are the accepted
      events, and each event accepted, or skipped before the pending enqueue, has one after it. */
  lemma EveryEventIsCovered(states: seq<State>, duration: nat, steps: seq<Step>, k: Key)
    requires IsRun(states, duration, steps)
    ensures var s := states[|states| - 1];
            && OneTimerEach(s)
            && |Times(s.log, k)| + (if HasPending(s, k) then 1 else 0) == CountAccepted(s.log, k)
            && (forall i | 0 <= i < |s.log| && NeedsEnqueue(s.log[i], k) ::
                  HasPending(s, k) || EnqueuedAfter(s.log, i, k))
  {
    EveryRunKeeps(states, duration, steps);
    var s := states[|states| - 1];
    assert KeyInv(s, duration, k);
    forall i | 0 <= i < |s.log| && NeedsEnqueue(s.log[i], k)
      ensures HasPending(s, k) || EnqueuedAfter(s.log, i, k)
    {
      assert Covered(s, i, k);
    }
  }

  /** A later event of the key was accepted. */
  ghost predicate AcceptedAfter(log: seq<Event>, i: nat, k: Key) {
    exists j | i < j < |log| :: log[j] == Accepted(k)
  }

  /** A late skip is made good only by a later accepted event. */
  ghost predicate OnlyRescued(s: State, i: nat, k: Key)
    requires i < |s.log|
  {
    s.log[i] == Skipped(k, true) && (HasPending(s, k) || EnqueuedAfter(s.log, i, k)) ==> AcceptedAfter(s.log, i, k)
  }

  lemma RescueKept(s: State, duration: nat, step: Step, t: State, i: nat, k: Key)
    requires Next(s, duration, step, t) && i < |t.log|
    requires i < |s.log| ==> OnlyRescued(s, i, k)
    ensures OnlyRescued(t, i, k)
  {
    if t.log[i] == Skipped(k, true) {
      if i == |s.log| {
        PendingKept(s, t, k);
      } else if t.log == s.log {
        QuietPending(s, duration, step, t, k);
      } else if HasPending(t, k) || EnqueuedAfter(t.log, i, k) {
        LogPending(s, duration, step, t, i, k);
      }
    }
  }

  /** A step that logs nothing starts no timer. */
  lemma QuietPending(s: State, duration: nat, step: Step, t: State, k: Key)
    requires Next(s, duration, step, t) && t.log == s.log
    ensures HasPending(t, k) ==> HasPending(s, k)
  {
    if HasPending(t, k) {
      var j :| j in t.timers && t.timers[j].key == k && !t.timers[j].fired;
      assert s.timers[j].key == k;
    }
  }

  /** A step that logs something about an event already logged. */
  lemma LogPending(s: State, duration: nat, step: Step, t: State, i: nat, k: Key)
    requires Next(s, duration, step, t) && i < |s.log| < |t.log|
    requires OnlyRescued(s, i, k) && t.log[i] == Skipped(k, true)
    requires HasPending(t, k) || EnqueuedAfter(t.log, i, k)
    ensures AcceptedAfter(t.log, i, k)
  {
    var last := |s.log|;
    if t.log[last] != Accepted(k) {
      assert HasPending(s, k) || EnqueuedAfter(s.log, i, k) by {
        if HasPending(t, k) {
          var j :| j in t.timers && t.timers[j].key == k && !t.timers[j].fired;
          assert s.timers[j].key == k;
        } else {
          var j :| i < j < |t.log| && t.log[j].Enqueued? && t.log[j].key == k;
          if j == last {
            assert s.timers[step.timer].key == k;
          } else {
            assert s.log[j] == t.log[j];
          }
        }
      }
      var j :| i < j < |s.log| && s.log[j] == Accepted(k);
      assert t.log[j] == Accepted(k);
    }
  }

  lemma {:induction false} EveryRunRescues(states: seq<State>, duration: nat, steps: seq<Step>, i: nat, k: Key)
    requires IsRun(states, duration, steps) && i < |states[|states| - 1].log|
    ensures OnlyRescued(states[|states| - 1], i, k)
    decreases |steps|
  {
    var n := |steps| - 1;
    if i < |states[n].log| {
      EveryRunRescues(states[..n + 1], duration, steps[..n], i, k);
    }
    RescueKept(states[n], duration, steps[n], states[n + 1], i, k);
  }

  /** The whole truth about one event, in every run: an enqueue of its key follows it, or is
      still to come from a timer, if and only if it was accepted, was skipped in time, or
      has been followed by an accepted event of its key. */
  lemma EventCoveredIff(states: seq<State>, duration: nat, steps: seq<Step>, i: nat, k: Key)
    requires IsRun(states, duration, steps) && i < |states[|states| - 1].log|
    requires var event := states[|states| - 1].log[i]; event.key == k && !event.Enqueued?
    ensures var s := states[|states| - 1];
            HasPending(s, k) || EnqueuedAfter(s.log, i, k) <==>
            NeedsEnqueue(s.log[i], k) || AcceptedAfter(s.log, i, k)
  {
    var s := states[|states| - 1];
    EveryEventIsCovered(states, duration, steps, k);
    EveryRunRescues(states, duration, steps, i, k);
    if AcceptedAfter(s.log, i, k) {
      var j :| i < j < |s.log| && s.log[j] == Accepted(k);
      assert NeedsEnqueue(s.log[j], k);
      assert HasPending(s, k) || EnqueuedAfter(s.log, j, k);
    }
  }

  function CountIn(times: seq<nat>, lo: int, hi: int): nat {
    if times == [] then 0 else
    CountIn(times[..|times| - 1], lo, hi) + if lo <= times[|times| - 1] <= hi then 1 else 0
  }

  lemma {:induction false} CountInLower(times: seq<nat>, lo: int, hi: int, top: int)
    requires top <= hi && NoneAfter(times, top)
    ensures CountIn(times, lo, hi) == CountIn(times, lo, top)
  {
    if times != [] {
      CountInLower(times[..|times| - 1], lo, hi, top);
    }
  }

  /** All but one of the enqueues in a window are followed by a whole duration inside it. */
  lemma {:induction false} WindowRoom(times: seq<nat>, duration: nat, lo: int, hi: int)
    requires Spaced(times, duration)
    ensures CountIn(times, lo, hi) > 0 ==> (CountIn(times, lo, hi) - 1) * duration <= hi - lo
    decreases |times|
  {
    if times != [] {
      var init, t := times[..|times| - 1], times[|times| - 1];
      if lo <= t <= hi {
        assert NoneAfter(init, t - duration);
        CountInLower(init, lo, hi, t - duration);
        WindowRoom(init, duration, lo, t - duration);
        var n := CountIn(init, lo, t - duration);
        assert CountIn(times, lo, hi) == n + 1;
        if n > 0 {
          assert n * duration == (n - 1) * duration + duration;
        }
      } else {
        WindowRoom(init, duration, lo, hi);
      }
    }
  }

  lemma NonNegativeProduct(x: int, d: nat)
    ensures x >= 0 ==> x * d >= 0
  {
  }

  lemma QuotientBound(n: nat, duration: nat, length: nat)
    requires duration > 0 && n * duration <= length
    ensures n <= length / duration
  {
    var over := n - length / duration - 1;
    assert n * duration == (length / duration + 1) * duration + over * duration;
    assert over * duration < 0;
    NonNegativeProduct(over, duration);
  }

  /** The enqueues that fall into a closed window. */
  function InWindow(times: seq<nat>, lo: int, hi: int): set<nat> {
    set i | 0 <= i < |times| && lo <= times[i] <= hi
  }

  predicate Within(times: seq<nat>, i: nat, lo: int, hi: int)
    requires i < |times|
  {
    lo <= times[i] <= hi
  }

  lemma {:induction false} CountInIsSize(times: seq<nat>, n: nat, lo: int, hi: int)
    requires n <= |times|
    ensures CountIn(times[..n], lo, hi) == |set i | 0 <= i < n && Within(times, i, lo, hi)|
  {
    if n > 0 {
      CountInIsSize(times, n - 1, lo, hi);
      assert times[..n][..n - 1] == times[..n - 1] && times[..n][n - 1] == times[n - 1];
      var fewer, more := set i | 0 <= i < n - 1 && Within(times, i, lo, hi),
                         set i | 0 <= i < n && Within(times, i, lo, hi);
      hide Within;
      assert more == if Within(times, n - 1, lo, hi) then fewer + {n - 1} else fewer;
    }
  }

  lemma WindowSize(times: seq<nat>, lo: int, hi: int)
    ensures |InWindow(times, lo, hi)| == CountIn(times, lo, hi)
  {
    CountInIsSize(times, |times|, lo, hi);
    assert times[..|times|] == times;
    assert InWindow(times, lo, hi) == set i | 0 <= i < |times| && Within(times, i, lo, hi);
  }

  lemma {:induction false} SpacedOut(times: seq<nat>, duration: nat, i: nat, j: nat)
    requires Spaced(times, duration) && i <= j < |times|
    ensures times[j] - times[i] >= (j - i) * duration
    decreases j
  {
    if i < j {
      SpacedOut(times, duration, i, j - 1);
      assert times[j] >= times[j - 1] + duration;
      assert (j - i) * duration == (j - 1 - i) * duration + duration;
    }
  }

  /** Reading the times off the log misses no enqueue of the key and adds none. */
  lemma {:induction false} TimesAreEnqueues(log: seq<Event>, k: Key, at: nat)
    ensures multiset(Times(log, k))[at] == multiset(log)[Enqueued(k, at)]
  {
    if log != [] {
      var init, last := log[..|log| - 1], log[|log| - 1];
      TimesAreEnqueues(init, k, at);
      assert log == init + [last];
      assert multiset(log) == multiset(init) + multiset{last};
      var own := if last.Enqueued? && last.key == k then [last.at] else [];
      assert multiset(Times(log, k)) == multiset(Times(init, k)) + multiset(own);
    }
  }

  lemma {:induction false} AcceptedAreCounted(log: seq<Event>, k: Key)
    ensures CountAccepted(log, k) == multiset(log)[Accepted(k)]
  {
    if log != [] {
      AcceptedAreCounted(log[..|log| - 1], k);
      assert log == log[..|log| - 1] + [log[|log| - 1]];
    }
  }

  /** The rate limit, in every run: n enqueues of a key later at least n durations have
      passed, and a closed window of length L holds at most L / duration + 1 of them. */
  lemma EveryRunIsThrottled(states: seq<State>, duration: nat, steps: seq<Step>, k: Key, from: nat, length: nat)
    requires IsRun(states, duration, steps)
    ensures var times := Times(states[|states| - 1].log, k);
            && (forall i, j | 0 <= i <= j < |times| :: times[j] - times[i] >= (j - i) * duration)
            && (duration > 0 ==> |InWindow(times, from, from + length)| <= length / duration + 1)
  {
    var times := Times(states[|states| - 1].log, k);
    RunIsSpaced(states, duration, steps, k);
    hide IsRun, Times, InWindow, Spaced;
    AllSpacedOut(times, duration);
    WindowLimit(times, duration, from, length);
  }

  lemma AllSpacedOut(times: seq<nat>, duration: nat)
    requires Spaced(times, duration)
    ensures forall i, j | 0 <= i <= j < |times| :: times[j] - times[i] >= (j - i) * duration
  {
    forall i, j | 0 <= i <= j < |times|
      ensures times[j] - times[i] >= (j - i) * duration
    {
      SpacedOut(times, duration, i, j);
    }
  }

  lemma WindowLimit(times: seq<nat>, duration: nat, from: nat, length: nat)
    requires Spaced(times, duration)
    ensures duration > 0 ==> |InWindow(times, from, from + length)| <= length / duration + 1
  {
    hide Spaced, InWindow, CountIn;
    WindowRoom(times, duration, from, from + length);
    WindowSize(times, from, from + length);
    if duration > 0 && CountIn(times, from, from + length) > 0 {
      QuotientBound(CountIn(times, from, from + length) - 1, duration, length);
    }
  }

  lemma RunIsSpaced(states: seq<State>, duration: nat, steps: seq<Step>, k: Key)
    requires IsRun(states, duration, steps)
    ensures Spaced(Times(states[|states| - 1].log, k), duration)
  {
    EveryRunKeeps(states, duration, steps);
    assert KeyInv(states[|states| - 1], duration, k);
  }

  lemma ExtendRun(states: seq<State>, duration: nat, steps: seq<Step>, step: Step, t: State)
    requires IsRun(states, duration, steps) && Next(states[|states| - 1], duration, step, t)
    ensures IsRun(states + [t], duration, steps + [step])
  {
  }

  /** The gap is real: an event between the enqueue and the removal of the mark is skipped
      with nothing left pending, so nothing is ever enqueued for it. */
  lemma LateEventIsLost(k: Key, duration: nat) returns (states: seq<State>, steps: seq<Step>)
    ensures IsRun(states, duration, steps)
    ensures var s := states[|states| - 1];
            s.log == [Accepted(k), Enqueued(k, duration), Skipped(k, true)] && s.timers == map[] && s.mapping == {}
  {
    var s0 := IDLE;
    var s1 := s0.(checked := Some(k));
    var s2 := State(0, {} + {k}, map[][0 := Timer(k, 0, false)], None, [] + [Accepted(k)]);
    var s3 := s2.(now := 0 + duration);
    var s4 := s3.(timers := s3.timers[0 := Timer(k, 0, true)], log := s3.log + [Enqueued(k, duration)]);
    var s5 := s4.(log := s4.log + [Skipped(k, true)]);
    var s6 := s5.(timers := s5.timers - {0}, mapping := s5.mapping - {k});
    assert !HasPending(s4, k);
    states, steps := [s0], [];
    ExtendRun(states, duration, steps, Check(k), s1);
    states, steps := states + [s1], steps + [Check(k)];
    ExtendRun(states, duration, steps, Mark(0), s2);
    states, steps := states + [s2], steps + [Mark(0)];
    ExtendRun(states, duration, steps, Tick(duration), s3);
    states, steps := states + [s3], steps + [Tick(duration)];
    ExtendRun(states, duration, steps, Fire(0), s4);
    states, steps := states + [s4], steps + [Fire(0)];
    ExtendRun(states, duration, steps, Check(k), s5);
    states, steps := states + [s5], steps + [Check(k)];
    ExtendRun(states, duration, steps, Unmark(0), s6);
    states, steps := states + [s6], steps + [Unmark(0)];
    assert s6.timers == map[];
  }

  // ---- the code ----

  class Throttler {
    var mapping: set<Key>
    const duration: nat
    /** The keys added to the work queue. */
    var queue: seq<Key>

    ghost var state: State

    ghost predicate Valid()
      reads this
    {
      mapping == state.mapping && queue == Added(state.log) && Inv(state, duration)
    }

    constructor (duration: nat)
      ensures Valid() && this.duration == duration && mapping == {} && queue == [] && state == IDLE
    {
      this.duration := duration;
      mapping, queue, state := {}, [], IDLE;
      new;
      EveryRunKeeps([IDLE], duration, []);
    }

    ghost method Elapse(elapsed: nat)
      requires Valid()
      modifies this`state
      ensures Valid() && Next(old(state), duration, Tick(elapsed), state)
    {
      StepKeeps(state, duration, Tick(elapsed), state.(now := state.now + elapsed));
      state := state.(now := state.now + elapsed);
    }

    /** The read-locked look at the mapping. */
    method Find(r: Key) returns (found: bool)
      requires Valid() && state.checked.None?
      modifies this`state
      ensures Valid() && found == (r in mapping)
      ensures Next(old(state), duration, Check(r), state)
    {
      found := r in mapping;
      ghost var s := state;
      state := if found then s.(log := s.log + [Skipped(r, !HasPending(s, r))]) else s.(checked := Some(r));
      StepKeeps(s, duration, Check(r), state);
      LogGrows(s.log, Skipped(r, !HasPending(s, r)), r);
    }

    /** The write-locked mark, and the start of the timer goroutine. */
    method MarkAndSpawn(r: Key, ghost timer: nat)
      requires Valid() && state.checked == Some(r) && timer !in state.timers
      modifies this`mapping, this`state
      ensures Valid()
      ensures Next(old(state), duration, Mark(timer), state)
    {
      mapping := mapping + {r};
      ghost var s := state;
      state := State(s.now, s.mapping + {r}, s.timers[timer := Timer(r, s.now, false)], None, s.log + [Accepted(r)]);
      StepKeeps(s, duration, Mark(timer), state);
      LogGrows(s.log, Accepted(r), r);
    }

    /** None stands for an event without an object. */
    method Generic(evt: Option<Key>, ghost timer: nat)
      requires Valid() && state.checked.None? && timer !in state.timers
      modifies this`mapping, this`state
      ensures Valid() && state.checked.None?
      ensures evt.None? ==> state == old(state)
      ensures evt.Some? && evt.value in old(mapping) ==> Next(old(state), duration, Check(evt.value), state)
      ensures evt.Some? && evt.value !in old(mapping) ==>
                Next(old(state).(checked := evt), duration, Mark(timer), state)
      ensures evt.Some? ==> mapping == old(mapping) + {evt.value}
    {
      hide Inv;
      if evt.None? {
        return;
      }
      var found := Find(evt.value);
      if found {
        return;
      }
      MarkAndSpawn(evt.value, timer);
    }

    /** The timer goroutine wakes and adds its key to the queue. */
    method TimerAdds(r: Key, ghost timer: nat)
      requires Valid() && timer in state.timers && state.timers[timer].key == r && !state.timers[timer].fired
      requires state.now >= state.timers[timer].born + duration
      modifies this`queue, this`state
      ensures Valid() && queue == old(queue) + [r]
      ensures Next(old(state), duration, Fire(timer), state)
    {
      queue := queue + [r];
      ghost var s := state;
      state := s.(timers := s.timers[timer := s.timers[timer].(fired := true)], log := s.log + [Enqueued(r, s.now)]);
      StepKeeps(s, duration, Fire(timer), state);
      LogGrows(s.log, Enqueued(r, s.now), r);
    }

    /** The timer goroutine removes its mark and ends. */
    method TimerUnmarks(r: Key, ghost timer: nat)
      requires Valid() && timer in state.timers && state.timers[timer].key == r && state.timers[timer].fired
      modifies this`mapping, this`state
      ensures Valid() && mapping == old(mapping) - {r}
      ensures Next(old(state), duration, Unmark(timer), state)
    {
      mapping := mapping - {r};
      ghost var s := state;
      state := s.(timers := s.timers - {timer}, mapping := s.mapping - {r});
      StepKeeps(s, duration, Unmark(timer), state);
    }
  }
}
