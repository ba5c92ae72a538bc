/** The base watches one filtered watcher opens over its life, as numbered handles. */
module WatchLifecycle {
  import opened ApiTypes

  /** `base` is None for the empty watch a new watcher starts with; `calls` counts the
      calls of startWatch and `started` the ones that succeeded. */
  datatype Lifecycle = Lifecycle(started: nat, live: set<nat>, base: Option<nat>, stopped: bool, calls: nat)

  const FRESH := Lifecycle(0, {}, None, false, 0)

  /** `opens` says whether the API server accepts the watch; `Closed` is the server ending one. */
  datatype Step = Start(opens: bool) | Stop | Closed(watch: nat)

  function BaseHandles(s: Lifecycle): set<nat> {
    match s.base
    case None => {}
    case Some(b) => {b}
  }

  function Next(s: Lifecycle, step: Step): Lifecycle {
    match step
    case Start(opens) =>
      if s.stopped then s
      else if opens then
        Lifecycle(s.started + 1, s.live - BaseHandles(s) + {s.started}, Some(s.started), false, s.calls + 1)
      else s.(live := s.live - BaseHandles(s), calls := s.calls + 1)
    case Stop => s.(live := s.live - BaseHandles(s), stopped := true)
    case Closed(watch) => s.(live := s.live - {watch})
  }

  function Run(s: Lifecycle, steps: seq<Step>): Lifecycle {
    if steps == [] then s else Next(Run(s, steps[..|steps| - 1]), steps[|steps| - 1])
  }

  /** Nothing but the current base watch is live, and nothing at all once stopped. */
  predicate Tidy(s: Lifecycle) {
    && s.live <= BaseHandles(s)
    && (s.base.Some? ==> s.base.value < s.started)
    && (s.stopped ==> s.live == {})
  }

  lemma StepKeepsTidy(s: Lifecycle, step: Step)
    requires Tidy(s)
    ensures Tidy(Next(s, step))
  {
  }

  lemma {:induction false} EveryRunIsTidy(steps: seq<Step>)
    ensures Tidy(Run(FRESH, steps))
    ensures |Run(FRESH, steps).live| <= 1
  {
    if steps != [] {
      var init := steps[..|steps| - 1];
      EveryRunIsTidy(init);
      StepKeepsTidy(Run(FRESH, init), steps[|steps| - 1]);
    }
    var s := Run(FRESH, steps);
    if s.base.Some? {
      assert s.live == {} || s.live == {s.base.value};
    }
  }

  /** After Stop no schedule of starts opens a watch or even asks for one. */
  lemma {:induction false} StopIsFinal(s: Lifecycle, steps: seq<Step>)
    requires Tidy(s)
    ensures var t, u := Next(s, Stop), Run(Next(s, Stop), steps);
            u.stopped && u.live == {} && u.calls == t.calls && u.started == t.started
    decreases |steps|
  {
    if steps != [] {
      StopIsFinal(s, steps[..|steps| - 1]);
    }
  }

  /** A start the server refuses leaves no watch live, whatever came before. */
  lemma FailedStartLeavesNoneLive(steps: seq<Step>)
    ensures Next(Run(FRESH, steps), Start(false)).live == {}
  {
    EveryRunIsTidy(steps);
  }
}
