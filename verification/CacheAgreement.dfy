/** The status cache over whole histories.  Status loops, watchers, the CRD handler and
    Reconcile all write it, each in lock sections of its own, while the cluster changes
    underneath; every such section is one step here. */
module CacheAgreement {
  import opened ApiTypes
  import FilteredWatchers
  import opened ResourceIndex
  import opened StatusLoop
  import opened StatusReports

  /** A status on its way to the cache.  `outdated` records whether the cluster has given
      another answer for the resource since. */
  datatype Message = Message(res: ObjMetadata, status: CachedStatus, outdated: bool)

  /** One pass of the status loop: it has found no cached status, and then perhaps an object. */
  datatype Round = Missed(res: ObjMetadata) | Answered(message: Message)

  /** A watch event; it is held once its watcher has seen that the resource is tracked. */
  datatype Event = Event(message: Message, held: bool)

  /** `notices` are the kinds whose CRD event is still to be handled, `clears` the resources
      the handler has listed and not reset yet. */
  datatype State = State(
    world: World,
    index: Index,
    rounds: map<nat, Round>,
    events: seq<Event>,
    notices: set<GroupKind>,
    clears: set<ObjMetadata>)

  /** `Change` is a change that a watcher reports; the report is lost by `Lose` when the watch
      restarts past it or its watcher dies.  `Drift` is any change that nobody reports: of a
      kind without a watcher, of the type mapping, or an outage. */
  datatype Step =
    | Miss(id: nat, res: ObjMetadata)
    | Ask(id: nat)
    | Store(id: nat)
    | Change(res: ObjMetadata, world: World)
    | Take(event: nat)
    | Cache(event: nat)
    | Lose(event: nat)
    | Drift(world: World)
    | CrdChange(kind: GroupKind, world: World)
    | List(kind: GroupKind)
    | Clear(res: ObjMetadata)
    | Track(call: Call, toAdd: seq<ObjMetadata>, toDelete: seq<ObjMetadata>)

  /** What a watcher caches for the object as it now is. */
  function Reported(world: World, res: ObjMetadata): CachedStatus {
    match world.Look(res) case Present(computed) => computed case _ => DELETED_STATUS
  }

  function Aged(m: Message, before: World, after: World): Message {
    m.(outdated := m.outdated || before.Look(m.res) != after.Look(m.res))
  }

  function AgedRound(r: Round, before: World, after: World): Round {
    match r
    case Missed(_) => r
    case Answered(m) => Answered(Aged(m, before, after))
  }

  /** The cluster changes: whatever is on its way and concerned becomes outdated. */
  function Moved(s: State, world: World): State {
    s.(world := world,
       rounds := map id | id in s.rounds :: AgedRound(s.rounds[id], s.world, world),
       events := seq(|s.events|, i requires 0 <= i < |s.events| =>
         s.events[i].(message := Aged(s.events[i].message, s.world, world))))
  }

  function WithStatus(s: State, res: ObjMetadata, status: Option<CachedStatus>): State {
    s.(index := s.index.(statuses := s.index.statuses[res := status]))
  }

  function WithoutEvent(s: State, i: nat): State
    requires i < |s.events|
  {
    s.(events := s.events[..i] + s.events[i + 1..])
  }

  ghost predicate Next(s: State, step: Step, t: State) {
    match step
    case Miss(id, res) =>
      && id !in s.rounds && Entry(s.index.statuses, res).None?
      && t == s.(rounds := s.rounds[id := Missed(res)])
    case Ask(id) =>
      && id in s.rounds && s.rounds[id].Missed?
      && var res := s.rounds[id].res;
         t == (match s.world.Look(res)
               case Present(computed) => s.(rounds := s.rounds[id := Answered(Message(res, computed, false))])
               case _ => s.(rounds := s.rounds - {id}))
    case Store(id) =>
      && id in s.rounds && s.rounds[id].Answered?
      && var m := s.rounds[id].message;
         t == WithStatus(s, m.res, Some(m.status)).(rounds := s.rounds - {id})
    case Change(res, world) =>
      && (forall r | r != res :: world.Look(r) == s.world.Look(r))
      && !world.Look(res).Unreachable?
      && var news := Event(Message(res, Reported(world, res), false), false);
         t == Moved(s, world).(events := Moved(s, world).events + [news])
    case Take(i) =>
      && i < |s.events| && !s.events[i].held
      && var res := s.events[i].message.res;
         t == if res in s.index.owners then s.(events := s.events[i := s.events[i].(held := true)])
              else WithoutEvent(s, i)
    case Cache(i) =>
      && i < |s.events| && s.events[i].held
      && var m := s.events[i].message;
         t == WithoutEvent(WithStatus(s, m.res, Some(m.status)), i)
    case Lose(i) =>
      i < |s.events| && !s.events[i].held && t == WithoutEvent(s, i)
    case Drift(world) => t == Moved(s, world)
    case CrdChange(kind, world) =>
      && (forall r: ObjMetadata | r.GK() != kind :: world.Look(r) == s.world.Look(r))
      && t == Moved(s, world).(notices := s.notices + {kind})
    case List(kind) =>
      t == s.(notices := s.notices - {kind},
              clears := s.clears + set r | r in s.index.owners && r.GK() == kind)
    case Clear(res) =>
      && res in s.clears
      && t == WithStatus(s, res, None).(clears := s.clears - {res})
    case Track(call, toAdd, toDelete) =>
      Sound(s.index) && t == s.(index := Commit(s.index, call, toAdd, toDelete))
  }

  // ---- agreement ----

  ghost predicate EventPending(s: State, r: ObjMetadata) {
    exists i | 0 <= i < |s.events| :: s.events[i].message.res == r
  }

  /** News of the resource has still to reach the cache. */
  ghost predicate Unsettled(s: State, r: ObjMetadata) {
    EventPending(s, r) || r.GK() in s.notices || r in s.clears
  }

  ghost predicate Consistent(s: State) {
    forall r :: Unsettled(s, r) || Agrees(s.world, s.index.statuses, r)
  }

  predicate Truthful(world: World, m: Message) {
    m.outdated || AgreesWith(world, Some(m.status), m.res)
  }

  ghost predicate AllTruthful(s: State) {
    && (forall id | id in s.rounds && s.rounds[id].Answered? :: Truthful(s.world, s.rounds[id].message))
    && (forall i | 0 <= i < |s.events| :: Truthful(s.world, s.events[i].message))
  }

  /** News of the resource is on its way besides the given event. */
  ghost predicate OtherNews(s: State, i: nat, r: ObjMetadata) {
    || (exists j :: 0 <= j < |s.events| && j != i && s.events[j].message.res == r)
    || r.GK() in s.notices || r in s.clears
  }

  predicate HasStatus(s: State, r: ObjMetadata) {
    Entry(s.index.statuses, r).Some?
  }

  /** The only moments at which a status can go stale with no further news on its way: a
      write of an answer or event that the cluster has overtaken, news of a resource that
      nobody tracks but that has a status, and for a resource with a status the loss of the
      last news and a change that nobody reports. */
  ghost predicate AtRisk(s: State, step: Step, r: ObjMetadata) {
    match step
    case Store(id) =>
      && id in s.rounds && s.rounds[id].Answered? && s.rounds[id].message.res == r
      && s.rounds[id].message.outdated && !Unsettled(s, r)
    case Cache(i) =>
      && i < |s.events| && s.events[i].message.res == r
      && s.events[i].message.outdated && !OtherNews(s, i, r)
    case Take(i) =>
      && i < |s.events| && s.events[i].message.res == r
      && r !in s.index.owners && HasStatus(s, r) && !OtherNews(s, i, r)
    case Lose(i) =>
      && i < |s.events| && s.events[i].message.res == r
      && HasStatus(s, r) && !OtherNews(s, i, r)
    case Drift(world) =>
      world.Look(r) != s.world.Look(r) && HasStatus(s, r) && !Unsettled(s, r)
    case List(kind) =>
      && r.GK() == kind && r !in s.index.owners && HasStatus(s, r)
      && !EventPending(s, r) && r !in s.clears
    case _ => false
  }

  /** The status about to be written, or else the cached one, is what the cluster says. */
  predicate Fits(s: State, step: Step, r: ObjMetadata) {
    match step
    case Store(id) =>
      id in s.rounds && s.rounds[id].Answered? && AgreesWith(s.world, Some(s.rounds[id].message.status), r)
    case Cache(i) => i < |s.events| && AgreesWith(s.world, Some(s.events[i].message.status), r)
    case Drift(world) => Agrees(world, s.index.statuses, r)
    case _ => Agrees(s.world, s.index.statuses, r)
  }

  lemma AgingKeepsTruth(m: Message, before: World, after: World)
    requires Truthful(before, m)
    ensures Truthful(after, Aged(m, before, after))
  {
  }

  lemma MovedIsTruthful(s: State, world: World)
    requires AllTruthful(s)
    ensures AllTruthful(Moved(s, world))
  {
    var t := Moved(s, world);
    hide Truthful, Aged;
    forall id | id in t.rounds && t.rounds[id].Answered?
      ensures Truthful(world, t.rounds[id].message)
    {
      AgingKeepsTruth(s.rounds[id].message, s.world, world);
    }
    forall i | 0 <= i < |t.events|
      ensures Truthful(world, t.events[i].message)
    {
      AgingKeepsTruth(s.events[i].message, s.world, world);
    }
  }

  lemma MovedKeepsPending(s: State, world: World, r: ObjMetadata)
    ensures EventPending(Moved(s, world), r) == EventPending(s, r)
  {
    var t := Moved(s, world);
    if EventPending(s, r) {
      var i :| 0 <= i < |s.events| && s.events[i].message.res == r;
      assert t.events[i].message.res == r;
    }
    if EventPending(t, r) {
      var i :| 0 <= i < |t.events| && t.events[i].message.res == r;
      assert s.events[i].message.res == r;
    }
  }

  lemma TruthKept(s: State, step: Step, t: State)
    requires AllTruthful(s) && Next(s, step, t)
    ensures AllTruthful(t)
  {
    match step
    case Change(res, world) => MovedIsTruthful(s, world);
    case CrdChange(_, world) => MovedIsTruthful(s, world);
    case Drift(world) => MovedIsTruthful(s, world);
    case _ =>
  }

  /** Once an event is gone, just the other ones are pending. */
  lemma PendingWithout(s: State, i: nat, r: ObjMetadata)
    requires i < |s.events|
    ensures EventPending(WithoutEvent(s, i), r) <==>
            exists j :: 0 <= j < |s.events| && j != i && s.events[j].message.res == r
  {
    var t := WithoutEvent(s, i);
    if j :| 0 <= j < |s.events| && j != i && s.events[j].message.res == r {
      assert t.events[if j < i then j else j - 1].message.res == r;
    }
    if EventPending(t, r) {
      var j :| 0 <= j < |t.events| && t.events[j].message.res == r;
      assert s.events[if j < i then j else j + 1].message.res == r;
    }
  }

  /** One resource, in one step: outside the risky moments agreement is never lost. */
  lemma StepKeepsOne(s: State, step: Step, t: State, r: ObjMetadata)
    requires AllTruthful(s) && Consistent(s) && Next(s, step, t)
    requires !Unsettled(t, r) && !AtRisk(s, step, r)
    ensures Agrees(t.world, t.index.statuses, r)
  {
    assert Unsettled(s, r) || Agrees(s.world, s.index.statuses, r);
    match step
    case Take(i) => TakeKeepsOne(s, i, t, r);
    case Cache(i) => PendingWithout(s, i, r);
    case Lose(i) => PendingWithout(s, i, r);
    case Drift(world) => MovedKeepsPending(s, world, r);
    case Change(res, world) => ChangeKeepsOne(s, res, world, t, r);
    case CrdChange(_, world) => MovedKeepsPending(s, world, r);
    case Track(call, toAdd, toDelete) => CommitEffect(s.index, call, toAdd, toDelete, r);
    case _ =>
  }

  /** At a risky moment the outcome is decided by what the step starts from. */
  lemma RiskDecides(s: State, step: Step, t: State, r: ObjMetadata)
    requires Next(s, step, t) && AtRisk(s, step, r)
    ensures !Unsettled(t, r)
    ensures Agrees(t.world, t.index.statuses, r) <==> Fits(s, step, r)
  {
    match step
    case Take(i) => PendingWithout(s, i, r);
    case Cache(i) => PendingWithout(s, i, r);
    case Lose(i) => PendingWithout(s, i, r);
    case Drift(world) => MovedKeepsPending(s, world, r);
    case _ =>
  }

  lemma TakeKeepsOne(s: State, i: nat, t: State, r: ObjMetadata)
    requires Consistent(s) && Next(s, Take(i), t) && !Unsettled(t, r) && !AtRisk(s, Take(i), r)
    ensures Agrees(t.world, t.index.statuses, r)
  {
    assert Unsettled(s, r) || Agrees(s.world, s.index.statuses, r);
    if s.events[i].message.res in s.index.owners {
      HoldingKeepsPending(s, i, r);
    } else {
      PendingWithout(s, i, r);
    }
  }

  lemma HoldingKeepsPending(s: State, i: nat, r: ObjMetadata)
    requires i < |s.events|
    ensures EventPending(s, r) ==> EventPending(s.(events := s.events[i := s.events[i].(held := true)]), r)
  {
    if EventPending(s, r) {
      var j :| 0 <= j < |s.events| && s.events[j].message.res == r;
      assert s.events[i := s.events[i].(held := true)][j].message.res == r;
    }
  }

  lemma QueueingKeepsPending(s: State, e: Event, r: ObjMetadata)
    ensures EventPending(s, r) || e.message.res == r ==> EventPending(s.(events := s.events + [e]), r)
  {
    assert (s.events + [e])[|s.events|] == e;
    if EventPending(s, r) {
      var j :| 0 <= j < |s.events| && s.events[j].message.res == r;
      assert (s.events + [e])[j].message.res == r;
    }
  }

  lemma ChangeKeepsOne(s: State, res: ObjMetadata, world: World, t: State, r: ObjMetadata)
    requires Consistent(s) && Next(s, Change(res, world), t) && !Unsettled(t, r)
    ensures Agrees(t.world, t.index.statuses, r)
  {
    assert Unsettled(s, r) || Agrees(s.world, s.index.statuses, r);
    MovedKeepsPending(s, world, r);
    QueueingKeepsPending(Moved(s, world), Event(Message(res, Reported(world, res), false), false), r);
  }

  /** Every resource a step puts at risk has, before the step, the status that fits. */
  ghost predicate Safe(s: State, step: Step) {
    forall r | AtRisk(s, step, r) :: Fits(s, step, r)
  }

  /** A step leaves every settled status in agreement with the cluster if and only if it is safe. */
  lemma StepKeepsAgreementIff(s: State, step: Step, t: State)
    requires AllTruthful(s) && Consistent(s) && Next(s, step, t)
    ensures AllTruthful(t)
    ensures Consistent(t) <==> Safe(s, step)
  {
    TruthKept(s, step, t);
    hide Next, AllTruthful, AtRisk, Agrees, Fits, Unsettled;
    forall r
      ensures AtRisk(s, step, r) ==>
                !Unsettled(t, r) && (Agrees(t.world, t.index.statuses, r) <==> Fits(s, step, r))
      ensures !AtRisk(s, step, r) ==> Unsettled(t, r) || Agrees(t.world, t.index.statuses, r)
    {
      if AtRisk(s, step, r) {
        RiskDecides(s, step, t, r);
      } else if !Unsettled(t, r) {
        StepKeepsOne(s, step, t, r);
      }
    }
  }

  // ---- runs ----

  predicate Initial(s: State) {
    && s.index == EMPTY_INDEX && s.rounds == map[] && s.events == []
    && s.notices == {} && s.clears == {}
  }

  ghost predicate IsRun(states: seq<State>, steps: seq<Step>) {
    && |states| == |steps| + 1
    && Initial(states[0])
    && forall i | 0 <= i < |steps| :: Next(states[i], steps[i], states[i + 1])
  }

  lemma {:induction false} EveryRunIsTruthful(states: seq<State>, steps: seq<Step>)
    requires IsRun(states, steps)
    ensures AllTruthful(states[|states| - 1])
    decreases |steps|
  {
    if steps != [] {
      var n := |steps| - 1;
      hide Next, AllTruthful;
      EveryRunIsTruthful(states[..n + 1], steps[..n]);
      TruthKept(states[n], steps[n], states[n + 1]);
    }
  }

  ghost predicate AllConsistent(states: seq<State>) {
    forall i | 0 <= i < |states| :: Consistent(states[i])
  }

  ghost predicate AllSafe(states: seq<State>, steps: seq<Step>)
    requires |states| == |steps| + 1
  {
    forall i | 0 <= i < |steps| :: Safe(states[i], steps[i])
  }

  lemma OneMoreStep(states: seq<State>, steps: seq<Step>, n: nat)
    requires |states| == |steps| + 1 && |steps| == n + 1
    ensures AllConsistent(states) <==> AllConsistent(states[..n + 1]) && Consistent(states[n + 1])
    ensures AllSafe(states, steps) <==> AllSafe(states[..n + 1], steps[..n]) && Safe(states[n], steps[n])
    ensures AllConsistent(states[..n + 1]) ==> Consistent(states[n])
  {
    hide Consistent, Safe;
    var states', steps' := states[..n + 1], steps[..n];
    assert states'[n] == states[n];
    assert forall i | 0 <= i < n :: states'[i] == states[i] && steps'[i] == steps[i];
    forall i | 0 <= i < |states|
      ensures i == n + 1 || states[i] == states'[i]
    {
    }
  }

  /** A run keeps the cache in agreement all along if and only if all its steps are safe:
      each cached status that no news is on its way for is what the cluster would answer now. */
  lemma {:induction false} EveryRunIsConsistentIff(states: seq<State>, steps: seq<Step>)
    requires IsRun(states, steps)
    ensures AllConsistent(states) <==> AllSafe(states, steps)
    decreases |steps|
  {
    if steps == [] {
      assert Consistent(states[0]);
    } else {
      var n := |steps| - 1;
      EveryRunIsTruthful(states[..n + 1], steps[..n]);
      EveryRunIsConsistentIff(states[..n + 1], steps[..n]);
      OneMoreStep(states, steps, n);
      hide AllTruthful, Consistent, Safe, AllConsistent, AllSafe;
      if Consistent(states[n]) {
        StepKeepsAgreementIff(states[n], steps[n], states[n + 1]);
      }
    }
  }

  /** After any such run, a pass of the loop reports for a settled resource what it would
      report with nothing cached, in all but the conditions; and those differ only where a
      deletion is cached and the group has an inventory id. */
  lemma HistoryIsInvisible(states: seq<State>, steps: seq<Step>, id: string, prior: Prior, r: ObjMetadata,
                           now: Time, later: Time)
    requires IsRun(states, steps) && AllSafe(states, steps)
    requires !Unsettled(states[|states| - 1], r)
    ensures var s := states[|states| - 1];
            var cached := WithActuation(prior, Observed(id, s.world, Entry(s.index.statuses, r), r, now));
            var asked := WithActuation(prior, Observed(id, s.world, None, r, later));
            && cached.(conditions := []) == asked.(conditions := [])
            && (Timeless(cached.conditions) == Timeless(asked.conditions) <==>
                !(Entry(s.index.statuses, r) == Some(DELETED_STATUS) && s.world.Look(r).Absent? && id != ""))
  {
    var s := states[|states| - 1];
    hide Next, Safe, Unsettled, AllTruthful, Observed, Timeless, WithActuation;
    EveryRunIsConsistentIff(states, steps);
    assert Consistent(s);
    assert Agrees(s.world, s.index.statuses, r);
    EntryIsInvisible(id, s.world, Entry(s.index.statuses, r), r, now, later);
    ActuationIgnoresConditions(prior, Observed(id, s.world, Entry(s.index.statuses, r), r, now),
                               Observed(id, s.world, None, r, later));
  }

  /** The commit of a reconcile is never held up: the indexes stay sound in every run. */
  lemma {:induction false} EveryRunIsSound(states: seq<State>, steps: seq<Step>)
    requires IsRun(states, steps)
    ensures Sound(states[|states| - 1].index)
    decreases |steps|
  {
    if steps != [] {
      var n := |steps| - 1;
      EveryRunIsSound(states[..n + 1], steps[..n]);
      hide Sound, Next;
      SoundKept(states[n], steps[n], states[n + 1]);
    }
  }

  lemma SoundKept(s: State, step: Step, t: State)
    requires Sound(s.index) && Next(s, step, t)
    ensures Sound(t.index)
  {
    hide Sound, Commit;
    if !step.Track? {
      assert t.index == s.index.(statuses := t.index.statuses);
      StatusesIrrelevant(s.index, t.index.statuses);
    }
  }

  // ---- the risks are real ----

  /** A group includes a resource, no news of it is on its way, the object is gone, and
      still the cache says what it said when the object was there. */
  ghost predicate Stale(s: State, g: NamespacedName, res: ObjMetadata, status: CachedStatus) {
    && OwnedBy(s.index, res, g) && !Unsettled(s, res)
    && s.world.Look(res).Absent? && Entry(s.index.statuses, res) == Some(status)
  }

  ghost predicate Vanishes(world: World, res: ObjMetadata, gone: World) {
    && world.Look(res).Present? && gone.Look(res).Absent?
    && forall r | r != res :: gone.Look(r) == world.Look(r)
  }

  lemma ExtendRun(states: seq<State>, steps: seq<Step>, step: Step, t: State)
    requires IsRun(states, steps) && Next(states[|states| - 1], step, t)
    ensures IsRun(states + [t], steps + [step])
  {
    hide Next;
  }

  lemma TrackedBy(x: Index, g: NamespacedName, res: ObjMetadata)
    requires x.owners == map[] && x.kinds == map[]
    ensures Sound(x)
    ensures var y := Commit(x, Call(g, [res], false), [res], []);
            OwnedBy(y, res, g) && y.statuses == x.statuses
  {
    var call := Call(g, [res], false);
    assert res in ToSet([res]);
    CommitEffect(x, call, [res], [], res);
  }

  /** One whole pass of the loop up to the answer, nothing else happening. */
  lemma AskNow(states: seq<State>, steps: seq<Step>, res: ObjMetadata) returns (states': seq<State>, steps': seq<Step>)
    requires IsRun(states, steps)
    requires var s := states[|states| - 1];
             s.rounds == map[] && Entry(s.index.statuses, res).None? && s.world.Look(res).Present?
    ensures IsRun(states', steps')
    ensures var s := states[|states| - 1];
            var m := Message(res, s.world.Look(res).computed, false);
            states'[|states'| - 1] == s.(rounds := map[0 := Answered(m)])
  {
    var s := states[|states| - 1];
    var s1 := s.(rounds := s.rounds[0 := Missed(res)]);
    var s2 := s.(rounds := map[0 := Answered(Message(res, s.world.Look(res).computed, false))]);
    assert s1.(rounds := s1.rounds[0 := Answered(Message(res, s.world.Look(res).computed, false))]) == s2;
    ExtendRun(states, steps, Miss(0, res), s1);
    ExtendRun(states + [s1], steps + [Miss(0, res)], Ask(0), s2);
    states', steps' := states + [s1] + [s2], steps + [Miss(0, res)] + [Ask(0)];
  }

  /** The object goes away and its watcher takes the event. */
  lemma VanishNow(states: seq<State>, steps: seq<Step>, res: ObjMetadata, gone: World)
    returns (states': seq<State>, steps': seq<Step>)
    requires IsRun(states, steps)
    requires var s := states[|states| - 1]; Vanishes(s.world, res, gone) && s.events == []
    ensures IsRun(states', steps')
    ensures var s := states[|states| - 1];
            var e := Event(Message(res, DELETED_STATUS, false), true);
            states'[|states'| - 1] == Moved(s, gone).(events := if res in s.index.owners then [e] else [])
  {
    var s := states[|states| - 1];
    var e := Event(Message(res, DELETED_STATUS, false), false);
    assert Moved(s, gone).events == [];
    var s1 := Moved(s, gone).(events := [] + [e]);
    var s2 := s1.(events := if res in s.index.owners then [e.(held := true)] else []);
    assert s1.events[0 := e.(held := true)] == [e.(held := true)];
    assert s1.events[..0] + s1.events[1..] == [];
    ExtendRun(states, steps, Change(res, gone), s1);
    ExtendRun(states + [s1], steps + [Change(res, gone)], Take(0), s2);
    states', steps' := states + [s1] + [s2], steps + [Change(res, gone)] + [Take(0)];
  }

  lemma SettledWhenQuiet(s: State, r: ObjMetadata)
    requires s.events == [] && s.notices == {} && s.clears == {}
    ensures !Unsettled(s, r)
  {
  }

  /** The loop stores the answer of its only pass. */
  lemma StoreNow(states: seq<State>, steps: seq<Step>, m: Message) returns (states': seq<State>, steps': seq<Step>)
    requires IsRun(states, steps) && states[|states| - 1].rounds == map[0 := Answered(m)]
    ensures IsRun(states', steps')
    ensures states'[|states'| - 1] == WithStatus(states[|states| - 1], m.res, Some(m.status)).(rounds := map[])
  {
    var s := states[|states| - 1];
    var s1 := WithStatus(s, m.res, Some(m.status)).(rounds := map[]);
    assert s.rounds - {0} == map[];
    ExtendRun(states, steps, Store(0), s1);
    states', steps' := states + [s1], steps + [Store(0)];
  }

  /** The watcher caches the status of the only event there is, which it holds. */
  lemma CacheNow(states: seq<State>, steps: seq<Step>, m: Message) returns (states': seq<State>, steps': seq<Step>)
    requires IsRun(states, steps) && states[|states| - 1].events == [Event(m, true)]
    ensures IsRun(states', steps')
    ensures states'[|states'| - 1] == WithStatus(states[|states| - 1], m.res, Some(m.status)).(events := [])
  {
    var s := states[|states| - 1];
    var s1 := WithStatus(s, m.res, Some(m.status)).(events := []);
    assert s.events[..0] + s.events[1..] == [];
    ExtendRun(states, steps, Cache(0), s1);
    states', steps' := states + [s1], steps + [Cache(0)];
  }

  lemma TrackNow(states: seq<State>, steps: seq<Step>, g: NamespacedName, res: ObjMetadata)
    returns (states': seq<State>, steps': seq<Step>)
    requires IsRun(states, steps)
    requires states[|states| - 1].index.owners == map[] && states[|states| - 1].index.kinds == map[]
    ensures IsRun(states', steps')
    ensures var s, s' := states[|states| - 1], states'[|states'| - 1];
            && s' == s.(index := s'.index)
            && OwnedBy(s'.index, res, g) && s'.index.statuses == s.index.statuses
  {
    var s := states[|states| - 1];
    var call := Call(g, [res], false);
    TrackedBy(s.index, g, res);
    var s1 := s.(index := Commit(s.index, call, [res], []));
    ExtendRun(states, steps, Track(call, [res], []), s1);
    states', steps' := states + [s1], steps + [Track(call, [res], [])];
  }

  /** The loop has cached the status of a resource that a group includes. */
  lemma CachedTracked(world: World, g: NamespacedName, res: ObjMetadata) returns (states: seq<State>, steps: seq<Step>)
    requires world.Look(res).Present?
    ensures IsRun(states, steps)
    ensures var s := states[|states| - 1];
            && s == State(world, s.index, map[], [], {}, {})
            && OwnedBy(s.index, res, g) && Entry(s.index.statuses, res) == Some(world.Look(res).computed)
  {
    hide Next, IsRun;
    states, steps := TrackedFirst(world, g, res);
    states, steps := AskNow(states, steps, res);
    states, steps := StoreNow(states, steps, Message(res, world.Look(res).computed, false));
  }

  /** The object goes away while its watch waits to be restarted, and the restarted watch
      reports only what there is. */
  lemma LostDeletionGoesStale(world: World, gone: World, res: ObjMetadata, g: NamespacedName)
    returns (states: seq<State>, steps: seq<Step>)
    requires Vanishes(world, res, gone)
    ensures IsRun(states, steps)
    ensures Stale(states[|states| - 1], g, res, world.Look(res).computed)
  {
    states, steps := CachedTracked(world, g, res);
    var s := states[|states| - 1];
    var s1 := s.(world := gone, events := [Event(Message(res, DELETED_STATUS, false), false)]);
    var s2 := s.(world := gone);
    assert Moved(s, gone) == s2;
    assert s1.events[..0] + s1.events[1..] == [];
    ExtendRun(states, steps, Change(res, gone), s1);
    ExtendRun(states + [s1], steps + [Change(res, gone)], Lose(0), s2);
    states, steps := states + [s1] + [s2], steps + [Change(res, gone)] + [Lose(0)];
    SettledWhenQuiet(s2, res);
  }

  /** Nobody watches the kind of the object that goes away. */
  lemma UnreportedDeletionGoesStale(world: World, gone: World, res: ObjMetadata, g: NamespacedName)
    returns (states: seq<State>, steps: seq<Step>)
    requires Vanishes(world, res, gone)
    ensures IsRun(states, steps)
    ensures Stale(states[|states| - 1], g, res, world.Look(res).computed)
  {
    states, steps := CachedTracked(world, g, res);
    var s := states[|states| - 1];
    assert Moved(s, gone) == s.(world := gone);
    ExtendRun(states, steps, Drift(gone), s.(world := gone));
    states, steps := states + [s.(world := gone)], steps + [Drift(gone)];
    SettledWhenQuiet(s.(world := gone), res);
  }

  lemma TrackedFirst(world: World, g: NamespacedName, res: ObjMetadata) returns (states: seq<State>, steps: seq<Step>)
    ensures IsRun(states, steps)
    ensures var s := states[|states| - 1];
            && s == State(world, s.index, map[], [], {}, {})
            && OwnedBy(s.index, res, g) && s.index.statuses == map[]
  {
    states, steps := TrackNow([State(world, EMPTY_INDEX, map[], [], {}, {})], [], g, res);
  }

  /** An answer the loop got before the object went away is stored over what the watcher
      has cached since, although a group includes the resource all along. */
  lemma OvertakenStoreGoesStale(world: World, gone: World, res: ObjMetadata, g: NamespacedName)
    returns (states: seq<State>, steps: seq<Step>)
    requires Vanishes(world, res, gone)
    ensures IsRun(states, steps)
    ensures Stale(states[|states| - 1], g, res, world.Look(res).computed)
  {
    hide Next, IsRun;
    states, steps := TrackedFirst(world, g, res);
    states, steps := AskNow(states, steps, res);
    states, steps := VanishNow(states, steps, res, gone);
    states, steps := CacheNow(states, steps, Message(res, DELETED_STATUS, false));
    states, steps := StoreNow(states, steps, Message(res, world.Look(res).computed, true));
    SettledWhenQuiet(states[|states| - 1], res);
  }

  /** The loop, run for a resource nobody tracks, caches its status. */
  lemma CachedUntracked(world: World, res: ObjMetadata) returns (states: seq<State>, steps: seq<Step>)
    requires world.Look(res).Present?
    ensures IsRun(states, steps)
    ensures var x := EMPTY_INDEX.(statuses := map[res := Some(world.Look(res).computed)]);
            states[|states| - 1] == State(world, x, map[], [], {}, {})
  {
    states, steps := AskNow([State(world, EMPTY_INDEX, map[], [], {}, {})], [], res);
    states, steps := StoreNow(states, steps, Message(res, world.Look(res).computed, false));
  }

  /** A status computed for a resource nobody tracks outlives the object, and is what a
      group that claims the resource later will report. */
  lemma UntrackedStatusGoesStale(world: World, gone: World, res: ObjMetadata, g: NamespacedName)
    returns (states: seq<State>, steps: seq<Step>)
    requires Vanishes(world, res, gone)
    ensures IsRun(states, steps)
    ensures Stale(states[|states| - 1], g, res, world.Look(res).computed)
  {
    hide Next, IsRun;
    states, steps := CachedUntracked(world, res);
    states, steps := VanishNow(states, steps, res, gone);
    states, steps := TrackNow(states, steps, g, res);
    SettledWhenQuiet(states[|states| - 1], res);
  }

  /** The CRD of its kind goes, the object with it, and the handler lists the kind. */
  lemma CrdGoneNow(states: seq<State>, steps: seq<Step>, res: ObjMetadata, gone: World)
    returns (states': seq<State>, steps': seq<Step>)
    requires IsRun(states, steps)
    requires var s := states[|states| - 1]; Vanishes(s.world, res, gone) && s.notices == {} && s.clears == {}
    ensures IsRun(states', steps')
    ensures var s := states[|states| - 1];
            states'[|states'| - 1] ==
            Moved(s, gone).(clears := set r | r in s.index.owners && r.GK() == res.GK())
  {
    var s := states[|states| - 1];
    var s1 := Moved(s, gone).(notices := {} + {res.GK()});
    var s2 := Moved(s, gone).(clears := set r | r in s.index.owners && r.GK() == res.GK());
    assert s1.notices - {res.GK()} == {} && s1.clears + s2.clears == s2.clears;
    ExtendRun(states, steps, CrdChange(res.GK(), gone), s1);
    ExtendRun(states + [s1], steps + [CrdChange(res.GK(), gone)], List(res.GK()), s2);
    states', steps' := states + [s1] + [s2], steps + [CrdChange(res.GK(), gone)] + [List(res.GK())];
  }

  /** A CRD event resets only what is tracked when it comes. */
  lemma UntrackedStatusSurvivesCrd(world: World, gone: World, res: ObjMetadata, g: NamespacedName)
    returns (states: seq<State>, steps: seq<Step>)
    requires Vanishes(world, res, gone)
    ensures IsRun(states, steps)
    ensures Stale(states[|states| - 1], g, res, world.Look(res).computed)
  {
    hide Next, IsRun;
    states, steps := CachedUntracked(world, res);
    states, steps := CrdGoneNow(states, steps, res, gone);
    states, steps := TrackNow(states, steps, g, res);
    assert states[|states| - 1].clears == {};
    SettledWhenQuiet(states[|states| - 1], res);
  }

  /** The object is modified, and its event waits to be handled. */
  lemma ModifyNow(states: seq<State>, steps: seq<Step>, res: ObjMetadata)
    returns (states': seq<State>, steps': seq<Step>)
    requires IsRun(states, steps)
    requires var s := states[|states| - 1]; s.world.Look(res).Present? && s.rounds == map[] && s.events == []
    ensures IsRun(states', steps')
    ensures var s := states[|states| - 1];
            states'[|states'| - 1] == s.(events := [Event(Message(res, s.world.Look(res).computed, false), false)])
  {
    var s := states[|states| - 1];
    var s1 := s.(events := [Event(Message(res, s.world.Look(res).computed, false), false)]);
    assert Moved(s, s.world) == s;
    ExtendRun(states, steps, Change(res, s.world), s1);
    states', steps' := states + [s1], steps + [Change(res, s.world)];
  }

  lemma ClearNow(states: seq<State>, steps: seq<Step>, res: ObjMetadata)
    returns (states': seq<State>, steps': seq<Step>)
    requires IsRun(states, steps) && res in states[|states| - 1].clears
    ensures IsRun(states', steps')
    ensures var s := states[|states| - 1];
            states'[|states'| - 1] == WithStatus(s, res, None).(clears := s.clears - {res})
  {
    var s := states[|states| - 1];
    var s1 := WithStatus(s, res, None).(clears := s.clears - {res});
    ExtendRun(states, steps, Clear(res), s1);
    states', steps' := states + [s1], steps + [Clear(res)];
  }

  lemma HoldNow(states: seq<State>, steps: seq<Step>, m: Message) returns (states': seq<State>, steps': seq<Step>)
    requires IsRun(states, steps)
    requires var s := states[|states| - 1]; s.events == [Event(m, false)] && m.res in s.index.owners
    ensures IsRun(states', steps')
    ensures states'[|states'| - 1] == states[|states| - 1].(events := [Event(m, true)])
  {
    var s := states[|states| - 1];
    var s1 := s.(events := [Event(m, true)]);
    assert s.events[0 := Event(m, true)] == s1.events;
    ExtendRun(states, steps, Take(0), s1);
    states', steps' := states + [s1], steps + [Take(0)];
  }

  /** A watch event from before the CRD went is cached after the handler has reset the status. */
  lemma OldEventGoesStale(world: World, gone: World, res: ObjMetadata, g: NamespacedName)
    returns (states: seq<State>, steps: seq<Step>)
    requires Vanishes(world, res, gone)
    ensures IsRun(states, steps)
    ensures Stale(states[|states| - 1], g, res, world.Look(res).computed)
  {
    hide Next, IsRun;
    var stale := Message(res, world.Look(res).computed, true);
    states, steps := TrackedFirst(world, g, res);
    states, steps := ModifyNow(states, steps, res);
    states, steps := CrdGoneNow(states, steps, res, gone);
    states, steps := ClearNow(states, steps, res);
    states, steps := HoldNow(states, steps, stale);
    states, steps := CacheNow(states, steps, stale);
    SettledUnlessListed(states[|states| - 1], res);
  }

  lemma SettledUnlessListed(s: State, r: ObjMetadata)
    requires s.events == [] && s.notices == {} && r !in s.clears
    ensures !Unsettled(s, r)
  {
  }

  /** The steps do what the loop does: left alone, they fill the cache exactly as it does. */
  lemma {:induction false} LoopIsARun(states: seq<State>, steps: seq<Step>, metas: seq<ObjMetadata>)
    returns (states': seq<State>, steps': seq<Step>)
    requires IsRun(states, steps) && states[|states| - 1].rounds == map[]
    ensures IsRun(states', steps')
    ensures var s := states[|states| - 1];
            states'[|states'| - 1] ==
            s.(index := s.index.(statuses := FilledBy(s.world, s.index.statuses, metas)))
    decreases |metas|
  {
    states', steps' := states, steps;
    if metas != [] {
      var res := metas[|metas| - 1];
      states', steps' := LoopIsARun(states, steps, metas[..|metas| - 1]);
      states', steps' := RoundIsARun(states', steps', res);
    }
  }

  lemma RoundIsARun(states: seq<State>, steps: seq<Step>, res: ObjMetadata)
    returns (states': seq<State>, steps': seq<Step>)
    requires IsRun(states, steps) && states[|states| - 1].rounds == map[]
    ensures IsRun(states', steps')
    ensures var s := states[|states| - 1];
            states'[|states'| - 1] ==
            s.(index := s.index.(statuses := Remembered(s.world, s.index.statuses, res)))
  {
    var s := states[|states| - 1];
    hide Next, IsRun;
    states', steps' := states, steps;
    if Entry(s.index.statuses, res).None? && s.world.Look(res).Present? {
      states', steps' := AskNow(states', steps', res);
      states', steps' := StoreNow(states', steps', Message(res, s.world.Look(res).computed, false));
    }
  }

  /** What the watcher makes of an event is what the steps make of it: for a tracked resource
      `Take` and then `Cache`, for any other `Take` alone. */
  lemma HandleIsTakeAndCache(s: State, i: nat, deleted: bool, version: string, y: Index, sent: seq<NamespacedName>,
                             newVersion: string, ignored: bool)
    returns (t: State, u: State)
    requires i < |s.events| && !s.events[i].held
    requires var m := s.events[i].message;
             m.status == Reported(s.world, m.res) && deleted == s.world.Look(m.res).Absent?
    requires var m := s.events[i].message;
             !s.world.Look(m.res).Unreachable? &&
             var computed := match s.world.Look(m.res) case Present(c) => Some(c) case _ => None;
             var subject := FilteredWatchers.WatchedObject(m.res, version, computed);
             FilteredWatchers.HandledAsPromised(s.index, FilteredWatchers.Changed(deleted, Some(subject)), y, sent,
                                                newVersion, ignored, false)
    ensures Next(s, Take(i), t)
    ensures ignored ==> u == t
    ensures !ignored ==> Next(t, Cache(i), u)
    ensures u.index == y
  {
    var m := s.events[i].message;
    if m.res in s.index.owners {
      t := s.(events := s.events[i := s.events[i].(held := true)]);
      u := WithoutEvent(WithStatus(t, m.res, Some(m.status)), i);
    } else {
      t := WithoutEvent(s, i);
      u := t;
    }
  }
}
