/** The filtered watcher: it keeps one base watch open at a time, turns its events into
    cached statuses and group events, and restarts it until it is told to stop. */
module FilteredWatchers {
  import opened ApiTypes
  import opened ResourceIndex
  import opened ResourceMaps
  import opened CrdHandler
  import opened WatchProgress
  import ErrorTracker
  import L = WatchLifecycle

  /** An object in a watch event; `computed` is what ComputeStatus makes of it. */
  datatype WatchedObject = WatchedObject(id: ObjMetadata, version: string, computed: Option<CachedStatus>)

  /** None stands for an object of an unexpected type. */
  datatype WatchEvent =
    | Changed(deleted: bool, subject: Option<WatchedObject>)
    | Bookmark(version: Option<string>)
    | ErrorEvent(expired: bool, errorID: string)
    | Unsupported

  datatype TimedEvent = TimedEvent(event: WatchEvent, now: nat)

  const BOOKMARK_ERROR := "Bookmark"
  const WATCH_ERROR := "Error"
  const UNSUPPORTED_ERROR := "Unsupported"

  /** How the loop classifies an event. */
  function HeardAs(event: WatchEvent): Heard {
    match event
    case Changed(_, subject) => Good(if subject.Some? then subject.value.version else "")
    case Bookmark(version) => Good(if version.Some? then version.value else "")
    case ErrorEvent(expired, _) => Bad(expired)
    case Unsupported => Good("")
  }

  /** The status an event puts in the cache, if any. */
  function CachedBy(deleted: bool, subject: WatchedObject): Option<CachedStatus> {
    if deleted then Some(DELETED_STATUS) else subject.computed
  }

  /** An event about an untracked object changes nothing; one about a tracked object caches
      its status and sends one event to each group that includes it, and to no other. */
  ghost predicate EventOutcome(x: Index, event: WatchEvent, y: Index, events: seq<NamespacedName>) {
    match event
    case Changed(deleted, Some(subject)) =>
      if subject.id in x.owners then
        && y == (match CachedBy(deleted, subject)
                 case Some(status) => x.(statuses := x.statuses[subject.id := Some(status)])
                 case None => x)
        && NoDuplicates(events) && ToSet(events) == x.owners[subject.id]
      else y == x && events == []
    case _ => y == x && events == []
  }

  /** What one event leaves of the resource map. */
  function AfterOne(x: Index, event: WatchEvent): Index {
    match event
    case Changed(deleted, Some(subject)) =>
      if subject.id !in x.owners || CachedBy(deleted, subject).None? then x
      else x.(statuses := x.statuses[subject.id := CachedBy(deleted, subject)])
    case _ => x
  }

  /** What one session leaves of it. */
  function AfterSession(x: Index, events: seq<TimedEvent>): Index
    decreases |events|
  {
    if events == [] then x else
    var y := AfterOne(x, events[0].event);
    if events[0].event.ErrorEvent? then y else AfterSession(y, events[1..])
  }

  /** What whole sessions leave of it. */
  function AfterSessions(x: Index, sessions: seq<Session>): Index
    decreases |sessions|
  {
    if sessions == [] then x else
    AfterSession(AfterSessions(x, sessions[..|sessions| - 1]), sessions[|sessions| - 1].events)
  }

  /** What one event has to lead to, entry by entry: the version the object carries, its
      status if a group includes it, and one event to each group that does. */
  ghost predicate HandledAsPromised(x: Index, event: WatchEvent, y: Index, events: seq<NamespacedName>,
                                    newVersion: string, ignored: bool, err: bool) {
    && y == x.(statuses := y.statuses)
    && match event
       case Changed(deleted, Some(subject)) =>
         && newVersion == subject.version && !err
         && (subject.id !in x.owners ==> ignored && y.statuses == x.statuses && events == [])
         && (subject.id in x.owners ==>
               && !ignored
               && y.statuses == (if deleted then x.statuses[subject.id := Some(CachedStatus(NotFound, [], "", ""))]
                                 else if subject.computed.Some? then x.statuses[subject.id := subject.computed]
                                 else x.statuses)
               && forall g :: multiset(events)[g] == if g in x.owners[subject.id] then 1 else 0)
       case Changed(_, None) => newVersion == "" && !err && !ignored && y == x && events == []
       case Bookmark(Some(version)) => newVersion == version && !err && !ignored && y == x && events == []
       case Bookmark(None) => newVersion == "" && !err && !ignored && y == x && events == []
       case ErrorEvent(_, _) => err && !ignored && y == x && events == []
       case Unsupported => newVersion == "" && !err && !ignored && y == x && events == []
  }

  lemma OutcomeAsPromised(x: Index, event: WatchEvent, y: Index, events: seq<NamespacedName>,
                          newVersion: string, ignored: bool, err: bool)
    requires EventOutcome(x, event, y, events)
    requires err == event.ErrorEvent? && (!err ==> HeardAs(event) == Good(newVersion))
    requires ignored <==> event.Changed? && event.subject.Some? && event.subject.value.id !in x.owners
    ensures HandledAsPromised(x, event, y, events, newVersion, ignored, err)
  {
    if event.Changed? && event.subject.Some? && !ignored {
      forall g
        ensures multiset(events)[g] == if g in x.owners[event.subject.value.id] then 1 else 0
      {
        CountInDistinct(events, g);
        assert g in events <==> g in ToSet(events);
      }
    }
  }

  /** The calls on the error tracker one event leads to, beside the pruning before it. */
  function Reported(event: WatchEvent, now: nat): seq<ErrorTracker.Op> {
    match event
    case Bookmark(None) => [ErrorTracker.AddError("Bookmark", now)]
    case ErrorEvent(false, errorID) => [ErrorTracker.AddError("Error" + errorID, now)]
    case Unsupported => [ErrorTracker.AddError("Unsupported", now)]
    case _ => []
  }

  /** The calls of one session: before each event it gets to handle the tracker is pruned. */
  function TrackerCalls(events: seq<TimedEvent>): seq<ErrorTracker.Op> {
    if events == [] then [] else
    [ErrorTracker.PruneErrors(events[0].now)] + Reported(events[0].event, events[0].now) +
    if events[0].event.ErrorEvent? then [] else TrackerCalls(events[1..])
  }

  /** One round of the watch loop as its environment decides it: whether Stop was called
      before the round, whether the server accepts the watch, and the events it delivers. */
  datatype Session = Session(stopBefore: bool, opens: bool, events: seq<TimedEvent>)

  datatype RunResult = Running | Finished | StartFailed

  /** The events of one session the loop gets to handle: up to and including the first error. */
  function Handled(events: seq<TimedEvent>): seq<Heard> {
    if events == [] then [] else
    var first := HeardAs(events[0].event);
    if first.Bad? then [first] else [first] + Handled(events[1..])
  }

  /** Everything handled over whole sessions. */
  function History(sessions: seq<Session>): seq<Heard> {
    if sessions == [] then [] else History(sessions[..|sessions| - 1]) + Handled(sessions[|sessions| - 1].events)
  }

  /** The first error is handled and nothing after it. */
  lemma {:induction false} HandledUpToError(events: seq<TimedEvent>) returns (n: nat)
    ensures n <= |events| && |Handled(events)| == n
    ensures forall i | 0 <= i < n :: Handled(events)[i] == HeardAs(events[i].event)
    ensures forall i | 0 <= i < n - 1 :: !events[i].event.ErrorEvent?
    ensures n < |events| ==> n > 0 && events[n - 1].event.ErrorEvent?
  {
    n := 0;
    if events != [] {
      if events[0].event.ErrorEvent? {
        n := 1;
      } else {
        var rest := HandledUpToError(events[1..]);
        n := rest + 1;
      }
    }
  }

  predicate Uneventful(sessions: seq<Session>) {
    forall i | 0 <= i < |sessions| :: !sessions[i].stopBefore && sessions[i].opens
  }

  /** How a run over these sessions ends, and how many of them it works through; `stopped`
      says whether Stop was called before the run. */
  function Ending(stopped: bool, sessions: seq<Session>): (r: (RunResult, nat))
    ensures r.1 <= |sessions| && Uneventful(sessions[..r.1])
    ensures r.0.Running? ==> r.1 == |sessions|
    ensures r.0.Finished? ==> r.1 < |sessions| && ((stopped && r.1 == 0) || sessions[r.1].stopBefore)
    ensures r.0.StartFailed? ==> r.1 < |sessions| && !sessions[r.1].stopBefore && !sessions[r.1].opens
    ensures stopped && sessions != [] ==> r.0.Finished? && r.1 == 0
  {
    if sessions == [] then (Running, 0)
    else if stopped || sessions[0].stopBefore then (Finished, 0)
    else if !sessions[0].opens then (StartFailed, 0)
    else
      var rest := Ending(false, sessions[1..]);
      assert sessions[..rest.1 + 1] == [sessions[0]] + sessions[1..][..rest.1];
      (rest.0, rest.1 + 1)
  }

  /** Where a run stands after i sessions: what is still to come decides the rest. */
  ghost predicate Reached(stopped: bool, sessions: seq<Session>, i: nat, now: bool)
    requires i <= |sessions|
  {
    var rest := Ending(now, sessions[i..]);
    Ending(stopped, sessions) == (rest.0, i + rest.1)
  }

  lemma ReachedStart(stopped: bool, sessions: seq<Session>)
    ensures Reached(stopped, sessions, 0, stopped)
  {
    assert sessions[0..] == sessions;
  }

  lemma ReachedNext(stopped: bool, sessions: seq<Session>, i: nat, now: bool)
    requires i < |sessions| && Reached(stopped, sessions, i, now)
    ensures var session := sessions[i];
            if now || session.stopBefore then Ending(stopped, sessions) == (Finished, i)
            else if !session.opens then Ending(stopped, sessions) == (StartFailed, i)
            else Reached(stopped, sessions, i + 1, false)
  {
    assert sessions[i..][0] == sessions[i] && sessions[i..][1..] == sessions[i + 1..];
  }

  lemma ReachedEnd(stopped: bool, sessions: seq<Session>, now: bool)
    requires Reached(stopped, sessions, |sessions|, now)
    ensures Ending(stopped, sessions) == (Running, |sessions|)
  {
  }

  lemma HistoryGrows(sessions: seq<Session>, i: nat)
    requires i < |sessions|
    ensures History(sessions[..i + 1]) == History(sessions[..i]) + Handled(sessions[i].events)
  {
    assert sessions[..i + 1][..i] == sessions[..i];
  }

  class BaseWatch {
    var live: bool

    constructor (live: bool)
      ensures this.live == live
    {
      this.live := live;
    }

    method Stop()
      modifies this
      ensures !live
    {
      live := false;
    }
  }

  class FilteredWatcher {
    const resources: ResourceMap
    const channel: EventChannel
    var errorTracker: map<string, nat>
    var base: BaseWatch
    var stopped: bool

    /** How long the watcher has slept before each retry, in milliseconds. */
    var slept: seq<nat>

    // The base watches opened so far, which of them is current, the version each call of
    // startWatch has asked for, and the calls on the error tracker.
    ghost var empty: BaseWatch
    ghost var watches: seq<BaseWatch>
    ghost var current: Option<nat>
    ghost var asked: seq<string>
    ghost var trackerCalls: seq<ErrorTracker.Op>

    ghost function State(): L.Lifecycle
      reads this, watches
    {
      L.Lifecycle(|watches|, (set i | 0 <= i < |watches| && watches[i].live), current, stopped, |asked|)
    }

    ghost predicate Valid()
      reads this, empty, watches
    {
      && !empty.live && empty !in watches
      && (forall i, j | 0 <= i < j < |watches| :: watches[i] != watches[j])
      && L.Tidy(State())
      && base == (if current.Some? then watches[current.value] else empty)
    }

    /** The tracker is what its calls so far make of it. */
    ghost predicate Tracking()
      reads this`errorTracker, this`trackerCalls
    {
      errorTracker == ErrorTracker.After(trackerCalls, true)
    }

    constructor (resources: ResourceMap, channel: EventChannel)
      ensures Tracking() && asked == [] && slept == []
      ensures Valid() && State() == L.FRESH && fresh(base)
      ensures this.resources == resources && this.channel == channel && errorTracker == map[]
    {
      this.resources, this.channel := resources, channel;
      errorTracker := map[];
      var first := new BaseWatch(false);
      base, empty, stopped := first, first, false;
      watches, current, asked, slept, trackerCalls := [], None, [], [], [];
    }

    method PruneErrors(now: nat)
      modifies this`errorTracker, this`trackerCalls
      ensures errorTracker == ErrorTracker.Pruned(old(errorTracker), now)
      ensures trackerCalls == old(trackerCalls) + [ErrorTracker.PruneErrors(now)]
      ensures old(Tracking()) ==> Tracking()
    {
      var rest := errorTracker.Keys;
      while rest != {}
        invariant rest <= errorTracker.Keys <= old(errorTracker).Keys && trackerCalls == old(trackerCalls)
        invariant forall e | e in errorTracker :: errorTracker[e] == old(errorTracker)[e]
        invariant forall e | e in old(errorTracker) && e !in rest ::
                    e in errorTracker <==> !ErrorTracker.Expired(old(errorTracker)[e], now)
        invariant forall e | e in rest :: e in old(errorTracker)
        decreases rest
      {
        var errName :| errName in rest;
        if ErrorTracker.Expired(errorTracker[errName], now) {
          errorTracker := errorTracker - {errName};
        }
        rest := rest - {errName};
      }
      ghost var call := ErrorTracker.PruneErrors(now);
      assert (trackerCalls + [call])[..|trackerCalls|] == trackerCalls;
      trackerCalls := trackerCalls + [call];
    }

    method AddError(errorID: string, now: nat) returns (notIgnored: bool)
      modifies this`errorTracker, this`trackerCalls
      ensures notIgnored == ErrorTracker.Accepts(old(errorTracker), errorID, now)
      ensures errorTracker == ErrorTracker.Added(old(errorTracker), errorID, now)
      ensures trackerCalls == old(trackerCalls) + [ErrorTracker.AddError(errorID, now)]
      ensures old(Tracking()) ==>
                Tracking() && notIgnored == ErrorTracker.Answer(trackerCalls, |old(trackerCalls)|, true)
    {
      ghost var call := ErrorTracker.AddError(errorID, now);
      assert (trackerCalls + [call])[..|trackerCalls|] == trackerCalls;
      trackerCalls := trackerCalls + [call];
      if errorID !in errorTracker || now - errorTracker[errorID] >= ErrorTracker.ERROR_LOGGING_INTERVAL {
        errorTracker := errorTracker[errorID := now];
        return true;
      }
      return false;
    }

    method WaitUntilNextRetry(retries: nat)
      modifies this`slept
      ensures slept == old(slept) + [Delay(retries)]
    {
      slept := slept + [Pow2(if retries > MAX_WATCH_RETRY_FACTOR then MAX_WATCH_RETRY_FACTOR else retries)];
    }

    method Stop()
      modifies this`stopped, base
      ensures stopped && !base.live
      ensures old(Valid()) ==> Valid() && State() == L.Next(old(State()), L.Stop)
    {
      forall i | Valid() && 0 <= i < |watches| && watches[i].live
        ensures watches[i] == base
      {
        assert i in State().live;
      }
      base.Stop();
      stopped := true;
    }

    /** `opens` is the API server's answer to startWatch. */
    method Start(resourceVersion: string, opens: bool) returns (started: bool, failed: bool)
      requires Valid()
      modifies this`base, this`watches, this`current, this`asked, base
      ensures Valid()
      ensures started == (!stopped && opens) && failed == (!stopped && !opens)
      ensures State() == L.Next(old(State()), L.Start(opens))
      ensures asked == if stopped then old(asked) else old(asked) + [resourceVersion]
      ensures stopped ==> base == old(base)
      ensures started ==> fresh(base) && base.live
      ensures !started ==> !base.live
      ensures failed ==> base == old(base) && !base.live
    {
      L.StepKeepsTidy(State(), L.Start(opens));
      if stopped {
        forall i | 0 <= i < |watches|
          ensures !watches[i].live
        {
          assert i !in State().live;
        }
        return false, false;
      }
      base.Stop();
      asked := asked + [resourceVersion];
      if !opens {
        return false, true;
      }
      base := new BaseWatch(true);
      current, watches := Some(|watches|), watches + [base];
      assert State() == L.Next(old(State()), L.Start(opens));
      return true, false;
    }

    method Handle(event: WatchEvent, now: nat) returns (newVersion: string, ignored: bool, err: bool)
      requires resources.Valid()
      modifies this`errorTracker, this`trackerCalls, resources`resToStatus, channel
      ensures resources.Valid() && (old(Tracking()) ==> Tracking())
      ensures old(channel.sent) <= channel.sent
      ensures trackerCalls == old(trackerCalls) + if event.ErrorEvent? then [] else Reported(event, now)
      ensures resources.View() == AfterOne(old(resources.View()), event)
      ensures HandledAsPromised(old(resources.View()), event, resources.View(),
                                channel.sent[|old(channel.sent)|..], newVersion, ignored, err)
      ensures HeardAs(event) == if err then Bad(event.ErrorEvent? && event.expired) else Good(newVersion)
      ensures err == event.ErrorEvent?
      ensures ignored <==> event.Changed? && event.subject.Some? && event.subject.value.id !in resources.View().owners
      ensures EventOutcome(old(resources.View()), event, resources.View(), channel.sent[|old(channel.sent)|..])
    {
      hide ResourceMap.Valid, HandledAsPromised, Tracking, Reported;
      newVersion, ignored, err := HandleEvent(event, now);
      OutcomeAsPromised(old(resources.View()), event, resources.View(), channel.sent[|old(channel.sent)|..],
                        newVersion, ignored, err);
    }

    method HandleEvent(event: WatchEvent, now: nat) returns (newVersion: string, ignored: bool, err: bool)
      requires resources.Valid()
      modifies this`errorTracker, this`trackerCalls, resources`resToStatus, channel
      ensures resources.Valid() && (old(Tracking()) ==> Tracking())
      ensures old(channel.sent) <= channel.sent
      ensures trackerCalls == old(trackerCalls) + if event.ErrorEvent? then [] else Reported(event, now)
      ensures HeardAs(event) == if err then Bad(event.ErrorEvent? && event.expired) else Good(newVersion)
      ensures err == event.ErrorEvent?
      ensures ignored <==> event.Changed? && event.subject.Some? && event.subject.value.id !in resources.View().owners
      ensures EventOutcome(old(resources.View()), event, resources.View(), channel.sent[|old(channel.sent)|..])
    {
      hide ResourceMap.Valid, Tracking;
      match event
      case Bookmark(version) =>
        if version.None? {
          var _ := AddError(BOOKMARK_ERROR, now);
          return "", false, false;
        }
        return version.value, false, false;
      case ErrorEvent(_, _) =>
        return "", false, true;
      case Unsupported =>
        var _ := AddError(UNSUPPORTED_ERROR, now);
        return "", false, false;
      case Changed(deleted, subject) =>
        if subject.None? {
          return "", false, false;
        }
        var id := subject.value.id;
        if !resources.HasResource(id) {
          return subject.value.version, true, false;
        }
        if deleted {
          resources.SetStatus(id, Some(DELETED_STATUS));
        } else if subject.value.computed.Some? {
          resources.SetStatus(id, subject.value.computed);
        }
        var groups := resources.Get(id);
        channel.SendAll(groups);
        assert channel.sent[|old(channel.sent)|..] == groups;
        return subject.value.version, false, false;
    }

    /** One session's events: handle them in order, and stop at the first error. */
    method Drain(events: seq<TimedEvent>, resourceVersion: string, retries: nat, ghost heard: seq<Heard>)
      returns (resourceVersion': string, retries': nat)
      requires resources.Valid() && Tracking()
      requires resourceVersion == RestartVersion(heard) && retries == Retries(heard)
      modifies this`errorTracker, this`trackerCalls, this`slept, resources`resToStatus, channel
      ensures resources.Valid() && Tracking()
      ensures resourceVersion' == RestartVersion(heard + Handled(events))
      ensures retries' == Retries(heard + Handled(events))
      ensures old(slept) <= slept && Waits(heard) + slept[|old(slept)|..] == Waits(heard + Handled(events))
      ensures trackerCalls == old(trackerCalls) + TrackerCalls(events)
      ensures resources.View() == AfterSession(old(resources.View()), events)
    {
      hide ResourceMap.Valid, EventOutcome, HandledAsPromised, HeardAs, Handled, RestartVersion, Retries, Waits, Delay;
      hide Tracking, TrackerCalls, Reported, AfterOne, AfterSession;
      resourceVersion', retries' := resourceVersion, retries;
      ghost var soFar := heard;
      for i := 0 to |events|
        invariant resources.Valid() && Tracking()
        invariant soFar + Handled(events[i..]) == heard + Handled(events)
        invariant trackerCalls + TrackerCalls(events[i..]) == old(trackerCalls) + TrackerCalls(events)
        invariant AfterSession(resources.View(), events[i..]) == AfterSession(old(resources.View()), events)
        invariant resourceVersion' == RestartVersion(soFar) && retries' == Retries(soFar)
        invariant slept == old(slept) && Waits(soFar) == Waits(heard)
      {
        HandledFirst(events, i, soFar);
        CalledFirst(events, i, trackerCalls);
        AbsorbedFirst(resources.View(), events, i);
        PruneErrors(events[i].now);
        var newVersion, _, err := Handle(events[i].event, events[i].now);
        OneMore(soFar, HeardAs(events[i].event));
        soFar := soFar + [HeardAs(events[i].event)];
        if err {
          ErrorReported(events[i].event, events[i].now);
          if events[i].event.expired {
            resourceVersion' := "";
          } else {
            var _ := AddError(WATCH_ERROR + events[i].event.errorID, events[i].now);
          }
          retries' := retries' + 1;
          WaitUntilNextRetry(retries');
          assert soFar == heard + Handled(events);
          return;
        }
        retries' := 0;
        if newVersion != "" {
          resourceVersion' := newVersion;
        }
      }
      NoneHandled(events);
      NoneAbsorbed(resources.View(), events);
      assert soFar == heard + Handled(events);
    }

    /** One round: Stop if it was called, start, and drain what the server delivers. */
    method Round(session: Session, resourceVersion: string, retries: nat, ghost heard: seq<Heard>)
      returns (ended: Option<RunResult>, resourceVersion': string, retries': nat)
      requires Valid() && resources.Valid() && Tracking()
      requires resourceVersion == RestartVersion(heard) && retries == Retries(heard)
      modifies this, base, resources`resToStatus, channel
      ensures Valid() && resources.Valid() && Tracking()
      ensures ended ==
              if old(stopped) || session.stopBefore then Some(Finished)
              else if !session.opens then Some(StartFailed) else None
      ensures asked == old(asked) + if ended == Some(Finished) then [] else [resourceVersion]
      ensures ended.None? ==>
                && !stopped && fresh(base)
                && resourceVersion' == RestartVersion(heard + Handled(session.events))
                && retries' == Retries(heard + Handled(session.events))
                && old(slept) <= slept
                && Waits(heard) + slept[|old(slept)|..] == Waits(heard + Handled(session.events))
      ensures ended.Some? ==> slept == old(slept) && !base.live
      ensures resources.View() ==
              if ended.Some? then old(resources.View()) else AfterSession(old(resources.View()), session.events)
    {
      hide ResourceMap.Valid, RestartVersion, Retries, Waits, Handled, TrackerCalls, AfterSession;
      resourceVersion', retries' := resourceVersion, retries;
      if session.stopBefore {
        Stop();
      }
      var started, failed := Start(resourceVersion, session.opens);
      if failed {
        return Some(StartFailed), resourceVersion', retries';
      }
      if !started {
        return Some(Finished), resourceVersion', retries';
      }
      ended := None;
      resourceVersion', retries' := Drain(session.events, resourceVersion, retries, heard);
    }

    /** Each start asks for the version everything handled so far says to restart at, and
        each pause is the one the current streak of errors calls for. */
    method Run(sessions: seq<Session>) returns (result: RunResult)
      requires Valid() && resources.Valid() && Tracking()
      modifies this, base, resources`resToStatus, channel
      ensures Valid() && resources.Valid() && Tracking()
      ensures result == Ending(old(stopped), sessions).0
      ensures var n := Ending(old(stopped), sessions).1;
              && asked == old(asked) + Starts(sessions, n + if result == StartFailed then 1 else 0)
              && slept == old(slept) + Waits(History(sessions[..n]))
              && resources.View() == AfterSessions(old(resources.View()), sessions[..n])
      ensures result != Running ==> !base.live
    {
      RunStarts(sessions);
      hide ResourceMap.Valid, Valid, RestartVersion, Retries, Waits, Handled, History, Ending, Reached, State;
      hide Starts, Tracking, AfterSessions, AfterSession;
      ReachedStart(stopped, sessions);
      NothingAbsorbed(resources.View(), sessions);
      var resourceVersion, retries := "", 0;
      var i := 0;
      while i < |sessions|
        invariant 0 <= i <= |sessions|
        invariant Valid() && resources.Valid() && Tracking()
        invariant base == old(base) || fresh(base)
        invariant Reached(old(stopped), sessions, i, stopped)
        invariant resourceVersion == RestartVersion(History(sessions[..i]))
        invariant retries == Retries(History(sessions[..i]))
        invariant asked == old(asked) + Starts(sessions, i)
        invariant slept == old(slept) + Waits(History(sessions[..i]))
        invariant resources.View() == AfterSessions(old(resources.View()), sessions[..i])
      {
        ReachedNext(old(stopped), sessions, i, stopped);
        HistoryGrows(sessions, i);
        StartsGrow(sessions, i);
        AbsorbedNext(old(resources.View()), sessions, i);
        ghost var before := slept;
        var ended, version, errors := Round(sessions[i], resourceVersion, retries, History(sessions[..i]));
        if ended.Some? {
          return ended.value;
        }
        assert slept == before + slept[|before|..];
        resourceVersion, retries := version, errors;
        i := i + 1;
      }
      ReachedEnd(old(stopped), sessions, stopped);
      result := Running;
    }
  }

  /** The versions the first n starts have to ask for. */
  function Starts(sessions: seq<Session>, n: nat): (versions: seq<string>)
    requires n <= |sessions|
    ensures |versions| == n
    ensures forall i | 0 <= i < n :: versions[i] == RestartVersion(History(sessions[..i]))
  {
    seq(n, i requires 0 <= i < n => RestartVersion(History(sessions[..i])))
  }

  lemma StartsGrow(sessions: seq<Session>, n: nat)
    requires n < |sessions|
    ensures Starts(sessions, n + 1) == Starts(sessions, n) + [RestartVersion(History(sessions[..n]))]
  {
  }

  lemma AbsorbedFirst(x: Index, events: seq<TimedEvent>, i: nat)
    requires i < |events|
    ensures var y := AfterOne(x, events[i].event);
            AfterSession(x, events[i..]) == if events[i].event.ErrorEvent? then y else AfterSession(y, events[i + 1..])
  {
    hide AfterOne;
    assert events[i..][0] == events[i] && events[i..][1..] == events[i + 1..];
  }

  lemma NoneAbsorbed(x: Index, events: seq<TimedEvent>)
    ensures AfterSession(x, events[|events|..]) == x
  {
  }

  lemma NothingAbsorbed(x: Index, sessions: seq<Session>)
    ensures AfterSessions(x, sessions[..0]) == x
  {
  }

  lemma AbsorbedNext(x: Index, sessions: seq<Session>, i: nat)
    requires i < |sessions|
    ensures AfterSessions(x, sessions[..i + 1]) ==
            AfterSession(AfterSessions(x, sessions[..i]), sessions[i].events)
  {
    hide AfterSession;
    assert sessions[..i + 1][..i] == sessions[..i];
  }

  lemma CalledFirst(events: seq<TimedEvent>, i: nat, calls: seq<ErrorTracker.Op>)
    requires i < |events|
    ensures var first := events[i];
            calls + TrackerCalls(events[i..]) ==
            calls + [ErrorTracker.PruneErrors(first.now)] + Reported(first.event, first.now) +
            if first.event.ErrorEvent? then [] else TrackerCalls(events[i + 1..])
  {
    hide Reported;
    assert events[i..][0] == events[i] && events[i..][1..] == events[i + 1..];
  }

  lemma ErrorReported(event: WatchEvent, now: nat)
    requires event.ErrorEvent?
    ensures Reported(event, now) ==
            if event.expired then [] else [ErrorTracker.AddError(WATCH_ERROR + event.errorID, now)]
  {
  }

  lemma HandledFirst(events: seq<TimedEvent>, i: nat, heard: seq<Heard>)
    requires i < |events|
    ensures var next := HeardAs(events[i].event);
            heard + Handled(events[i..]) == heard + [next] + if next.Bad? then [] else Handled(events[i + 1..])
  {
    hide HeardAs;
    assert events[i..][0] == events[i] && events[i..][1..] == events[i + 1..];
  }

  lemma NoneHandled(events: seq<TimedEvent>)
    ensures Handled(events[|events|..]) == [] && TrackerCalls(events[|events|..]) == []
  {
  }

  lemma RunStarts(sessions: seq<Session>)
    ensures History(sessions[..0]) == [] && Starts(sessions, 0) == []
    ensures RestartVersion([]) == "" && Retries([]) == 0 && Waits([]) == []
  {
  }
}
