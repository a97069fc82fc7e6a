/** The autodiscovery executor of src/lib/autodiscovery/autodiscovery_task_executor.py: a
    background loop that discovers services, and callers that publish new extensions to it.
    A step runs from one await to the next. */
module Autodiscovery {
  import opened Sequences
  import opened Wrappers

  /** What is published, discovered and registered, by identity. */
  type Services = nat
  type Discovered = nat
  type Observer = nat

  /** The fields of the executor. `called` lists the observers called so far. */
  datatype Executor = Executor(cachedServices: Services, extensionVersionsHash: int, notifyEvent: bool,
                               autodiscoveredCachedService: Option<Discovered>, observers: seq<Observer>,
                               isTaskRunning: bool, called: seq<Observer>)

  function Reversed<T>(list: seq<T>): (reversed: seq<T>)
    ensures |reversed| == |list|
  {
    if list == [] then [] else [list[|list| - 1]] + Reversed(list[..|list| - 1])
  }

  /** All observers called, the last registered first. */
  function Notified(x: Executor): Executor {
    x.(observers := [], called := x.called + Reversed(x.observers))
  }

  function Stored(x: Executor, result: Option<Discovered>): Executor {
    Notified(if result.Some? then x.(autodiscoveredCachedService := result) else x)
  }

  function Disabled(x: Executor): Executor {
    Notified(x.(isTaskRunning := false))
  }

  function Published(x: Executor, services: Services, hash: int): Executor {
    x.(notifyEvent := true, extensionVersionsHash := hash, cachedServices := services)
  }

  class AutodiscoveryTaskExecutor {
    var cachedServices: Services
    var extensionVersionsHash: int
    var notifyEvent: bool
    var autodiscoveredCachedService: Option<Discovered>
    var observers: seq<Observer>
    var isTaskRunning: bool
    ghost var called: seq<Observer>

    ghost function Fields(): Executor
      reads this
    {
      Executor(cachedServices, extensionVersionsHash, notifyEvent, autodiscoveredCachedService, observers,
               isTaskRunning, called)
    }

    constructor (services: Services, hash: int, initObservers: seq<Observer>)
      ensures Fields() == Executor(services, hash, false, None, initObservers, true, [])
    {
      cachedServices, extensionVersionsHash, notifyEvent := services, hash, false;
      autodiscoveredCachedService, observers, isTaskRunning := None, initObservers, true;
      called := [];
    }

    /** `_notify_observers` pops and calls until none is left. */
    method NotifyObservers()
      modifies this`observers, this`called
      ensures Fields() == Notified(old(Fields()))
      ensures observers == [] && |called| == |old(called)| + |old(observers)| && old(called) <= called
      ensures forall k :: |old(called)| <= k < |called| ==>
                called[k] == old(observers)[|old(observers)| - 1 - (k - |old(called)|)]
    {
      ReversedAt(observers);
      while observers != []
        invariant called + Reversed(observers) == old(called) + Reversed(old(observers))
        decreases |observers|
      {
        var observer := observers[|observers| - 1];
        PopOne(called, observers);
        observers := observers[..|observers| - 1];
        called := called + [observer];
      }
      assert called + Reversed(observers) == called;
    }

    method AddObserver(observer: Observer)
      modifies this`observers
      ensures Fields() == old(Fields()).(observers := old(observers) + [observer])
    {
      observers := observers + [observer];
    }

    /** What the loop does with a result. */
    method StoreResult(result: Option<Discovered>)
      modifies this
      ensures Fields() == Stored(old(Fields()), result) && observers == []
      ensures autodiscoveredCachedService == if result.Some? then result else old(autodiscoveredCachedService)
    {
      if result.Some? {
        autodiscoveredCachedService := result;
      }
      NotifyObservers();
    }

    /** What the loop does before it ends with an exception. */
    method Disable()
      modifies this
      ensures Fields() == Disabled(old(Fields())) && observers == [] && !isTaskRunning
    {
      isTaskRunning := false;
      NotifyObservers();
    }

    /** `_update_extensions` when no other caller comes between. */
    method UpdateExtensions(newHash: int, services: Services)
      modifies this
      ensures Fields() == if newHash == old(extensionVersionsHash) then old(Fields())
                          else old(Fields()).(notifyEvent := true, extensionVersionsHash := newHash,
                                              cachedServices := services)
    {
      if newHash != extensionVersionsHash {
        notifyEvent := true;
        extensionVersionsHash := newHash;
        cachedServices := services;
      }
    }

    /** `process_autodiscovery_result` when no other caller comes between: the services to
        query, with the discovered one added while the loop runs and has found one. */
    method ProcessAutodiscoveryResult(services: seq<Services>, published: Services, newHash: int)
      returns (result: seq<Services>)
      modifies this
      ensures result == services + if old(isTaskRunning) && old(autodiscoveredCachedService).Some?
                                   then [old(autodiscoveredCachedService).value] else []
      ensures Fields() == if !old(isTaskRunning) || newHash == old(extensionVersionsHash) then old(Fields())
                          else old(Fields()).(notifyEvent := true, extensionVersionsHash := newHash,
                                              cachedServices := published)
    {
      result := services;
      if isTaskRunning {
        UpdateExtensions(newHash, published);
        if autodiscoveredCachedService.Some? {
          result := result + [autodiscoveredCachedService.value];
        }
      }
    }
  }

  lemma {:induction false} ReversedAt(list: seq<Observer>)
    ensures forall k :: 0 <= k < |list| ==> Reversed(list)[k] == list[|list| - 1 - k]
  {
    if list != [] { ReversedAt(list[..|list| - 1]); }
  }

  lemma PopOne(called: seq<Observer>, observers: seq<Observer>)
    requires observers != []
    ensures called + Reversed(observers)
            == (called + [observers[|observers| - 1]]) + Reversed(observers[..|observers| - 1])
  {
    ConcatIsAssociative(called, [observers[|observers| - 1]], Reversed(observers[..|observers| - 1]));
  }

  // ---- The loop and its callers ----

  /** Where the loop stands: not begun, awaiting a discovery, about to store its result,
      awaiting the event, about to clear it, or over. */
  datatype Loop = Starting | Discovering | Storing(result: Option<Discovered>) | Waiting | Clearing | Dead

  /** A caller of `process_autodiscovery_result`: elsewhere, about to publish, or about to
      read the cached service. */
  datatype Caller = Away | Publishing(services: Services, hash: int) | Reading

  /** `published` counts the publications and `read` those that the last discovery attempt
      had seen, with `readServices` the services it got. `registered` are the observers
      registered while the loop was alive, `late` those registered after. */
  datatype State = State(x: Executor, loop: Loop, callers: seq<Caller>, published: nat, read: nat,
                         readServices: Services, registered: seq<Observer>, late: seq<Observer>)

  datatype Step =
    | Begin
    | DiscoveryEnds(result: Option<Discovered>)
    | DiscoveryTimesOut
    | DiscoveryFails
    | Store
    | Wake
    | QueryTimeElapsed
    | Clear
    | Check(caller: nat, services: Services, hash: int)
    | Publish(caller: nat)
    | ReadCached(caller: nat)
    | Register(observer: Observer)

  predicate IsLoopStep(step: Step) {
    !step.Check? && !step.Publish? && !step.ReadCached? && !step.Register?
  }

  predicate Enabled(s: State, step: Step) {
    match step
    case Begin => s.loop.Starting?
    case DiscoveryEnds(_) => s.loop.Discovering?
    case DiscoveryTimesOut => s.loop.Discovering?
    case DiscoveryFails => s.loop.Discovering?
    case Store => s.loop.Storing?
    case Wake => s.loop.Waiting? && s.x.notifyEvent
    case QueryTimeElapsed => s.loop.Waiting?
    case Clear => s.loop.Clearing?
    case Check(caller, _, _) => caller < |s.callers| && s.callers[caller].Away? && s.x.isTaskRunning
    case Publish(caller) => caller < |s.callers| && s.callers[caller].Publishing?
    case ReadCached(caller) => caller < |s.callers| && s.callers[caller].Reading?
    case Register(_) => true
  }

  /** The loop begins an attempt with the services as they are. */
  function Attempt(s: State): State {
    s.(loop := Discovering, read := s.published, readServices := s.x.cachedServices)
  }

  function Next(s: State, step: Step): State
    requires Enabled(s, step)
  {
    match step
    case Begin => Attempt(s)
    case DiscoveryEnds(result) => s.(loop := Storing(result))
    case DiscoveryTimesOut => Attempt(s)
    case DiscoveryFails => s.(loop := Dead, x := Disabled(s.x))
    case Store => s.(loop := Waiting, x := Stored(s.x, s.loop.result))
    case Wake => s.(loop := Clearing)
    case QueryTimeElapsed => Attempt(s)
    case Clear => Attempt(s.(x := s.x.(notifyEvent := false)))
    case Check(caller, services, hash) =>
      var publishes := hash != s.x.extensionVersionsHash;
      s.(callers := s.callers[caller := if publishes then Publishing(services, hash) else Reading])
    case Publish(caller) =>
      s.(x := Published(s.x, s.callers[caller].services, s.callers[caller].hash), published := s.published + 1,
         callers := s.callers[caller := Reading])
    case ReadCached(caller) => s.(callers := s.callers[caller := Away])
    case Register(observer) =>
      var x := s.x.(observers := s.x.observers + [observer]);
      if s.loop.Dead? then s.(x := x, late := s.late + [observer])
      else s.(x := x, registered := s.registered + [observer])
  }

  function NoCallers(count: nat): seq<Caller> {
    if count == 0 then [] else NoCallers(count - 1) + [Away]
  }

  function Init(services: Services, hash: int, initObservers: seq<Observer>, callers: nat): State {
    State(Executor(services, hash, false, None, initObservers, true, []), Starting, NoCallers(callers),
          0, 0, services, initObservers, [])
  }

  /** The state after any run from `init`; a step that is not possible changes nothing. */
  function Run(init: State, steps: seq<Step>): State {
    if steps == [] then init
    else
      var s := Run(init, steps[..|steps| - 1]);
      if Enabled(s, steps[|steps| - 1]) then Next(s, steps[|steps| - 1]) else s
  }

  // ---- No update is lost ----

  /** While the loop is alive, services published after the last attempt began either have
      the event set or the loop about to begin an attempt; with none published since, the
      last attempt got the newest services. */
  predicate NoLostUpdate(s: State) {
    && s.read <= s.published
    && (s.read < s.published && !s.loop.Dead? ==> s.x.notifyEvent || s.loop.Starting? || s.loop.Clearing?)
    && (s.read == s.published ==> s.readServices == s.x.cachedServices)
    && (s.x.isTaskRunning <==> !s.loop.Dead?)
  }

  lemma NextKeepsUpdates(s: State, step: Step)
    requires Enabled(s, step) && NoLostUpdate(s)
    ensures NoLostUpdate(Next(s, step))
  {
  }

  lemma {:induction false} UpdatesAreNeverLost(services: Services, hash: int, initObservers: seq<Observer>,
                                               callers: nat, steps: seq<Step>)
    ensures NoLostUpdate(Run(Init(services, hash, initObservers, callers), steps))
  {
    if steps != [] {
      var init := Init(services, hash, initObservers, callers);
      var s := Run(init, steps[..|steps| - 1]);
      UpdatesAreNeverLost(services, hash, initObservers, callers, steps[..|steps| - 1]);
      if Enabled(s, steps[|steps| - 1]) { NextKeepsUpdates(s, steps[|steps| - 1]); }
    }
  }

  /** The loop steps until the next attempt begins, when the event is set. */
  function Distance(loop: Loop): nat {
    match loop
    case Starting => 1
    case Discovering => 4
    case Storing(_) => 3
    case Waiting => 2
    case Clearing => 1
    case Dead => 0
  }

  /** The publications of a time have reached an attempt, or the loop is over. */
  predicate Reached(s: State, published: nat) {
    s.read >= published || s.loop.Dead?
  }

  /** The loop steps of a run that were possible when their turn came. */
  function LoopSteps(init: State, steps: seq<Step>, later: seq<Step>): nat {
    if later == [] then 0
    else
      var last := |later| - 1;
      LoopSteps(init, steps, later[..last])
      + if IsLoopStep(later[last]) && Enabled(Run(init, steps + later[..last]), later[last]) then 1 else 0
  }

  lemma StepNearer(s: State, step: Step, published: nat)
    requires Enabled(s, step) && NoLostUpdate(s) && published <= s.published
    ensures Reached(s, published) ==> Reached(Next(s, step), published)
    ensures Reached(Next(s, step), published)
            || Distance(Next(s, step).loop) + (if IsLoopStep(step) then 1 else 0) <= Distance(s.loop)
    ensures s.published <= Next(s, step).published
  {
  }

  predicate Nearer(init: State, steps: seq<Step>, later: seq<Step>, published: nat) {
    var t := Run(init, steps + later);
    && published <= t.published
    && (Reached(t, published) || Distance(t.loop) + LoopSteps(init, steps, later) <= Distance(Run(init, steps).loop))
  }

  lemma OneNearer(init: State, steps: seq<Step>, later: seq<Step>, step: Step, published: nat)
    requires NoLostUpdate(Run(init, steps + later)) && Nearer(init, steps, later, published)
    ensures Nearer(init, steps, later + [step], published)
  {
    var s := Run(init, steps + later);
    ConcatIsAssociative(steps, later, [step]);
    DropLast(steps + later, step);
    DropLast(later, step);
    if Enabled(s, step) { StepNearer(s, step, published); }
  }

  lemma {:induction false} RunNearer(services: Services, hash: int, initObservers: seq<Observer>, callers: nat,
                                     steps: seq<Step>, later: seq<Step>, published: nat)
    requires published <= Run(Init(services, hash, initObservers, callers), steps).published
    ensures Nearer(Init(services, hash, initObservers, callers), steps, later, published)
  {
    var init := Init(services, hash, initObservers, callers);
    if later == [] {
      ConcatEmpty(steps);
    } else {
      var last := |later| - 1;
      RunNearer(services, hash, initObservers, callers, steps, later[..last], published);
      UpdatesAreNeverLost(services, hash, initObservers, callers, steps + later[..last]);
      OneNearer(init, steps, later[..last], later[last], published);
      assert later[..last] + [later[last]] == later;
    }
  }

  /** Whatever was published by some time reaches a discovery attempt within four steps of
      the loop, or the loop has ended; and the loop is not stuck before that. */
  lemma PublishedIsReadSoon(services: Services, hash: int, initObservers: seq<Observer>, callers: nat,
                            steps: seq<Step>, later: seq<Step>)
    requires LoopSteps(Init(services, hash, initObservers, callers), steps, later) >= 4
    ensures var init := Init(services, hash, initObservers, callers);
            Reached(Run(init, steps + later), Run(init, steps).published)
  {
    var published := Run(Init(services, hash, initObservers, callers), steps).published;
    RunNearer(services, hash, initObservers, callers, steps, later, published);
  }

  /** With an update unread the loop never waits for the query time: it can always go on. */
  lemma UnreadIsNotStuck(s: State)
    requires NoLostUpdate(s) && s.read < s.published && !s.loop.Dead?
    ensures exists step :: IsLoopStep(step) && step != QueryTimeElapsed && Enabled(s, step)
  {
    var step := match s.loop
      case Starting => Begin
      case Discovering => DiscoveryEnds(None)
      case Storing(_) => Store
      case Waiting => Wake
      case Clearing => Clear
      case Dead => Begin;
    assert Enabled(s, step) && IsLoopStep(step);
  }

  /** Whatever callers and discovery do is possible: a caller that is away may come while the
      loop is alive, and finds anything; a discovery ends with anything, late, or not at all. */
  lemma NothingIsRuledOut(s: State, caller: nat, services: Services, hash: int, result: Option<Discovered>,
                          observer: Observer)
    requires NoLostUpdate(s)
    ensures Enabled(s, Register(observer))
    ensures caller < |s.callers| && s.callers[caller].Away? && !s.loop.Dead? ==>
              Enabled(s, Check(caller, services, hash))
    ensures caller < |s.callers| && s.callers[caller].Publishing? ==> Enabled(s, Publish(caller))
    ensures caller < |s.callers| && s.callers[caller].Reading? ==> Enabled(s, ReadCached(caller))
    ensures s.loop.Discovering? ==>
              Enabled(s, DiscoveryEnds(result)) && Enabled(s, DiscoveryTimesOut) && Enabled(s, DiscoveryFails)
    ensures s.loop.Waiting? ==> Enabled(s, QueryTimeElapsed)
    ensures !s.loop.Dead? ==> exists step :: IsLoopStep(step) && Enabled(s, step)
  {
    var step := match s.loop
      case Starting => Begin
      case Discovering => DiscoveryTimesOut
      case Storing(_) => Store
      case Waiting => QueryTimeElapsed
      case Clearing => Clear
      case Dead => Begin;
    assert IsLoopStep(step) && (!s.loop.Dead? ==> Enabled(s, step));
  }

  // ---- What is published and what is cached ----

  /** What a caller found when it last checked: services and the hash of their versions. */
  function Found(init: State, steps: seq<Step>, caller: nat): Option<(Services, int)> {
    if steps == [] then None
    else
      var last := steps[|steps| - 1];
      if last.Check? && last.caller == caller && Enabled(Run(init, steps[..|steps| - 1]), last)
      then Some((last.services, last.hash)) else Found(init, steps[..|steps| - 1], caller)
  }

  /** The services and the hash of the last publication of a run. */
  function LastPublished(init: State, steps: seq<Step>): (Services, int) {
    if steps == [] then (init.x.cachedServices, init.x.extensionVersionsHash)
    else
      var before, last := steps[..|steps| - 1], steps[|steps| - 1];
      if last.Publish? && Enabled(Run(init, before), last) && Found(init, before, last.caller).Some?
      then Found(init, before, last.caller).value else LastPublished(init, before)
  }

  /** The result of the last discovery of a run that ended. */
  function LastDiscovered(init: State, steps: seq<Step>): Option<Discovered> {
    if steps == [] then None
    else
      var before, last := steps[..|steps| - 1], steps[|steps| - 1];
      if last.DiscoveryEnds? && Enabled(Run(init, before), last) then last.result else LastDiscovered(init, before)
  }

  /** The last result of a run that was stored and not empty. */
  function LastStored(init: State, steps: seq<Step>): Option<Discovered> {
    if steps == [] then None
    else
      var before, last := steps[..|steps| - 1], steps[|steps| - 1];
      if last == Store && Enabled(Run(init, before), last) && LastDiscovered(init, before).Some?
      then LastDiscovered(init, before) else LastStored(init, before)
  }

  lemma {:induction false} NoCallersAway(count: nat)
    ensures |NoCallers(count)| == count && forall i :: 0 <= i < count ==> NoCallers(count)[i] == Away
  {
    if count > 0 { NoCallersAway(count - 1); }
  }

  /** A caller about to publish holds what it found. */
  lemma {:induction false} PublishesWhatItFound(services: Services, hash: int, initObservers: seq<Observer>,
                                                callers: nat, steps: seq<Step>, caller: nat)
    ensures var init := Init(services, hash, initObservers, callers);
            var s := Run(init, steps);
            && |s.callers| == callers
            && (caller < callers && s.callers[caller].Publishing? ==>
                  Found(init, steps, caller) == Some((s.callers[caller].services, s.callers[caller].hash)))
  {
    if steps == [] {
      NoCallersAway(callers);
    } else {
      PublishesWhatItFound(services, hash, initObservers, callers, steps[..|steps| - 1], caller);
    }
  }

  /** A caller that checks publishes exactly if the hash of what it found is not that of the
      last publication. */
  lemma PublishesIff(services: Services, hash: int, initObservers: seq<Observer>, callers: nat,
                     steps: seq<Step>, check: Step)
    requires check.Check? && Enabled(Run(Init(services, hash, initObservers, callers), steps), check)
    ensures var init := Init(services, hash, initObservers, callers);
            Next(Run(init, steps), check).callers[check.caller].Publishing?
            <==> check.hash != LastPublished(init, steps).1
  {
    PublishedIsLast(services, hash, initObservers, callers, steps);
  }

  /** The services and the hash held are those of the last publication. */
  lemma {:induction false} PublishedIsLast(services: Services, hash: int, initObservers: seq<Observer>,
                                           callers: nat, steps: seq<Step>)
    ensures var init := Init(services, hash, initObservers, callers);
            (Run(init, steps).x.cachedServices, Run(init, steps).x.extensionVersionsHash) == LastPublished(init, steps)
  {
    if steps != [] {
      var before, last := steps[..|steps| - 1], steps[|steps| - 1];
      PublishedIsLast(services, hash, initObservers, callers, before);
      if last.Publish? { PublishesWhatItFound(services, hash, initObservers, callers, before, last.caller); }
    }
  }

  /** An attempt that has seen all publications got the services of the last one. */
  lemma ReadIsLastPublished(services: Services, hash: int, initObservers: seq<Observer>, callers: nat,
                            steps: seq<Step>)
    ensures var init := Init(services, hash, initObservers, callers);
            var s := Run(init, steps);
            s.read == s.published ==> s.readServices == LastPublished(init, steps).0
  {
    UpdatesAreNeverLost(services, hash, initObservers, callers, steps);
    PublishedIsLast(services, hash, initObservers, callers, steps);
  }

  lemma {:induction false} StoresWhatItDiscovered(init: State, steps: seq<Step>)
    requires !init.loop.Storing?
    ensures Run(init, steps).loop.Storing? ==> Run(init, steps).loop.result == LastDiscovered(init, steps)
  {
    if steps != [] { StoresWhatItDiscovered(init, steps[..|steps| - 1]); }
  }

  /** The cached service is the last result stored that was not empty. */
  lemma {:induction false} CachedIsLastStored(services: Services, hash: int, initObservers: seq<Observer>,
                                              callers: nat, steps: seq<Step>)
    ensures var init := Init(services, hash, initObservers, callers);
            Run(init, steps).x.autodiscoveredCachedService == LastStored(init, steps)
  {
    if steps != [] {
      var before, last := steps[..|steps| - 1], steps[|steps| - 1];
      CachedIsLastStored(services, hash, initObservers, callers, before);
      StoresWhatItDiscovered(Init(services, hash, initObservers, callers), before);
    }
  }

  // ---- The cached result and the observers ----

  /** A discovered service is replaced, never cleared. */
  lemma {:induction false} CachedIsNeverCleared(init: State, steps: seq<Step>, later: seq<Step>)
    requires Run(init, steps).x.autodiscoveredCachedService.Some?
    ensures Run(init, steps + later).x.autodiscoveredCachedService.Some?
  {
    if later == [] {
      assert steps + later == steps;
    } else {
      var last := |later| - 1;
      CachedIsNeverCleared(init, steps, later[..last]);
      assert (steps + later)[..|steps + later| - 1] == steps + later[..last];
    }
  }

  lemma {:induction false} ReversedIsPermutation(list: seq<Observer>)
    ensures multiset(Reversed(list)) == multiset(list)
  {
    if list != [] {
      ReversedIsPermutation(list[..|list| - 1]);
      assert list == list[..|list| - 1] + [list[|list| - 1]];
    }
  }

  /** While the loop is alive, the observers registered are those called and those that
      wait; once it is over, exactly those registered before are called, and those
      registered later never are. */
  predicate CalledOnce(s: State) {
    && (!s.loop.Dead? ==> multiset(s.x.called) + multiset(s.x.observers) == multiset(s.registered) && s.late == [])
    && (s.loop.Dead? ==> multiset(s.x.called) == multiset(s.registered) && s.x.observers == s.late)
  }

  lemma NotifiedCalls(x: Executor)
    ensures multiset(Notified(x).called) == multiset(x.called) + multiset(x.observers)
  {
    ReversedIsPermutation(x.observers);
  }

  lemma NextKeepsCalledOnce(s: State, step: Step)
    requires Enabled(s, step) && CalledOnce(s)
    ensures CalledOnce(Next(s, step))
  {
    if step.Store? {
      NotifiedCalls(if s.loop.result.Some? then s.x.(autodiscoveredCachedService := s.loop.result) else s.x);
    } else if step.DiscoveryFails? {
      NotifiedCalls(s.x.(isTaskRunning := false));
    } else if step.Register? {
      assert multiset(s.registered + [step.observer]) == multiset(s.registered) + multiset{step.observer};
      assert multiset(s.x.observers + [step.observer]) == multiset(s.x.observers) + multiset{step.observer};
    }
  }

  lemma {:induction false} ObserversCalledOnce(services: Services, hash: int, initObservers: seq<Observer>,
                                               callers: nat, steps: seq<Step>)
    ensures CalledOnce(Run(Init(services, hash, initObservers, callers), steps))
  {
    if steps != [] {
      var s := Run(Init(services, hash, initObservers, callers), steps[..|steps| - 1]);
      ObserversCalledOnce(services, hash, initObservers, callers, steps[..|steps| - 1]);
      if Enabled(s, steps[|steps| - 1]) { NextKeepsCalledOnce(s, steps[|steps| - 1]); }
    }
  }
}
