/** How often the callbacks of a request are triggered: once by each call of Next that finds nothing left to do. */
module RolloutCallbacks {
  import opened Wrappers
  import opened Strategy
  import opened Commands
  import opened Rollout
  import opened RolloutInvariants
  import opened RolloutBarrier
  import opened RolloutProgress

  // ---------- any run ----------

  /** Nothing of the request is queued, and its current batch is finished. */
  predicate NothingLeft(w: World, request: string) {
    request in w.entries && w.entries[request].queue == [] && BatchDone(w, request, w.entries[request].iteration)
  }

  /** The event makes a call of Next of this request run that finds nothing left to do: one that was spawned by a
      finish, or the first one, of a request none of whose clients is registered. */
  predicate Rings(w: World, e: Event, request: string) {
    !w.crashed
    && match e
       case NextRuns(r, _) => r == request && w.wakeups[r] > 0 && NothingLeft(w, r) && r in w.stored
       case Start(r, _, targets, _) => r == request && Assemble(w.registered, targets) == []
       case _ => false
  }

  /** How many of the first `k` events are such calls. */
  function TimesRung(states: seq<World>, events: seq<Event>, request: string, k: nat): nat
    requires k <= |events| && |states| == |events| + 1
  {
    if k == 0 then 0
    else TimesRung(states, events, request, k - 1) + if Rings(states[k - 1], events[k - 1], request) then 1 else 0
  }

  /** Next triggers the callbacks of its own request if that is drained and stored, and no others. */
  lemma NextRings(w: World, request: string, other: string, early: set<string>)
    requires other in w.entries
    ensures RunNext(w, other, early).callbacks[request]
            == w.callbacks[request] + if other == request && NothingLeft(w, other) && other in w.stored then 1 else 0
  {
    hide AfterTurn, BatchDone, Spawn;
    var e := w.entries[other];
    match TakeTurn(e, BatchDone(w, other, e.iteration))
    case Idle =>
    case Drained =>
    case Batch(_) =>
  }

  /** A new request has nothing dispatched, so its first call of Next finds it drained if it has no commands. */
  lemma StartedDrained(w: World, request: string, strategy: StrategyType, targets: seq<Target>)
    requires Structure(w) && request !in w.entries
    ensures var w' := StartRequest(w, request, strategy, targets);
      && w'.callbacks == w.callbacks && request in w'.stored
      && (NothingLeft(w', request) <==> Assemble(w.registered, targets) == [])
  {
    hide Assemble, JobIds;
    var w' := StartRequest(w, request, strategy, targets);
    forall id | id in w.dispatched ensures w.dispatched[id].request != request {
      assert Launched(w, w.dispatched[id].request, id, w.dispatched[id].host);
    }
    assert BatchDone(w', request, 0);
  }

  lemma OthersRingNothing(w: World, e: Event)
    requires !e.Start? && !e.NextRuns?
    ensures Apply(w, e).callbacks == w.callbacks
  {
    hide Settle, TriggersValidation, Reaches, OnRegistered;
  }

  lemma CalledRings(w: World, request: string, other: string, early: set<string>)
    requires !w.crashed
    ensures Step(w, NextRuns(other, early)).callbacks[request]
            == w.callbacks[request] + if Rings(w, NextRuns(other, early), request) then 1 else 0
  {
    if w.wakeups[other] > 0 && other in w.entries {
      var woken := w.(wakeups := w.wakeups - multiset{other});
      SameScan(w, woken, other, w.entries[other].iteration);
      hide BatchDone, RunNext;
      NextRings(woken, request, other, early);
    }
  }

  lemma StepRings(w: World, e: Event, request: string)
    requires Structure(w) && Fresh(w, e)
    ensures Step(w, e).callbacks[request] == w.callbacks[request] + if Rings(w, e, request) then 1 else 0
  {
    if !w.crashed {
      match e
      case Start(other, strategy, targets, early) =>
        StartedDrained(w, other, strategy, targets);
        hide Structure, StartRequest, RunNext, Assemble, NothingLeft;
        NextRings(StartRequest(w, other, strategy, targets), request, other, early);
      case NextRuns(other, early) =>
        hide *;
        CalledRings(w, request, other, early);
      case _ =>
        hide Apply;
        OthersRingNothing(w, e);
    }
  }

  /** Over any run with fresh identifiers, however its events are ordered, the callbacks of a request have been
      triggered as often as a call of its Next found nothing left to do. */
  lemma {:induction false} CallbacksAreDrainedCalls(states: seq<World>, events: seq<Event>, request: string, k: nat)
    requires FreshStates(INITIAL, states, events) && k <= |events|
    ensures Structure(states[k]) && states[k].callbacks[request] == TimesRung(states, events, request, k)
  {
    hide Structure, Fresh, Step, Rings;
    if k > 0 {
      CallbacksAreDrainedCalls(states, events, request, k - 1);
      assert FreshAt(states, events, k - 1);
      StepKeepsStructure(states[k - 1], events[k - 1]);
      StepRings(states[k - 1], events[k - 1], request);
    } else {
      InitialStructure();
    }
  }

  lemma InitialStructure()
    ensures Structure(INITIAL)
  {
  }

  // ---------- calls that wait ----------

  function Repeat(request: string, times: nat): seq<Event> {
    if times == 0 then [] else Repeat(request, times - 1) + [NextRuns(request, {})]
  }

  /** Once all work is done, every further call of Next that was spawned triggers the callbacks again: as many
      times as calls are waiting, which is once only if a single one is. */
  lemma {:induction false} CallbacksPerWaitingNext(w: World, request: string, times: nat)
    requires !w.crashed && request in w.entries && request in w.stored
    requires w.entries[request].queue == [] && BatchDone(w, request, w.entries[request].iteration)
    requires times <= w.wakeups[request]
    ensures Run(w, Repeat(request, times)) == Rung(w, request, times)
  {
    if times > 0 {
      hide BatchDone, Run, Step, Rung;
      CallbacksPerWaitingNext(w, request, times - 1);
      RunOneMore(w, Repeat(request, times - 1), NextRuns(request, {}));
      RungStep(w, request, times - 1);
    } else {
      hide BatchDone, Step;
      RungZero(w, request);
    }
  }

  lemma RungZero(w: World, request: string)
    ensures Rung(w, request, 0) == w
  {
    assert w.wakeups[request := w.wakeups[request]] == w.wakeups;
    assert w.callbacks[request := w.callbacks[request]] == w.callbacks;
  }

  /** `times` calls of Next fewer are waiting and the callbacks have been triggered `times` times more. */
  function Rung(w: World, request: string, times: nat): World
    requires times <= w.wakeups[request]
  {
    w.(wakeups := w.wakeups[request := w.wakeups[request] - times],
       callbacks := w.callbacks[request := w.callbacks[request] + times])
  }

  lemma RungStep(w: World, request: string, times: nat)
    requires !w.crashed && request in w.entries && request in w.stored
    requires w.entries[request].queue == [] && BatchDone(w, request, w.entries[request].iteration)
    requires times < w.wakeups[request]
    ensures Step(Rung(w, request, times), NextRuns(request, {})) == Rung(w, request, times + 1)
  {
    var before, after := Rung(w, request, times), Rung(w, request, times + 1);
    SameScan(w, before, request, w.entries[request].iteration);
    hide BatchDone, Step;
    DrainedStep(before, request);
    assert before.wakeups - multiset{request} == after.wakeups;
    assert before.callbacks + multiset{request} == after.callbacks;
  }

  lemma SameScan(w: World, w': World, request: string, iteration: nat)
    requires w'.dispatched == w.dispatched && w'.registered == w.registered
    ensures BatchDone(w', request, iteration) == BatchDone(w, request, iteration)
  {
  }

  lemma DrainedStep(w: World, request: string)
    requires !w.crashed && request in w.entries && request in w.stored && w.wakeups[request] > 0
    requires w.entries[request].queue == [] && BatchDone(w, request, w.entries[request].iteration)
    ensures Step(w, NextRuns(request, {}))
            == w.(wakeups := w.wakeups - multiset{request}, callbacks := w.callbacks + multiset{request})
  {
    var woken := w.(wakeups := w.wakeups - multiset{request});
    SameScan(w, woken, request, w.entries[request].iteration);
    hide BatchDone, RunNext;
    DrainedTurn(woken, request);
  }
}
