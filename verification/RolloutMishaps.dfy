/** Runs from the start of the server that show what the exact conditions are about. */
module RolloutMishaps {
  import opened Wrappers
  import opened Strategy
  import opened Commands
  import opened Rollout
  import opened RolloutInvariants
  import opened RolloutBarrier
  import opened RolloutProgress
  import opened RolloutCancel
  import opened RolloutCallbacks
  import opened RolloutCrash
  import opened RolloutRace

  lemma ReachedStructure(w: World)
    requires Reachable(true, w)
    ensures Structure(w)
  {
    var events :| Leads(true, events, w);
    RunKeepsStructure(events);
  }

  lemma ReachedRun(w: World) returns (events: seq<Event>)
    requires Reachable(true, w)
    ensures FreshRun(INITIAL, events) && TimelyRun(INITIAL, events) && Run(INITIAL, events) == w
  {
    events :| Leads(true, events, w);
  }

  // ---------- cancelling ----------

  lemma FirstIsUnderWay(n: Names, s: Stage)
    requires OneGoing(n, s)
    ensures var w := At(n, s);
      && !w.crashed && n.request in w.entries && w.entries[n.request].queue != []
      && !NoLaunchUnderWay(w, n.request)
      && forall j :: j in w.entries[n.request].queue ==> OnRegistered(w, j.host)
  {
    var w := At(n, s);
    assert n.client in w.registered && OnRegistered(w, 0);
    assert n.d in w.inflight && Concerns(w, n.request, w.inflight[n.d].request, w.inflight[n.d].host);
  }

  /** Cancelled while its first command is being launched, a request goes on with further batches, and in the end
      it stops the server. */
  lemma CancelMayUndoTheServer(n: Names)
    requires n.Distinct()
    ensures exists events :: FreshRun(INITIAL, events) && TimelyRun(INITIAL, events)
              && var w := Run(INITIAL, events); var c := Cancelled(w, n.request);
                 n.request in w.entries && !Final(c, n.request, w.entries[n.request]) && MayBringDown(c, n.request)
  {
    var s := RolloutBegins(true, n);
    FirstIsUnderWay(n, s);
    var w := At(n, s);
    hide *;
    ReachedStructure(w);
    var events := ReachedRun(w);
    CancelIsFinalIff(w, n.request);
    CancelledWithClientsThere(w, n.request);
  }

  lemma ClientIsGone(n: Names, s: Stage)
    requires SecondReady(n, s)
    ensures var w := Step(At(n, s), Cleanup({n.client}));
      && !w.crashed && w.registered == map[] && n.request in w.entries && w.wakeups[n.request] == 1
      && w.entries[n.request].queue != [] && LaunchesUnderWay(w, n.request) == {}
  {
  }

  /** The first batch has finished, and its call of Next waits. */
  ghost predicate SecondReady(n: Names, s: Stage) {
    s.queue != [] && s.wakeups[n.request] == 1
  }

  lemma FirstFinishes(n: Names) returns (s: Stage)
    requires n.Distinct()
    ensures Reachable(true, At(n, s)) && SecondReady(n, s)
  {
    var first := RolloutBegins(true, n);
    assert n.d in first.inflight && first.inflight[n.d] == Going(n, first.iteration, None);
    SecondIsReady(n, first);
    s := Completed(n, first, n.d);
    hide Reachable, Completed, At;
    Completes(true, n, first, n.d);
  }

  /** Cancelled while a call of Next is waiting, a request whose clients are gone does the server no harm: the call
      deals out a batch that nobody receives, and then no call is left. */
  lemma WaitingCallMayBeHarmless(n: Names)
    requires n.Distinct()
    ensures exists events :: FreshRun(INITIAL, events) && TimelyRun(INITIAL, events)
              && var w := Run(INITIAL, events);
                 n.request in w.entries && w.wakeups[n.request] > 0
                 && !MayBringDown(Cancelled(w, n.request), n.request)
  {
    var s := FirstFinishes(n);
    ClientIsGone(n, s);
    var gone := Cleanup({n.client});
    assert Fresh(At(n, s), gone) && Ordered(At(n, s), gone) && Timely(At(n, s), gone);
    var w := Step(At(n, s), gone);
    hide *;
    OneStepOn(true, At(n, s), gone);
    ReachedStructure(w);
    var events := ReachedRun(w);
    CancelledMayBringDownIff(w, n.request);
    NoneThereDrains(w.entries[n.request], 1, {});
    SomethingLeft(w.entries[n.request]);
    assert w.registered.Values == {};
  }

  lemma SomethingLeft(e: Entry<Job>)
    requires e.queue != []
    ensures BatchesLeft(e) >= 1
  {
  }

  // ---------- callbacks ----------

  /** Both commands of the second batch have finished, and neither call of Next has run yet. */
  ghost predicate TwoCalls(n: Names, s: Stage) {
    && s.iteration == 2 && s.queue == [Job(n.a, 0)] && s.inflight == map[] && s.wakeups[n.request] == 2
    && forall id :: id in s.dispatched ==>
         s.dispatched[id].tag <= 2 && (s.dispatched[id].tag == 2 ==> s.dispatched[id].status == Finished)
  }

  lemma TwoFinish(n: Names, dealt: Stage) returns (s: Stage)
    requires n.Distinct() && Reachable(true, At(n, dealt)) && TwoDealt(n, dealt)
    ensures Reachable(true, At(n, s)) && TwoCalls(n, s)
  {
    var one := Completed(n, dealt, n.c);
    s := Completed(n, one, n.b);
    assert n.c in dealt.inflight && dealt.inflight[n.c] == Going(n, dealt.iteration, None);
    assert n.b in one.inflight && one.inflight[n.b] == Going(n, one.iteration, None);
    TwoFinished(n, dealt);
    hide *;
    Completes(true, n, dealt, n.c);
    Completes(true, n, one, n.b);
  }

  lemma TwoFinished(n: Names, dealt: Stage)
    requires n.Distinct() && TwoDealt(n, dealt)
    ensures TwoCalls(n, Completed(n, Completed(n, dealt, n.c), n.b))
  {
  }

  /** The last batch has finished while one of the two calls was still waiting. */
  ghost predicate AllDone(n: Names, s: Stage) {
    && s.queue == [] && s.inflight == map[] && s.wakeups[n.request] == 2
    && forall id :: id in s.dispatched && s.dispatched[id].tag == s.iteration ==> s.dispatched[id].status == Finished
  }

  lemma LastIsReady(n: Names, two: Stage)
    requires TwoCalls(n, two)
    ensures Ready(two, [], [Job(n.a, 0)])
  {
    ReverseShort(Job(n.a, 0), Job(n.a, 0));
    assert Pow2(2) == 4;
    hide Reverse, Pow2;
    assert [] + [Job(n.a, 0)] == two.queue;
  }

  lemma LastIsDealt(n: Names, two: Stage)
    requires TwoCalls(n, two)
    ensures var last := DealtOut(n, Called(n, two), [], [Job(n.a, 0)]);
      && n.a in last.inflight && last.inflight[n.a] == Going(n, last.iteration, None)
      && AllDone(n, Completed(n, last, n.a))
  {
    SpawnShort(n, two.inflight, n.a, n.a, 3);
    hide Spawn;
  }

  lemma LastFinishes(n: Names, two: Stage) returns (s: Stage)
    requires n.Distinct() && Reachable(true, At(n, two)) && TwoCalls(n, two)
    ensures Reachable(true, At(n, s)) && AllDone(n, s)
  {
    var last := DealtOut(n, Called(n, two), [], [Job(n.a, 0)]);
    s := Completed(n, last, n.a);
    LastIsReady(n, two);
    LastIsDealt(n, two);
    assert two.inflight == map[] && two.wakeups[n.request] > 0;
    hide *;
    NextDeals(true, n, two, [], [Job(n.a, 0)]);
    Completes(true, n, last, n.a);
  }

  lemma AllDoneIsDrained(n: Names, s: Stage)
    requires AllDone(n, s)
    ensures var w := At(n, s);
      && NothingLeft(w, n.request) && w.wakeups[n.request] == 2 && w.inflight == map[]
      && n.request in w.stored && !w.crashed && w.callbacks == multiset{}
  {
  }

  lemma OneMoreRing(w: World, request: string)
    requires Reachable(true, w) && NothingLeft(w, request) && w.wakeups[request] > 0 && w.inflight == map[]
    requires request in w.stored && !w.crashed
    ensures var w' := Step(w, NextRuns(request, {}));
      && Reachable(true, w') && NothingLeft(w', request) && w'.inflight == map[] && request in w'.stored && !w'.crashed
      && w'.wakeups[request] == w.wakeups[request] - 1 && w'.callbacks[request] == w.callbacks[request] + 1
  {
    DrainedStep(w, request);
    SameScan(w, Step(w, NextRuns(request, {})), request, w.entries[request].iteration);
    assert NoLaunchUnderWay(w, request);
    hide Reachable, Step, BatchDone;
    OneStepOn(true, w, NextRuns(request, {}));
  }

  /** With all premises of the barrier kept, the callbacks of a request may be triggered twice. */
  lemma CallbacksTwice(n: Names)
    requires n.Distinct()
    ensures exists events :: FreshRun(INITIAL, events) && TimelyRun(INITIAL, events)
              && Run(INITIAL, events).callbacks[n.request] == 2
  {
    var first := RolloutBegins(true, n);
    var dealt := SecondBatch(true, n, first);
    var two := TwoFinish(n, dealt);
    var s := LastFinishes(n, two);
    AllDoneIsDrained(n, s);
    var w := At(n, s);
    hide At, Step, NothingLeft, Reachable;
    OneMoreRing(w, n.request);
    OneMoreRing(Step(w, NextRuns(n.request, {})), n.request);
    var w' := Step(Step(w, NextRuns(n.request, {})), NextRuns(n.request, {}));
    var events := ReachedRun(w');
  }
}
