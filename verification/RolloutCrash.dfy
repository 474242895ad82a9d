/**
 How a request that is no longer stored brings the server down. Next reads the callbacks of the stored request once
 the entry is drained; without the request that is a nil dereference in a goroutine nobody recovers from.
 */
module RolloutCrash {
  import opened Wrappers
  import opened Strategy
  import opened Commands
  import opened Rollout
  import opened RolloutInvariants
  import opened RolloutBarrier
  import opened RolloutProgress
  import opened RolloutOthers
  import opened RolloutCancel

  /** Clients keep to their message order; everything else may happen at any time. */
  predicate Mannerly(w: World, e: Event) {
    e.Report? && Reaches(w, e.client, e.cmd) ==> Orderly(w.dispatched[e.cmd].status, e.message)
  }

  ghost predicate MannerlyAt(states: seq<World>, events: seq<Event>, i: nat)
    requires i < |events| && i + 1 < |states|
  {
    Fresh(states[i], events[i]) && Mannerly(states[i], events[i]) && states[i + 1] == Step(states[i], events[i])
  }

  /** A continuation from a state with fresh identifiers and orderly clients. */
  ghost predicate MannerlyStates(w: World, states: seq<World>, events: seq<Event>) {
    && |states| == |events| + 1 && states[0] == w
    && forall i :: 0 <= i < |events| ==> MannerlyAt(states, events, i)
  }

  /** This call of Next of this request is what stops the server. */
  predicate BringsDown(w: World, e: Event, request: string) {
    !w.crashed && e.NextRuns? && e.request == request && Step(w, e).crashed
  }

  /** Some continuation ends in a call of Next of this request that stops the server. */
  ghost predicate MayBringDown(w: World, request: string) {
    exists states, events ::
      MannerlyStates(w, states, events) && events != []
      && BringsDown(states[|events| - 1], events[|events| - 1], request)
  }

  // ---------- what a request can still do ----------

  /** Commands that can still make their client report a finish: under way to a registered client object, or there
      and neither finished nor failed. */
  predicate LiveAt(w: World, request: string, id: string) {
    || (id in w.inflight && Concerns(w, request, w.inflight[id].request, w.inflight[id].host))
    || (id in w.dispatched && Concerns(w, request, w.dispatched[id].request, w.dispatched[id].host)
        && OnTrack(w.dispatched[id].status) && w.dispatched[id].status != Finished)
  }

  function Live(w: World, request: string): set<string> {
    set id | id in w.inflight.Keys + w.dispatched.Keys && LiveAt(w, request, id)
  }

  /** Calls of Next that wait, and finishes that will each spawn one. */
  function Calls(w: World, request: string): nat {
    w.wakeups[request] + |Live(w, request)|
  }

  /** The commands of a batch that are meant for the given client objects. */
  function IdsFor(jobs: seq<Job>, hosts: set<Ref>): set<string> {
    set j | j in jobs && j.host in hosts :: j.id
  }

  /** The calls suffice to empty the queue, batch by batch, and to run once more: each batch takes a call and gives
      as many as it has commands for client objects that are still there. */
  predicate CanDrain(e: Entry<Job>, calls: nat, hosts: set<Ref>)
    decreases |e.queue|
  {
    calls > 0
    && (e.queue == []
        || (var turn := TakeTurn(e, true);
            CanDrain(AfterTurn(e, turn), calls - 1 + |IdsFor(turn.jobs, hosts)|, hosts)))
  }

  lemma SmallerIds(jobs: seq<Job>, hosts: set<Ref>, more: set<Ref>)
    requires forall j :: j in jobs && j.host in hosts ==> j.host in more
    ensures |IdsFor(jobs, hosts)| <= |IdsFor(jobs, more)|
  {
    assert IdsFor(jobs, hosts) <= IdsFor(jobs, more);
    Subset(IdsFor(jobs, hosts), IdsFor(jobs, more));
  }

  lemma Subset<T>(a: set<T>, b: set<T>)
    requires a <= b
    ensures |a| <= |b|
  {
    assert b == a + (b - a);
  }

  lemma TurnParts(e: Entry<Job>)
    requires e.queue != []
    ensures var turn := TakeTurn(e, true); var after := AfterTurn(e, turn);
      && turn.Batch? && turn.jobs != []
      && |after.queue| < |e.queue|
      && (forall j :: j in turn.jobs ==> j in e.queue) && (forall j :: j in after.queue ==> j in e.queue)
  {
  }

  /** Fewer calls and fewer clients drain less. */
  lemma {:induction false} CanDrainMore(e: Entry<Job>, calls: nat, more: nat, hosts: set<Ref>, others: set<Ref>)
    requires CanDrain(e, calls, hosts) && calls <= more
    requires forall j :: j in e.queue && j.host in hosts ==> j.host in others
    ensures CanDrain(e, more, others)
    decreases |e.queue|
  {
    if e.queue != [] {
      TurnParts(e);
      var turn := TakeTurn(e, true);
      SmallerIds(turn.jobs, hosts, others);
      hide TakeTurn, AfterTurn;
      CanDrainMore(AfterTurn(e, turn), calls - 1 + |IdsFor(turn.jobs, hosts)|, more - 1 + |IdsFor(turn.jobs, others)|,
                   hosts, others);
    }
  }

  /** Where every queued command's client object is still there, one call is enough. */
  lemma {:induction false} AllThereDrains(e: Entry<Job>, calls: nat, hosts: set<Ref>)
    requires forall j :: j in e.queue ==> j.host in hosts
    ensures CanDrain(e, calls, hosts) <==> calls > 0
    decreases |e.queue|
  {
    if e.queue != [] && calls > 0 {
      TurnParts(e);
      var turn := TakeTurn(e, true);
      hide TakeTurn, AfterTurn;
      assert turn.jobs[0].id in IdsFor(turn.jobs, hosts);
      AllThereDrains(AfterTurn(e, turn), calls - 1 + |IdsFor(turn.jobs, hosts)|, hosts);
    }
  }

  // ---------- too few calls stay too few ----------

  ghost predicate TooFew(w: World, request: string) {
    request in w.entries && !CanDrain(w.entries[request], Calls(w, request), w.registered.Values)
  }

  ghost predicate LiveWithin(w: World, w': World, request: string) {
    forall id :: LiveAt(w', request, id) ==> LiveAt(w, request, id)
  }

  lemma LiveWithinIsFewer(w: World, w': World, request: string)
    requires LiveWithin(w, w', request)
    ensures Live(w', request) <= Live(w, request) && |Live(w', request)| <= |Live(w, request)|
  {
    assert forall id :: LiveAt(w, request, id) ==> id in w.inflight.Keys + w.dispatched.Keys;
    hide LiveAt;
    assert Live(w', request) <= Live(w, request);
    hide Live;
    Subset(Live(w', request), Live(w, request));
  }

  /** With the same entry, no more calls and no more client objects for its queue, too few are still too few. */
  lemma StillTooFew(w: World, w': World, request: string)
    requires TooFew(w, request) && request in w'.entries && w'.entries[request] == w.entries[request]
    requires Calls(w', request) <= Calls(w, request)
    requires forall j :: j in w.entries[request].queue && OnRegistered(w', j.host) ==> OnRegistered(w, j.host)
    ensures TooFew(w', request)
  {
    hide CanDrain, Calls;
    if !TooFew(w', request) {
      CanDrainMore(w.entries[request], Calls(w', request), Calls(w, request), w'.registered.Values,
                   w.registered.Values);
    }
  }

  /** Nothing of this request is called and nothing of it comes alive. */
  ghost predicate Calm(w: World, w': World, request: string) {
    && request in w.entries && request in w'.entries && w'.entries[request] == w.entries[request]
    && w'.wakeups[request] == w.wakeups[request]
    && LiveWithin(w, w', request)
    && (forall j :: j in w.entries[request].queue && OnRegistered(w', j.host) ==> OnRegistered(w, j.host))
  }

  lemma CalmKeepsTooFew(w: World, w': World, request: string)
    requires TooFew(w, request) && Calm(w, w', request)
    ensures TooFew(w', request)
  {
    hide TooFew, LiveWithin;
    LiveWithinIsFewer(w, w', request);
    StillTooFew(w, w', request);
  }

  /** Only a client object that nothing is meant for has come. */
  lemma HostsCalm(w: World, w': World, request: string)
    requires w'.inflight == w.inflight && w'.dispatched == w.dispatched
    requires forall id :: id in w.inflight && OnRegistered(w', w.inflight[id].host) ==>
               OnRegistered(w, w.inflight[id].host)
    requires forall id :: id in w.dispatched && OnRegistered(w', w.dispatched[id].host) ==>
               OnRegistered(w, w.dispatched[id].host)
    ensures LiveWithin(w, w', request)
  {
    hide OnRegistered;
  }

  lemma ClientsCalm(w: World, request: string, e: Event)
    requires Structure(w) && request in w.entries && (e.Register? || e.Cleanup?) && Fresh(w, e)
    ensures Calm(w, Apply(w, e), request)
  {
    HostsInUse(w);
    ComingOrGone(w, e);
    LaunchedAreAssembled(w, request);
    assert forall j :: j in w.entries[request].queue ==> j.host in w.refs;
    hide Structure, Apply, OnRegistered, LiveWithin;
    HostsCalm(w, Apply(w, e), request);
  }

  lemma LaunchStepsCalm(w: World, request: string, e: Event)
    requires request in w.entries && (e.ReadTag? || e.Land?)
    ensures Calm(w, Apply(w, e), request)
  {
  }

  lemma RemovalsCalm(w: World, request: string, e: Event)
    requires request in w.entries && (e.Purge? || e.Cancel? || e.Expire?)
    ensures Calm(w, Apply(w, e), request)
  {
    hide Reaches;
  }

  lemma OtherNextCalm(w: World, request: string, other: string, early: set<string>)
    requires Structure(w) && request in w.entries && other in w.entries && other != request
    ensures Calm(w, RunNext(w, other, early), request)
  {
    hide *;
    RunNextCases(w, other, early);
    RunNextRings(w, other, early);
    NextEntries(w, other, early);
    var turn := TurnOf(w, other);
    if turn.Batch? {
      BatchJobsDistinct(w, other);
      DealtCalm(w, request, other, AfterTurn(w.entries[other], turn), turn.jobs, early);
    } else {
      SameCoreCalm(w, RunNext(w, other, early), request);
    }
  }

  lemma SameCoreCalm(w: World, w': World, request: string)
    requires request in w.entries && SameCore(w, w') && w'.wakeups == w.wakeups
    ensures Calm(w, w', request)
  {
  }

  lemma DealtCalm(w: World, request: string, other: string, after: Entry<Job>, jobs: seq<Job>, early: set<string>)
    requires request in w.entries && other in w.entries && other != request && DistinctIds(jobs)
    ensures Calm(w, Dealt(w, other, after, jobs, early), request)
  {
    SpawnAdds(w.inflight, jobs, other, after.iteration, early);
    hide DistinctIds, Spawn, OnRegistered;
    var w' := Dealt(w, other, after, jobs, early);
    assert forall j :: j in jobs ==> w'.inflight[j.id].request == other;
    assert forall id :: id in w'.inflight && w'.inflight[id].request == request ==> id !in JobIds(jobs);
  }

  lemma CalmTwice(w: World, w1: World, w2: World, request: string)
    requires Calm(w, w1, request) && Calm(w1, w2, request)
    ensures Calm(w, w2, request)
  {
    hide LiveAt, OnRegistered;
  }

  lemma StartCalm(w: World, request: string, other: string, strategy: StrategyType, targets: seq<Target>)
    requires request in w.entries && other !in w.entries
    ensures Calm(w, StartRequest(w, other, strategy, targets), request)
  {
    hide Assemble, JobIds;
  }

  lemma OthersCalm(w: World, request: string, e: Event)
    requires Structure(w) && request in w.entries && Fresh(w, e)
    requires e.Start? || (e.NextRuns? && e.request != request)
    ensures Calm(w, Apply(w, e), request)
  {
    hide Structure, RunNext, StartRequest, Calm;
    match e
    case Start(other, strategy, targets, early) =>
      StartCalm(w, request, other, strategy, targets);
      StartKeepsStructure(w, other, strategy, targets);
      var started := StartRequest(w, other, strategy, targets);
      CalmKnown(w, started, request);
      OtherNextCalm(started, request, other, early);
      CalmTwice(w, started, RunNext(started, other, early), request);
    case NextRuns(other, early) =>
      var woken := w.(wakeups := w.wakeups - multiset{other});
      SameCoreKeepsStructure(w, woken);
      WokenCalm(w, request, other);
      if other in w.entries {
        OtherNextCalm(woken, request, other, early);
        CalmTwice(w, woken, RunNext(woken, other, early), request);
      }
  }

  lemma CalmKnown(w: World, w': World, request: string)
    requires Calm(w, w', request)
    ensures request in w'.entries
  {
  }

  lemma WokenCalm(w: World, request: string, other: string)
    requires request in w.entries && other != request
    ensures Calm(w, w.(wakeups := w.wakeups - multiset{other}), request) && Calm(w, w, request)
  {
  }

  /** A client's message gives at most the one call that its command was still good for. */
  lemma StatusSpends(w: World, request: string, e: Event)
    requires Structure(w) && request in w.entries && e.Report? && Mannerly(w, e) && TooFew(w, request)
    ensures TooFew(Apply(w, e), request)
  {
    if Reaches(w, e.client, e.cmd) {
      var w' := ReportStatus(w, e.cmd, e.message, e.verdict);
      assert Apply(w, e) == w';
      StatusWithin(w, request, e);
      assert e.cmd !in w.inflight by { DispatchedHasLanded(w, e.cmd); }
      hide Structure, Apply, Orderly, Reaches, Settle, LiveAt, TooFew;
      LiveWithinIsFewer(w, w', request);
      if w'.wakeups[request] > w.wakeups[request] {
        FinishSpends(w, request, e);
      }
      assert Calls(w', request) <= Calls(w, request);
      hide Calls, ReportStatus;
      StillTooFew(w, w', request);
    }
  }

  lemma StatusWithin(w: World, request: string, e: Event)
    requires e.Report? && Mannerly(w, e) && Reaches(w, e.client, e.cmd)
    ensures var w' := ReportStatus(w, e.cmd, e.message, e.verdict);
      && w'.entries == w.entries && w'.registered == w.registered
      && LiveWithin(w, w', request)
      && w'.wakeups[request] <= w.wakeups[request] + 1
  {
    assert Orderly(w.dispatched[e.cmd].status, e.message);
    hide Reaches;
  }

  lemma DispatchedHasLanded(w: World, cmd: string)
    requires Structure(w) && cmd in w.dispatched
    ensures cmd !in w.inflight
  {
    hide EntriesConsistent, Owned, Conserved, Launched;
  }

  lemma FinishSpends(w: World, request: string, e: Event)
    requires e.Report? && Mannerly(w, e) && Reaches(w, e.client, e.cmd)
    requires var w' := ReportStatus(w, e.cmd, e.message, e.verdict);
      w'.wakeups[request] > w.wakeups[request] && LiveWithin(w, w', request)
    requires e.cmd !in w.inflight
    ensures |Live(ReportStatus(w, e.cmd, e.message, e.verdict), request)| < |Live(w, request)|
  {
    var w' := ReportStatus(w, e.cmd, e.message, e.verdict);
    assert OnRegistered(w, w.dispatched[e.cmd].host);
    assert e.cmd in w.dispatched && LiveAt(w, request, e.cmd) && !LiveAt(w', request, e.cmd);
    LiveWithinIsFewer(w, w', request);
    var before, after := Live(w, request), Live(w', request);
    assert e.cmd in before && e.cmd !in after;
    hide *;
    Subset(after, before - {e.cmd});
  }

  lemma DealtLiveAt(w: World, request: string, after: Entry<Job>, jobs: seq<Job>, early: set<string>, id: string)
    requires request in w.entries && DistinctIds(jobs)
    requires forall j :: j in jobs ==> j.id !in w.inflight && j.id !in w.dispatched
    ensures LiveAt(Dealt(w, request, after, jobs, early), request, id)
            <==> LiveAt(w, request, id) || id in IdsFor(jobs, w.registered.Values)
    ensures !(LiveAt(w, request, id) && id in IdsFor(jobs, w.registered.Values))
  {
    SpawnAdds(w.inflight, jobs, request, after.iteration, early);
    hide Spawn;
    if j :| j in jobs && j.id == id {
      SameIdHere(jobs, id);
    }
    hide DistinctIds;
  }

  lemma SameIdHere(jobs: seq<Job>, id: string)
    requires DistinctIds(jobs)
    ensures forall j, k :: j in jobs && k in jobs && j.id == id && k.id == id ==> j == k
  {
    forall j, k | j in jobs && k in jobs && j.id == id && k.id == id ensures j == k {
      var a :| 0 <= a < |jobs| && jobs[a] == j;
      var b :| 0 <= b < |jobs| && jobs[b] == k;
    }
  }

  lemma LiveIsLiveAt(w: World, request: string)
    ensures forall id :: id in Live(w, request) <==> LiveAt(w, request, id)
  {
    assert forall id :: LiveAt(w, request, id) ==> id in w.inflight.Keys + w.dispatched.Keys;
    hide LiveAt;
  }

  lemma DealtLive(w: World, request: string, after: Entry<Job>, jobs: seq<Job>, early: set<string>)
    requires request in w.entries && DistinctIds(jobs)
    requires forall j :: j in jobs ==> j.id !in w.inflight && j.id !in w.dispatched
    ensures var w' := Dealt(w, request, after, jobs, early);
      |Live(w', request)| == |Live(w, request)| + |IdsFor(jobs, w.registered.Values)|
  {
    hide *;
    var w' := Dealt(w, request, after, jobs, early);
    LiveIsLiveAt(w, request);
    LiveIsLiveAt(w', request);
    forall id
      ensures LiveAt(w', request, id) <==> LiveAt(w, request, id) || id in IdsFor(jobs, w.registered.Values)
      ensures !(LiveAt(w, request, id) && id in IdsFor(jobs, w.registered.Values))
    {
      DealtLiveAt(w, request, after, jobs, early, id);
    }
    assert Live(w', request) == Live(w, request) + IdsFor(jobs, w.registered.Values);
    assert Live(w, request) !! IdsFor(jobs, w.registered.Values);
  }

  lemma CallTakenFacts(w: World, request: string, early: set<string>)
    requires !w.crashed && request in w.entries && w.wakeups[request] > 0
    ensures Step(w, NextRuns(request, early)) == RunNext(CallTaken(w, request), request, early)
    ensures Calls(w, request) == Calls(CallTaken(w, request), request) + 1
    ensures var taken := CallTaken(w, request);
      && SameCore(w, taken) && taken.entries == w.entries && taken.registered == w.registered
      && taken.dispatched == w.dispatched && taken.stored == w.stored && !taken.crashed
  {
    assert Live(CallTaken(w, request), request) == Live(w, request);
    hide RunNext, Live;
  }

  lemma TooFewTaken(w: World, request: string, early: set<string>)
    requires !w.crashed && TooFew(w, request) && w.wakeups[request] > 0
    ensures var taken := CallTaken(w, request);
      && request in taken.entries && !taken.crashed && SameCore(w, taken)
      && !CanDrain(taken.entries[request], Calls(taken, request) + 1, taken.registered.Values)
      && Step(w, NextRuns(request, early)) == RunNext(taken, request, early)
  {
    CallTakenFacts(w, request, early);
    hide Live, Calls, RunNext, Step, CanDrain;
  }

  lemma NoCallNoStep(w: World, request: string, early: set<string>)
    requires w.wakeups[request] == 0
    ensures Step(w, NextRuns(request, early)) == w
  {
  }

  /** A call of Next of the request itself takes a call, and deals out what the next calls will come from. */
  lemma OwnNextSpends(w: World, request: string, early: set<string>)
    requires Structure(w) && !w.crashed && TooFew(w, request)
    ensures var w' := Step(w, NextRuns(request, early)); !w'.crashed && TooFew(w', request)
  {
    hide *;
    if w.wakeups[request] > 0 {
      TooFewTaken(w, request, early);
      SameCoreKeepsStructure(w, CallTaken(w, request));
      TakenCall(CallTaken(w, request), request, early);
    } else {
      NoCallNoStep(w, request, early);
    }
  }

  lemma TakenCall(w: World, request: string, early: set<string>)
    requires Structure(w) && !w.crashed && request in w.entries
    requires !CanDrain(w.entries[request], Calls(w, request) + 1, w.registered.Values)
    ensures var w' := RunNext(w, request, early); !w'.crashed && TooFew(w', request)
  {
    var e := w.entries[request];
    assert e.queue != [];
    if BatchDone(w, request, e.iteration) {
      TakenCallDeals(w, request, early);
      hide CanDrain, Calls;
    } else {
      assert RunNext(w, request, early) == w by { hide BatchDone; }
      hide RunNext, Structure, BatchDone;
      if CanDrain(e, Calls(w, request), w.registered.Values) {
        CanDrainMore(e, Calls(w, request), Calls(w, request) + 1, w.registered.Values, w.registered.Values);
      }
    }
  }

  /** A call that finds the current batch done deals out a batch: one for each of its commands whose client object
      is there joins the calls to come. */
  lemma TakenCallDeals(w: World, request: string, early: set<string>)
    requires Structure(w) && !w.crashed && request in w.entries && w.entries[request].queue != []
    requires BatchDone(w, request, w.entries[request].iteration)
    ensures var w' := RunNext(w, request, early); var e := w.entries[request]; var turn := TakeTurn(e, true);
      && turn.Batch? && |turn.jobs| <= |e.queue|
      && !w'.crashed && w'.stored == w.stored && w'.registered == w.registered && w'.wakeups == w.wakeups
      && w'.dispatched == w.dispatched
      && w'.entries == w.entries[request := AfterTurn(e, turn)]
      && Calls(w', request) == Calls(w, request) + |IdsFor(turn.jobs, w.registered.Values)|
  {
    var e, turn := w.entries[request], TakeTurn(w.entries[request], true);
    TurnParts(e);
    assert TurnOf(w, request) == turn by { hide BatchDone, TakeTurn; }
    BatchJobsDistinct(w, request);
    QueuedAreNowhere(w, request);
    hide Structure, BatchDone, RunNext, TurnOf, TakeTurn, AfterTurn;
    RunNextCases(w, request, early);
    DealtLive(w, request, AfterTurn(e, turn), turn.jobs, early);
    hide Live, IdsFor;
  }

  /** No step of anybody makes enough of too few calls, and no call of the request stops the server. */
  lemma StepKeepsTooFew(w: World, request: string, e: Event)
    requires Structure(w) && TooFew(w, request) && Fresh(w, e) && Mannerly(w, e)
    ensures !BringsDown(w, e, request)
    ensures TooFew(Step(w, e), request)
  {
    assert request in w.entries;
    if !w.crashed {
      hide Structure, TooFew, Fresh, Apply, Calm, Reaches;
      match e
      case NextRuns(r, early) =>
        if r == request {
          OwnNextSpends(w, request, early);
        } else {
          OthersCalm(w, request, e);
          CalmKeepsTooFew(w, Apply(w, e), request);
        }
      case Start(_, _, _, _) =>
        OthersCalm(w, request, e);
        CalmKeepsTooFew(w, Apply(w, e), request);
      case Report(_, _, _, _) => StatusSpends(w, request, e);
      case Register(_, _) =>
        ClientsCalm(w, request, e);
        CalmKeepsTooFew(w, Apply(w, e), request);
      case Cleanup(_) =>
        ClientsCalm(w, request, e);
        CalmKeepsTooFew(w, Apply(w, e), request);
      case ReadTag(_) =>
        LaunchStepsCalm(w, request, e);
        CalmKeepsTooFew(w, Apply(w, e), request);
      case Land(_) =>
        LaunchStepsCalm(w, request, e);
        CalmKeepsTooFew(w, Apply(w, e), request);
      case _ =>
        RemovalsCalm(w, request, e);
        CalmKeepsTooFew(w, Apply(w, e), request);
    }
  }

  lemma {:induction false} TooFewForever(w: World, request: string, states: seq<World>, events: seq<Event>, k: nat)
    requires Structure(w) && TooFew(w, request) && MannerlyStates(w, states, events) && k < |states|
    ensures Structure(states[k]) && TooFew(states[k], request)
    ensures k > 0 ==> !BringsDown(states[k - 1], events[k - 1], request)
  {
    hide Structure, TooFew, Step, Fresh, Mannerly;
    if k > 0 {
      TooFewForever(w, request, states, events, k - 1);
      assert MannerlyAt(states, events, k - 1);
      StepKeepsStructure(states[k - 1], events[k - 1]);
      StepKeepsTooFew(states[k - 1], request, events[k - 1]);
    }
  }

  // ---------- enough calls stop the server ----------

  /** No command of the request on a registered client object has failed. */
  ghost predicate NoneFailed(w: World, request: string) {
    forall id :: id in w.dispatched && Concerns(w, request, w.dispatched[id].request, w.dispatched[id].host) ==>
      OnTrack(w.dispatched[id].status)
  }

  lemma BeforeThat(w: World, e: Event, request: string)
    requires Fresh(w, e) && Mannerly(w, e) && MayBringDown(Step(w, e), request)
    ensures MayBringDown(w, request)
  {
    hide Step, Fresh, Mannerly, BringsDown;
    var states, events :| MannerlyStates(Step(w, e), states, events) && events != []
      && BringsDown(states[|events| - 1], events[|events| - 1], request);
    var more, all := [w] + states, [e] + events;
    forall i | 0 <= i < |all| ensures MannerlyAt(more, all, i) {
      if i > 0 {
        assert MannerlyAt(states, events, i - 1);
      }
    }
    assert MannerlyStates(w, more, all);
  }

  lemma AtOnce(w: World, e: Event, request: string)
    requires Fresh(w, e) && Mannerly(w, e) && BringsDown(w, e, request)
    ensures MayBringDown(w, request)
  {
    hide Step, Fresh, Mannerly;
    var states, events := [w, Step(w, e)], [e];
    assert MannerlyAt(states, events, 0);
    assert MannerlyStates(w, states, events);
  }

  /** The request is not stored, and nothing of it stands in the way of its own undoing. */
  ghost predicate Undoing(w: World, request: string) {
    Structure(w) && !w.crashed && request in w.entries && request !in w.stored && NoneFailed(w, request)
  }

  /** What the steps of one command leave as it is. */
  ghost predicate SameFrame(w: World, w': World) {
    w'.entries == w.entries && w'.registered == w.registered && w'.stored == w.stored && w'.crashed == w.crashed
  }

  /** Steps a live command is away from its finish. */
  function Distance(w: World, id: string): nat {
    if id in w.inflight then (if w.inflight[id].tag.None? then 7 else 6)
    else if id in w.dispatched then Rank(w.dispatched[id].status)
    else 0
  }

  /** The next step of a live command. */
  function NextEvent(w: World, client: string, id: string): Event {
    if id in w.inflight then (if w.inflight[id].tag.None? then ReadTag(id) else Land(id))
    else if id in w.dispatched then Report(client, id, NextMessage(w.dispatched[id].status), Accepted)
    else Land(id)
  }

  lemma LaunchCloser(w: World, request: string, client: string, id: string)
    requires !w.crashed && request in w.entries && NoneFailed(w, request) && id in w.inflight && id !in w.dispatched
    requires LiveAt(w, request, id)
    ensures var w' := Step(w, NextEvent(w, client, id));
      && SameFrame(w, w') && w'.wakeups == w.wakeups && NoneFailed(w', request)
      && Distance(w', id) < Distance(w, id)
      && forall x :: LiveAt(w', request, x) <==> LiveAt(w, request, x)
  {
  }

  lemma ReportCloser(w: World, request: string, client: string, id: string)
    requires !w.crashed && request in w.entries && NoneFailed(w, request) && id !in w.inflight
    requires LiveAt(w, request, id) && Reaches(w, client, id) && w.dispatched[id].status != FinishedExecution
    ensures var w' := Step(w, NextEvent(w, client, id));
      && SameFrame(w, w') && w'.wakeups == w.wakeups && NoneFailed(w', request)
      && Distance(w', id) < Distance(w, id)
      && forall x :: LiveAt(w', request, x) <==> LiveAt(w, request, x)
  {
    PlainReport(w, client, id);
    hide Step, Reaches, Orderly, NextMessage;
  }

  lemma ReportFinishes(w: World, request: string, client: string, id: string)
    requires !w.crashed && request in w.entries && NoneFailed(w, request) && id !in w.inflight
    requires LiveAt(w, request, id) && Reaches(w, client, id) && w.dispatched[id].status == FinishedExecution
    ensures var w' := Step(w, NextEvent(w, client, id));
      && SameFrame(w, w') && w'.wakeups == w.wakeups + multiset{request} && NoneFailed(w', request)
      && forall x :: LiveAt(w', request, x) <==> LiveAt(w, request, x) && x != id
  {
    FinishingReport(w, client, id);
    hide Step, Reaches, Orderly;
  }

  lemma NextEventIsMannerly(w: World, request: string, client: string, id: string)
    requires LiveAt(w, request, id) && (id !in w.inflight ==> Reaches(w, client, id))
    ensures Fresh(w, NextEvent(w, client, id)) && Mannerly(w, NextEvent(w, client, id))
  {
  }

  lemma LaunchedNotDispatched(w: World, id: string)
    requires Structure(w) && id in w.inflight
    ensures id !in w.dispatched
  {
    hide EntriesConsistent, Owned, Conserved, Launched;
  }

  /** The step leaves the calls as they are and brings a live command closer to its finish. */
  ghost predicate Closer(w: World, w': World, request: string, id: string) {
    && SameFrame(w, w') && NoneFailed(w', request)
    && w'.wakeups == w.wakeups && Distance(w', id) < Distance(w, id)
    && forall x :: LiveAt(w', request, x) <==> LiveAt(w, request, x)
  }

  /** The step turns a live command into a call. */
  ghost predicate Turned(w: World, w': World, request: string, id: string) {
    && SameFrame(w, w') && NoneFailed(w', request)
    && w'.wakeups == w.wakeups + multiset{request}
    && forall x :: LiveAt(w', request, x) <==> LiveAt(w, request, x) && x != id
  }

  lemma OnRegisteredClient(w: World, request: string, id: string) returns (client: string)
    requires LiveAt(w, request, id) && id !in w.inflight
    ensures Reaches(w, client, id)
  {
    client :| client in w.registered && w.registered[client] == w.dispatched[id].host;
  }

  lemma NextEventMoves(w: World, request: string, client: string, id: string)
    requires Undoing(w, request) && LiveAt(w, request, id) && (id !in w.inflight ==> Reaches(w, client, id))
    ensures var w' := Step(w, NextEvent(w, client, id)); Closer(w, w', request, id) || Turned(w, w', request, id)
  {
    if id in w.inflight {
      LaunchedNotDispatched(w, id);
      hide Structure, Step, LiveAt, NoneFailed, NextEvent, SameFrame, Distance;
      LaunchCloser(w, request, client, id);
    } else if w.dispatched[id].status == FinishedExecution {
      hide Structure, Step, LiveAt, NoneFailed, NextEvent, SameFrame, Distance;
      ReportFinishes(w, request, client, id);
    } else {
      hide Structure, Step, LiveAt, NoneFailed, NextEvent, SameFrame, Distance;
      ReportCloser(w, request, client, id);
    }
  }

  lemma CloserKeepsCalls(w: World, w': World, request: string, id: string)
    requires Closer(w, w', request, id) && LiveAt(w, request, id)
    ensures LiveAt(w', request, id) && Live(w', request) == Live(w, request) && Calls(w', request) == Calls(w, request)
  {
    LiveIsLiveAt(w, request);
    LiveIsLiveAt(w', request);
    hide LiveAt, Live;
  }

  lemma TurnedKeepsCalls(w: World, w': World, request: string, id: string)
    requires Turned(w, w', request, id) && LiveAt(w, request, id)
    ensures |Live(w', request)| < |Live(w, request)| && Calls(w', request) == Calls(w, request)
  {
    LiveIsLiveAt(w, request);
    LiveIsLiveAt(w', request);
    hide LiveAt, Live;
    assert Live(w', request) == Live(w, request) - {id};
  }

  lemma StillUndoing(w: World, w': World, request: string)
    requires Undoing(w, request) && SameFrame(w, w') && NoneFailed(w', request) && Structure(w')
    ensures Undoing(w', request)
  {
    hide Structure, NoneFailed;
  }

  /** A live command is let to finish: its call is due, and nothing else has changed. */
  lemma {:induction false} LetFinish(w: World, request: string, id: string) returns (w': World)
    requires Undoing(w, request) && LiveAt(w, request, id)
    ensures Undoing(w', request) && SameFrame(w, w')
    ensures Calls(w', request) == Calls(w, request) && |Live(w', request)| < |Live(w, request)|
    ensures MayBringDown(w', request) ==> MayBringDown(w, request)
    decreases Distance(w, id)
  {
    var client := "";
    if id !in w.inflight {
      client := OnRegisteredClient(w, request, id);
    }
    var e := NextEvent(w, client, id);
    NextEventIsMannerly(w, request, client, id);
    NextEventMoves(w, request, client, id);
    assert Structure(w);
    hide *;
    StepKeepsStructure(w, e);
    var w1 := Step(w, e);
    MovedFrame(w, w1, request, id);
    StillUndoing(w, w1, request);
    if Closer(w, w1, request, id) {
      CloserKeepsCalls(w, w1, request, id);
      w' := LetFinish(w1, request, id);
      FrameTwice(w, w1, w');
    } else {
      TurnedKeepsCalls(w, w1, request, id);
      w' := w1;
    }
    if MayBringDown(w', request) {
      BeforeThat(w, e, request);
    }
  }

  lemma MovedFrame(w: World, w': World, request: string, id: string)
    requires Closer(w, w', request, id) || Turned(w, w', request, id)
    ensures SameFrame(w, w') && NoneFailed(w', request)
    ensures Closer(w, w', request, id) ==> Distance(w', id) < Distance(w, id)
  {
  }

  lemma FrameTwice(w: World, w1: World, w2: World)
    requires SameFrame(w, w1) && SameFrame(w1, w2)
    ensures SameFrame(w, w2)
  {
  }

  /** With nothing live, every command of the request on a registered client object is finished. */
  lemma NothingLive(w: World, request: string)
    requires Undoing(w, request) && Live(w, request) == {}
    ensures BatchDone(w, request, w.entries[request].iteration) && Calls(w, request) == w.wakeups[request]
  {
    LiveIsLiveAt(w, request);
    hide Structure, Live;
    forall id | id in w.dispatched && Scanned(w, w.dispatched[id], request, w.entries[request].iteration)
      ensures w.dispatched[id].status == Finished
    {
      assert !LiveAt(w, request, id);
    }
  }

  /** The call that finds the queue empty reads the callbacks of a request that is not there. */
  lemma LastCallCrashes(w: World, request: string)
    requires Undoing(w, request) && w.wakeups[request] > 0 && w.entries[request].queue == []
    requires BatchDone(w, request, w.entries[request].iteration)
    ensures MayBringDown(w, request)
  {
    var taken := CallTaken(w, request);
    CallTakenFacts(w, request, {});
    assert BatchDone(taken, request, w.entries[request].iteration);
    assert RunNext(taken, request, {}).crashed by { hide BatchDone; }
    hide Structure, NoneFailed, RunNext, Step, BatchDone, MayBringDown, Calls;
    AtOnce(w, NextRuns(request, {}), request);
  }

  /** A call that deals out a batch leaves the request as close to its undoing as before. */
  lemma UndoingDeals(w: World, request: string)
    requires Undoing(w, request) && w.wakeups[request] > 0 && w.entries[request].queue != []
    requires BatchDone(w, request, w.entries[request].iteration)
    ensures var w' := Step(w, NextRuns(request, {})); var e := w.entries[request]; var turn := TakeTurn(e, true);
      && Undoing(w', request) && turn.Batch? && |turn.jobs| <= |e.queue|
      && w'.registered == w.registered
      && w'.entries[request] == AfterTurn(e, turn)
      && Calls(w', request) == Calls(w, request) - 1 + |IdsFor(turn.jobs, w.registered.Values)|
  {
    var taken, called := CallTaken(w, request), NextRuns(request, {});
    CallTakenFacts(w, request, {});
    TakenScan(w, request);
    assert Structure(w) && Fresh(w, called);
    hide *;
    SameCoreKeepsStructure(w, taken);
    StepKeepsStructure(w, called);
    TakenCallDeals(taken, request, {});
    DealtUndoing(w, Step(w, called), request);
  }

  lemma TakenScan(w: World, request: string)
    requires request in w.entries && BatchDone(w, request, w.entries[request].iteration)
    ensures BatchDone(CallTaken(w, request), request, w.entries[request].iteration)
  {
  }

  lemma DealtUndoing(w: World, w': World, request: string)
    requires Undoing(w, request) && Structure(w') && !w'.crashed && request in w'.entries
    requires w'.stored == w.stored && w'.registered == w.registered && w'.dispatched == w.dispatched
    ensures Undoing(w', request)
  {
    hide Structure;
  }

  /** Calls that suffice to empty the queue and to run once more do bring the server down, if all goes as it may. */
  lemma {:induction false} EnoughCallsCrash(w: World, request: string)
    requires Undoing(w, request) && CanDrain(w.entries[request], Calls(w, request), w.registered.Values)
    ensures MayBringDown(w, request)
    decreases |w.entries[request].queue|, |Live(w, request)|
  {
    assert request in w.entries;
    if Live(w, request) != {} {
      var id :| id in Live(w, request);
      LiveIsLiveAt(w, request);
      hide *;
      var w' := LetFinish(w, request, id);
      FrameParts(w, w');
      UndoingParts(w', request);
      EnoughCallsCrash(w', request);
    } else {
      NothingLive(w, request);
      var e := w.entries[request];
      if e.queue == [] {
        hide Structure, Live, Calls, BatchDone, MayBringDown, NoneFailed;
        LastCallCrashes(w, request);
      } else {
        var turn := TakeTurn(e, true);
        TurnParts(e);
        hide Undoing, Structure, Live, Calls, BatchDone, MayBringDown, Step, IdsFor, TakeTurn, AfterTurn;
        UndoingDeals(w, request);
        var called := NextRuns(request, {});
        UndoingParts(Step(w, called), request);
        EnoughCallsCrash(Step(w, called), request);
        BeforeThat(w, called, request);
      }
    }
  }

  lemma FrameParts(w: World, w': World)
    requires SameFrame(w, w')
    ensures w'.entries == w.entries && w'.registered == w.registered
  {
  }

  lemma UndoingParts(w: World, request: string)
    requires Undoing(w, request)
    ensures request in w.entries
  {
  }

  // ---------- commands that failed get old ----------

  /** The request is not stored, and the server is up. */
  ghost predicate Gone(w: World, request: string) {
    Structure(w) && !w.crashed && request in w.entries && request !in w.stored
  }

  /** The request's commands on registered client objects that did not finish and never will. */
  function Failed(w: World, request: string): set<string> {
    set id | id in w.dispatched && Concerns(w, request, w.dispatched[id].request, w.dispatched[id].host)
             && !OnTrack(w.dispatched[id].status)
  }

  lemma PurgeOne(w: World, request: string, client: string, id: string)
    requires !w.crashed && Reaches(w, client, id) && !OnTrack(w.dispatched[id].status) && id !in w.inflight
    ensures var w' := Step(w, Purge(client, {id}));
      && SameFrame(w, w') && w'.wakeups == w.wakeups
      && (forall x :: LiveAt(w', request, x) <==> LiveAt(w, request, x))
      && Failed(w', request) == Failed(w, request) - {id}
  {
  }

  lemma SameLiveSameCalls(w: World, w': World, request: string)
    requires w'.wakeups == w.wakeups && forall x :: LiveAt(w', request, x) <==> LiveAt(w, request, x)
    ensures Calls(w', request) == Calls(w, request)
  {
    LiveIsLiveAt(w, request);
    LiveIsLiveAt(w', request);
    hide LiveAt, Live;
    assert Live(w', request) == Live(w, request);
  }

  lemma FailedOnClient(w: World, request: string, id: string) returns (client: string)
    requires id in Failed(w, request)
    ensures Reaches(w, client, id) && !OnTrack(w.dispatched[id].status)
  {
    client :| client in w.registered && w.registered[client] == w.dispatched[id].host;
  }

  lemma StillGone(w: World, w': World, request: string)
    requires Gone(w, request) && SameFrame(w, w') && Structure(w')
    ensures Gone(w', request)
  {
    hide Structure;
  }

  lemma NoneFailedUndoes(w: World, request: string)
    requires Gone(w, request) && Failed(w, request) == {}
    ensures Undoing(w, request)
  {
    hide Structure;
    forall id | id in w.dispatched && Concerns(w, request, w.dispatched[id].request, w.dispatched[id].host)
      ensures OnTrack(w.dispatched[id].status)
    {
      assert id !in Failed(w, request);
    }
  }

  /** Failed commands are purged in time, which leaves the calls as they are. */
  lemma {:induction false} FailedArePurged(w: World, request: string)
    requires Gone(w, request) && CanDrain(w.entries[request], Calls(w, request), w.registered.Values)
    ensures MayBringDown(w, request)
    decreases |Failed(w, request)|
  {
    hide CanDrain, MayBringDown, Calls;
    if Failed(w, request) == {} {
      NoneFailedUndoes(w, request);
      EnoughCallsCrash(w, request);
    } else {
      var id :| id in Failed(w, request);
      var client := FailedOnClient(w, request, id);
      assert id !in w.inflight by { DispatchedHasLanded(w, id); }
      var e := Purge(client, {id});
      StepKeepsStructure(w, e);
      PurgeOne(w, request, client, id);
      assert Fresh(w, e) && Mannerly(w, e);
      hide Structure, LiveAt, Step, Failed;
      SameLiveSameCalls(w, Step(w, e), request);
      StillGone(w, Step(w, e), request);
      FailedArePurged(Step(w, e), request);
      BeforeThat(w, e, request);
    }
  }

  // ---------- exactly when ----------

  /** A request that is no longer stored can bring the server down in some continuation exactly when the calls of
      Next that wait for it, and those its live commands are still good for, suffice to empty its queue batch by
      batch and to run once more. */
  lemma GoneBringsDownIff(w: World, request: string)
    requires Gone(w, request)
    ensures MayBringDown(w, request)
            <==> CanDrain(w.entries[request], Calls(w, request), w.registered.Values)
  {
    assert request in w.entries;
    if CanDrain(w.entries[request], Calls(w, request), w.registered.Values) {
      hide *;
      FailedArePurged(w, request);
    } else {
      assert Structure(w) && TooFew(w, request);
      hide Structure, TooFew, BringsDown, MannerlyStates;
      forall states, events | MannerlyStates(w, states, events) && events != []
        ensures |events| < |states| && !BringsDown(states[|events| - 1], events[|events| - 1], request)
      {
        assert |events| < |states| by { StatesLength(w, states, events); }
        TooFewForever(w, request, states, events, |events|);
      }
    }
  }

  lemma StatesLength(w: World, states: seq<World>, events: seq<Event>)
    requires MannerlyStates(w, states, events)
    ensures |states| == |events| + 1
  {
  }

  /** The launches of a request towards registered client objects that are under way. */
  function LaunchesUnderWay(w: World, request: string): set<string> {
    set id | id in w.inflight && Concerns(w, request, w.inflight[id].request, w.inflight[id].host)
  }

  lemma CancelledIsGone(w: World, request: string)
    requires Structure(w) && !w.crashed && request in w.entries
    ensures var c := Cancelled(w, request);
      && Gone(c, request) && c.entries == w.entries && c.registered == w.registered
      && Calls(c, request) == w.wakeups[request] + |LaunchesUnderWay(w, request)|
  {
    var c := Cancelled(w, request);
    CancelClears(w, request);
    StepKeepsStructure(w, Cancel(request));
    assert request !in c.stored;
    hide Structure, Live, Cancelled;
    LiveOfLaunches(w, c, request);
  }

  lemma LiveOfLaunches(w: World, c: World, request: string)
    requires c.inflight == w.inflight && c.registered == w.registered && NoneConcerned(c, request)
    ensures Live(c, request) == LaunchesUnderWay(w, request)
  {
    LiveIsLiveAt(c, request);
    hide Live;
  }

  /** Cancelling a request leaves it able to stop the server exactly when the calls of Next waiting at that moment,
      and one for each launch of it under way towards a registered client object, can drain its queue. */
  lemma CancelledMayBringDownIff(w: World, request: string)
    requires Structure(w) && !w.crashed && request in w.entries
    ensures MayBringDown(Cancelled(w, request), request)
            <==> CanDrain(w.entries[request], w.wakeups[request] + |LaunchesUnderWay(w, request)|, w.registered.Values)
  {
    hide *;
    CancelledIsGone(w, request);
    GoneBringsDownIff(Cancelled(w, request), request);
  }

  /** The state after some requests were dropped for their age. */
  function Expired(w: World, requests: set<string>): World {
    Step(w, Expire(requests))
  }

  lemma ExpireTakesOff(w: World, requests: set<string>)
    requires !w.crashed
    ensures Expired(w, requests) == w.(stored := w.stored - requests)
  {
  }

  lemma ExpiredIsGone(w: World, request: string, requests: set<string>)
    requires Structure(w) && !w.crashed && request in w.entries && request in requests
    ensures var x := Expired(w, requests);
      && Gone(x, request) && x.entries == w.entries && x.registered == w.registered
      && Calls(x, request) == Calls(w, request)
  {
    var x := Expired(w, requests);
    StepKeepsStructure(w, Expire(requests));
    ExpireTakesOff(w, requests);
    hide Structure, Step, Expired;
    SameLive(w, x, request);
    SameLiveSameCalls(w, x, request);
  }

  lemma SameLive(w: World, w': World, request: string)
    requires w'.inflight == w.inflight && w'.dispatched == w.dispatched && w'.registered == w.registered
    ensures forall id :: LiveAt(w', request, id) <==> LiveAt(w, request, id)
  {
  }

  /** A request that is dropped for its age leaves its commands with the clients: those count as well. */
  lemma ExpiredMayBringDownIff(w: World, request: string, requests: set<string>)
    requires Structure(w) && !w.crashed && request in w.entries && request in requests
    ensures MayBringDown(Expired(w, requests), request)
            <==> CanDrain(w.entries[request], Calls(w, request), w.registered.Values)
  {
    hide *;
    ExpiredIsGone(w, request, requests);
    GoneBringsDownIff(Expired(w, requests), request);
  }

  /** Batches that the entry still has to deal out. */
  function BatchesLeft(e: Entry<Job>): nat
    decreases |e.queue|
  {
    if e.queue == [] then 0 else 1 + BatchesLeft(AfterTurn(e, TakeTurn(e, true)))
  }

  /** Where none of the queued commands' client objects is there any more, every batch takes a call and gives none. */
  lemma {:induction false} NoneThereDrains(e: Entry<Job>, calls: nat, hosts: set<Ref>)
    requires forall j :: j in e.queue ==> j.host !in hosts
    ensures CanDrain(e, calls, hosts) <==> calls > BatchesLeft(e)
    decreases |e.queue|
  {
    if e.queue != [] && calls > 0 {
      TurnParts(e);
      var turn := TakeTurn(e, true);
      assert IdsFor(turn.jobs, hosts) == {};
      hide TakeTurn, AfterTurn, IdsFor;
      NoneThereDrains(AfterTurn(e, turn), calls - 1, hosts);
    }
  }

  lemma CallsOrLaunches(w: World, request: string)
    ensures w.wakeups[request] + |LaunchesUnderWay(w, request)| > 0
            <==> w.wakeups[request] > 0 || !NoLaunchUnderWay(w, request)
  {
    if !NoLaunchUnderWay(w, request) {
      var id :| id in w.inflight && Concerns(w, request, w.inflight[id].request, w.inflight[id].host);
      assert id in LaunchesUnderWay(w, request);
    } else {
      assert LaunchesUnderWay(w, request) == {};
    }
  }

  /** Where every queued command's client is still registered, any call of Next waiting and any launch under way
      towards a registered client suffices. */
  lemma CancelledWithClientsThere(w: World, request: string)
    requires Structure(w) && !w.crashed && request in w.entries
    requires forall j :: j in w.entries[request].queue ==> OnRegistered(w, j.host)
    ensures MayBringDown(Cancelled(w, request), request)
            <==> w.wakeups[request] > 0 || !NoLaunchUnderWay(w, request)
  {
    hide Structure, MayBringDown, Cancelled, CanDrain, NoLaunchUnderWay, LaunchesUnderWay;
    CancelledMayBringDownIff(w, request);
    CallsOrLaunches(w, request);
    AllThereDrains(w.entries[request], w.wakeups[request] + |LaunchesUnderWay(w, request)|, w.registered.Values);
  }

  /** Cancelling a request does what it is for, and can do no harm later, exactly when at that moment no call of Next
      waits for it and no launch of it towards a registered client object is under way. */
  lemma CancelIsHarmlessIff(w: World, request: string)
    requires Structure(w) && !w.crashed && request in w.entries
    ensures Final(Cancelled(w, request), request, w.entries[request]) && !MayBringDown(Cancelled(w, request), request)
            <==> w.wakeups[request] == 0 && NoLaunchUnderWay(w, request)
  {
    hide Structure, MayBringDown, Cancelled, NoLaunchUnderWay, LaunchesUnderWay, Final, TakeTurn, AfterTurn, IdsFor;
    CancelIsFinalIff(w, request);
    CancelledMayBringDownIff(w, request);
    CallsOrLaunches(w, request);
  }
}
