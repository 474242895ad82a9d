/** What goes on around a rollout: steps of other requests, of their commands, and of the clients. */
module RolloutOthers {
  import opened Wrappers
  import opened Strategy
  import opened Commands
  import opened Rollout
  import opened RolloutInvariants
  import opened RolloutBarrier
  import opened RolloutProgress

  /** The event is not about this request, its commands or the client objects they are meant for. */
  ghost predicate Foreign(w: World, request: string, e: Event)
    requires request in w.entries
  {
    match e
    case Register(_, _) => true
    case Cleanup(gone) =>
      forall j :: j in w.entries[request].assembled ==> OnRegistered(w.(registered := w.registered - gone), j.host)
    case Start(_, _, _, _) => true
    case NextRuns(other, _) => other != request
    case ReadTag(cmd) => cmd in w.inflight ==> w.inflight[cmd].request != request
    case Land(cmd) => cmd in w.inflight ==> w.inflight[cmd].request != request
    case Report(client, cmd, _, _) => Reaches(w, client, cmd) ==> w.dispatched[cmd].request != request
    case Purge(client, cmds) =>
      forall id :: id in cmds && Reaches(w, client, id) ==> w.dispatched[id].request != request
    case Cancel(other) => other != request
    case Expire(requests) => request !in requests
  }

  /** Everything a rollout depends on is as before. */
  ghost predicate Apart(w: World, w': World, request: string)
    requires request in w.entries
  {
    && request in w'.entries && w'.entries[request] == w.entries[request]
    && (request in w'.stored <==> request in w.stored)
    && w'.wakeups[request] == w.wakeups[request] && w'.callbacks[request] == w.callbacks[request]
    && (forall j :: j in w.entries[request].assembled ==>
          (OnRegistered(w, j.host) ==> OnRegistered(w', j.host)) && SamePlace(w, w', j.id))
  }

  predicate SamePlace(w: World, w': World, id: string) {
    && (id in w'.inflight <==> id in w.inflight) && (id in w.inflight ==> w'.inflight[id] == w.inflight[id])
    && (id in w'.dispatched <==> id in w.dispatched) && (id in w.dispatched ==> w'.dispatched[id] == w.dispatched[id])
  }

  lemma ApartKeepsWeight(w: World, w': World, request: string)
    requires request in w.entries && Apart(w, w', request)
    ensures Weight(w', w.entries[request].assembled) == Weight(w, w.entries[request].assembled)
  {
    forall j | j in w.entries[request].assembled ensures JobWeight(w', j) == JobWeight(w, j) {
      assert SamePlace(w, w', j.id);
    }
    hide JobWeight, Apart;
    SameWeight(w, w', w.entries[request].assembled);
  }

  lemma ApartKeepsUnderWay(w: World, w': World, request: string)
    requires UnderWay(w, request) && Apart(w, w', request) && !w'.crashed
    requires forall j :: j in w.entries[request].launched ==> j in w.entries[request].assembled
    ensures UnderWay(w', request) && (AllFinished(w', request) <==> AllFinished(w, request))
  {
    hide OnRegistered, SamePlace;
    forall j | j in w.entries[request].launched
      ensures FinishedIn(w', j.id) <==> FinishedIn(w, j.id)
      ensures j.id in w'.inflight || (j.id in w'.dispatched && OnTrack(w'.dispatched[j.id].status))
    {
      PlaceKept(w, w', j.id);
    }
  }

  lemma PlaceKept(w: World, w': World, id: string)
    requires SamePlace(w, w', id)
    ensures FinishedIn(w', id) <==> FinishedIn(w, id)
    ensures (id in w'.inflight || (id in w'.dispatched && OnTrack(w'.dispatched[id].status)))
            <==> (id in w.inflight || (id in w.dispatched && OnTrack(w.dispatched[id].status)))
  {
  }

  /** Then the rollout is where it was. */
  lemma ApartKeepsWorking(w: World, w': World, request: string)
    requires Working(w, request) && Structure(w') && Barrier(w') && Apart(w, w', request) && !w'.crashed
    ensures Working(w', request)
    ensures Weight(w', w.entries[request].assembled) == Weight(w, w.entries[request].assembled)
  {
    LaunchedAreAssembled(w, request);
    hide Structure, Barrier;
    ApartKeepsWeight(w, w', request);
    ApartKeepsUnderWay(w, w', request);
    hide UnderWay, AllFinished, Weight, SamePlace, OnRegistered;
  }

  /** Whose a launched or dispatched command is. */
  lemma NotOwn(w: World, request: string, id: string)
    requires Structure(w) && request in w.entries
    requires id in w.inflight || id in w.dispatched
    requires id in w.inflight ==> w.inflight[id].request != request
    requires id !in w.inflight ==> w.dispatched[id].request != request
    ensures forall j :: j in w.entries[request].assembled ==> j.id != id
  {
    if id in w.inflight {
      LaunchedOwned(w, w.inflight[id].request, id, w.inflight[id].host);
    } else {
      LaunchedOwned(w, w.dispatched[id].request, id, w.dispatched[id].host);
    }
    hide EntriesConsistent, Located, Conserved;
  }

  // ---------- the events of others ----------

  lemma ClientsComeApart(w: World, request: string, e: Event)
    requires request in w.entries && (e.Register? || e.Cleanup?) && Foreign(w, request, e)
    ensures Apart(w, Apply(w, e), request)
  {
    ComingOrGone(w, e);
    if e.Register? {
      forall host | OnRegistered(w, host) ensures OnRegistered(Apply(w, e), host) {
        var c :| c in w.registered && w.registered[c] == host;
        assert c in Apply(w, e).registered && Apply(w, e).registered[c] == host;
      }
    }
  }

  /** Requests, clients and calls are as before, and so are all commands but one that is not the request's. */
  lemma OneElsewhere(w: World, w': World, request: string, cmd: string)
    requires request in w.entries && w'.entries == w.entries && w'.registered == w.registered && w'.stored == w.stored
    requires w'.wakeups[request] == w.wakeups[request] && w'.callbacks == w.callbacks
    requires forall id :: id != cmd ==> SamePlace(w, w', id)
    requires forall j :: j in w.entries[request].assembled ==> j.id != cmd
    ensures Apart(w, w', request)
  {
    hide SamePlace;
  }

  /** A launch step touches the place of its command only. */
  lemma LaunchStepLocal(w: World, e: Event)
    requires e.ReadTag? || e.Land?
    ensures var w' := Apply(w, e);
      && w'.entries == w.entries && w'.registered == w.registered && w'.stored == w.stored
      && w'.wakeups == w.wakeups && w'.callbacks == w.callbacks
      && (forall id :: id != e.cmd ==> SamePlace(w, w', id))
      && (e.cmd !in w.inflight ==> w' == w)
  {
  }

  lemma LaunchStepApart(w: World, request: string, e: Event)
    requires Structure(w) && request in w.entries && (e.ReadTag? || e.Land?) && Foreign(w, request, e)
    ensures Apart(w, Apply(w, e), request)
  {
    LaunchStepLocal(w, e);
    if e.cmd in w.inflight {
      NotOwn(w, request, e.cmd);
      hide *;
      OneElsewhere(w, Apply(w, e), request, e.cmd);
    } else {
      hide *;
      ApartItself(w, request);
    }
  }

  /** A status message touches the place of its command only, and spawns calls for that command's request only. */
  lemma StatusLocal(w: World, cmd: string, message: Status, verdict: Verdict)
    requires cmd in w.dispatched
    ensures var w' := ReportStatus(w, cmd, message, verdict);
      && w'.entries == w.entries && w'.registered == w.registered && w'.stored == w.stored
      && w'.callbacks == w.callbacks
      && (forall r :: r != w.dispatched[cmd].request ==> w'.wakeups[r] == w.wakeups[r])
      && (forall id :: id != cmd ==> SamePlace(w, w', id))
  {
    hide Settle, TriggersValidation;
  }

  lemma StatusApart(w: World, request: string, e: Event)
    requires Structure(w) && request in w.entries && e.Report? && Foreign(w, request, e)
    ensures Apart(w, Apply(w, e), request)
  {
    if Reaches(w, e.client, e.cmd) {
      assert Apply(w, e) == ReportStatus(w, e.cmd, e.message, e.verdict);
      StatusLocal(w, e.cmd, e.message, e.verdict);
      DispatchedNotOwn(w, request, e.cmd);
      hide *;
      OneElsewhere(w, Apply(w, e), request, e.cmd);
    } else {
      assert Apply(w, e) == w;
      hide *;
      ApartItself(w, request);
    }
  }

  lemma DispatchedNotOwn(w: World, request: string, id: string)
    requires Structure(w) && request in w.entries && id in w.dispatched && w.dispatched[id].request != request
    ensures forall j :: j in w.entries[request].assembled ==> j.id != id
  {
    LaunchedOwned(w, w.dispatched[id].request, id, w.dispatched[id].host);
    hide EntriesConsistent, Located, Conserved;
  }

  /** Only commands of the request are found under the ids of its commands. */
  lemma OwnUnderOwnIds(w: World, request: string, j: Job)
    requires Structure(w) && request in w.entries && j in w.entries[request].assembled
    ensures j.id in w.dispatched ==> w.dispatched[j.id].request == request
  {
    if j.id in w.dispatched && w.dispatched[j.id].request != request {
      DispatchedNotOwn(w, request, j.id);
    }
  }

  /** Commands are taken off lists, none of them the request's. */
  lemma RemovedElsewhere(w: World, w': World, request: string)
    requires Structure(w) && request in w.entries && w'.inflight == w.inflight
    requires forall id :: id in w'.dispatched ==> id in w.dispatched && w'.dispatched[id] == w.dispatched[id]
    requires forall id :: id in w.dispatched && w.dispatched[id].request == request ==> id in w'.dispatched
    ensures forall j :: j in w.entries[request].assembled ==> SamePlace(w, w', j.id)
  {
    forall j | j in w.entries[request].assembled ensures SamePlace(w, w', j.id) {
      OwnUnderOwnIds(w, request, j);
      hide Structure;
    }
  }

  lemma RemovalApart(w: World, w': World, request: string)
    requires request in w.entries && w'.entries == w.entries && w'.registered == w.registered
    requires request in w'.stored <==> request in w.stored
    requires w'.wakeups == w.wakeups && w'.callbacks == w.callbacks
    requires forall j :: j in w.entries[request].assembled ==> SamePlace(w, w', j.id)
    ensures Apart(w, w', request)
  {
    hide SamePlace;
  }

  lemma PurgeApart(w: World, request: string, client: string, cmds: set<string>)
    requires Structure(w) && request in w.entries && Foreign(w, request, Purge(client, cmds))
    ensures Apart(w, Apply(w, Purge(client, cmds)), request)
  {
    var w' := Apply(w, Purge(client, cmds));
    hide Structure, Reaches, Apart;
    RemovedElsewhere(w, w', request);
    RemovalApart(w, w', request);
  }

  lemma CancelApart(w: World, request: string, other: string)
    requires Structure(w) && request in w.entries && other != request
    ensures Apart(w, Apply(w, Cancel(other)), request)
  {
    var w' := Apply(w, Cancel(other));
    hide Structure, OnRegistered, Apart;
    RemovedElsewhere(w, w', request);
    RemovalApart(w, w', request);
  }

  lemma ExpireApart(w: World, request: string, requests: set<string>)
    requires request in w.entries && request !in requests
    ensures Apart(w, Apply(w, Expire(requests)), request)
  {
  }

  // ---------- other requests ----------

  /** A call of Next on another entry. */
  lemma OtherNextApart(w: World, request: string, other: string, early: set<string>)
    requires Structure(w) && request in w.entries && other in w.entries && other != request
    ensures Apart(w, RunNext(w, other, early), request)
  {
    hide *;
    RunNextCases(w, other, early);
    RunNextRings(w, other, early);
    var turn := TurnOf(w, other);
    if turn.Batch? {
      BatchJobsDistinct(w, other);
      JobsAreOthers(w, request, other);
      DealtApart(w, request, other, AfterTurn(w.entries[other], turn), turn.jobs, early);
    } else {
      NothingDealtApart(w, RunNext(w, other, early), request, other);
    }
  }

  lemma NothingDealtApart(w: World, w': World, request: string, other: string)
    requires request in w.entries && other != request && SameCore(w, w') && w'.stored == w.stored
    requires w'.wakeups == w.wakeups
    requires w'.callbacks == w.callbacks || w'.callbacks == w.callbacks + multiset{other}
    ensures Apart(w, w', request)
  {
  }

  lemma DealtApart(w: World, request: string, other: string, after: Entry<Job>, jobs: seq<Job>, early: set<string>)
    requires request in w.entries && other in w.entries && other != request && DistinctIds(jobs)
    requires forall j, k :: j in w.entries[request].assembled && k in jobs ==> j.id != k.id
    ensures Apart(w, Dealt(w, other, after, jobs, early), request)
  {
    SpawnAdds(w.inflight, jobs, other, after.iteration, early);
    hide DistinctIds, Spawn, OnRegistered;
    var w' := Dealt(w, other, after, jobs, early);
    forall j | j in w.entries[request].assembled ensures SamePlace(w, w', j.id) {
      assert j.id !in JobIds(jobs);
    }
    hide SamePlace;
  }

  lemma JobsAreOthers(w: World, request: string, other: string)
    requires Structure(w) && request in w.entries && other in w.entries && other != request
    requires TurnOf(w, other).Batch?
    ensures forall j, k :: j in w.entries[request].assembled && k in TurnOf(w, other).jobs ==> j.id != k.id
  {
    EntryFacts(w, other);
    RunNextCases(w, other, {});
    assert Owned(w);
    hide Structure, EntriesConsistent, Located, Conserved, Consistent, BatchDone, RunNext, Dealt, SameCore;
    TurnHandsOut(w.entries[other], TurnOf(w, other));
    hide AfterTurn, TurnOf;
  }

  lemma OtherStartApart(w: World, request: string, other: string, strategy: StrategyType, targets: seq<Target>)
    requires request in w.entries && other !in w.entries
    ensures Apart(w, StartRequest(w, other, strategy, targets), request)
    ensures StartRequest(w, other, strategy, targets).callbacks == w.callbacks
  {
    hide Assemble, JobIds;
  }

  lemma ApartTwice(w: World, w1: World, w2: World, request: string)
    requires request in w.entries && Apart(w, w1, request) && Apart(w1, w2, request)
    ensures Apart(w, w2, request)
  {
    forall j | j in w.entries[request].assembled ensures SamePlace(w, w2, j.id) {
      assert SamePlace(w, w1, j.id) && SamePlace(w1, w2, j.id);
    }
    hide SamePlace, OnRegistered;
  }

  /** Whatever others do leaves the rollout as it was. */
  lemma ForeignStepApart(w: World, request: string, e: Event)
    requires Structure(w) && request in w.entries && Fresh(w, e) && Foreign(w, request, e)
    ensures Apart(w, Apply(w, e), request)
  {
    hide Structure, RunNext, StartRequest, Apart, Reaches;
    match e
    case Register(_, _) => ClientsComeApart(w, request, e);
    case Cleanup(_) => ClientsComeApart(w, request, e);
    case ReadTag(_) => LaunchStepApart(w, request, e);
    case Land(_) => LaunchStepApart(w, request, e);
    case Report(_, _, _, _) => StatusApart(w, request, e);
    case Purge(client, cmds) => PurgeApart(w, request, client, cmds);
    case Cancel(other) => CancelApart(w, request, other);
    case Expire(requests) => ExpireApart(w, request, requests);
    case Start(other, strategy, targets, early) =>
      OtherStartApart(w, request, other, strategy, targets);
      StartKeepsStructure(w, other, strategy, targets);
      var started := StartRequest(w, other, strategy, targets);
      ApartKnown(w, started, request);
      OtherNextApart(started, request, other, early);
      ApartTwice(w, started, RunNext(started, other, early), request);
    case NextRuns(other, early) => CalledApart(w, request, other, early);
  }

  lemma ApartKnown(w: World, w': World, request: string)
    requires request in w.entries && Apart(w, w', request)
    ensures request in w'.entries
  {
  }

  lemma CalledApart(w: World, request: string, other: string, early: set<string>)
    requires Structure(w) && request in w.entries && other != request
    ensures Apart(w, Apply(w, NextRuns(other, early)), request)
  {
    hide *;
    if w.wakeups[other] > 0 && other in w.entries {
      var woken := CallTaken(w, other);
      CallRuns(w, other, early);
      SameCoreKeepsStructure(w, woken);
      WokenApart(w, request, other);
      OtherNextApart(woken, request, other, early);
      ApartTwice(w, woken, RunNext(woken, other, early), request);
    } else {
      NoCallRuns(w, other, early);
      ApartItself(w, request);
    }
  }

  /** A call of Next is taken off the list. */
  function CallTaken(w: World, request: string): World {
    w.(wakeups := w.wakeups - multiset{request})
  }

  lemma CallRuns(w: World, other: string, early: set<string>)
    requires other in w.entries && w.wakeups[other] > 0
    ensures Apply(w, NextRuns(other, early)) == RunNext(CallTaken(w, other), other, early)
    ensures SameCore(w, CallTaken(w, other)) && other in CallTaken(w, other).entries
  {
    hide RunNext;
  }

  lemma NoCallRuns(w: World, other: string, early: set<string>)
    requires w.wakeups[other] == 0 || other !in w.entries
    ensures Apply(w, NextRuns(other, early)) == w
  {
  }

  lemma WokenApart(w: World, request: string, other: string)
    requires request in w.entries && other != request
    ensures Apart(w, CallTaken(w, other), request) && request in CallTaken(w, other).entries
  {
  }

  lemma ApartItself(w: World, request: string)
    requires request in w.entries
    ensures Apart(w, w, request)
  {
  }

  /** A step of others keeps a rollout at work, with the steps left to it, provided it does not bring the server
      down. */
  lemma ForeignStepWorks(w: World, request: string, e: Event)
    requires Working(w, request) && Fresh(w, e) && Timely(w, e) && Foreign(w, request, e) && !Step(w, e).crashed
    ensures Working(Step(w, e), request) && Step(w, e).entries[request] == w.entries[request]
    ensures Weight(Step(w, e), w.entries[request].assembled) == Weight(w, w.entries[request].assembled)
  {
    assert !w.crashed && request in w.entries && Step(w, e) == Apply(w, e);
    ForeignStepApart(w, request, e);
    StepKeepsStructure(w, e);
    StepKeepsBarrier(w, e);
    hide Structure, Barrier, Step, Apply, UnderWay, AllFinished, Fresh, Timely, Foreign, Weight, SamePlace,
      OnRegistered;
    ApartKeepsWorking(w, Step(w, e), request);
  }
}
