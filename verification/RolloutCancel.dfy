/** When cancelling a request keeps it from starting anything more. */
module RolloutCancel {
  import opened Wrappers
  import opened Strategy
  import opened Commands
  import opened Rollout
  import opened RolloutInvariants
  import opened RolloutBarrier
  import opened RolloutProgress

  /** Nothing that could wake the request's entry is left, apart from what is beyond reach. */
  ghost predicate Quiet(w: World, request: string) {
    && request in w.entries
    && w.wakeups[request] == 0
    && NoLaunchUnderWay(w, request)
    && (forall id :: id in w.dispatched ==> !Concerns(w, request, w.dispatched[id].request, w.dispatched[id].host))
  }

  lemma DealKeepsQuiet(w: World, request: string, other: string, after: Entry<Job>, jobs: seq<Job>, early: set<string>)
    requires Quiet(w, request) && other != request && DistinctIds(jobs)
    ensures var w' := Dealt(w, other, after, jobs, early);
      Quiet(w', request) && w'.entries[request] == w.entries[request]
  {
    SpawnAdds(w.inflight, jobs, other, after.iteration, early);
    hide DistinctIds, Spawn;
    var w' := Dealt(w, other, after, jobs, early);
    forall id | id in w'.inflight ensures !Concerns(w', request, w'.inflight[id].request, w'.inflight[id].host) {
      if id in JobIds(jobs) {
        var j :| j in jobs && j.id == id;
      }
    }
  }

  lemma OtherNextKeepsQuiet(w: World, request: string, other: string, early: set<string>)
    requires Structure(w) && Quiet(w, request) && other != request && other in w.entries
    ensures var w' := RunNext(w, other, early);
      Quiet(w', request) && w'.entries[request] == w.entries[request]
  {
    RunNextCases(w, other, early);
    RunNextRings(w, other, early);
    var turn := TurnOf(w, other);
    hide Structure, RunNext, TurnOf, Dealt, AfterTurn;
    if turn.Batch? {
      BatchJobsDistinct(w, other);
      DealKeepsQuiet(w, request, other, AfterTurn(w.entries[other], turn), turn.jobs, early);
    }
  }

  lemma StartKeepsQuiet(w: World, request: string, other: string, strategy: StrategyType, targets: seq<Target>)
    requires Quiet(w, request) && other !in w.entries
    ensures var w' := StartRequest(w, other, strategy, targets);
      Quiet(w', request) && w'.entries[request] == w.entries[request]
  {
    hide Assemble, JobIds;
  }

  lemma NextKeepsQuiet(w: World, request: string, e: Event)
    requires Structure(w) && Quiet(w, request) && Fresh(w, e) && (e.Start? || e.NextRuns?)
    ensures Quiet(Apply(w, e), request) && Apply(w, e).entries[request] == w.entries[request]
  {
    hide Structure, RunNext, StartRequest;
    match e
    case Start(other, strategy, targets, early) =>
      StartKeepsStructure(w, other, strategy, targets);
      StartKeepsQuiet(w, request, other, strategy, targets);
      hide Fresh, Quiet;
      assert other in StartRequest(w, other, strategy, targets).entries;
      OtherNextKeepsQuiet(StartRequest(w, other, strategy, targets), request, other, early);
    case NextRuns(other, early) =>
      if other != request && other in w.entries {
        var woken := w.(wakeups := w.wakeups - multiset{other});
        SameCoreKeepsStructure(w, woken);
        OtherNextKeepsQuiet(woken, request, other, early);
      }
  }

  lemma RegisterKeepsQuiet(w: World, request: string, e: Event)
    requires Structure(w) && Quiet(w, request) && Fresh(w, e) && e.Register?
    ensures Quiet(Apply(w, e), request) && Apply(w, e).entries == w.entries
  {
    HostsInUse(w);
    hide Structure;
    if e.client !in w.registered {
      assert forall host :: host in w.registered[e.client := e.ref].Values ==>
        host in w.registered.Values || host == e.ref;
    }
  }

  lemma RemovalsKeepQuiet(w: World, request: string, e: Event)
    requires Quiet(w, request) && (e.Cleanup? || e.Purge? || e.Cancel? || e.Expire?)
    ensures Quiet(Apply(w, e), request) && Apply(w, e).entries == w.entries
  {
    if e.Cleanup? {
      assert forall host :: host in (w.registered - e.gone).Values ==> host in w.registered.Values;
    }
    hide Reaches;
  }

  lemma LaunchesKeepQuiet(w: World, request: string, e: Event)
    requires Quiet(w, request) && (e.ReadTag? || e.Land?)
    ensures Quiet(Apply(w, e), request) && Apply(w, e).entries == w.entries
  {
  }

  /** A status message reaches only commands on registered client objects, none of which is the request's. */
  lemma ReportKeepsQuiet(w: World, request: string, e: Event)
    requires Quiet(w, request) && e.Report?
    ensures Quiet(Apply(w, e), request) && Apply(w, e).entries == w.entries
  {
    if Reaches(w, e.client, e.cmd) {
      assert OnRegistered(w, w.dispatched[e.cmd].host);
      assert w.dispatched[e.cmd].request != request;
    }
    hide Settle, TriggersValidation;
  }

  lemma StepKeepsQuiet(w: World, request: string, e: Event)
    requires Structure(w) && Quiet(w, request) && Fresh(w, e)
    ensures Quiet(Step(w, e), request) && Step(w, e).entries[request] == w.entries[request]
  {
    hide Structure, Quiet, Fresh, Apply;
    assert request in w.entries by { QuietKnown(w, request); }
    match e
    case Start(_, _, _, _) => NextKeepsQuiet(w, request, e);
    case NextRuns(_, _) => NextKeepsQuiet(w, request, e);
    case Register(_, _) => RegisterKeepsQuiet(w, request, e);
    case ReadTag(_) => LaunchesKeepQuiet(w, request, e);
    case Land(_) => LaunchesKeepQuiet(w, request, e);
    case Report(_, _, _, _) => ReportKeepsQuiet(w, request, e);
    case _ => RemovalsKeepQuiet(w, request, e);
  }

  lemma QuietKnown(w: World, request: string)
    requires Quiet(w, request)
    ensures request in w.entries
  {
  }

  lemma {:induction false} QuietForever(w: World, request: string, events: seq<Event>)
    requires Structure(w) && Quiet(w, request) && FreshRun(w, events)
    ensures var w' := Run(w, events);
      Structure(w') && Quiet(w', request) && w'.entries[request] == w.entries[request]
  {
    if events != [] {
      var before := Run(w, events[..|events| - 1]);
      QuietForever(w, request, events[..|events| - 1]);
      hide Structure, Quiet, Fresh, Step;
      StepKeepsStructure(before, events[|events| - 1]);
      StepKeepsQuiet(before, request, events[|events| - 1]);
      QuietKnown(before, request);
      QuietKnown(w, request);
    }
  }

  // ---------- an entry without commands left starts nothing either ----------

  lemma EmptyNext(w: World, request: string, other: string, early: set<string>)
    requires request in w.entries && other in w.entries && w.entries[request].queue == []
    ensures request in RunNext(w, other, early).entries
    ensures RunNext(w, other, early).entries[request] == w.entries[request]
  {
    hide BatchDone, Spawn, AfterTurn, TakeTurn;
  }

  lemma EmptyQueueStays(w: World, request: string, e: Event)
    requires request in w.entries && w.entries[request].queue == [] && Fresh(w, e)
    ensures request in Step(w, e).entries && Step(w, e).entries[request] == w.entries[request]
  {
    hide RunNext, Assemble, JobIds, Settle, TriggersValidation, Reaches, OnRegistered;
    match e
    case Start(other, strategy, targets, early) =>
      EmptyNext(StartRequest(w, other, strategy, targets), request, other, early);
    case NextRuns(other, early) =>
      if other in w.entries {
        EmptyNext(w.(wakeups := w.wakeups - multiset{other}), request, other, early);
      }
    case _ =>
  }

  lemma {:induction false} EmptyQueueForever(w: World, request: string, events: seq<Event>)
    requires request in w.entries && w.entries[request].queue == [] && FreshRun(w, events)
    ensures request in Run(w, events).entries && Run(w, events).entries[request] == w.entries[request]
  {
    if events != [] {
      EmptyQueueForever(w, request, events[..|events| - 1]);
      hide Fresh, Step;
      EmptyQueueStays(Run(w, events[..|events| - 1]), request, events[|events| - 1]);
    }
  }

  // ---------- what a launch or a call of Next under way can still do ----------

  /** The messages of a client whose command succeeds, from a given status on. */
  function Reports(client: string, cmd: string, status: Status): seq<Event>
    requires OnTrack(status) && status != Finished
    decreases Rank(status)
  {
    var report := Report(client, cmd, NextMessage(status), Accepted);
    if status == FinishedExecution then [report] else [report] + Reports(client, cmd, NextMessage(status))
  }

  /** The command has finished and a call of Next was spawned for its request. */
  function Succeeded(w: World, cmd: string): World
    requires cmd in w.dispatched
  {
    var d := w.dispatched[cmd];
    w.(dispatched := w.dispatched[cmd := d.(status := Finished)], wakeups := w.wakeups + multiset{d.request})
  }

  lemma {:induction false} ReportsSucceed(w: World, client: string, cmd: string)
    requires !w.crashed && Reaches(w, client, cmd) && w.dispatched[cmd].request in w.entries
    requires OnTrack(w.dispatched[cmd].status) && w.dispatched[cmd].status != Finished
    ensures Run(w, Reports(client, cmd, w.dispatched[cmd].status)) == Succeeded(w, cmd)
    decreases Rank(w.dispatched[cmd].status)
  {
    var d := w.dispatched[cmd];
    var events := Reports(client, cmd, d.status);
    if d.status == FinishedExecution {
      FinishingReport(w, client, cmd);
      RunShort(w, events);
      hide Step, Run, Reaches;
    } else {
      PlainReport(w, client, cmd);
      var w' := Step(w, events[0]);
      ReportsSucceed(w', client, cmd);
      hide Step;
      RunShort(w, [events[0]]);
      RunConcat(w, [events[0]], Reports(client, cmd, NextMessage(d.status)));
      assert w'.dispatched[cmd := w'.dispatched[cmd].(status := Finished)]
          == w.dispatched[cmd := d.(status := Finished)];
      hide Run, Reports, Reaches;
    }
  }

  /** None of these events draws an identifier. */
  predicate NothingDrawn(events: seq<Event>) {
    forall e :: e in events ==> !e.Register? && !e.Start?
  }

  lemma {:induction false} NothingDrawnIsFresh(w: World, events: seq<Event>)
    requires NothingDrawn(events)
    ensures FreshRun(w, events)
  {
    if events != [] {
      NothingDrawnIsFresh(w, events[..|events| - 1]);
      hide Run;
    }
  }

  lemma {:induction false} ReportsDrawNothing(client: string, cmd: string, status: Status)
    requires OnTrack(status) && status != Finished
    ensures NothingDrawn(Reports(client, cmd, status))
    decreases Rank(status)
  {
    if status != FinishedExecution {
      ReportsDrawNothing(client, cmd, NextMessage(status));
    }
  }

  /** A call of Next that finds nothing of its request unfinished starts another batch. */
  lemma WokenNextStarts(w: World, request: string)
    requires !w.crashed && request in w.entries && w.wakeups[request] > 0 && w.entries[request].queue != []
    requires forall id :: id in w.dispatched && w.dispatched[id].status != Finished ==>
               !Concerns(w, request, w.dispatched[id].request, w.dispatched[id].host)
    ensures request in Step(w, NextRuns(request, {})).entries
    ensures Step(w, NextRuns(request, {})).entries[request].iteration == w.entries[request].iteration + 1
  {
    var woken := w.(wakeups := w.wakeups - multiset{request});
    assert BatchDone(woken, request, w.entries[request].iteration);
    hide BatchDone, Spawn;
  }

  function Cancelled(w: World, request: string): World {
    Step(w, Cancel(request))
  }

  lemma CancelClears(w: World, request: string)
    requires !w.crashed
    ensures var c := Cancelled(w, request);
      && !c.crashed && c.entries == w.entries && c.wakeups == w.wakeups && c.inflight == w.inflight
      && c.registered == w.registered
      && NoneConcerned(c, request)
  {
  }

  ghost predicate NoneConcerned(w: World, request: string) {
    forall id :: id in w.dispatched ==> !Concerns(w, request, w.dispatched[id].request, w.dispatched[id].host)
  }

  /** The commands dispatched for a request on registered client objects are at most this one. */
  ghost predicate OnlyConcerned(w: World, request: string, cmd: string) {
    forall id :: id in w.dispatched && id != cmd ==>
      !Concerns(w, request, w.dispatched[id].request, w.dispatched[id].host)
  }

  ghost predicate Revives(w: World, request: string, events: seq<Event>) {
    request in w.entries && NothingDrawn(events) && request in Run(w, events).entries
    && Run(w, events).entries[request].iteration == w.entries[request].iteration + 1
  }

  lemma LandedRevives(w: World, request: string, client: string, cmd: string)
    requires !w.crashed && request in w.entries && w.entries[request].queue != []
    requires Reaches(w, client, cmd) && w.dispatched[cmd].request == request && w.dispatched[cmd].status == Pending
    requires OnlyConcerned(w, request, cmd)
    ensures Revives(w, request, Reports(client, cmd, Pending) + [NextRuns(request, {})])
  {
    ReportsSucceed(w, client, cmd);
    ReportsDrawNothing(client, cmd, Pending);
    WokenNextStarts(Succeeded(w, cmd), request);
    hide Reports, Step, Run, Reaches;
    RunOneMore(w, Reports(client, cmd, Pending), NextRuns(request, {}));
  }

  lemma Prepended(w: World, request: string, e: Event, events: seq<Event>)
    requires Revives(Step(w, e), request, events) && !e.Register? && !e.Start?
    requires Step(w, e).entries == w.entries
    ensures Revives(w, request, [e] + events)
  {
    hide Step;
    RunShort(w, [e]);
    RunConcat(w, [e], events);
    hide Run;
  }

  lemma TaggedRevives(w: World, request: string, cmd: string) returns (events: seq<Event>)
    requires !w.crashed && request in w.entries && w.entries[request].queue != []
    requires cmd in w.inflight && Concerns(w, request, w.inflight[cmd].request, w.inflight[cmd].host)
    requires w.inflight[cmd].tag.Some? && NoneConcerned(w, request)
    ensures Revives(w, request, events)
  {
    var client :| client in w.registered && w.registered[client] == w.inflight[cmd].host;
    LandOne(w, cmd);
    hide Step, Revives, Reports;
    LandedRevives(Step(w, Land(cmd)), request, client, cmd);
    var rest := Reports(client, cmd, Pending) + [NextRuns(request, {})];
    Prepended(w, request, Land(cmd), rest);
    events := [Land(cmd)] + rest;
  }

  /** From a cancelled state, a launch under way towards a registered client object lets the client finish its
      command, and that starts the next batch. */
  lemma LaunchRevives(c: World, request: string, cmd: string) returns (events: seq<Event>)
    requires !c.crashed && request in c.entries && c.entries[request].queue != []
    requires cmd in c.inflight && Concerns(c, request, c.inflight[cmd].request, c.inflight[cmd].host)
    requires NoneConcerned(c, request)
    ensures Revives(c, request, events)
  {
    hide Revives;
    if c.inflight[cmd].tag.Some? {
      events := TaggedRevives(c, request, cmd);
    } else {
      ReadOne(c, cmd);
      hide Step;
      var rest := TaggedRevives(Step(c, ReadTag(cmd)), request, cmd);
      Prepended(c, request, ReadTag(cmd), rest);
      events := [ReadTag(cmd)] + rest;
    }
  }

  lemma ReadOne(c: World, cmd: string)
    requires !c.crashed && cmd in c.inflight && c.inflight[cmd].request in c.entries && c.inflight[cmd].tag.None?
    ensures var l := c.inflight[cmd];
      Step(c, ReadTag(cmd)) == c.(inflight := c.inflight[cmd := l.(tag := Some(c.entries[l.request].iteration))])
  {
  }

  lemma LandOne(w: World, cmd: string)
    requires !w.crashed && cmd in w.inflight && w.inflight[cmd].tag.Some?
    ensures var w' := Step(w, Land(cmd)); var l := w.inflight[cmd];
      && w'.entries == w.entries && w'.registered == w.registered && !w'.crashed && w'.wakeups == w.wakeups
      && w'.dispatched == w.dispatched[cmd := Dispatched(l.request, l.host, l.batch, l.tag.value, Pending)]
  {
  }

  /** No continuation with fresh identifiers, whatever messages the clients send, changes the request's entry. */
  ghost predicate Final(w: World, request: string, e: Entry<Job>) {
    forall states: seq<World>, events: seq<Event> :: FreshStates(w, states, events) ==>
      request in states[|events|].entries && states[|events|].entries[request] == e
  }

  lemma FinalOverRuns(w: World, request: string, e: Entry<Job>)
    ensures Final(w, request, e)
            <==> forall events :: FreshRun(w, events) ==>
                   request in Run(w, events).entries && Run(w, events).entries[request] == e
  {
    hide FreshRun, Run, FreshAt;
    if Final(w, request, e) {
      forall events | FreshRun(w, events)
        ensures request in Run(w, events).entries && Run(w, events).entries[request] == e
      {
        var states := FreshRunStates(w, events);
      }
    } else {
      var states: seq<World>, events :| FreshStates(w, states, events)
        && !(request in states[|events|].entries && states[|events|].entries[request] == e);
      FreshStatesRun(w, states, events);
    }
  }

  /** Cancelling a request is final exactly when at that moment its queue is empty, or no call of Next is waiting
      for it and no launch of it towards a registered client object is under way. */
  lemma {:induction false} CancelIsFinalIff(w: World, request: string)
    requires Structure(w) && !w.crashed && request in w.entries
    ensures Final(Cancelled(w, request), request, w.entries[request])
            <==> w.entries[request].queue == [] || (w.wakeups[request] == 0 && NoLaunchUnderWay(w, request))
  {
    var c := Cancelled(w, request);
    CancelClears(w, request);
    StepKeepsStructure(w, Cancel(request));
    FinalOverRuns(c, request, w.entries[request]);
    hide Structure, Cancelled, Step, Run, FreshRun, Final;
    if w.entries[request].queue == [] {
      forall events | FreshRun(c, events)
        ensures request in Run(c, events).entries && Run(c, events).entries[request] == w.entries[request]
      {
        EmptyQueueForever(c, request, events);
      }
    } else if w.wakeups[request] == 0 && NoLaunchUnderWay(w, request) {
      assert Quiet(c, request);
      forall events | FreshRun(c, events)
        ensures request in Run(c, events).entries && Run(c, events).entries[request] == w.entries[request]
      {
        QuietForever(c, request, events);
      }
    } else {
      CancelIsNotFinal(w, c, request);
    }
  }

  lemma CancelIsNotFinal(w: World, c: World, request: string)
    requires !c.crashed && c.entries == w.entries && c.wakeups == w.wakeups && c.inflight == w.inflight
    requires c.registered == w.registered
    requires NoneConcerned(c, request)
    requires request in w.entries && w.entries[request].queue != []
    requires w.wakeups[request] > 0 || !NoLaunchUnderWay(w, request)
    ensures exists events :: FreshRun(c, events)
              && request in Run(c, events).entries && Run(c, events).entries[request] != w.entries[request]
  {
    hide Run, FreshRun, Step;
    var events;
    if w.wakeups[request] > 0 {
      events := [NextRuns(request, {})];
      RunShort(c, events);
      WokenNextStarts(c, request);
    } else {
      var cmd :| cmd in c.inflight && Concerns(c, request, c.inflight[cmd].request, c.inflight[cmd].host);
      events := LaunchRevives(c, request, cmd);
    }
    NothingDrawnIsFresh(c, events);
  }
}
