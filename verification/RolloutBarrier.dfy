/** The batch barrier of the rollout, and what it gives: containment of failures. */
module RolloutBarrier {
  import opened Wrappers
  import opened Strategy
  import opened Commands
  import opened Rollout
  import opened RolloutInvariants

  /** Launches under way belong to a batch handed out; those towards registered client objects belong to the
      entry's current batch, whose number they carry. */
  ghost predicate LaunchesAreCurrent(w: World) {
    forall id :: id in w.inflight ==>
      var l := w.inflight[id];
      l.request in w.entries
      && l.batch <= w.entries[l.request].iteration
      && (OnRegistered(w, l.host) ==>
            l.batch == w.entries[l.request].iteration && (l.tag.Some? ==> l.tag.value == l.batch))
  }

  /** On client objects still registered, dispatched commands carry the number of their batch, and every command
      of a batch before the current one is finished. */
  ghost predicate EarlierBatchesFinished(w: World) {
    forall id :: id in w.dispatched ==>
      var d := w.dispatched[id];
      d.request in w.entries
      && d.batch <= w.entries[d.request].iteration
      && (OnRegistered(w, d.host) ==>
            d.tag == d.batch && (d.batch < w.entries[d.request].iteration ==> d.status == Finished))
  }

  ghost predicate Barrier(w: World) {
    LaunchesAreCurrent(w) && EarlierBatchesFinished(w)
  }

  lemma DealKeepsBarrier(w: World, request: string, after: Entry<Job>, jobs: seq<Job>)
    requires Barrier(w) && request in w.entries && DistinctIds(jobs)
    requires after.iteration == w.entries[request].iteration + 1
    requires NoLaunchUnderWay(w, request) && BatchDone(w, request, w.entries[request].iteration)
    ensures Barrier(Dealt(w, request, after, jobs, {}))
  {
    SpawnAdds(w.inflight, jobs, request, after.iteration, {});
    hide DistinctIds, Spawn;
    var w' := Dealt(w, request, after, jobs, {});
    assert LaunchesAreCurrent(w') by {
      hide EarlierBatchesFinished, BatchDone;
      forall id | id in w'.inflight
        ensures w'.inflight[id].request in w'.entries
          && w'.inflight[id].batch <= w'.entries[w'.inflight[id].request].iteration
          && (OnRegistered(w', w'.inflight[id].host) ==>
                w'.inflight[id].batch == w'.entries[w'.inflight[id].request].iteration
                && (w'.inflight[id].tag.Some? ==> w'.inflight[id].tag.value == w'.inflight[id].batch))
      {
        if id in JobIds(jobs) {
          var j :| j in jobs && j.id == id;
        }
      }
    }
    assert EarlierBatchesFinished(w') by {
      hide LaunchesAreCurrent, NoLaunchUnderWay, JobIds;
      forall id | id in w.dispatched && w.dispatched[id].request == request && OnRegistered(w, w.dispatched[id].host)
        ensures w.dispatched[id].status == Finished
      {
        assert w.dispatched[id].tag == w.entries[request].iteration ==>
            Scanned(w, w.dispatched[id], request, w.entries[request].iteration);
      }
    }
  }

  lemma TurnFacts(w: World, request: string)
    requires request in w.entries && TurnOf(w, request).Batch?
    ensures BatchDone(w, request, w.entries[request].iteration)
    ensures |TurnOf(w, request).jobs| <= |w.entries[request].queue|
    ensures AfterTurn(w.entries[request], TurnOf(w, request)).iteration == w.entries[request].iteration + 1
  {
    hide BatchDone;
  }

  lemma BatchJobsDistinct(w: World, request: string)
    requires Structure(w) && request in w.entries && TurnOf(w, request).Batch?
    ensures DistinctIds(TurnOf(w, request).jobs)
  {
    EntryFacts(w, request);
    RunNextCases(w, request, {});
    hide Structure, Consistent, BatchDone, RunNext, Dealt, SameCore;
    TurnHandsOut(w.entries[request], TurnOf(w, request));
    hide AfterTurn, TurnOf;
  }

  lemma RunNextKeepsBarrier(w: World, request: string)
    requires Structure(w) && Barrier(w) && request in w.entries && NoLaunchUnderWay(w, request)
    ensures Barrier(RunNext(w, request, {}))
  {
    hide *;
    var turn := TurnOf(w, request);
    RunNextCases(w, request, {});
    if turn.Batch? {
      TurnFacts(w, request);
      BatchJobsDistinct(w, request);
      DealKeepsBarrier(w, request, AfterTurn(w.entries[request], turn), turn.jobs);
    } else {
      SameCoreKeepsBarrier(w, RunNext(w, request, {}));
    }
  }

  lemma SameCoreKeepsBarrier(w: World, w': World)
    requires Barrier(w) && SameCore(w, w')
    ensures Barrier(w')
  {
  }

  lemma StartKeepsBarrier(w: World, request: string, strategy: StrategyType, targets: seq<Target>)
    requires Barrier(w) && request !in w.entries
    ensures var w' := StartRequest(w, request, strategy, targets);
      Barrier(w') && NoLaunchUnderWay(w', request)
  {
    hide Assemble, JobIds;
  }

  lemma NextRunsKeepsBarrier(w: World, request: string)
    requires Structure(w) && Barrier(w) && NoLaunchUnderWay(w, request)
    ensures Barrier(Apply(w, NextRuns(request, {})))
  {
    var w1 := w.(wakeups := w.wakeups - multiset{request});
    hide Structure, Barrier, RunNext;
    SameCoreKeepsStructure(w, w1);
    SameCoreKeepsBarrier(w, w1);
    if request in w.entries {
      RunNextKeepsBarrier(w1, request);
    }
  }

  lemma ReportKeepsBarrier(w: World, e: Event)
    requires Barrier(w) && e.Report? && Timely(w, e)
    ensures Barrier(Apply(w, e))
  {
    hide LaunchesAreCurrent;
    var w' := Apply(w, e);
    assert EarlierBatchesFinished(w');
    hide EarlierBatchesFinished;
    assert LaunchesAreCurrent(w') by { LaunchesUntouched(w, w'); }
  }

  lemma LaunchesUntouched(w: World, w': World)
    requires LaunchesAreCurrent(w) && w'.inflight == w.inflight && w'.entries == w.entries
    requires w'.registered == w.registered
    ensures LaunchesAreCurrent(w')
  {
  }

  lemma LaunchEventsKeepBarrier(w: World, e: Event)
    requires Barrier(w) && (e.ReadTag? || e.Land?)
    ensures Barrier(Apply(w, e))
  {
  }

  lemma HostsInUse(w: World)
    requires Structure(w)
    ensures forall id :: id in w.inflight ==> w.inflight[id].host in w.refs
    ensures forall id :: id in w.dispatched ==> w.dispatched[id].host in w.refs
  {
    forall id | id in w.inflight ensures w.inflight[id].host in w.refs {
      LaunchedOwned(w, w.inflight[id].request, id, w.inflight[id].host);
    }
    forall id | id in w.dispatched ensures w.dispatched[id].host in w.refs {
      LaunchedOwned(w, w.dispatched[id].request, id, w.dispatched[id].host);
    }
  }

  lemma ComingOrGone(w: World, e: Event)
    requires e.Register? || e.Cleanup?
    ensures forall host :: OnRegistered(Apply(w, e), host) ==> OnRegistered(w, host) || (e.Register? && host == e.ref)
    ensures var w' := Apply(w, e);
      && w'.inflight == w.inflight && w'.dispatched == w.dispatched && w'.entries == w.entries
      && w'.wakeups == w.wakeups && w'.stored == w.stored && w'.crashed == w.crashed && w'.callbacks == w.callbacks
  {
    var w' := Apply(w, e);
    forall host | OnRegistered(w', host) ensures OnRegistered(w, host) || (e.Register? && host == e.ref) {
      var c :| c in w'.registered && w'.registered[c] == host;
      if !(e.Register? && c == e.client && host == e.ref) {
        assert c in w.registered && w.registered[c] == host;
      }
    }
  }

  lemma SameCommandsKeepBarrier(w: World, w': World)
    requires Barrier(w) && w'.inflight == w.inflight && w'.dispatched == w.dispatched && w'.entries == w.entries
    requires forall id :: id in w.inflight && OnRegistered(w', w.inflight[id].host) ==>
               OnRegistered(w, w.inflight[id].host)
    requires forall id :: id in w.dispatched && OnRegistered(w', w.dispatched[id].host) ==>
               OnRegistered(w, w.dispatched[id].host)
    ensures Barrier(w')
  {
    hide OnRegistered;
  }

  /** A client object that registers is new, so no command is dispatched to it; one that goes takes its commands
      out of account. */
  lemma ClientsKeepBarrier(w: World, e: Event)
    requires Structure(w) && Barrier(w) && (e.Register? || e.Cleanup?) && Fresh(w, e)
    ensures Barrier(Apply(w, e))
  {
    HostsInUse(w);
    ComingOrGone(w, e);
    hide Structure, Barrier, Apply, OnRegistered;
    SameCommandsKeepBarrier(w, Apply(w, e));
  }

  lemma RemovalsKeepBarrier(w: World, e: Event)
    requires Barrier(w) && (e.Purge? || e.Cancel? || e.Expire?)
    ensures Barrier(Apply(w, e))
  {
    hide Reaches;
  }

  lemma StepKeepsBarrier(w: World, e: Event)
    requires Structure(w) && Barrier(w) && Fresh(w, e) && Timely(w, e)
    ensures Barrier(Step(w, e))
  {
    hide Structure, Barrier, RunNext, StartRequest, Reaches;
    match e
    case Start(request, strategy, targets, _) =>
      StartKeepsStructure(w, request, strategy, targets);
      StartKeepsBarrier(w, request, strategy, targets);
      RunNextKeepsBarrier(StartRequest(w, request, strategy, targets), request);
    case NextRuns(request, _) => NextRunsKeepsBarrier(w, request);
    case Report(_, _, _, _) => ReportKeepsBarrier(w, e);
    case Register(_, _) => ClientsKeepBarrier(w, e);
    case Cleanup(_) => ClientsKeepBarrier(w, e);
    case ReadTag(_) => LaunchEventsKeepBarrier(w, e);
    case Land(_) => LaunchEventsKeepBarrier(w, e);
    case _ => RemovalsKeepBarrier(w, e);
  }

  lemma {:induction false} RunKeepsBarrier(events: seq<Event>)
    requires FreshRun(INITIAL, events) && TimelyRun(INITIAL, events)
    ensures Structure(Run(INITIAL, events)) && Barrier(Run(INITIAL, events))
  {
    if events != [] {
      var before := events[..|events| - 1];
      RunKeepsBarrier(before);
      StepKeepsBarrier(Run(INITIAL, before), events[|events| - 1]);
      StepKeepsStructure(Run(INITIAL, before), events[|events| - 1]);
    }
  }

  lemma {:induction false} StatesKeepBarrier(states: seq<World>, events: seq<Event>, k: nat)
    requires TimelyStates(states, events) && k < |states|
    ensures Structure(states[k]) && Barrier(states[k])
  {
    hide Step, Structure, Barrier;
    if k == 0 {
      RunKeepsBarrier([]);
    } else {
      StatesKeepBarrier(states, events, k - 1);
      var e := events[k - 1];
      assert TimelyAt(states, events, k - 1);
      StepKeepsBarrier(states[k - 1], e);
      StepKeepsStructure(states[k - 1], e);
    }
  }

  /** The barrier, read off a run: in every state, on any client object still registered, every command tagged
      with an iteration below its entry's current one is finished, and every launch under way towards one
      carries the current one. */
  lemma {:induction false} BatchBarrier(states: seq<World>, events: seq<Event>, k: nat)
    requires TimelyStates(states, events) && k < |states|
    ensures var w := states[k];
      && (forall id :: id in w.dispatched && OnRegistered(w, w.dispatched[id].host) ==>
            w.dispatched[id].request in w.entries
            && w.dispatched[id].tag <= w.entries[w.dispatched[id].request].iteration
            && (w.dispatched[id].tag < w.entries[w.dispatched[id].request].iteration ==>
                  w.dispatched[id].status == Finished))
      && (forall id :: id in w.inflight && OnRegistered(w, w.inflight[id].host) && w.inflight[id].tag.Some? ==>
            w.inflight[id].request in w.entries
            && w.inflight[id].tag == Some(w.entries[w.inflight[id].request].iteration))
  {
    StatesKeepBarrier(states, events, k);
    hide Structure, TimelyStates;
  }

  // ---------- the premise of the barrier, exactly ----------

  /** Everything of an earlier batch that was meant for a registered client object has arrived and finished. */
  ghost predicate EarlierBatchesOver(w: World, request: string)
    requires request in w.entries
  {
    && (forall id :: id in w.inflight && Concerns(w, request, w.inflight[id].request, w.inflight[id].host) ==>
          w.inflight[id].batch == w.entries[request].iteration)
    && (forall id :: id in w.dispatched && Concerns(w, request, w.dispatched[id].request, w.dispatched[id].host) ==>
          w.dispatched[id].batch == w.entries[request].iteration || w.dispatched[id].status == Finished)
  }

  /** A call of Next that starts a batch leaves an earlier batch unfinished exactly when it runs while a
      launch of its request towards a registered client object is still under way. */
  lemma NextKeepsBarrierIffNoLaunchUnderWay(w: World, request: string)
    requires Structure(w) && Barrier(w) && request in w.entries && TurnOf(w, request).Batch?
    ensures request in RunNext(w, request, {}).entries
    ensures EarlierBatchesOver(RunNext(w, request, {}), request)
            <==> NoLaunchUnderWay(w, request)
  {
    TurnFacts(w, request);
    BatchJobsDistinct(w, request);
    RunNextCases(w, request, {});
    var turn := TurnOf(w, request);
    var after := AfterTurn(w.entries[request], turn);
    JobsNotInFlight(w, request);
    hide Structure, TurnOf, RunNext, AfterTurn, SameCore;
    DealEndsEarlierBatches(w, request, after, turn.jobs);
  }

  lemma JobsNotInFlight(w: World, request: string)
    requires Structure(w) && request in w.entries && TurnOf(w, request).Batch?
    ensures forall j :: j in TurnOf(w, request).jobs ==> j.id !in w.inflight
  {
    EntryFacts(w, request);
    RunNextCases(w, request, {});
    assert Conserved(w);
    hide Structure, EntriesConsistent, Owned, Located, Consistent, BatchDone, RunNext, Dealt, SameCore;
    TurnHandsOut(w.entries[request], TurnOf(w, request));
    hide AfterTurn, TurnOf;
  }

  lemma DealEndsEarlierBatches(w: World, request: string, after: Entry<Job>, jobs: seq<Job>)
    requires Barrier(w) && request in w.entries && DistinctIds(jobs)
    requires after.iteration == w.entries[request].iteration + 1
    requires BatchDone(w, request, w.entries[request].iteration)
    requires forall j :: j in jobs ==> j.id !in w.inflight
    ensures EarlierBatchesOver(Dealt(w, request, after, jobs, {}), request)
            <==> NoLaunchUnderWay(w, request)
  {
    SpawnAdds(w.inflight, jobs, request, after.iteration, {});
    hide DistinctIds, Spawn;
    var w' := Dealt(w, request, after, jobs, {});
    forall id | id in w.dispatched && w.dispatched[id].request == request && OnRegistered(w, w.dispatched[id].host)
      ensures w.dispatched[id].status == Finished
    {
      assert w.dispatched[id].tag == w.entries[request].iteration ==>
          Scanned(w, w.dispatched[id], request, w.entries[request].iteration);
    }
    forall id | id in w'.inflight && id !in w.inflight
      ensures w'.inflight[id].batch == after.iteration
    {
      var j :| j in jobs && j.id == id;
    }
    assert forall id :: id in w.inflight ==> w'.inflight[id] == w.inflight[id];
  }

  /** The commands of a batch that are meant for client objects still registered. */
  function RegisteredIds(w: World, jobs: seq<Job>): set<string> {
    set j | j in jobs && OnRegistered(w, j.host) :: j.id
  }

  /** A call of Next that starts a batch keeps the barrier exactly when no launch of its request towards a
      registered client object is under way and none of the batch's goroutines towards one reads the iteration
      number too early: an early one carries the number of the batch before. */
  lemma NextKeepsBarrierIff(w: World, request: string, early: set<string>)
    requires Structure(w) && Barrier(w) && request in w.entries && TurnOf(w, request).Batch?
    ensures Barrier(RunNext(w, request, early))
            <==> NoLaunchUnderWay(w, request) && early !! RegisteredIds(w, TurnOf(w, request).jobs)
  {
    hide *;
    var turn := TurnOf(w, request);
    TurnFacts(w, request);
    BatchJobsDistinct(w, request);
    RunNextCases(w, request, early);
    JobsNotInFlight(w, request);
    if NoLaunchUnderWay(w, request) {
      DealKeepsBarrierIff(w, request, AfterTurn(w.entries[request], turn), turn.jobs, early);
    } else {
      LateLaunchBreaksBarrier(w, request, AfterTurn(w.entries[request], turn), turn.jobs, early);
    }
  }

  lemma LateLaunchBreaksBarrier(w: World, request: string, after: Entry<Job>, jobs: seq<Job>, early: set<string>)
    requires Barrier(w) && request in w.entries && DistinctIds(jobs)
    requires after.iteration == w.entries[request].iteration + 1
    requires !NoLaunchUnderWay(w, request) && forall j :: j in jobs ==> j.id !in w.inflight
    ensures !Barrier(Dealt(w, request, after, jobs, early))
  {
    SpawnAdds(w.inflight, jobs, request, after.iteration, early);
    hide DistinctIds, EarlierBatchesFinished, Spawn;
    var id :| id in w.inflight && Concerns(w, request, w.inflight[id].request, w.inflight[id].host);
    assert Dealt(w, request, after, jobs, early).inflight[id] == w.inflight[id];
  }

  lemma DealKeepsBarrierIff(w: World, request: string, after: Entry<Job>, jobs: seq<Job>, early: set<string>)
    requires Barrier(w) && request in w.entries && DistinctIds(jobs)
    requires after.iteration == w.entries[request].iteration + 1
    requires NoLaunchUnderWay(w, request) && BatchDone(w, request, w.entries[request].iteration)
    ensures Barrier(Dealt(w, request, after, jobs, early)) <==> early !! RegisteredIds(w, jobs)
  {
    if early !! RegisteredIds(w, jobs) {
      hide NoLaunchUnderWay, BatchDone, Barrier, Dealt, DistinctIds;
      DealKeepsBarrier(w, request, after, jobs);
      InTimeIsAsGood(w, request, after, jobs, early);
    } else {
      EarlyBreaksBarrier(w, request, after, jobs, early);
    }
  }

  /** Goroutines towards registered clients that all read in time. */
  lemma InTimeIsAsGood(w: World, request: string, after: Entry<Job>, jobs: seq<Job>, early: set<string>)
    requires request in w.entries && DistinctIds(jobs) && early !! RegisteredIds(w, jobs) && after.iteration > 0
    requires Barrier(Dealt(w, request, after, jobs, {}))
    ensures Barrier(Dealt(w, request, after, jobs, early))
  {
    SpawnTags(w.inflight, jobs, request, after.iteration, early);
    SpawnOthers(w.inflight, jobs, request, after.iteration, early);
    hide DistinctIds, EarlierBatchesFinished, Spawn;
    var w', plain := Dealt(w, request, after, jobs, early), Dealt(w, request, after, jobs, {});
    forall id | id in w'.inflight && OnRegistered(w', w'.inflight[id].host)
      ensures w'.inflight[id] == plain.inflight[id]
    {
      if j :| j in jobs && j.id == id {
        assert OnRegistered(w, j.host) ==> id in RegisteredIds(w, jobs);
      }
    }
  }

  lemma EarlyBreaksBarrier(w: World, request: string, after: Entry<Job>, jobs: seq<Job>, early: set<string>)
    requires request in w.entries && DistinctIds(jobs) && !(early !! RegisteredIds(w, jobs))
    requires after.iteration == w.entries[request].iteration + 1
    ensures !Barrier(Dealt(w, request, after, jobs, early))
  {
    SpawnTags(w.inflight, jobs, request, after.iteration, early);
    SpawnAdds(w.inflight, jobs, request, after.iteration, early);
    hide DistinctIds, EarlierBatchesFinished, Spawn;
    var w' := Dealt(w, request, after, jobs, early);
    var j :| j in jobs && OnRegistered(w, j.host) && j.id in early;
    assert w'.inflight[j.id].tag == Some((after.iteration - 1) as nat);
  }

  /** Reading early changes the goroutines named and no others, and of those only the number. */
  lemma SpawnOthers(inflight: map<string, Launch>, jobs: seq<Job>, request: string, batch: nat, early: set<string>)
    requires DistinctIds(jobs)
    ensures var after := Spawn(inflight, jobs, request, batch, early);
      var plain := Spawn(inflight, jobs, request, batch, {});
      && after.Keys == plain.Keys
      && (forall id :: id in after ==> after[id] == plain[id].(tag := after[id].tag))
      && (forall id :: id in after && (id !in early || id !in JobIds(jobs)) ==> after[id] == plain[id])
      && (forall j :: j in jobs ==> j.id in after && after[j.id].host == j.host)
  {
    SpawnAdds(inflight, jobs, request, batch, early);
    SpawnAdds(inflight, jobs, request, batch, {});
    SpawnUntouched(inflight, jobs, request, batch, early);
    hide Spawn, DistinctIds;
    var after, plain := Spawn(inflight, jobs, request, batch, early), Spawn(inflight, jobs, request, batch, {});
    forall id | id in after ensures after[id] == plain[id].(tag := after[id].tag) {
      if j :| j in jobs && j.id == id {
        assert id in JobIds(jobs);
      } else {
        assert id !in JobIds(jobs);
      }
    }
  }

  lemma {:induction false} SpawnUntouched(inflight: map<string, Launch>, jobs: seq<Job>, request: string, batch: nat,
                                          early: set<string>)
    ensures var after := Spawn(inflight, jobs, request, batch, early);
      forall id :: id in after && id !in early ==>
        id in Spawn(inflight, jobs, request, batch, {}) && after[id] == Spawn(inflight, jobs, request, batch, {})[id]
  {
    if jobs != [] {
      SpawnUntouched(inflight, jobs[..|jobs| - 1], request, batch, early);
    }
  }

  lemma {:induction false} SpawnTags(inflight: map<string, Launch>, jobs: seq<Job>, request: string, batch: nat,
                                     early: set<string>)
    requires DistinctIds(jobs) && batch > 0
    ensures var after := Spawn(inflight, jobs, request, batch, early);
      forall j :: j in jobs && j.id in early ==>
        j.id in after && after[j.id] == Launch(request, j.host, batch, Some((batch - 1) as nat))
  {
    if jobs != [] {
      SpawnTags(inflight, jobs[..|jobs| - 1], request, batch, early);
    }
  }

  // ---------- containment of failures ----------

  /** No command disappears from a dispatched list. */
  ghost predicate Keeping(events: seq<Event>) {
    forall e :: e in events ==> !e.Purge? && !e.Cancel?
  }

  ghost predicate Kept(w: World) {
    forall id :: id in w.landed ==> id in w.dispatched
  }

  lemma StepKeeps(w: World, e: Event)
    requires Kept(w) && !e.Purge? && !e.Cancel?
    ensures Kept(Step(w, e))
  {
    hide TakeTurn, AfterTurn, Assemble, BatchDone, Spawn, Settle;
  }

  lemma {:induction false} StatesKeep(states: seq<World>, events: seq<Event>, k: nat)
    requires TimelyStates(states, events) && Keeping(events) && k < |states|
    ensures Kept(states[k])
  {
    if k > 0 {
      StatesKeep(states, events, k - 1);
      hide Kept, Step;
      var e := events[k - 1];
      assert TimelyAt(states, events, k - 1);
      StepKeeps(states[k - 1], e);
    }
  }

  predicate FinishedIn(w: World, id: string) {
    id in w.dispatched && w.dispatched[id].status == Finished
  }

  /** The batch in which a launched command was started. */
  function BatchOf(w: World, id: string): nat {
    if id in w.inflight then w.inflight[id].batch
    else if id in w.dispatched then w.dispatched[id].batch
    else 0
  }

  /** As long as some command of batch k on a registered client object has not finished, for whatever reason,
      the rollout stays at batch k: the commands started over the whole run are exactly the strategy's bound
      for k batches. */
  lemma {:induction false} FailureContainment(states: seq<World>, events: seq<Event>, k: nat, request: string, job: Job)
    requires TimelyStates(states, events) && Keeping(events) && k < |states|
    requires request in states[k].entries && job in states[k].entries[request].launched
    requires OnRegistered(states[k], job.host) && !FinishedIn(states[k], job.id)
    ensures var e := states[k].entries[request]; var batch := BatchOf(states[k], job.id);
      && e.iteration == batch
      && |e.launched| == PrefixBound(e.strategy, |e.assembled|, batch)
  {
    StatesKeepBarrier(states, events, k);
    StatesKeep(states, events, k);
    hide TimelyStates;
    UnfinishedIsCurrent(states[k], request, job);
    EntryFacts(states[k], request);
    var e := states[k].entries[request];
    LaunchedAfterClosedForm(e.strategy, |e.assembled|, e.iteration);
  }

  lemma UnfinishedIsCurrent(w: World, request: string, job: Job)
    requires Structure(w) && Barrier(w) && Kept(w)
    requires request in w.entries && job in w.entries[request].launched
    requires OnRegistered(w, job.host) && !FinishedIn(w, job.id)
    ensures w.entries[request].iteration == BatchOf(w, job.id)
  {
    PlaceOf(w, request, job);
    hide Structure;
  }

  /** Where a launched command is, it is filed under its own request and client object. */
  lemma PlaceOf(w: World, request: string, job: Job)
    requires Structure(w) && request in w.entries && job in w.entries[request].launched
    ensures job.id in w.inflight || job.id in w.landed
    ensures job.id in w.inflight ==> w.inflight[job.id].request == request && w.inflight[job.id].host == job.host
    ensures job.id in w.dispatched ==> w.dispatched[job.id].request == request && w.dispatched[job.id].host == job.host
  {
    LaunchedOwned(w, request, job.id, job.host);
    if job.id in w.inflight {
      var l := w.inflight[job.id];
      LaunchedOwned(w, l.request, job.id, l.host);
      SameIdSameJob(w, request, job, Job(job.id, l.host));
    }
    if job.id in w.dispatched {
      var d := w.dispatched[job.id];
      LaunchedOwned(w, d.request, job.id, d.host);
      SameIdSameJob(w, request, job, Job(job.id, d.host));
    }
  }

  lemma SameIdSameJob(w: World, request: string, a: Job, b: Job)
    requires EntriesConsistent(w) && request in w.entries
    requires a in w.entries[request].launched && b in w.entries[request].launched && a.id == b.id
    ensures a == b
  {
    LaunchedAreAssembled(w, request);
  }
}
