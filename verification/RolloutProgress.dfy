/**
 The steps of a rollout in which every launched command finishes: launches land before commands of their
 request finish, and a finish and the call of Next it spawns are one step.
 */
module RolloutProgress {
  import opened Wrappers
  import opened Strategy
  import opened Commands
  import opened Rollout
  import opened RolloutInvariants
  import opened RolloutBarrier

  /** A choice of the scheduler: let this command, on this client, take its next step. */
  datatype Pick = Pick(client: string, cmd: string)

  predicate OnTrack(status: Status) {
    status in {Pending, Validating, Starting, StartedExecution, FinishedExecution, Finished}
  }

  /** Messages still to come from a client whose command succeeds. */
  function Rank(status: Status): nat {
    match status
    case Pending => 5
    case Validating => 4
    case Starting => 3
    case StartedExecution => 2
    case FinishedExecution => 1
    case _ => 0
  }

  function NextMessage(status: Status): Status {
    match status
    case Pending => Validating
    case Validating => Starting
    case Starting => StartedExecution
    case StartedExecution => FinishedExecution
    case _ => FlushedLogs
  }

  /** Steps left for one command: seven before it is launched, none once it is finished. */
  function JobWeight(w: World, job: Job): nat {
    if job.id in w.inflight then (if w.inflight[job.id].tag.None? then 7 else 6)
    else if job.id in w.dispatched then Rank(w.dispatched[job.id].status)
    else 7
  }

  function Weight(w: World, jobs: seq<Job>): nat {
    if jobs == [] then 0
    else Weight(w, jobs[..|jobs| - 1]) + JobWeight(w, jobs[|jobs| - 1])
  }

  function Advance(w: World, p: Pick): seq<Event> {
    if p.cmd in w.inflight then [if w.inflight[p.cmd].tag.None? then ReadTag(p.cmd) else Land(p.cmd)]
    else if p.cmd in w.dispatched then
      var d := w.dispatched[p.cmd];
      var report := Report(p.client, p.cmd, NextMessage(d.status), Accepted);
      if d.status == FinishedExecution then [report, NextRuns(d.request, {})] else [report]
    else []
  }

  predicate Enabled(w: World, request: string, p: Pick) {
    if p.cmd in w.inflight then w.inflight[p.cmd].request == request
    else
      Reaches(w, p.client, p.cmd) && w.dispatched[p.cmd].request == request
      && w.dispatched[p.cmd].status != Finished
      && (w.dispatched[p.cmd].status == FinishedExecution ==> NoLaunchUnderWay(w, request))
  }

  ghost predicate AllFinished(w: World, request: string)
    requires request in w.entries
  {
    forall j :: j in w.entries[request].launched ==> FinishedIn(w, j.id)
  }

  /** The request's commands are on their way, on registered client objects, and the server is up. */
  ghost predicate UnderWay(w: World, request: string) {
    && !w.crashed && request in w.entries && request in w.stored && w.wakeups[request] == 0
    && (forall j :: j in w.entries[request].assembled ==> OnRegistered(w, j.host))
    && (forall j :: j in w.entries[request].launched ==>
          j.id in w.inflight || (j.id in w.dispatched && OnTrack(w.dispatched[j.id].status)))
  }

  /** Between two steps: commands are only left in the queue while a launched one is unfinished, and the
      callbacks have been triggered once if all is finished, otherwise not at all. */
  ghost predicate Working(w: World, request: string) {
    && Structure(w) && Barrier(w) && UnderWay(w, request)
    && (AllFinished(w, request) ==> w.entries[request].queue == [])
    && w.callbacks[request] == (if AllFinished(w, request) then 1 else 0)
  }

  // ---------- weights ----------

  lemma {:induction false} SameWeight(w: World, w': World, jobs: seq<Job>)
    requires forall j :: j in jobs ==> JobWeight(w', j) == JobWeight(w, j)
    ensures Weight(w', jobs) == Weight(w, jobs)
  {
    if jobs != [] {
      var init := jobs[..|jobs| - 1];
      assert forall j :: j in init ==> j in jobs;
      hide JobWeight;
      SameWeight(w, w', init);
    }
  }

  lemma {:induction false} OneLighter(w: World, w': World, jobs: seq<Job>, job: Job)
    requires DistinctIds(jobs) && job in jobs
    requires forall j :: j in jobs && j.id != job.id ==> JobWeight(w', j) == JobWeight(w, j)
    requires JobWeight(w', job) + 1 == JobWeight(w, job)
    ensures Weight(w', jobs) + 1 == Weight(w, jobs)
  {
    hide JobWeight;
    var init, last := jobs[..|jobs| - 1], jobs[|jobs| - 1];
    assert jobs == init + [last];
    assert forall j :: j in init ==> j in jobs;
    if last == job {
      forall j | j in init ensures j.id != job.id {
        var i :| 0 <= i < |init| && init[i] == j;
        assert jobs[i] == j;
      }
      SameWeight(w, w', init);
    } else {
      assert last.id != job.id by {
        var i :| 0 <= i < |jobs| && jobs[i] == job;
      }
      OneLighter(w, w', init, job);
    }
  }

  lemma {:induction false} WeightOfUnlaunched(w: World, jobs: seq<Job>)
    requires forall j :: j in jobs ==> JobWeight(w, j) == 7
    ensures Weight(w, jobs) == 7 * |jobs|
  {
    if jobs != [] {
      var init := jobs[..|jobs| - 1];
      assert forall j :: j in init ==> j in jobs;
      hide JobWeight;
      WeightOfUnlaunched(w, init);
    }
  }

  lemma {:induction false} WeightZero(w: World, jobs: seq<Job>)
    ensures Weight(w, jobs) == 0 <==> forall j :: j in jobs ==> JobWeight(w, j) == 0
  {
    if jobs != [] {
      var init, last := jobs[..|jobs| - 1], jobs[|jobs| - 1];
      assert jobs == init + [last];
      hide JobWeight;
      WeightZero(w, init);
    }
  }

  // ---------- where the request's commands are ----------

  lemma PickedJob(w: World, request: string, p: Pick)
    requires Structure(w) && UnderWay(w, request) && Enabled(w, request, p)
    ensures exists job ::
      job in w.entries[request].launched && job.id == p.cmd && job in w.entries[request].assembled
      && !FinishedIn(w, p.cmd)
  {
    if p.cmd in w.inflight {
      var l := w.inflight[p.cmd];
      assert Launched(w, request, p.cmd, l.host);
      assert p.cmd !in w.landed;
      assert p.cmd !in w.dispatched;
      LaunchedAreAssembled(w, request);
      assert Job(p.cmd, l.host).id == p.cmd;
    } else {
      var d := w.dispatched[p.cmd];
      assert Launched(w, request, p.cmd, d.host);
      LaunchedAreAssembled(w, request);
      assert Job(p.cmd, d.host).id == p.cmd;
    }
  }

  /** What one event of the advance changes: the place of one command, which stays unfinished. */
  ghost predicate Moved(w: World, w': World, id: string) {
    && w'.entries == w.entries && w'.registered == w.registered && w'.stored == w.stored
    && w'.wakeups == w.wakeups && w'.callbacks == w.callbacks && w'.crashed == w.crashed
    && (forall other :: other != id ==>
          (other in w'.inflight <==> other in w.inflight)
          && (other in w'.dispatched <==> other in w.dispatched)
          && (other in w.inflight ==> w'.inflight[other] == w.inflight[other])
          && (other in w.dispatched ==> w'.dispatched[other] == w.dispatched[other]))
    && (id in w'.inflight || (id in w'.dispatched && OnTrack(w'.dispatched[id].status)))
    && !FinishedIn(w, id) && !FinishedIn(w', id)
  }

  lemma MovedKeepsWorking(w: World, w': World, request: string, job: Job)
    requires Working(w, request) && Structure(w') && Barrier(w') && Moved(w, w', job.id)
    requires job in w.entries[request].launched
    ensures Working(w', request)
  {
    hide Structure, Barrier;
  }

  lemma MovedIsLighter(w: World, w': World, request: string, job: Job)
    requires Moved(w, w', job.id) && request in w.entries
    requires DistinctIds(w.entries[request].assembled) && job in w.entries[request].assembled
    requires JobWeight(w', job) + 1 == JobWeight(w, job)
    ensures Weight(w', w.entries[request].assembled) + 1 == Weight(w, w.entries[request].assembled)
  {
    var jobs := w.entries[request].assembled;
    assert forall j :: j in jobs && j.id != job.id ==> JobWeight(w', j) == JobWeight(w, j);
    hide DistinctIds, JobWeight, Moved;
    OneLighter(w, w', jobs, job);
  }

  predicate Finishing(w: World, p: Pick) {
    p.cmd !in w.inflight && p.cmd in w.dispatched && w.dispatched[p.cmd].status == FinishedExecution
  }

  /** A report that does not end the execution just replaces the status. */
  lemma PlainReport(w: World, client: string, cmd: string)
    requires !w.crashed && Reaches(w, client, cmd)
    requires w.dispatched[cmd].status in {Pending, Validating, Starting, StartedExecution}
    ensures var d := w.dispatched[cmd]; var message := NextMessage(d.status);
      && Orderly(d.status, message) && Rank(message) + 1 == Rank(d.status)
      && message in {Validating, Starting, StartedExecution, FinishedExecution}
      && Step(w, Report(client, cmd, message, Accepted))
         == w.(dispatched := w.dispatched[cmd := d.(status := message)])
  {
    hide Reaches;
  }

  lemma ReportMoves(w: World, client: string, cmd: string)
    requires !w.crashed && Reaches(w, client, cmd) && cmd !in w.inflight
    requires w.dispatched[cmd].status in {Pending, Validating, Starting, StartedExecution}
    ensures var e := Report(client, cmd, NextMessage(w.dispatched[cmd].status), Accepted);
      && Moved(w, Step(w, e), cmd)
      && forall job: Job :: job.id == cmd ==> JobWeight(Step(w, e), job) + 1 == JobWeight(w, job)
  {
    PlainReport(w, client, cmd);
    hide Step, NextMessage, Orderly;
  }

  lemma ReadMoves(w: World, cmd: string)
    requires !w.crashed && cmd in w.inflight && w.inflight[cmd].tag.None? && w.inflight[cmd].request in w.entries
    requires cmd !in w.dispatched
    ensures Moved(w, Step(w, ReadTag(cmd)), cmd)
    ensures forall job: Job :: job.id == cmd ==>
              JobWeight(Step(w, ReadTag(cmd)), job) + 1 == JobWeight(w, job)
  {
    var l := w.inflight[cmd].(tag := Some(w.entries[w.inflight[cmd].request].iteration));
    assert Step(w, ReadTag(cmd)) == w.(inflight := w.inflight[cmd := l]);
    hide Step;
  }

  lemma LandMoves(w: World, cmd: string)
    requires !w.crashed && cmd in w.inflight && w.inflight[cmd].tag.Some? && cmd !in w.dispatched
    ensures Moved(w, Step(w, Land(cmd)), cmd)
    ensures forall job: Job :: job.id == cmd ==>
              JobWeight(Step(w, Land(cmd)), job) + 1 == JobWeight(w, job)
  {
    var l := w.inflight[cmd];
    var d := Dispatched(l.request, l.host, l.batch, l.tag.value, Pending);
    assert Step(w, Land(cmd)) == w.(inflight := w.inflight - {cmd}, dispatched := w.dispatched[cmd := d],
                                    landed := w.landed + multiset{cmd});
    hide Step;
  }

  lemma FirstEventMoves(w: World, request: string, p: Pick)
    requires UnderWay(w, request) && Enabled(w, request, p) && !Finishing(w, p)
    requires p.cmd in w.inflight ==> p.cmd !in w.dispatched && w.inflight[p.cmd].request in w.entries
    requires p.cmd in w.dispatched ==> OnTrack(w.dispatched[p.cmd].status)
    ensures |Advance(w, p)| == 1
    ensures var e := Advance(w, p)[0];
      && Fresh(w, e) && Timely(w, e)
      && Moved(w, Step(w, e), p.cmd)
      && forall job: Job :: job.id == p.cmd ==> JobWeight(Step(w, e), job) + 1 == JobWeight(w, job)
  {
    hide Step, Moved, JobWeight;
    if p.cmd in w.inflight {
      if w.inflight[p.cmd].tag.None? {
        ReadMoves(w, p.cmd);
      } else {
        LandMoves(w, p.cmd);
      }
    } else {
      PlainReport(w, p.client, p.cmd);
      ReportMoves(w, p.client, p.cmd);
    }
  }

  // ---------- the call of Next that a finish spawns ----------

  /** All launched commands are finished and Next has not been told yet. */
  ghost predicate Waiting(w: World, request: string) {
    Structure(w) && Barrier(w) && UnderWay(w, request) && AllFinished(w, request) && w.callbacks[request] == 0
  }

  lemma AllFinishedIsDone(w: World, request: string)
    requires Structure(w) && request in w.entries && AllFinished(w, request)
    ensures BatchDone(w, request, w.entries[request].iteration) && NoLaunchUnderWay(w, request)
  {
    forall id | id in w.dispatched && w.dispatched[id].request == request ensures w.dispatched[id].status == Finished {
      var d := w.dispatched[id];
      assert Launched(w, request, id, d.host);
      assert FinishedIn(w, Job(id, d.host).id);
    }
    forall id | id in w.inflight ensures w.inflight[id].request != request {}
  }

  lemma DrainedTurn(w: World, request: string)
    requires !w.crashed && request in w.entries && request in w.stored
    requires BatchDone(w, request, w.entries[request].iteration) && w.entries[request].queue == []
    ensures RunNext(w, request, {}) == w.(callbacks := w.callbacks + multiset{request})
  {
    hide BatchDone;
  }

  lemma CallbackEndsWaiting(w: World, request: string)
    requires Waiting(w, request) && w.entries[request].queue == []
    ensures Working(w.(callbacks := w.callbacks + multiset{request}), request)
  {
    var w' := w.(callbacks := w.callbacks + multiset{request});
    SameCoreKeepsStructure(w, w');
    SameCoreKeepsBarrier(w, w');
    hide Structure, Barrier;
  }

  lemma WaitingTurnDrained(w: World, request: string)
    requires Waiting(w, request) && w.entries[request].queue == []
    ensures var w' := RunNext(w, request, {});
      Working(w', request) && w'.entries == w.entries
      && Weight(w', w.entries[request].assembled) == Weight(w, w.entries[request].assembled)
  {
    hide Structure, Barrier, RunNext, BatchDone, Weight, SameCore;
    AllFinishedIsDone(w, request);
    DrainedTurn(w, request);
    CallbackEndsWaiting(w, request);
    hide Working, Waiting;
    SameWeight(w, w.(callbacks := w.callbacks + multiset{request}), w.entries[request].assembled);
  }

  lemma DealtIsUnderWay(w: World, request: string, after: Entry<Job>, jobs: seq<Job>)
    requires UnderWay(w, request) && HandedOut(w.entries[request], after, jobs)
    requires forall j :: j in jobs ==> j.id !in w.dispatched && j.id !in w.inflight
    ensures var w' := Dealt(w, request, after, jobs, {});
      && UnderWay(w', request)
      && (forall j: Job :: j in w.entries[request].assembled ==> JobWeight(w', j) == JobWeight(w, j))
      && (jobs != [] ==> !AllFinished(w', request))
  {
    SpawnAdds(w.inflight, jobs, request, after.iteration, {});
    hide Consistent, DistinctIds, Spawn;
    var w' := Dealt(w, request, after, jobs, {});
    forall j: Job | j in w.entries[request].assembled ensures JobWeight(w', j) == JobWeight(w, j) {
      if j.id in JobIds(jobs) {
        var k :| k in jobs && k.id == j.id;
        assert w'.inflight[j.id].tag.None?;
      }
    }
    if jobs != [] {
      assert jobs[0] in jobs && jobs[0] in after.launched && !FinishedIn(w', jobs[0].id);
    }
  }

  lemma WaitingTurnDeals(w: World, request: string)
    requires Waiting(w, request) && w.entries[request].queue != []
    ensures var w' := RunNext(w, request, {});
      Working(w', request) && request in w'.entries && w'.entries[request].assembled == w.entries[request].assembled
      && Weight(w', w.entries[request].assembled) == Weight(w, w.entries[request].assembled)
  {
    AllFinishedIsDone(w, request);
    RunNextKeepsStructure(w, request, {});
    RunNextKeepsBarrier(w, request);
    RunNextCases(w, request, {});
    EntryFacts(w, request);
    var turn := TurnOf(w, request);
    assert turn.Batch? by { hide BatchDone, Structure, Barrier; }
    TurnHandsOut(w.entries[request], turn);
    QueuedAreNowhere(w, request);
    var after := AfterTurn(w.entries[request], turn);
    var w' := RunNext(w, request, {});
    hide Structure, Barrier, RunNext, TakeTurn, AfterTurn, BatchDone, SameCore, TurnOf;
    assert forall j :: j in turn.jobs ==> j in w.entries[request].queue;
    DealtIsUnderWay(w, request, after, turn.jobs);
    assert after.assembled == w.entries[request].assembled;
    assert w'.callbacks == w.callbacks;
    SameWeight(w, w', w.entries[request].assembled);
  }

  lemma QueuedAreNowhere(w: World, request: string)
    requires Structure(w) && request in w.entries
    ensures forall j :: j in w.entries[request].queue ==> j.id !in w.dispatched && j.id !in w.inflight
  {
  }

  // ---------- one step of the scheduler ----------

  /** The report that ends a successful execution, before its call of Next runs. */
  lemma FinishingReport(w: World, client: string, cmd: string)
    requires !w.crashed && Reaches(w, client, cmd) && w.dispatched[cmd].status == FinishedExecution
    requires w.dispatched[cmd].request in w.entries
    ensures var d := w.dispatched[cmd]; var e := Report(client, cmd, FlushedLogs, Accepted);
      && Fresh(w, e) && Timely(w, e)
      && Step(w, e) == w.(dispatched := w.dispatched[cmd := d.(status := Finished)],
                          wakeups := w.wakeups + multiset{d.request})
  {
    hide Reaches;
  }

  /** The state between that report and its Next, with the call of Next taken off the list. */
  function Woken(w: World, cmd: string): World
    requires cmd in w.dispatched
  {
    w.(dispatched := w.dispatched[cmd := w.dispatched[cmd].(status := Finished)])
  }

  lemma FinishSplits(w: World, client: string, cmd: string)
    requires !w.crashed && Reaches(w, client, cmd) && w.dispatched[cmd].status == FinishedExecution
    requires w.dispatched[cmd].request in w.entries
    ensures var request := w.dispatched[cmd].request;
      Step(Step(w, Report(client, cmd, FlushedLogs, Accepted)), NextRuns(request, {}))
      == RunNext(Woken(w, cmd), request, {})
  {
    FinishingReport(w, client, cmd);
    var request := w.dispatched[cmd].request;
    var w1 := Step(w, Report(client, cmd, FlushedLogs, Accepted));
    assert w1.wakeups - multiset{request} == w.wakeups;
    assert w1.(wakeups := w1.wakeups - multiset{request}) == Woken(w, cmd);
    hide RunNext, Reaches, Settle;
  }

  lemma WokenKeeps(w: World, request: string, client: string, cmd: string)
    requires Structure(w) && Barrier(w) && UnderWay(w, request)
    requires Reaches(w, client, cmd) && w.dispatched[cmd].status == FinishedExecution
    requires w.dispatched[cmd].request == request
    ensures Structure(Woken(w, cmd)) && Barrier(Woken(w, cmd))
  {
    FinishingReport(w, client, cmd);
    var w1 := Step(w, Report(client, cmd, FlushedLogs, Accepted));
    StepKeepsStructure(w, Report(client, cmd, FlushedLogs, Accepted));
    StepKeepsBarrier(w, Report(client, cmd, FlushedLogs, Accepted));
    hide Structure, Barrier, Step, Reaches;
    SameCoreKeepsStructure(w1, Woken(w, cmd));
    SameCoreKeepsBarrier(w1, Woken(w, cmd));
  }

  lemma WokenIsUnderWay(w: World, request: string, job: Job)
    requires UnderWay(w, request) && job.id in w.dispatched && job.id !in w.inflight
    requires w.dispatched[job.id].status == FinishedExecution
    requires DistinctIds(w.entries[request].assembled) && job in w.entries[request].assembled
    ensures UnderWay(Woken(w, job.id), request)
    ensures Weight(Woken(w, job.id), w.entries[request].assembled) + 1 == Weight(w, w.entries[request].assembled)
  {
    var w' := Woken(w, job.id);
    forall j | j in w.entries[request].assembled && j.id != job.id ensures JobWeight(w', j) == JobWeight(w, j) {}
    assert JobWeight(w', job) + 1 == JobWeight(w, job);
    hide DistinctIds, JobWeight, Weight;
    OneLighter(w, w', w.entries[request].assembled, job);
  }

  /** With launches landed, an unfinished command of the request is in its current batch and scanned. */
  lemma UnfinishedStopsNext(w: World, request: string)
    requires Structure(w) && Barrier(w) && UnderWay(w, request) && NoLaunchUnderWay(w, request)
    requires !AllFinished(w, request)
    ensures RunNext(w, request, {}) == w
  {
    var j :| j in w.entries[request].launched && !FinishedIn(w, j.id);
    PlaceOf(w, request, j);
    LaunchedAreAssembled(w, request);
    hide Structure;
    var d := w.dispatched[j.id];
    assert Scanned(w, d, request, w.entries[request].iteration);
    assert !BatchDone(w, request, w.entries[request].iteration);
    hide BatchDone, Barrier, UnderWay;
  }

  lemma FinishStepWorks(w: World, request: string, client: string, job: Job)
    requires Working(w, request) && NoLaunchUnderWay(w, request)
    requires Reaches(w, client, job.id) && w.dispatched[job.id].request == request
    requires w.dispatched[job.id].status == FinishedExecution && job.id !in w.inflight
    requires job in w.entries[request].launched && job in w.entries[request].assembled
    ensures var w' := RunNext(Woken(w, job.id), request, {});
      && Working(w', request) && w'.entries[request].assembled == w.entries[request].assembled
      && Weight(w', w.entries[request].assembled) + 1 == Weight(w, w.entries[request].assembled)
  {
    var woken := Woken(w, job.id);
    EntryFacts(w, request);
    WokenKeeps(w, request, client, job.id);
    WokenIsUnderWay(w, request, job);
    assert !AllFinished(w, request) by { assert !FinishedIn(w, job.id); }
    assert NoLaunchUnderWay(woken, request);
    hide Structure, Barrier, UnderWay, RunNext, Weight, Reaches, DistinctIds;
    if AllFinished(woken, request) {
      hide AllFinished;
      if woken.entries[request].queue == [] {
        WaitingTurnDrained(woken, request);
      } else {
        WaitingTurnDeals(woken, request);
      }
    } else {
      UnfinishedStopsNext(woken, request);
    }
  }

  /** The state after a pick. */
  function After(w: World, p: Pick): World {
    Run(w, Advance(w, p))
  }

  lemma RunShort(w: World, events: seq<Event>)
    ensures |events| == 1 ==> Run(w, events) == Step(w, events[0])
    ensures |events| == 2 ==> Run(w, events) == Step(Step(w, events[0]), events[1])
  {
    hide Step;
    if |events| == 2 {
      assert events[..1] == [events[0]];
      RunShort(w, events[..1]);
    }
  }

  lemma RunOneMore(w: World, events: seq<Event>, e: Event)
    ensures Run(w, events + [e]) == Step(Run(w, events), e)
  {
    hide Step;
    var all := events + [e];
    assert all[..|all| - 1] == events;
  }

  lemma PickWorks(w: World, request: string, p: Pick)
    requires Working(w, request) && Enabled(w, request, p)
    ensures Working(After(w, p), request)
    ensures After(w, p).entries[request].assembled == w.entries[request].assembled
    ensures Weight(After(w, p), w.entries[request].assembled) + 1 == Weight(w, w.entries[request].assembled)
  {
    PickedJob(w, request, p);
    var job :| job in w.entries[request].launched && job.id == p.cmd && job in w.entries[request].assembled;
    hide Structure, Barrier, UnderWay, AllFinished, Step, RunNext, Weight, Run, Enabled;
    if Finishing(w, p) {
      FinishPickWorks(w, request, p, job);
    } else {
      PlainStepWorks(w, request, p, job);
    }
  }

  lemma FinishPickWorks(w: World, request: string, p: Pick, job: Job)
    requires Working(w, request) && Enabled(w, request, p) && Finishing(w, p)
    requires job in w.entries[request].launched && job.id == p.cmd && job in w.entries[request].assembled
    ensures Working(After(w, p), request)
    ensures After(w, p).entries[request].assembled == w.entries[request].assembled
    ensures Weight(After(w, p), w.entries[request].assembled) + 1 == Weight(w, w.entries[request].assembled)
  {
    hide Structure, Barrier, AllFinished, Step, RunNext, Weight, Run, Woken, Reaches;
    RunShort(w, Advance(w, p));
    FinishSplits(w, p.client, p.cmd);
    FinishStepWorks(w, request, p.client, job);
  }

  lemma PlainStepWorks(w: World, request: string, p: Pick, job: Job)
    requires Working(w, request) && Enabled(w, request, p) && !Finishing(w, p)
    requires job in w.entries[request].launched && job.id == p.cmd && job in w.entries[request].assembled
    ensures Working(After(w, p), request)
    ensures After(w, p).entries == w.entries
    ensures Weight(After(w, p), w.entries[request].assembled) + 1 == Weight(w, w.entries[request].assembled)
  {
    PlaceOf(w, request, job);
    EntryFacts(w, request);
    assert p.cmd in w.inflight ==> p.cmd !in w.dispatched;
    hide Structure, Barrier, Weight, Step, Run;
    FirstEventMoves(w, request, p);
    RunShort(w, Advance(w, p));
    hide UnderWay, AllFinished, Advance, Enabled, JobWeight, DistinctIds;
    var e := Advance(w, p)[0];
    StepKeepsStructure(w, e);
    StepKeepsBarrier(w, e);
    MovedKeepsWorking(w, Step(w, e), request, job);
    MovedIsLighter(w, Step(w, e), request, job);
  }

  // ---------- what is left to do ----------

  /** While anything is left to do, some step of the request's own commands is possible. */
  lemma NeverStuck(w: World, request: string)
    requires Working(w, request)
    ensures Weight(w, w.entries[request].assembled) == 0 <==>
            AllFinished(w, request) && w.entries[request].queue == []
    ensures Weight(w, w.entries[request].assembled) == 0 <==> forall p :: !Enabled(w, request, p)
  {
    LaunchedAreAssembled(w, request);
    WeightZero(w, w.entries[request].assembled);
    EntryFacts(w, request);
    ReverseSameElements(w.entries[request].launched);
    FinishedWeighsNothing(w, request);
    if AllFinished(w, request) {
      forall p ensures !Enabled(w, request, p) {
        if Enabled(w, request, p) {
          PickedJob(w, request, p);
        }
      }
    } else {
      var j :| j in w.entries[request].launched && !FinishedIn(w, j.id);
      SomethingIsEnabled(w, request, j);
    }
  }

  lemma FinishedWeighsNothing(w: World, request: string)
    requires Structure(w) && UnderWay(w, request)
    ensures forall j :: j in w.entries[request].launched ==> (JobWeight(w, j) == 0 <==> FinishedIn(w, j.id))
    ensures forall j :: j in w.entries[request].queue ==> JobWeight(w, j) == 7
  {
    QueuedAreNowhere(w, request);
    forall j | j in w.entries[request].launched ensures JobWeight(w, j) == 0 <==> FinishedIn(w, j.id) {
      LaunchedWeighs(w, request, j);
    }
    hide Structure, UnderWay, FinishedIn;
  }

  lemma LaunchedWeighs(w: World, request: string, j: Job)
    requires Structure(w) && UnderWay(w, request) && j in w.entries[request].launched
    ensures JobWeight(w, j) == 0 <==> FinishedIn(w, j.id)
  {
    PlaceOf(w, request, j);
    hide Structure;
  }

  lemma SomethingIsEnabled(w: World, request: string, j: Job)
    requires Structure(w) && UnderWay(w, request) && j in w.entries[request].launched && !FinishedIn(w, j.id)
    ensures exists p :: Enabled(w, request, p)
  {
    PlaceOf(w, request, j);
    LaunchedAreAssembled(w, request);
    if id :| id in w.inflight && w.inflight[id].request == request {
      assert Enabled(w, request, Pick("", id));
    } else {
      assert NoLaunchUnderWay(w, request);
      assert OnRegistered(w, j.host);
      var client :| client in w.registered && w.registered[client] == j.host;
      assert j.id in w.dispatched && j.id !in w.inflight;
      assert Enabled(w, request, Pick(client, j.id));
    }
  }

  /** Calls of Next and callbacks concern requests that were started. */
  ghost predicate BellsKnown(w: World) {
    && (forall r :: r in w.wakeups ==> r in w.entries)
    && (forall r :: r in w.callbacks ==> r in w.entries)
  }

  /** Next forgets no entry, calls nobody and triggers only its own request's callbacks. */
  lemma RunNextRings(w: World, request: string, early: set<string>)
    requires request in w.entries
    ensures var w' := RunNext(w, request, early);
      && w'.entries.Keys == w.entries.Keys && w'.wakeups == w.wakeups && w'.stored == w.stored
      && (w'.callbacks == w.callbacks || w'.callbacks == w.callbacks + multiset{request})
  {
    NextEntries(w, request, early);
    hide TakeTurn, AfterTurn, BatchDone, Spawn;
    var e := w.entries[request];
    match TakeTurn(e, BatchDone(w, request, e.iteration))
    case Idle =>
    case Drained =>
    case Batch(_) =>
  }

  lemma NextKeepsBells(w: World, e: Event)
    requires BellsKnown(w) && (e.Start? || e.NextRuns?)
    ensures BellsKnown(Apply(w, e))
  {
    hide RunNext, Assemble, JobIds;
    match e
    case Start(request, strategy, targets, early) =>
      RunNextRings(StartRequest(w, request, strategy, targets), request, early);
    case NextRuns(request, early) =>
      if request in w.entries {
        RunNextRings(w.(wakeups := w.wakeups - multiset{request}), request, early);
      }
  }

  lemma OthersKeepBells(w: World, e: Event)
    requires BellsKnown(w) && !e.Start? && !e.NextRuns?
    ensures BellsKnown(Apply(w, e))
  {
    hide Settle, TriggersValidation, Reaches, OnRegistered;
  }

  lemma StepKeepsBells(w: World, e: Event)
    requires BellsKnown(w)
    ensures BellsKnown(Step(w, e))
  {
    hide BellsKnown, Apply;
    if e.Start? || e.NextRuns? {
      NextKeepsBells(w, e);
    } else {
      OthersKeepBells(w, e);
    }
  }

  lemma {:induction false} RunKeepsBells(events: seq<Event>)
    ensures BellsKnown(Run(INITIAL, events))
  {
    if events != [] {
      RunKeepsBells(events[..|events| - 1]);
      hide BellsKnown, Step;
      StepKeepsBells(Run(INITIAL, events[..|events| - 1]), events[|events| - 1]);
    }
  }

  lemma StartedIsUnderWay(w: World, request: string, strategy: StrategyType, targets: seq<Target>)
    requires BellsKnown(w) && !w.crashed && request !in w.entries
    ensures var w' := StartRequest(w, request, strategy, targets);
      && UnderWay(w', request) && AllFinished(w', request) && w'.callbacks[request] == 0
      && w'.entries[request].assembled == Assemble(w.registered, targets) == w'.entries[request].queue
  {
    var jobs := Assemble(w.registered, targets);
    hide Assemble, JobIds;
  }

  lemma StartedIsWaiting(w: World, request: string, strategy: StrategyType, targets: seq<Target>)
    requires Structure(w) && Barrier(w) && BellsKnown(w) && !w.crashed
    requires Fresh(w, Start(request, strategy, targets, {}))
    ensures var w' := StartRequest(w, request, strategy, targets);
      && Waiting(w', request)
      && w'.entries[request].assembled == Assemble(w.registered, targets) == w'.entries[request].queue
  {
    hide Structure, Barrier, Assemble, BellsKnown, UnderWay, AllFinished, StartRequest;
    StartKeepsStructure(w, request, strategy, targets);
    StartKeepsBarrier(w, request, strategy, targets);
    StartedIsUnderWay(w, request, strategy, targets);
  }

  lemma StartWorks(w: World, request: string, strategy: StrategyType, targets: seq<Target>)
    requires Structure(w) && Barrier(w) && BellsKnown(w) && !w.crashed
    requires Fresh(w, Start(request, strategy, targets, {}))
    ensures var w' := Step(w, Start(request, strategy, targets, {})); var jobs := Assemble(w.registered, targets);
      Working(w', request) && w'.entries[request].assembled == jobs && Weight(w', jobs) == 7 * |jobs|
  {
    var started := StartRequest(w, request, strategy, targets);
    StartedIsWaiting(w, request, strategy, targets);
    assert Step(w, Start(request, strategy, targets, {})) == RunNext(started, request, {});
    hide Fresh, Step, StartRequest, Barrier, UnderWay, RunNext, AllFinished;
    QueuedAreNowhere(started, request);
    hide Structure;
    WeightOfUnlaunched(started, Assemble(w.registered, targets));
    hide Assemble, Weight, JobWeight;
    if started.entries[request].queue == [] {
      WaitingTurnDrained(started, request);
    } else {
      WaitingTurnDeals(started, request);
    }
  }

  lemma WorkingCallbacks(w: World, request: string)
    requires Working(w, request)
    ensures request in w.entries
    ensures w.callbacks[request] == if AllFinished(w, request) && w.entries[request].queue == [] then 1 else 0
  {
    hide Structure, Barrier, AllFinished;
  }

  lemma LaunchedBackwards(w: World, request: string)
    requires Working(w, request)
    ensures w.entries[request].queue == [] ==>
              Reverse(w.entries[request].launched) == w.entries[request].assembled
  {
    EntryFacts(w, request);
    hide Structure, Barrier;
  }
}
