/** What every run of the rollout keeps: conservation of commands, the batch barrier, failure containment. */
module RolloutInvariants {
  import opened Wrappers
  import opened Strategy
  import opened Commands
  import opened Rollout

  // ---------- conservation ----------

  ghost predicate DistinctIds(jobs: seq<Job>) {
    forall i, j :: 0 <= i < j < |jobs| ==> jobs[i].id != jobs[j].id
  }

  /** `id` is a command that request launched towards that client object. */
  ghost predicate Launched(w: World, request: string, id: string, host: Ref) {
    request in w.entries && Job(id, host) in w.entries[request].launched
  }

  ghost predicate EntriesConsistent(w: World) {
    forall r :: r in w.entries ==> Consistent(w.entries[r]) && DistinctIds(w.entries[r].assembled)
  }

  /** Every assembled command belongs to one request and is meant for a known client object. */
  ghost predicate Owned(w: World) {
    && (forall r, j :: r in w.entries && j in w.entries[r].assembled ==>
          j.id in w.owner && w.owner[j.id] == r && j.host in w.refs)
    && (forall id :: id in w.landed ==> id in w.owner)
    && (forall c :: c in w.registered ==> w.registered[c] in w.refs)
  }

  ghost predicate Located(w: World) {
    && (forall id :: id in w.inflight ==>
          Launched(w, w.inflight[id].request, id, w.inflight[id].host) && id !in w.landed)
    && (forall id :: id in w.dispatched ==>
          Launched(w, w.dispatched[id].request, id, w.dispatched[id].host) && id in w.landed)
  }

  /** A command is queued, in flight or submitted once: exactly one of the three. */
  ghost predicate Conserved(w: World) {
    && (forall r, j :: r in w.entries && j in w.entries[r].queue ==> j.id !in w.inflight && j.id !in w.landed)
    && (forall r, j :: r in w.entries && j in w.entries[r].launched ==> j.id in w.inflight || j.id in w.landed)
    && (forall id :: w.landed[id] <= 1)
  }

  ghost predicate Structure(w: World) {
    EntriesConsistent(w) && Owned(w) && Located(w) && Conserved(w)
  }

  /** `Spawn` adds one goroutine per job and leaves the others alone. */
  lemma {:induction false} SpawnAdds(inflight: map<string, Launch>, jobs: seq<Job>, request: string, batch: nat,
                                     early: set<string>)
    requires DistinctIds(jobs)
    ensures var after := Spawn(inflight, jobs, request, batch, early);
      && (forall j :: j in jobs ==>
            j.id in after && after[j.id] == Launch(request, j.host, batch, after[j.id].tag)
            && (early == {} ==> after[j.id].tag.None?))
      && (forall id :: id in after <==> id in inflight || id in JobIds(jobs))
      && (forall id :: id in inflight && id !in JobIds(jobs) ==> after[id] == inflight[id])
  {
    if jobs != [] {
      var init, last := jobs[..|jobs| - 1], jobs[|jobs| - 1];
      SpawnAdds(inflight, init, request, batch, early);
      assert jobs == init + [last];
      assert JobIds(jobs) == JobIds(init) + {last.id};
    }
  }

  lemma ReverseSameElements<T>(s: seq<T>)
    ensures forall x :: x in Reverse(s) <==> x in s
  {
    forall x | x in s ensures x in Reverse(s) {
      var i :| 0 <= i < |s| && s[i] == x;
      assert Reverse(s)[|s| - 1 - i] == x;
    }
  }

  lemma DistinctParts(front: seq<Job>, back: seq<Job>)
    requires DistinctIds(front + back)
    ensures DistinctIds(front) && DistinctIds(back)
    ensures forall j, k :: j in front && k in back ==> j.id != k.id
  {
    var all := front + back;
    assert forall i :: 0 <= i < |front| ==> all[i] == front[i];
    assert forall i :: 0 <= i < |back| ==> all[|front| + i] == back[i];
  }

  lemma DistinctReversed(jobs: seq<Job>)
    requires DistinctIds(Reverse(jobs))
    ensures DistinctIds(jobs)
  {
    forall i, j | 0 <= i < j < |jobs| ensures jobs[i].id != jobs[j].id {
      assert Reverse(jobs)[|jobs| - 1 - j].id != Reverse(jobs)[|jobs| - 1 - i].id;
    }
  }

  /** An entry before and after it handed out the batch `jobs`. */
  ghost predicate HandedOut(e: Entry<Job>, after: Entry<Job>, jobs: seq<Job>) {
    && Consistent(after) && after.assembled == e.assembled
    && DistinctIds(jobs)
    && (forall j :: j in jobs ==> j in e.queue && j in after.launched)
    && (forall j :: j in after.queue ==> j in e.queue && j in e.assembled)
    && (forall j :: j in after.launched <==> j in e.launched || j in jobs)
    && (forall j, k :: j in after.queue && k in jobs ==> j.id != k.id)
    && (forall j :: j in e.queue ==> j in e.assembled)
  }

  lemma TurnHandsOut(e: Entry<Job>, turn: Turn<Job>)
    requires Consistent(e) && DistinctIds(e.assembled)
    requires turn.Batch? && turn == TakeTurn(e, true)
    ensures |turn.jobs| <= |e.queue| && HandedOut(e, AfterTurn(e, turn), turn.jobs)
  {
    TurnKeepsConsistent(e, true);
    var after := AfterTurn(e, turn);
    DistinctParts(e.queue, Reverse(e.launched));
    DistinctParts(after.queue, Reverse(turn.jobs));
    DistinctReversed(turn.jobs);
    ReverseSameElements(turn.jobs);
  }

  lemma DealKeepsEntries(w: World, request: string, after: Entry<Job>, jobs: seq<Job>, early: set<string>)
    requires EntriesConsistent(w) && Owned(w) && request in w.entries
    requires HandedOut(w.entries[request], after, jobs)
    ensures EntriesConsistent(Dealt(w, request, after, jobs, early)) && Owned(Dealt(w, request, after, jobs, early))
  {
    hide Consistent;
  }

  lemma DealKeepsLaunched(w: World, request: string, after: Entry<Job>, jobs: seq<Job>, early: set<string>)
    requires request in w.entries && HandedOut(w.entries[request], after, jobs)
    ensures forall r, id, host :: Launched(w, r, id, host) ==>
              Launched(Dealt(w, request, after, jobs, early), r, id, host)
    ensures forall j :: j in jobs ==> Launched(Dealt(w, request, after, jobs, early), request, j.id, j.host)
  {
    hide Consistent, DistinctIds, Spawn;
  }

  lemma DealKeepsLocated(w: World, request: string, after: Entry<Job>, jobs: seq<Job>, early: set<string>)
    requires Located(w) && Conserved(w) && request in w.entries && HandedOut(w.entries[request], after, jobs)
    ensures Located(Dealt(w, request, after, jobs, early))
  {
    assert forall j :: j in jobs ==> j in w.entries[request].queue;
    SpawnAdds(w.inflight, jobs, request, after.iteration, early);
    DealKeepsLaunched(w, request, after, jobs, early);
    hide HandedOut, Launched, Spawn;
    var w' := Dealt(w, request, after, jobs, early);
    forall id | id in w'.inflight
      ensures Launched(w', w'.inflight[id].request, id, w'.inflight[id].host) && id !in w'.landed
    {
      if id in JobIds(jobs) {
        var j :| j in jobs && j.id == id;
      }
    }
  }

  lemma DealKeepsConserved(w: World, request: string, after: Entry<Job>, jobs: seq<Job>, early: set<string>)
    requires EntriesConsistent(w) && Owned(w) && Conserved(w)
    requires request in w.entries && HandedOut(w.entries[request], after, jobs)
    requires EntriesConsistent(Dealt(w, request, after, jobs, early))
    ensures Conserved(Dealt(w, request, after, jobs, early))
  {
    SpawnAdds(w.inflight, jobs, request, after.iteration, early);
    var w' := Dealt(w, request, after, jobs, early);
    forall r, j | r in w'.entries && j in w'.entries[r].queue ensures j.id !in JobIds(jobs) {
      assert j in w.entries[r].queue;
      assert w'.entries[r].assembled == w'.entries[r].queue + Reverse(w'.entries[r].launched);
      assert j in w.entries[r].assembled;
    }
  }

  /** The fields the structure speaks about. */
  ghost predicate SameCore(w: World, w': World) {
    && w'.entries == w.entries && w'.owner == w.owner && w'.landed == w.landed
    && w'.inflight == w.inflight && w'.dispatched == w.dispatched
    && w'.registered == w.registered && w'.refs == w.refs
  }

  lemma SameCoreKeepsStructure(w: World, w': World)
    requires Structure(w) && SameCore(w, w')
    ensures Structure(w')
  {
    hide Consistent, DistinctIds;
  }

  /** The turn Next takes on an entry. */
  function TurnOf(w: World, request: string): Turn<Job>
    requires request in w.entries
  {
    TakeTurn(w.entries[request], BatchDone(w, request, w.entries[request].iteration))
  }

  /** Next deals out a batch, or leaves commands and entries alone. */
  lemma RunNextCases(w: World, request: string, early: set<string>)
    requires request in w.entries
    ensures var turn := TurnOf(w, request);
      if turn.Batch?
      then
        |turn.jobs| <= |w.entries[request].queue|
        && turn == TakeTurn(w.entries[request], true)
        && RunNext(w, request, early) == Dealt(w, request, AfterTurn(w.entries[request], turn), turn.jobs, early)
      else SameCore(w, RunNext(w, request, early))
  {
    hide TakeTurn, BatchDone, Spawn, AfterTurn, Dealt;
    match TurnOf(w, request)
    case Idle =>
    case Drained =>
    case Batch(_) =>
  }

  lemma EntryFacts(w: World, request: string)
    requires Structure(w) && request in w.entries
    ensures Consistent(w.entries[request]) && DistinctIds(w.entries[request].assembled)
  {
  }

  lemma DealKeepsStructure(w: World, request: string, after: Entry<Job>, jobs: seq<Job>, early: set<string>)
    requires Structure(w) && request in w.entries && HandedOut(w.entries[request], after, jobs)
    ensures Structure(Dealt(w, request, after, jobs, early))
  {
    hide HandedOut, EntriesConsistent, Owned, Located, Conserved, Dealt;
    DealKeepsEntries(w, request, after, jobs, early);
    DealKeepsLocated(w, request, after, jobs, early);
    DealKeepsConserved(w, request, after, jobs, early);
  }

  lemma RunNextKeepsStructure(w: World, request: string, early: set<string>)
    requires Structure(w) && request in w.entries
    ensures Structure(RunNext(w, request, early))
  {
    hide *;
    var turn := TurnOf(w, request);
    RunNextCases(w, request, early);
    if turn.Batch? {
      EntryFacts(w, request);
      TurnHandsOut(w.entries[request], turn);
      DealKeepsStructure(w, request, AfterTurn(w.entries[request], turn), turn.jobs, early);
    } else {
      SameCoreKeepsStructure(w, RunNext(w, request, early));
    }
  }

  lemma {:induction false} AssembledFrom(registered: map<string, Ref>, targets: seq<Target>)
    requires forall i, j :: 0 <= i < j < |targets| ==> targets[i].cmd != targets[j].cmd
    ensures DistinctIds(Assemble(registered, targets))
  {
    if targets != [] {
      AssembledFrom(registered, targets[1..]);
      var rest := Assemble(registered, targets[1..]);
      forall j | j in rest ensures j.id != targets[0].cmd {
        var t :| t in targets[1..] && t.cmd == j.id;
      }
    }
  }

  /** The commands of a new request are unknown so far. */
  lemma StartIsNew(w: World, targets: seq<Target>)
    requires Structure(w) && forall t :: t in targets ==> t.cmd !in w.owner
    ensures forall j :: j in Assemble(w.registered, targets) ==>
              j.id !in w.owner && j.id !in w.inflight && j.id !in w.landed && j.host in w.refs
  {
    hide EntriesConsistent;
    forall id | id in w.inflight ensures id in w.owner {
      LaunchedOwned(w, w.inflight[id].request, id, w.inflight[id].host);
    }
    hide Conserved, Located;
    forall j | j in Assemble(w.registered, targets) ensures j.id !in w.owner && j.host in w.refs {
      var t :| t in targets && t.cmd == j.id;
    }
  }

  lemma StartKeepsStructure(w: World, request: string, strategy: StrategyType, targets: seq<Target>)
    requires Structure(w) && Fresh(w, Start(request, strategy, targets, {}))
    ensures Structure(StartRequest(w, request, strategy, targets))
  {
    var jobs := Assemble(w.registered, targets);
    var e := NewEntry(strategy, jobs);
    AssembledFrom(w.registered, targets);
    StartIsNew(w, targets);
    NewEntryIsConsistent(strategy, jobs);
    hide Structure, Consistent, DistinctIds, Assemble;
    assert IsNew(w, request, e);
    hide IsNew;
    AddingEntryKeepsStructure(w, request, e);
    SameCoreKeepsStructure(Adding(w, request, e), StartRequest(w, request, strategy, targets));
  }

  lemma NewEntryIsConsistent(strategy: StrategyType, jobs: seq<Job>)
    ensures Consistent(NewEntry(strategy, jobs))
  {
    assert jobs == jobs + Reverse<Job>([]);
  }

  function Adding(w: World, request: string, e: Entry<Job>): World {
    w.(entries := w.entries[request := e], owner := w.owner + map id | id in JobIds(e.queue) :: request)
  }

  ghost predicate IsNew(w: World, request: string, e: Entry<Job>) {
    && request !in w.entries
    && Consistent(e) && DistinctIds(e.assembled) && e.launched == [] && e.queue == e.assembled
    && (forall j :: j in e.queue ==>
          j.id !in w.owner && j.id !in w.inflight && j.id !in w.landed && j.host in w.refs)
  }

  lemma AddingEntryKeepsOwned(w: World, request: string, e: Entry<Job>)
    requires EntriesConsistent(w) && Owned(w) && IsNew(w, request, e)
    ensures EntriesConsistent(Adding(w, request, e)) && Owned(Adding(w, request, e))
  {
    hide Consistent, DistinctIds;
  }

  lemma AddingEntryKeepsPlaces(w: World, request: string, e: Entry<Job>)
    requires Located(w) && Conserved(w) && IsNew(w, request, e)
    ensures Located(Adding(w, request, e)) && Conserved(Adding(w, request, e))
  {
    hide Consistent, DistinctIds, JobIds;
    var w' := Adding(w, request, e);
    AddingEntryKeepsConserved(w, request, e);
    hide Conserved;
    assert forall r, id, host :: Launched(w, r, id, host) ==> Launched(w', r, id, host);
    hide Launched, IsNew;
  }

  lemma AddingEntryKeepsConserved(w: World, request: string, e: Entry<Job>)
    requires Conserved(w) && IsNew(w, request, e)
    ensures Conserved(Adding(w, request, e))
  {
    hide Consistent, DistinctIds, JobIds;
  }

  lemma AddingEntryKeepsStructure(w: World, request: string, e: Entry<Job>)
    requires Structure(w) && IsNew(w, request, e)
    ensures Structure(Adding(w, request, e))
  {
    hide EntriesConsistent, Owned, Located, Conserved, IsNew, Adding;
    AddingEntryKeepsOwned(w, request, e);
    AddingEntryKeepsPlaces(w, request, e);
  }

  lemma LaunchedAreAssembled(w: World, request: string)
    requires EntriesConsistent(w) && request in w.entries
    ensures forall j :: j in w.entries[request].launched ==> j in w.entries[request].assembled
    ensures forall j :: j in w.entries[request].queue ==> j in w.entries[request].assembled
    ensures forall j, k :: j in w.entries[request].queue && k in w.entries[request].launched ==> j.id != k.id
  {
    var e := w.entries[request];
    ReverseSameElements(e.launched);
    DistinctParts(e.queue, Reverse(e.launched));
  }

  lemma LandedIsNotQueued(w: World, cmd: string)
    requires Structure(w) && cmd in w.inflight
    ensures forall r, j :: r in w.entries && j in w.entries[r].queue ==> j.id != cmd
    ensures cmd in w.owner
  {
    LaunchedOwned(w, w.inflight[cmd].request, cmd, w.inflight[cmd].host);
  }

  function Submitted(w: World, cmd: string): World
    requires cmd in w.inflight && w.inflight[cmd].tag.Some?
  {
    Apply(w, Land(cmd))
  }

  lemma LandKeepsOwned(w: World, cmd: string)
    requires EntriesConsistent(w) && Owned(w) && cmd in w.owner && cmd in w.inflight && w.inflight[cmd].tag.Some?
    ensures EntriesConsistent(Submitted(w, cmd)) && Owned(Submitted(w, cmd))
  {
    hide Consistent, DistinctIds;
  }

  lemma LandKeepsLocated(w: World, cmd: string)
    requires Located(w) && cmd in w.inflight && w.inflight[cmd].tag.Some?
    ensures Located(Submitted(w, cmd))
  {
    var w' := Submitted(w, cmd);
    assert forall r, id, host :: Launched(w, r, id, host) ==> Launched(w', r, id, host);
    hide Launched;
  }

  lemma LandKeepsConserved(w: World, cmd: string)
    requires Located(w) && Conserved(w) && cmd in w.inflight && w.inflight[cmd].tag.Some?
    requires forall r, j :: r in w.entries && j in w.entries[r].queue ==> j.id != cmd
    ensures Conserved(Submitted(w, cmd))
  {
    assert cmd !in w.landed;
    hide Located;
  }

  lemma LandKeepsStructure(w: World, cmd: string)
    requires Structure(w)
    ensures Structure(Apply(w, Land(cmd)))
  {
    if cmd in w.inflight && w.inflight[cmd].tag.Some? {
      hide EntriesConsistent, Owned, Located, Conserved, Apply;
      LandedIsNotQueued(w, cmd);
      LandKeepsOwned(w, cmd);
      LandKeepsLocated(w, cmd);
      LandKeepsConserved(w, cmd);
    }
  }

  lemma LaunchedOwned(w: World, request: string, id: string, host: Ref)
    requires Structure(w) && Launched(w, request, id, host)
    ensures id in w.owner && w.owner[id] == request && host in w.refs
  {
    LaunchedAreAssembled(w, request);
  }

  /** Fewer dispatched commands, new statuses for them, new tags for launches, and fewer or newly created
      client objects leave commands where they are. */
  ghost predicate Shuffled(w: World, w': World) {
    && w'.entries == w.entries && w'.owner == w.owner && w'.landed == w.landed
    && w.refs <= w'.refs
    && (forall c :: c in w'.registered ==> w'.registered[c] in w'.refs)
    && w'.inflight.Keys == w.inflight.Keys
    && (forall id :: id in w.inflight ==> w'.inflight[id] == w.inflight[id].(tag := w'.inflight[id].tag))
    && (forall id :: id in w'.dispatched ==>
          id in w.dispatched && w'.dispatched[id] == w.dispatched[id].(status := w'.dispatched[id].status))
  }

  lemma ShuffledKeepsStructure(w: World, w': World)
    requires Structure(w) && Shuffled(w, w')
    ensures Structure(w')
  {
    hide Consistent, DistinctIds;
    forall r, id, host | Launched(w, r, id, host) ensures Launched(w', r, id, host) {}
  }

  lemma ClientEventsShuffle(w: World, e: Event)
    requires forall c :: c in w.registered ==> w.registered[c] in w.refs
    requires e.Register? || e.Cleanup? || e.Expire?
    ensures Shuffled(w, Apply(w, e))
  {
  }

  lemma ReadingShuffles(w: World, e: Event)
    requires forall c :: c in w.registered ==> w.registered[c] in w.refs
    requires e.ReadTag?
    ensures Shuffled(w, Apply(w, e))
  {
  }

  lemma ReportingShuffles(w: World, e: Event)
    requires forall c :: c in w.registered ==> w.registered[c] in w.refs
    requires e.Report?
    ensures Shuffled(w, Apply(w, e))
  {
    hide Settle, TriggersValidation;
  }

  lemma RemovalsShuffle(w: World, e: Event)
    requires forall c :: c in w.registered ==> w.registered[c] in w.refs
    requires e.Purge? || e.Cancel?
    ensures Shuffled(w, Apply(w, e))
  {
    hide Reaches, OnRegistered;
  }

  lemma OtherEventsShuffle(w: World, e: Event)
    requires Structure(w)
    requires !e.Start? && !e.NextRuns? && !e.Land?
    ensures Shuffled(w, Apply(w, e))
  {
    HostsKnown(w);
    hide *;
    if e.Purge? || e.Cancel? {
      RemovalsShuffle(w, e);
    } else if e.ReadTag? {
      ReadingShuffles(w, e);
    } else if e.Report? {
      ReportingShuffles(w, e);
    } else {
      ClientEventsShuffle(w, e);
    }
  }

  lemma HostsKnown(w: World)
    requires Structure(w)
    ensures forall c :: c in w.registered ==> w.registered[c] in w.refs
  {
    hide EntriesConsistent, Located, Conserved;
  }

  lemma StepKeepsStructure(w: World, e: Event)
    requires Structure(w) && Fresh(w, e)
    ensures Structure(Step(w, e))
  {
    hide Structure, RunNext, StartRequest, Shuffled;
    match e
    case Start(request, strategy, targets, early) =>
      StartKeepsStructure(w, request, strategy, targets);
      RunNextKeepsStructure(StartRequest(w, request, strategy, targets), request, early);
    case NextRuns(request, early) =>
      var w1 := w.(wakeups := w.wakeups - multiset{request});
      SameCoreKeepsStructure(w, w1);
      if request in w.entries {
        RunNextKeepsStructure(w1, request, early);
      }
    case Land(cmd) =>
      LandKeepsStructure(w, cmd);
    case _ =>
      OtherEventsShuffle(w, e);
      ShuffledKeepsStructure(w, Apply(w, e));
  }

  /** Conservation over every run with fresh identifiers, whatever the order of events: the assembled
      commands of a request are exactly its queued and its launched ones, launched in reverse assembly order,
      as many as the strategy allows; each launched command is in flight or was submitted exactly once. */
  lemma {:induction false} RunKeepsStructure(events: seq<Event>)
    requires FreshRun(INITIAL, events)
    ensures Structure(Run(INITIAL, events))
  {
    if events != [] {
      var before := events[..|events| - 1];
      RunKeepsStructure(before);
      StepKeepsStructure(Run(INITIAL, before), events[|events| - 1]);
    }
  }
}
