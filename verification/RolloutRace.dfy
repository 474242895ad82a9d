/** A run that breaks the batch barrier because Next runs while a launch of its own batch is still under way. */
module RolloutRace {
  import opened Wrappers
  import opened Strategy
  import opened Commands
  import opened Rollout
  import opened RolloutInvariants
  import opened RolloutBarrier
  import opened RolloutProgress
  import opened RolloutCancel

  /** The premises of the barrier without the one that launches have landed before Next runs. */
  ghost predicate Ordered(w: World, e: Event) {
    match e
    case Start(_, _, _, early) => early == {}
    case NextRuns(_, early) => early == {}
    case Report(client, cmd, message, _) => Reaches(w, client, cmd) ==> Orderly(w.dispatched[cmd].status, message)
    case _ => true
  }

  ghost predicate OrderedRun(w: World, events: seq<Event>) {
    events == [] || (OrderedRun(w, events[..|events| - 1])
                     && Ordered(Run(w, events[..|events| - 1]), events[|events| - 1]))
  }

  /** The run leads to this state; a strict run keeps to the premise about landed launches as well. */
  ghost predicate Leads(strict: bool, events: seq<Event>, w: World) {
    && FreshRun(INITIAL, events) && OrderedRun(INITIAL, events) && (strict ==> TimelyRun(INITIAL, events))
    && Run(INITIAL, events) == w
  }

  ghost predicate Reachable(strict: bool, w: World) {
    exists events :: Leads(strict, events, w)
  }

  lemma OneStepOn(strict: bool, w: World, e: Event)
    requires Reachable(strict, w) && Fresh(w, e) && Ordered(w, e) && (strict ==> Timely(w, e))
    ensures Reachable(strict, Step(w, e))
  {
    hide Step, Fresh, Ordered, Timely, Run;
    var events :| Leads(strict, events, w);
    var all := events + [e];
    assert all[..|all| - 1] == events;
    RunOneMore(INITIAL, events, e);
    assert Leads(strict, all, Step(w, e));
  }

  lemma {:induction false} CommandSucceeds(strict: bool, w: World, client: string, cmd: string)
    requires Reachable(strict, w) && !w.crashed && Reaches(w, client, cmd) && w.dispatched[cmd].request in w.entries
    requires OnTrack(w.dispatched[cmd].status) && w.dispatched[cmd].status != Finished
    ensures Reachable(strict, Succeeded(w, cmd))
    decreases Rank(w.dispatched[cmd].status)
  {
    hide Reachable, Step;
    var d := w.dispatched[cmd];
    if d.status == FinishedExecution {
      FinishingReport(w, client, cmd);
      OneStepOn(strict, w, Report(client, cmd, FlushedLogs, Accepted));
    } else {
      PlainReport(w, client, cmd);
      var e := Report(client, cmd, NextMessage(d.status), Accepted);
      OneStepOn(strict, w, e);
      CommandSucceeds(strict, Step(w, e), client, cmd);
      assert Step(w, e).dispatched[cmd := Step(w, e).dispatched[cmd].(status := Finished)]
          == w.dispatched[cmd := d.(status := Finished)];
    }
  }

  // ---------- four commands for one client, in batches of one, two and one ----------

  /** The names in the run: a client, a request, and its four commands in assembly order. */
  datatype Names = Names(client: string, request: string, a: string, b: string, c: string, d: string) {
    ghost predicate Distinct() {
      a != b && a != c && a != d && b != c && b != d && c != d
    }

    function Jobs(): seq<Job> {
      [Job(a, 0), Job(b, 0), Job(c, 0), Job(d, 0)]
    }

    function Targets(): seq<Target> {
      [Target(client, a), Target(client, b), Target(client, c), Target(client, d)]
    }
  }

  /** The parts of the state that change while the rollout goes on. */
  datatype Stage = Stage(iteration: nat, queue: seq<Job>, launched: seq<Job>, inflight: map<string, Launch>,
                         dispatched: map<string, Dispatched>, landed: multiset<string>, wakeups: multiset<string>)

  /** The system while the one request is rolled out to the one client. */
  function At(n: Names, s: Stage): World {
    World(map[n.client := 0], {0}, {n.request},
          map[n.request := Entry(ExponentialRolling, s.iteration, s.queue, n.Jobs(), s.launched)],
          map id | id in JobIds(n.Jobs()) :: n.request,
          s.inflight, s.dispatched, s.landed, s.wakeups, multiset{}, false)
  }

  function Going(n: Names, batch: nat, tag: Option<nat>): Launch {
    Launch(n.request, 0, batch, tag)
  }

  function Arrived(n: Names, batch: nat, status: Status): Dispatched {
    Dispatched(n.request, 0, batch, batch, status)
  }

  function Tagged(n: Names, s: Stage, x: string): Stage {
    s.(inflight := s.inflight[x := Going(n, s.iteration, Some(s.iteration))])
  }

  function Landed(n: Names, s: Stage, x: string, batch: nat): Stage {
    s.(inflight := s.inflight - {x}, dispatched := s.dispatched[x := Arrived(n, batch, Pending)],
       landed := s.landed + multiset{x})
  }

  function Done(n: Names, s: Stage, x: string, batch: nat): Stage {
    s.(dispatched := s.dispatched[x := Arrived(n, batch, Finished)], wakeups := s.wakeups + multiset{n.request})
  }

  function Completed(n: Names, s: Stage, x: string): Stage {
    Done(n, Landed(n, Tagged(n, s, x), x, s.iteration), x, s.iteration)
  }

  lemma TagIsRead(strict: bool, n: Names, s: Stage, x: string)
    requires Reachable(strict, At(n, s)) && x in s.inflight && s.inflight[x] == Going(n, s.iteration, None)
    ensures Reachable(strict, At(n, Tagged(n, s, x)))
  {
    hide Reachable, Step;
    ReadOne(At(n, s), x);
    OneStepOn(strict, At(n, s), ReadTag(x));
  }

  lemma LaunchLands(strict: bool, n: Names, s: Stage, x: string, batch: nat)
    requires Reachable(strict, At(n, s)) && x in s.inflight && s.inflight[x] == Going(n, batch, Some(batch))
    ensures Reachable(strict, At(n, Landed(n, s, x, batch)))
  {
    hide Reachable;
    OneStepOn(strict, At(n, s), Land(x));
    assert Step(At(n, s), Land(x)) == At(n, Landed(n, s, x, batch));
  }

  lemma ClientFinishes(strict: bool, n: Names, s: Stage, x: string, batch: nat)
    requires Reachable(strict, At(n, s)) && x in s.dispatched && s.dispatched[x] == Arrived(n, batch, Pending)
    ensures Reachable(strict, At(n, Done(n, s, x, batch)))
  {
    hide Reachable;
    CommandSucceeds(strict, At(n, s), n.client, x);
    assert Succeeded(At(n, s), x) == At(n, Done(n, s, x, batch));
  }

  /** A launch of the current batch reads its number and lands, and its command succeeds. */
  lemma Completes(strict: bool, n: Names, s: Stage, x: string)
    requires Reachable(strict, At(n, s)) && x in s.inflight && s.inflight[x] == Going(n, s.iteration, None)
    ensures Reachable(strict, At(n, Completed(n, s, x)))
  {
    TagIsRead(strict, n, s, x);
    var tagged := Tagged(n, s, x);
    var landed := Landed(n, tagged, x, s.iteration);
    hide Reachable, At, Going, Arrived;
    LaunchLands(strict, n, tagged, x, s.iteration);
    ClientFinishes(strict, n, landed, x, s.iteration);
  }

  // ---------- Next deals out batches ----------

  function DealtOut(n: Names, s: Stage, front: seq<Job>, jobs: seq<Job>): Stage {
    s.(iteration := s.iteration + 1, queue := front, launched := s.launched + jobs,
       inflight := Spawn(s.inflight, jobs, n.request, s.iteration + 1, {}))
  }

  /** The entry's next batch is `jobs`, and nothing dispatched for the current one is unfinished. */
  ghost predicate Ready(s: Stage, front: seq<Job>, jobs: seq<Job>) {
    && s.queue == front + Reverse(jobs)
    && jobs != [] && |jobs| == BatchSize(ExponentialRolling, s.iteration, |s.queue|)
    && forall id :: id in s.dispatched && s.dispatched[id].tag == s.iteration ==> s.dispatched[id].status == Finished
  }

  lemma Deals(n: Names, s: Stage, front: seq<Job>, jobs: seq<Job>)
    requires Ready(s, front, jobs)
    ensures RunNext(At(n, s), n.request, {}) == At(n, DealtOut(n, s, front, jobs))
  {
    var w := At(n, s);
    ReverseConcat(jobs, []);
    hide Spawn, BatchSize, Reverse;
    assert BatchDone(w, n.request, s.iteration);
    hide BatchDone;
    var e := w.entries[n.request];
    assert s.queue[|front|..] == Reverse(jobs) && s.queue[..|front|] == front;
    assert TakeTurn(e, true) == Batch(jobs);
    hide TakeTurn, RunNext, Ready;
    RunNextCases(w, n.request, {});
    hide SameCore;
  }

  function Called(n: Names, s: Stage): Stage {
    s.(wakeups := s.wakeups - multiset{n.request})
  }

  lemma CallIsTaken(n: Names, s: Stage)
    requires s.wakeups[n.request] > 0
    ensures Step(At(n, s), NextRuns(n.request, {})) == RunNext(At(n, Called(n, s)), n.request, {})
  {
    hide RunNext, JobIds;
    assert At(n, s).(wakeups := At(n, s).wakeups - multiset{n.request}) == At(n, Called(n, s));
  }

  lemma NextDeals(strict: bool, n: Names, s: Stage, front: seq<Job>, jobs: seq<Job>)
    requires Reachable(strict, At(n, s)) && s.wakeups[n.request] > 0 && Ready(s, front, jobs)
    requires strict ==> s.inflight == map[]
    ensures Reachable(strict, At(n, DealtOut(n, Called(n, s), front, jobs)))
  {
    assert Ready(Called(n, s), front, jobs);
    Deals(n, Called(n, s), front, jobs);
    CallIsTaken(n, s);
    hide Reachable, RunNext, Ready, DealtOut, At, Step, Called;
    OneStepOn(strict, At(n, s), NextRuns(n.request, {}));
  }

  lemma ReverseShort(x: Job, y: Job)
    ensures Reverse([x]) == [x] && Reverse([x, y]) == [y, x]
  {
  }

  lemma SpawnShort(n: Names, inflight: map<string, Launch>, x: string, y: string, batch: nat)
    ensures Spawn(inflight, [Job(x, 0)], n.request, batch, {}) == inflight[x := Going(n, batch, None)]
    ensures Spawn(inflight, [Job(x, 0), Job(y, 0)], n.request, batch, {})
            == inflight[x := Going(n, batch, None)][y := Going(n, batch, None)]
  {
    assert [Job(x, 0)][..0] == [];
    assert [Job(x, 0), Job(y, 0)][..1] == [Job(x, 0)];
  }

  // ---------- the run ----------

  lemma RegisteredClient(strict: bool, n: Names) returns (w: World)
    ensures w == INITIAL.(registered := map[n.client := 0], refs := {0}) && Reachable(strict, w)
  {
    assert Leads(strict, [], INITIAL);
    hide Leads;
    OneStepOn(strict, INITIAL, Register(n.client, 0));
    hide Reachable;
    w := Step(INITIAL, Register(n.client, 0));
  }

  lemma {:induction false} AssembleAll(client: string, targets: seq<Target>, jobs: seq<Job>)
    requires |jobs| == |targets|
    requires forall i :: 0 <= i < |jobs| ==> targets[i].client == client && jobs[i] == Job(targets[i].cmd, 0)
    ensures Assemble(map[client := 0], targets) == jobs
  {
    if targets != [] {
      AssembleAll(client, targets[1..], jobs[1..]);
    }
  }

  function Before(n: Names): Stage {
    Stage(0, n.Jobs(), [], map[], map[], multiset{}, multiset{})
  }

  lemma AllAssembled(n: Names)
    ensures Assemble(map[n.client := 0], n.Targets()) == n.Jobs()
  {
    AssembleAll(n.client, n.Targets(), n.Jobs());
  }

  lemma StartedRequest(n: Names, w: World)
    requires w == INITIAL.(registered := map[n.client := 0], refs := {0})
    ensures StartRequest(w, n.request, ExponentialRolling, n.Targets()) == At(n, Before(n))
  {
    AllAssembled(n);
    hide Assemble, JobIds, Names.Targets, Names.Jobs;
  }

  lemma StartIsFresh(n: Names, w: World)
    requires n.Distinct() && w.entries == map[] && w.owner == map[]
    ensures Fresh(w, Start(n.request, ExponentialRolling, n.Targets(), {}))
  {
    var cmds := [n.a, n.b, n.c, n.d];
    assert forall i :: 0 <= i < 4 ==> n.Targets()[i].cmd == cmds[i];
  }

  /** What matters of the state after the first batch was dealt out. */
  ghost predicate OneGoing(n: Names, s: Stage) {
    && s.iteration == 1 && s.queue == [Job(n.a, 0), Job(n.b, 0), Job(n.c, 0)] && s.dispatched == map[]
    && s.inflight == map[n.d := Going(n, 1, None)] && s.wakeups == multiset{}
  }

  lemma FirstBatch(n: Names) returns (s: Stage)
    ensures RunNext(At(n, Before(n)), n.request, {}) == At(n, s) && OneGoing(n, s)
  {
    var front, job := [Job(n.a, 0), Job(n.b, 0), Job(n.c, 0)], Job(n.d, 0);
    ReverseShort(job, job);
    SpawnShort(n, map[], n.d, n.d, 1);
    hide Reverse, At, RunNext, Spawn;
    assert front + [job] == n.Jobs();
    Deals(n, Before(n), front, [job]);
    s := DealtOut(n, Before(n), front, [job]);
  }

  lemma RolloutBegins(strict: bool, n: Names) returns (s: Stage)
    requires n.Distinct()
    ensures Reachable(strict, At(n, s)) && OneGoing(n, s)
  {
    var w := RegisteredClient(strict, n);
    StartedRequest(n, w);
    s := FirstBatch(n);
    StartIsFresh(n, w);
    hide Reachable, StartRequest, RunNext, Fresh, At, OneGoing, Names.Targets, Names.Jobs;
    OneStepOn(strict, w, Start(n.request, ExponentialRolling, n.Targets(), {}));
  }

  /** The second batch is dealt out. */
  ghost predicate TwoDealt(n: Names, s: Stage) {
    && s.iteration == 2 && s.queue == [Job(n.a, 0)]
    && (forall id :: id in s.dispatched ==> s.dispatched[id].tag == 1)
    && s.inflight == map[n.c := Going(n, 2, None), n.b := Going(n, 2, None)]
    && s.wakeups[n.request] == 0
  }

  lemma SecondIsReady(n: Names, first: Stage)
    requires n.Distinct() && OneGoing(n, first)
    ensures var done := Completed(n, first, n.d);
      && Ready(done, [Job(n.a, 0)], [Job(n.c, 0), Job(n.b, 0)])
      && done.iteration == 1 && done.wakeups[n.request] == 1 && done.inflight == map[]
      && forall id :: id in done.dispatched ==> done.dispatched[id].tag == 1
  {
    ReverseShort(Job(n.c, 0), Job(n.b, 0));
    assert Pow2(1) == 2;
    hide Reverse, Pow2;
    assert [Job(n.a, 0)] + [Job(n.b, 0), Job(n.c, 0)] == first.queue;
  }

  lemma SecondIsDealt(n: Names, done: Stage)
    requires n.Distinct() && done.iteration == 1 && done.inflight == map[] && done.wakeups[n.request] == 1
    requires forall id :: id in done.dispatched ==> done.dispatched[id].tag == 1
    ensures TwoDealt(n, DealtOut(n, Called(n, done), [Job(n.a, 0)], [Job(n.c, 0), Job(n.b, 0)]))
  {
    SpawnShort(n, done.inflight, n.c, n.b, 2);
    hide Spawn;
  }

  lemma SecondBatch(strict: bool, n: Names, first: Stage) returns (s: Stage)
    requires n.Distinct() && Reachable(strict, At(n, first)) && OneGoing(n, first)
    ensures Reachable(strict, At(n, s)) && TwoDealt(n, s)
  {
    var done := Completed(n, first, n.d);
    SecondIsReady(n, first);
    SecondIsDealt(n, done);
    assert n.d in first.inflight && first.inflight[n.d] == Going(n, first.iteration, None);
    hide *;
    Completes(strict, n, first, n.d);
    NextDeals(strict, n, done, [Job(n.a, 0)], [Job(n.c, 0), Job(n.b, 0)]);
    s := DealtOut(n, Called(n, done), [Job(n.a, 0)], [Job(n.c, 0), Job(n.b, 0)]);
  }

  /** The launch of the second batch's second command has read its number, that of its first has not yet. */
  ghost predicate TwoGoing(n: Names, s: Stage) {
    && s.iteration == 2 && s.queue == [Job(n.a, 0)]
    && (forall id :: id in s.dispatched ==> s.dispatched[id].tag == 1)
    && n.c in s.inflight && s.inflight[n.c] == Going(n, 2, None)
    && n.b in s.inflight && s.inflight[n.b] == Going(n, 2, Some(2))
  }

  lemma OneReads(n: Names, dealt: Stage)
    requires n.Distinct() && TwoDealt(n, dealt)
    ensures n.b in dealt.inflight && dealt.inflight[n.b] == Going(n, dealt.iteration, None)
    ensures TwoGoing(n, Tagged(n, dealt, n.b))
  {
  }

  /** The third batch is dealt out while that launch is still under way. */
  ghost predicate Overtaken(n: Names, s: Stage) {
    s.iteration == 3 && n.b in s.inflight && s.inflight[n.b] == Going(n, 2, Some(2))
  }

  lemma ThirdIsReady(n: Names, second: Stage)
    requires n.Distinct() && TwoGoing(n, second)
    ensures var done := Completed(n, second, n.c);
      Ready(done, [], [Job(n.a, 0)]) && done.wakeups[n.request] > 0
  {
    ReverseShort(Job(n.a, 0), Job(n.a, 0));
    assert Pow2(2) == 4;
    hide Reverse, Pow2;
    assert [] + [Job(n.a, 0)] == second.queue;
  }

  lemma ThirdOvertakes(n: Names, second: Stage)
    requires n.Distinct() && TwoGoing(n, second)
    ensures Overtaken(n, DealtOut(n, Called(n, Completed(n, second, n.c)), [], [Job(n.a, 0)]))
  {
    var done := Completed(n, second, n.c);
    SpawnShort(n, done.inflight, n.a, n.a, 3);
    assert n.b in done.inflight && done.inflight[n.b] == Going(n, 2, Some(2)) && done.iteration == 2;
    hide Spawn, TwoGoing, Completed;
  }

  lemma ThirdBatch(n: Names, second: Stage) returns (s: Stage)
    requires n.Distinct() && Reachable(false, At(n, second)) && TwoGoing(n, second)
    ensures Reachable(false, At(n, s)) && Overtaken(n, s)
  {
    var done := Completed(n, second, n.c);
    ThirdIsReady(n, second);
    ThirdOvertakes(n, second);
    assert n.c in second.inflight && second.inflight[n.c] == Going(n, second.iteration, None);
    hide *;
    Completes(false, n, second, n.c);
    NextDeals(false, n, done, [], [Job(n.a, 0)]);
    s := DealtOut(n, Called(n, done), [], [Job(n.a, 0)]);
  }

  /** Fresh identifiers, orderly clients and iteration numbers read in time are not enough for the barrier: for
      any names there is a run that keeps to all that and in which a command of the second batch is still
      pending on its registered client object when the third batch has been started. */
  lemma RaceBreaksBarrier(n: Names)
    requires n.Distinct()
    ensures exists events :: FreshRun(INITIAL, events) && OrderedRun(INITIAL, events)
              && !EarlierBatchesFinished(Run(INITIAL, events))
  {
    var first := RolloutBegins(false, n);
    var dealt := SecondBatch(false, n, first);
    OneReads(n, dealt);
    TagIsRead(false, n, dealt, n.b);
    var third := ThirdBatch(n, Tagged(n, dealt, n.b));
    LaunchLands(false, n, third, n.b, 2);
    var w := At(n, Landed(n, third, n.b, 2));
    assert !EarlierBatchesFinished(w) by {
      assert n.b in w.dispatched && w.dispatched[n.b] == Arrived(n, 2, Pending);
      assert n.client in w.registered && OnRegistered(w, 0);
    }
    hide EarlierBatchesFinished, At, FreshRun, OrderedRun, Run;
  }
}
