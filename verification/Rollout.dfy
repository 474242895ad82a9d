/**
 The rollout of approved requests as a state machine with atomic steps: entries of the coordinator, launch
 goroutines between the coordinator and a client object, commands dispatched to client objects, and the
 events that move them. Nothing here says in which order events come; the premises each theorem needs are
 separate predicates over runs.
 */
module Rollout {
  import opened Wrappers
  import opened Strategy
  import opened Commands

  // ---------- one coordinator entry ----------

  /** An entry of the coordinator. `assembled` and `launched` are history: all commands the entry was given,
      and those already started, in starting order. */
  datatype Entry<J> = Entry(strategy: StrategyType, iteration: nat, queue: seq<J>,
                            assembled: seq<J>, launched: seq<J>)

  function NewEntry<J>(strategy: StrategyType, jobs: seq<J>): Entry<J> {
    Entry(strategy, 0, jobs, jobs, [])
  }

  function Reverse<T>(s: seq<T>): (r: seq<T>)
    ensures |r| == |s| && forall i :: 0 <= i < |s| ==> r[i] == s[|s| - 1 - i]
  {
    seq(|s|, i requires 0 <= i < |s| => s[|s| - 1 - i])
  }

  /** What one call of Next decides: nothing to do, all work done, or a batch to start. */
  datatype Turn<J> = Idle | Drained | Batch(jobs: seq<J>)

  /** `done` is the result of the scan over the dispatched commands of the current batch. */
  function TakeTurn<J>(e: Entry<J>, done: bool): (turn: Turn<J>)
    ensures turn.Batch? ==> done && 1 <= |turn.jobs| <= |e.queue|
    ensures turn.Drained? ==> done && e.queue == []
  {
    if e.queue == [] then (if done then Drained else Idle)
    else if !done then Idle
    else
      var size := BatchSize(e.strategy, e.iteration, |e.queue|);
      Batch(Reverse(e.queue[|e.queue| - size..]))
  }

  function AfterTurn<J>(e: Entry<J>, turn: Turn<J>): Entry<J>
    requires turn.Batch? ==> |turn.jobs| <= |e.queue|
  {
    if turn.Batch? then
      e.(queue := e.queue[..|e.queue| - |turn.jobs|],
         launched := e.launched + turn.jobs,
         iteration := e.iteration + 1)
    else e
  }

  /** Conservation inside one entry: what is queued and what was launched, read backwards, is what was
      assembled; as many were launched as the strategy allows so far; and no batch was started for nothing. */
  ghost predicate Consistent<J>(e: Entry<J>) {
    && e.assembled == e.queue + Reverse(e.launched)
    && |e.launched| == LaunchedAfter(e.strategy, |e.assembled|, e.iteration)
    && (e.iteration > 0 ==> LaunchedAfter(e.strategy, |e.assembled|, e.iteration - 1) < |e.assembled|)
  }

  lemma ReverseConcat<T>(a: seq<T>, b: seq<T>)
    ensures Reverse(a + b) == Reverse(b) + Reverse(a)
    ensures Reverse(Reverse(a)) == a
  {
  }

  lemma TurnKeepsConsistent<J>(e: Entry<J>, done: bool)
    requires Consistent(e)
    ensures var turn := TakeTurn(e, done);
      && Consistent(AfterTurn(e, turn))
      && (turn.Batch? ==> e.queue == AfterTurn(e, turn).queue + Reverse(turn.jobs))
  {
    var turn := TakeTurn(e, done);
    if turn.Batch? {
      var after := AfterTurn(e, turn);
      var back := e.queue[|after.queue|..];
      ReverseConcat(back, back);
      ReverseConcat(e.launched, turn.jobs);
      hide Reverse;
      assert e.queue == after.queue + back;
      assert after.assembled == after.queue + (back + Reverse(e.launched));
      assert |e.launched| + |e.queue| == |e.assembled| by { assert |Reverse(e.launched)| == |e.launched|; }
    }
  }

  // ---------- the whole system ----------

  /** A registered client is an object; one that is cleaned up and registers again is another object. */
  type Ref = nat

  /** An assembled command and the client object it is meant for. */
  datatype Job = Job(id: string, host: Ref)

  /** A launch goroutine. It reads its iteration number and then submits; `batch` is history. */
  datatype Launch = Launch(request: string, host: Ref, batch: nat, tag: Option<nat>)

  /** A command in the dispatched list of its client object. */
  datatype Dispatched = Dispatched(request: string, host: Ref, batch: nat, tag: nat, status: Status)

  /** `refs`, `owner` and `landed` are history: client objects ever created, the request of every assembled
      command, and how often each command was submitted. `wakeups` are spawned calls of Next. */
  datatype World = World(
    registered: map<string, Ref>,
    refs: set<Ref>,
    stored: set<string>,
    entries: map<string, Entry<Job>>,
    owner: map<string, string>,
    inflight: map<string, Launch>,
    dispatched: map<string, Dispatched>,
    landed: multiset<string>,
    wakeups: multiset<string>,
    callbacks: multiset<string>,
    crashed: bool)

  const INITIAL := World(map[], {}, {}, map[], map[], map[], map[], multiset{}, multiset{}, multiset{}, false)

  datatype Target = Target(client: string, cmd: string)

  /** `early` names the launch goroutines that read the iteration number before Next increments it. */
  datatype Event =
    | Register(client: string, ref: Ref)
    | Cleanup(gone: set<string>)
    | Start(request: string, strategy: StrategyType, targets: seq<Target>, early: set<string>)
    | NextRuns(request: string, early: set<string>)
    | ReadTag(cmd: string)
    | Land(cmd: string)
    | Report(client: string, cmd: string, message: Status, verdict: Verdict)
    | Purge(client: string, cmds: set<string>)
    | Cancel(request: string)
    | Expire(requests: set<string>)

  function JobIds(jobs: seq<Job>): set<string> {
    set j | j in jobs :: j.id
  }

  /** One command per listed client that is registered; the others are skipped. */
  function Assemble(registered: map<string, Ref>, targets: seq<Target>): (jobs: seq<Job>)
    ensures forall j :: j in jobs ==> j.host in registered.Values
    ensures forall j :: j in jobs ==> exists t :: t in targets && t.cmd == j.id
  {
    if targets == [] then []
    else
      var rest := Assemble(registered, targets[1..]);
      assert forall t :: t in targets[1..] ==> t in targets;
      if targets[0].client in registered
      then [Job(targets[0].cmd, registered[targets[0].client])] + rest
      else rest
  }

  /** Exactly the commands of registered clients, each meant for its own client, in listing order. */
  lemma {:induction false} AssembledExactly(registered: map<string, Ref>, a: seq<Target>, b: seq<Target>)
    ensures forall j :: j in Assemble(registered, a) <==>
              exists t :: t in a && t.client in registered && j == Job(t.cmd, registered[t.client])
    ensures Assemble(registered, a + b) == Assemble(registered, a) + Assemble(registered, b)
  {
    if a == [] {
      assert a + b == b;
    } else {
      assert (a + b)[1..] == a[1..] + b && a == [a[0]] + a[1..];
      AssembledExactly(registered, a[1..], b);
    }
  }

  /** Spawn one goroutine per job of a batch. */
  function Spawn(inflight: map<string, Launch>, jobs: seq<Job>, request: string, batch: nat, early: set<string>)
    : map<string, Launch>
  {
    if jobs == [] then inflight
    else
      var job := jobs[|jobs| - 1];
      var tag := if job.id in early && batch > 0 then Some((batch - 1) as nat) else None;
      Spawn(inflight, jobs[..|jobs| - 1], request, batch, early)[job.id := Launch(request, job.host, batch, tag)]
  }

  predicate OnRegistered(w: World, host: Ref) {
    host in w.registered.Values
  }

  predicate Scanned(w: World, d: Dispatched, request: string, iteration: nat) {
    OnRegistered(w, d.host) && d.request == request && d.tag == iteration
  }

  /** The scan of Next: every command of this iteration on a registered client object is finished. */
  predicate BatchDone(w: World, request: string, iteration: nat) {
    forall id :: id in w.dispatched && Scanned(w, w.dispatched[id], request, iteration) ==>
                   w.dispatched[id].status == Finished
  }

  /** The system after a request's entry handed out a batch and became `after`. */
  function Dealt(w: World, request: string, after: Entry<Job>, jobs: seq<Job>, early: set<string>): World {
    w.(entries := w.entries[request := after],
       inflight := Spawn(w.inflight, jobs, request, after.iteration, early))
  }

  function RunNext(w: World, request: string, early: set<string>): World
    requires request in w.entries
  {
    var e := w.entries[request];
    var turn := TakeTurn(e, BatchDone(w, request, e.iteration));
    match turn
    case Idle => w
    case Drained =>
      // The callbacks belong to the stored request; without it their list cannot be read.
      if request in w.stored then w.(callbacks := w.callbacks + multiset{request}) else w.(crashed := true)
    case Batch(jobs) => Dealt(w, request, AfterTurn(e, turn), jobs, early)
  }

  /** Next touches no entry but its own, which takes its turn. */
  lemma NextEntries(w: World, request: string, early: set<string>)
    requires request in w.entries
    ensures var e := w.entries[request];
      RunNext(w, request, early).entries
      == w.entries[request := AfterTurn(e, TakeTurn(e, BatchDone(w, request, e.iteration)))]
  {
    hide TakeTurn, BatchDone, Spawn;
    var e := w.entries[request];
    assert w.entries[request := e] == w.entries;
  }

  function StartRequest(w: World, request: string, strategy: StrategyType, targets: seq<Target>): (w': World)
    ensures request in w'.entries
  {
    var jobs := Assemble(w.registered, targets);
    w.(stored := w.stored + {request},
       entries := w.entries[request := NewEntry(strategy, jobs)],
       owner := w.owner + map id | id in JobIds(jobs) :: request)
  }

  /** The command a status message is about, if the client is registered and has it. */
  predicate Reaches(w: World, client: string, cmd: string) {
    client in w.registered && cmd in w.dispatched && w.dispatched[cmd].host == w.registered[client]
  }

  function ReportStatus(w: World, cmd: string, message: Status, verdict: Verdict): World
    requires cmd in w.dispatched
  {
    var d := w.dispatched[cmd];
    var settled := Settle(d.status, message, verdict);
    w.(dispatched := w.dispatched[cmd := d.(status := settled)],
       wakeups := if TriggersValidation(d.status, message) && settled == Finished && d.request in w.entries
                  then w.wakeups + multiset{d.request} else w.wakeups)
  }

  function Apply(w: World, e: Event): World {
    match e
    case Register(client, ref) =>
      if client in w.registered then w
      else w.(registered := w.registered[client := ref], refs := w.refs + {ref})
    case Cleanup(gone) =>
      w.(registered := w.registered - gone)
    case Start(request, strategy, targets, early) =>
      RunNext(StartRequest(w, request, strategy, targets), request, early)
    case NextRuns(request, early) =>
      if w.wakeups[request] == 0 || request !in w.entries then w
      else RunNext(w.(wakeups := w.wakeups - multiset{request}), request, early)
    case ReadTag(cmd) =>
      if cmd in w.inflight && w.inflight[cmd].tag.None? && w.inflight[cmd].request in w.entries
      then
        var l := w.inflight[cmd];
        w.(inflight := w.inflight[cmd := l.(tag := Some(w.entries[l.request].iteration))])
      else w
    case Land(cmd) =>
      if cmd in w.inflight && w.inflight[cmd].tag.Some?
      then
        var l := w.inflight[cmd];
        w.(inflight := w.inflight - {cmd},
           dispatched := w.dispatched[cmd := Dispatched(l.request, l.host, l.batch, l.tag.value, Pending)],
           landed := w.landed + multiset{cmd})
      else w
    case Report(client, cmd, message, verdict) =>
      if Reaches(w, client, cmd) then ReportStatus(w, cmd, message, verdict) else w
    case Purge(client, cmds) =>
      w.(dispatched := map id | id in w.dispatched && !(id in cmds && Reaches(w, client, id)) :: w.dispatched[id])
    case Cancel(request) =>
      w.(dispatched := map id | id in w.dispatched
                       && !(w.dispatched[id].request == request && OnRegistered(w, w.dispatched[id].host))
                       :: w.dispatched[id],
         stored := w.stored - {request})
    case Expire(requests) =>
      w.(stored := w.stored - requests)
  }

  /** A crashed server takes no further step. */
  function Step(w: World, e: Event): World {
    if w.crashed then w else Apply(w, e)
  }

  function Run(w: World, events: seq<Event>): World {
    if events == [] then w
    else Step(Run(w, events[..|events| - 1]), events[|events| - 1])
  }

  lemma {:induction false} RunConcat(w: World, first: seq<Event>, second: seq<Event>)
    ensures Run(w, first + second) == Run(Run(w, first), second)
  {
    hide Step;
    if second == [] {
      assert first + second == first;
    } else {
      var all := first + second;
      assert all[..|all| - 1] == first + second[..|second| - 1];
      RunConcat(w, first, second[..|second| - 1]);
    }
  }

  // ---------- premises ----------

  /** Identifiers drawn by the server are new. */
  ghost predicate Fresh(w: World, e: Event) {
    match e
    case Register(client, ref) => ref !in w.refs
    case Start(request, _, targets, _) =>
      && request !in w.entries
      && (forall i, j :: 0 <= i < j < |targets| ==> targets[i].cmd != targets[j].cmd)
      && (forall t :: t in targets ==> t.cmd !in w.owner)
    case _ => true
  }

  /** The order in which a client sends status messages about one command. */
  predicate Orderly(status: Status, message: Status) {
    match status
    case Pending => message == Validating
    case Validating => message in {InvalidSignature, Starting}
    case Starting => message in {FailedExecution, StartedExecution}
    case StartedExecution => message in {KilledExecution, FailedExecution, FinishedExecution}
    case KilledExecution => message == FlushedLogs
    case FailedExecution => message == FlushedLogs
    case FinishedExecution => message == FlushedLogs
    case _ => false
  }

  /** The status of a command on the server after the first `n` of a client's messages, each validation with a
      verdict of its own. */
  function SettledBy(statuses: seq<Status>, verdicts: seq<Verdict>, n: nat): Status
    requires n <= |statuses| <= |verdicts|
  {
    if n == 0 then Pending else Settle(SettledBy(statuses, verdicts, n - 1), statuses[n - 1], verdicts[n - 1])
  }

  /** What a client sends while it executes a command comes in this order, whatever the server makes of it. */
  lemma {:induction false} ExecutionIsOrderly(messages: seq<Message>, outcome: Outcome, stdout: string, stderr: string,
                                              verdicts: seq<Verdict>, n: nat)
    requires EmittedBy(messages, outcome, stdout, stderr) || messages == [State(Validating), State(InvalidSignature)]
    requires n < |Statuses(messages)| <= |verdicts|
    ensures Orderly(SettledBy(Statuses(messages), verdicts, n), Statuses(messages)[n])
  {
    SentStatuses(messages, outcome, stdout, stderr);
    var statuses := Statuses(messages);
    hide *;
    ScriptIsOrderly(statuses, outcome, verdicts, n);
  }

  lemma SentStatuses(messages: seq<Message>, outcome: Outcome, stdout: string, stderr: string)
    requires EmittedBy(messages, outcome, stdout, stderr) || messages == [State(Validating), State(InvalidSignature)]
    ensures Statuses(messages) == StatusScript(outcome) || Statuses(messages) == [Validating, InvalidSignature]
  {
    if messages == [State(Validating), State(InvalidSignature)] {
      Appended([], State(Validating));
      Appended([State(Validating)], State(InvalidSignature));
      assert [] + [State(Validating)] == [State(Validating)];
      assert messages == [State(Validating)] + [State(InvalidSignature)];
    }
    hide Output, Errors, OutputScript, ErrorScript;
  }

  lemma ScriptIsOrderly(statuses: seq<Status>, outcome: Outcome, verdicts: seq<Verdict>, n: nat)
    requires statuses == StatusScript(outcome) || statuses == [Validating, InvalidSignature]
    requires n < |statuses| <= |verdicts|
    ensures Orderly(SettledBy(statuses, verdicts, n), statuses[n])
  {
    if n > 0 {
      SettledAsSent(statuses, verdicts, n);
      hide SettledBy;
    }
  }

  /** Before the logs are flushed, the server records each message as it is. */
  lemma {:induction false} SettledAsSent(statuses: seq<Status>, verdicts: seq<Verdict>, n: nat)
    requires 0 < n <= |statuses| <= |verdicts| && forall i :: 0 <= i < n ==> statuses[i] != FlushedLogs
    ensures SettledBy(statuses, verdicts, n) == statuses[n - 1]
  {
    if n > 1 {
      SettledAsSent(statuses, verdicts, n - 1);
    }
  }

  predicate Concerns(w: World, request: string, about: string, host: Ref) {
    about == request && OnRegistered(w, host)
  }

  /** No launch of this request towards a registered client object is under way. */
  predicate NoLaunchUnderWay(w: World, request: string) {
    forall id :: id in w.inflight ==> !Concerns(w, request, w.inflight[id].request, w.inflight[id].host)
  }

  /** The premises of the batch barrier: goroutines read the iteration number after its increment, Next runs
      only once the launches of its request towards registered clients have landed, and clients keep to their
      message order. */
  ghost predicate Timely(w: World, e: Event) {
    match e
    case Start(_, _, _, early) => early == {}
    case NextRuns(request, early) => early == {} && NoLaunchUnderWay(w, request)
    case Report(client, cmd, message, _) => Reaches(w, client, cmd) ==> Orderly(w.dispatched[cmd].status, message)
    case _ => true
  }

  ghost predicate FreshRun(w: World, events: seq<Event>) {
    events == [] || (FreshRun(w, events[..|events| - 1])
                     && Fresh(Run(w, events[..|events| - 1]), events[|events| - 1]))
  }

  ghost predicate TimelyRun(w: World, events: seq<Event>) {
    events == [] || (TimelyRun(w, events[..|events| - 1])
                     && Timely(Run(w, events[..|events| - 1]), events[|events| - 1]))
  }

  /** A run under the premises, as the sequence of its states. */
  ghost predicate TimelyStates(states: seq<World>, events: seq<Event>) {
    && |states| == |events| + 1 && states[0] == INITIAL
    && forall i :: 0 <= i < |events| ==> TimelyAt(states, events, i)
  }

  ghost predicate TimelyAt(states: seq<World>, events: seq<Event>, i: nat)
    requires i < |events| && i + 1 < |states|
  {
    && Fresh(states[i], events[i]) && Timely(states[i], events[i])
    && states[i + 1] == Step(states[i], events[i])
  }

  /** Both ways of speaking about runs agree: the states are those the events lead to, prefix by prefix. */
  ghost predicate RunThrough(states: seq<World>, events: seq<Event>) {
    |states| == |events| + 1 && forall k :: 0 <= k < |states| ==> states[k] == Run(INITIAL, events[..k])
  }

  lemma {:induction false} StatesAreRuns(states: seq<World>, events: seq<Event>)
    ensures TimelyStates(states, events)
            <==> RunThrough(states, events) && FreshRun(INITIAL, events) && TimelyRun(INITIAL, events)
    decreases |events|
  {
    hide Step, Fresh, Timely, INITIAL;
    if |states| == |events| + 1 {
      if events == [] {
        assert events[..0] == [];
      } else {
        var n := |events| - 1;
        StatesAreRuns(states[..n + 1], events[..n]);
        TimelyStatesGrow(states, events);
        RunThroughGrows(states, events);
        assert events[..n][..n] == events[..n];
        assert RunThrough(states[..n + 1], events[..n]) ==> states[..n + 1][n] == Run(INITIAL, events[..n]);
        hide TimelyStates, RunThrough, Run;
      }
    }
  }

  lemma TimelyStatesGrow(states: seq<World>, events: seq<Event>)
    requires |states| == |events| + 1 && events != []
    ensures var n := |events| - 1;
      TimelyStates(states, events)
      <==> TimelyStates(states[..n + 1], events[..n])
           && Fresh(states[n], events[n]) && Timely(states[n], events[n]) && states[n + 1] == Step(states[n], events[n])
  {
    hide Step, Fresh, Timely, INITIAL;
    var n := |events| - 1;
    var first, before := states[..n + 1], events[..n];
    forall i | 0 <= i < n ensures TimelyAt(first, before, i) == TimelyAt(states, events, i) {}
    assert TimelyAt(states, events, n)
        == (Fresh(states[n], events[n]) && Timely(states[n], events[n]) && states[n + 1] == Step(states[n], events[n]));
    hide TimelyAt;
    if TimelyStates(first, before) && TimelyAt(states, events, n) {
      forall i | 0 <= i < |events| ensures TimelyAt(states, events, i) {
        assert i < n ==> TimelyAt(first, before, i);
      }
    }
  }

  lemma RunThroughGrows(states: seq<World>, events: seq<Event>)
    requires |states| == |events| + 1 && events != []
    ensures var n := |events| - 1;
      RunThrough(states, events)
      <==> RunThrough(states[..n + 1], events[..n]) && states[n + 1] == Step(Run(INITIAL, events[..n]), events[n])
  {
    hide Step, INITIAL;
    var n := |events| - 1;
    assert events[..n + 1] == events && events[..n + 1][..n] == events[..n];
    forall k | 0 <= k <= n ensures events[..n][..k] == events[..k] {}
  }

  ghost predicate FreshAt(states: seq<World>, events: seq<Event>, i: nat)
    requires i < |events| && i + 1 < |states|
  {
    Fresh(states[i], events[i]) && states[i + 1] == Step(states[i], events[i])
  }

  /** A continuation from a state, with fresh identifiers and otherwise in any order. */
  ghost predicate FreshStates(w: World, states: seq<World>, events: seq<Event>) {
    && |states| == |events| + 1 && states[0] == w
    && forall i :: 0 <= i < |events| ==> FreshAt(states, events, i)
  }

  lemma {:induction false} FreshStatesRun(w: World, states: seq<World>, events: seq<Event>)
    requires FreshStates(w, states, events)
    ensures FreshRun(w, events) && Run(w, events) == states[|events|]
    decreases |events|
  {
    hide Step, Fresh;
    if events != [] {
      var n := |events| - 1;
      var first, before := states[..n + 1], events[..n];
      forall i | 0 <= i < n ensures FreshAt(first, before, i) {
        assert FreshAt(states, events, i);
      }
      FreshStatesRun(w, first, before);
      assert FreshAt(states, events, n);
    }
  }

  lemma {:induction false} FreshRunStates(w: World, events: seq<Event>) returns (states: seq<World>)
    requires FreshRun(w, events)
    ensures FreshStates(w, states, events) && states[|events|] == Run(w, events)
  {
    hide Step, Fresh;
    if events == [] {
      states := [w];
    } else {
      var n := |events| - 1;
      var before := FreshRunStates(w, events[..n]);
      states := before + [Step(before[n], events[n])];
      forall i | 0 <= i < |events| ensures FreshAt(states, events, i) {
        if i < n {
          assert FreshAt(before, events[..n], i);
        }
      }
    }
  }
}
