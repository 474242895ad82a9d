/**
 Progress of whole rollouts: between the steps of a rollout's own commands anything may go on around it. Nothing
 of this request is cancelled, purged, expired or cleaned up meanwhile, and nobody else brings the server down.
 */
module RolloutCompletion {
  import opened Wrappers
  import opened Strategy
  import opened Commands
  import opened Rollout
  import opened RolloutInvariants
  import opened RolloutBarrier
  import opened RolloutProgress
  import opened RolloutOthers

  /** One move of the whole system, seen from one rollout: a step of one of its commands, or any event of others. */
  datatype Move = Own(pick: Pick) | Other(event: Event)

  function AfterMove(w: World, m: Move): World {
    match m
    case Own(pick) => After(w, pick)
    case Other(e) => Step(w, e)
  }

  /** The move is possible: a step of an own command that has not finished, or a step of others under the premises
      of all runs that does not bring the server down. */
  ghost predicate Possible(w: World, request: string, m: Move) {
    match m
    case Own(pick) => Enabled(w, request, pick)
    case Other(e) =>
      request in w.entries && Foreign(w, request, e) && Fresh(w, e) && Timely(w, e) && !Step(w, e).crashed
  }

  ghost predicate MoveAt(request: string, states: seq<World>, moves: seq<Move>, i: nat)
    requires i < |moves| && i + 1 < |states|
  {
    Possible(states[i], request, moves[i]) && states[i + 1] == AfterMove(states[i], moves[i])
  }

  /** A schedule: each move is possible and leads to the next state. */
  ghost predicate Schedule(request: string, states: seq<World>, moves: seq<Move>) {
    |states| == |moves| + 1 && forall i :: 0 <= i < |moves| ==> MoveAt(request, states, moves, i)
  }

  /** How many of the moves are steps of the rollout's own commands. */
  function OwnMoves(moves: seq<Move>): (n: nat)
    ensures n <= |moves|
  {
    if moves == [] then 0
    else OwnMoves(moves[..|moves| - 1]) + if moves[|moves| - 1].Own? then 1 else 0
  }

  lemma MoveWorks(w: World, request: string, m: Move)
    requires Working(w, request) && Possible(w, request, m)
    ensures Working(AfterMove(w, m), request) && request in w.entries
    ensures AfterMove(w, m).entries[request].assembled == w.entries[request].assembled
    ensures Weight(AfterMove(w, m), w.entries[request].assembled) + (if m.Own? then 1 else 0)
            == Weight(w, w.entries[request].assembled)
  {
    assert request in w.entries;
    hide Structure, Barrier, UnderWay, AllFinished, Step, After, Enabled, Foreign, Fresh, Timely, Weight;
    match m
    case Own(pick) => PickWorks(w, request, pick);
    case Other(e) => ForeignStepWorks(w, request, e);
  }

  lemma {:induction false} ScheduleWorks(request: string, states: seq<World>, moves: seq<Move>)
    requires Schedule(request, states, moves) && Working(states[0], request)
    ensures var w, w' := states[0], states[|moves|];
      && request in w.entries
      && Working(w', request) && w'.entries[request].assembled == w.entries[request].assembled
      && Weight(w', w.entries[request].assembled) + OwnMoves(moves) == Weight(w, w.entries[request].assembled)
    decreases |moves|
  {
    hide Possible, AfterMove, Weight, Structure, Barrier, AllFinished;
    if moves != [] {
      var n := |moves| - 1;
      var first, before := states[..n + 1], moves[..n];
      forall i | 0 <= i < n ensures MoveAt(request, first, before, i) {
        assert MoveAt(request, states, moves, i);
      }
      ScheduleWorks(request, first, before);
      assert MoveAt(request, states, moves, n);
      hide Working;
      MoveWorks(states[n], request, moves[n]);
    }
  }

  /** The past of a start: a run under the premises up to the state before it. */
  lemma StartedAfter(past: seq<World>, events: seq<Event>)
    requires TimelyStates(past, events) && events != []
    ensures var n := |events| - 1;
      && Structure(past[n]) && Barrier(past[n]) && BellsKnown(past[n])
      && Fresh(past[n], events[n]) && past[n + 1] == Step(past[n], events[n])
  {
    var n := |events| - 1;
    StatesKeepBarrier(past, events, n);
    StatesAreRuns(past, events);
    RunKeepsBells(events[..n]);
    hide Step, Fresh, Timely, Run, INITIAL, Structure, Barrier, BellsKnown;
    assert TimelyAt(past, events, n);
  }

  /** Progress. However a rollout of n commands is scheduled after any run, and whatever other requests and clients
      do in between, it takes exactly seven steps per command: before that some step of its own is possible and the
      callbacks have not been triggered, and then every command is launched and finished and the callbacks have been
      triggered exactly once. With no command at all, that is so immediately. */
  lemma {:induction false} RolloutCompletes(past: seq<World>, events: seq<Event>, request: string,
                                            strategy: StrategyType, targets: seq<Target>, states: seq<World>,
                                            moves: seq<Move>)
    requires TimelyStates(past, events) && events != []
    requires events[|events| - 1] == Start(request, strategy, targets, {}) && !past[|events| - 1].crashed
    requires Schedule(request, states, moves) && states[0] == past[|events|]
    ensures var jobs := Assemble(past[|events| - 1].registered, targets); var end := states[|moves|];
      && request in end.entries
      && OwnMoves(moves) <= 7 * |jobs|
      && (OwnMoves(moves) < 7 * |jobs| ==> end.callbacks[request] == 0 && exists p :: Enabled(end, request, p))
      && (OwnMoves(moves) == 7 * |jobs| ==>
            end.callbacks[request] == 1
            && end.entries[request].queue == []
            && Reverse(end.entries[request].launched) == jobs
            && AllFinished(end, request)
            && forall p :: !Enabled(end, request, p))
  {
    StartedAfter(past, events);
    StartWorks(past[|events| - 1], request, strategy, targets);
    var jobs, end := Assemble(past[|events| - 1].registered, targets), states[|moves|];
    hide TimelyStates, Fresh, Step, Structure, Barrier, BellsKnown, Assemble;
    ScheduleWorks(request, states, moves);
    hide Schedule;
    NeverStuck(end, request);
    LaunchedBackwards(end, request);
    hide Working, Weight, Enabled, AllFinished;
    WorkingCallbacks(end, request);
  }
}
