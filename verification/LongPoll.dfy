/**
 Handing commands to a polling client. A submitter inserts its command and then blocks until a poll receives
 its signal; the poll then sweeps the pending list. Insert, signal and sweep are separate steps, with any
 number of submitters and polls at work.
 */
module LongPoll {
  import opened Commands
  import opened Coordinator

  /** `cmds` says of each command whether it is still pending; `signalling` are submitters whose signal was not
      received yet, `sweeping` polls that received one and have not swept yet; `responses` is history. */
  datatype Mailbox = Mailbox(cmds: map<string, bool>, signalling: set<string>, sweeping: nat,
                             responses: seq<set<string>>)

  const EMPTY := Mailbox(map[], {}, 0, [])

  datatype Event =
    | Insert(id: string)
    | Receive(id: string)
    | Sweep
    | Timeout

  function Pending(m: Mailbox): set<string> {
    set id | id in m.cmds && m.cmds[id]
  }

  function Step(m: Mailbox, e: Event): Mailbox {
    match e
    case Insert(id) => m.(cmds := m.cmds[id := true], signalling := m.signalling + {id})
    case Receive(id) =>
      if id in m.signalling then m.(signalling := m.signalling - {id}, sweeping := m.sweeping + 1) else m
    case Sweep =>
      if m.sweeping == 0 then m
      else m.(sweeping := m.sweeping - 1,
              responses := m.responses + [Pending(m)],
              cmds := map id | id in m.cmds :: false)
    case Timeout => m.(responses := m.responses + [{}])
  }

  function Run(events: seq<Event>): Mailbox {
    if events == [] then EMPTY else Step(Run(events[..|events| - 1]), events[|events| - 1])
  }

  /** Command ids are drawn fresh. */
  predicate Fresh(events: seq<Event>) {
    events == []
    || (Fresh(events[..|events| - 1])
        && (events[|events| - 1].Insert? ==> events[|events| - 1].id !in Run(events[..|events| - 1]).cmds))
  }

  // ---------- the client object ----------

  /** The mailbox shows the client's list. */
  ghost predicate Mailed(m: Mailbox, client: RegisteredClient)
    reads client, client.cmds.Values
  {
    client.Filed() && m.cmds == map id | id in client.cmds :: client.cmds[id].pending
  }

  /** Submitting a command to the client is an insert; the signal is sent next. */
  method SubmitOne(client: RegisteredClient, cmd: Cmd, ghost m: Mailbox)
    requires Mailed(m, client) && cmd.pending
    modifies client`cmds, client`dispatchedCmds
    ensures Mailed(Step(m, Insert(cmd.id)), client) && cmd.id in Step(m, Insert(cmd.id)).signalling
  {
    client.Submit(cmd);
  }

  /** The sweep of a poll that was signalled hands out the commands of its response, and leaves none pending. */
  method SweepOne(client: RegisteredClient, ghost m: Mailbox) returns (batch: seq<Cmd>)
    requires Mailed(m, client) && m.sweeping > 0
    modifies client.cmds.Values`pending
    ensures var m' := Step(m, Sweep);
      Mailed(m', client) && m'.responses == m.responses + [set cmd | cmd in batch :: cmd.id]
    ensures forall i, j :: 0 <= i < j < |batch| ==> batch[i].id != batch[j].id
  {
    batch := client.TakePending();
    forall i, j | 0 <= i < j < |batch| ensures batch[i].id != batch[j].id {
      assert batch[i] in batch && batch[j] in batch;
    }
    forall id ensures id in Pending(m) <==> id in set cmd | cmd in batch :: cmd.id {
      if id in Pending(m) {
        assert client.cmds[id] in batch && client.cmds[id].id == id;
      }
    }
    assert Pending(m) == set cmd | cmd in batch :: cmd.id;
  }

  // ---------- runs ----------

  /** How many poll responses carried a command. */
  function Appearances(responses: seq<set<string>>, id: string): nat {
    if responses == [] then 0
    else Appearances(responses[..|responses| - 1], id) + if id in responses[|responses| - 1] then 1 else 0
  }

  lemma AppearsAlso(responses: seq<set<string>>, last: set<string>, id: string)
    ensures Appearances(responses + [last], id) == Appearances(responses, id) + if id in last then 1 else 0
  {
    assert (responses + [last])[..|responses|] == responses;
  }

  /** A pending command always has someone about to fetch it, and has not been handed out; any other submitted
      command was handed out exactly once. */
  ghost predicate NothingLost(m: Mailbox) {
    && (Pending(m) != {} ==> m.signalling != {} || m.sweeping > 0)
    && (forall id :: Appearances(m.responses, id) == if id in m.cmds && !m.cmds[id] then 1 else 0)
  }

  lemma StepLosesNothing(m: Mailbox, e: Event)
    requires NothingLost(m) && (e.Insert? ==> e.id !in m.cmds)
    ensures NothingLost(Step(m, e))
  {
    var m' := Step(m, e);
    match e
    case Insert(id) =>
      assert m'.signalling != {} by { assert id in m'.signalling; }
    case Receive(id) =>
      assert Pending(m') == Pending(m);
    case Sweep =>
      if m.sweeping > 0 {
        forall id ensures Appearances(m'.responses, id) == if id in m'.cmds && !m'.cmds[id] then 1 else 0 {
          AppearsAlso(m.responses, Pending(m), id);
        }
      }
    case Timeout =>
      assert Pending(m') == Pending(m);
      forall id ensures Appearances(m'.responses, id) == if id in m'.cmds && !m'.cmds[id] then 1 else 0 {
        AppearsAlso(m.responses, {}, id);
      }
  }

  /** No wake-up is lost, over every interleaving of submitters and polls. */
  lemma {:induction false} NoLostWakeUp(events: seq<Event>)
    requires Fresh(events)
    ensures NothingLost(Run(events))
  {
    if events != [] {
      NoLostWakeUp(events[..|events| - 1]);
      StepLosesNothing(Run(events[..|events| - 1]), events[|events| - 1]);
    }
  }

  /** The ids submitted so far. */
  function Submitted(events: seq<Event>): set<string> {
    set e | e in events && e.Insert? :: e.id
  }

  lemma {:induction false} SubmittedAreKnown(events: seq<Event>)
    ensures Run(events).cmds.Keys == Submitted(events)
  {
    if events != [] {
      var init, last := events[..|events| - 1], events[|events| - 1];
      SubmittedAreKnown(init);
      assert events == init + [last];
      assert Submitted(events) == Submitted(init) + if last.Insert? then {last.id} else {};
    }
  }

  /** Once no signal is unreceived and no sweep under way, every submitted command has been in exactly one poll
      response, and nothing else has been in any. */
  lemma DeliveredAtQuiescence(events: seq<Event>)
    requires Fresh(events) && Run(events).signalling == {} && Run(events).sweeping == 0
    ensures forall id :: Appearances(Run(events).responses, id) == if id in Submitted(events) then 1 else 0
  {
    NoLostWakeUp(events);
    SubmittedAreKnown(events);
    var m := Run(events);
    assert Pending(m) == {};
    forall id | id in m.cmds ensures !m.cmds[id] {
      assert id !in Pending(m);
    }
  }

  /** From any point of any run the waiting submitters and polls can finish: each signal is received by a poll, and
      each poll that received one sweeps. Then everything submitted has been delivered, each command once. */
  lemma {:induction false} CanDeliver(events: seq<Event>) returns (more: seq<Event>)
    requires Fresh(events)
    ensures |more| == 2 * |Run(events).signalling| + Run(events).sweeping
    ensures forall e :: e in more ==> e.Receive? || e.Sweep?
    ensures var m := Run(events + more);
      && m.signalling == {} && m.sweeping == 0
      && forall id :: Appearances(m.responses, id) == if id in Submitted(events) then 1 else 0
    decreases 2 * |Run(events).signalling| + Run(events).sweeping
  {
    var m := Run(events);
    if m.signalling == {} && m.sweeping == 0 {
      more := [];
      assert events + more == events;
      DeliveredAtQuiescence(events);
    } else {
      var e := Sweep;
      if id :| id in m.signalling {
        e := Receive(id);
      }
      var all := events + [e];
      assert all[..|events|] == events;
      assert Submitted(all) == Submitted(events);
      var rest := CanDeliver(all);
      more := [e] + rest;
      assert events + more == all + rest;
    }
  }
}
