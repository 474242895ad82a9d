/**
 The server's objects: registered clients with their dispatched commands, and coordinator entries whose Next
 scans those clients. Each method is proved against the step of the rollout state machine it performs.
 */
module Coordinator {
  import opened Wrappers
  import opened Strategy
  import opened Commands
  import opened Lines
  import Rollout

  const CLIENT_PING_INTERVAL := 60
  const MAX_COMMAND_AGE := 14 * 86400
  const DEFAULT_COMMAND_TIMEOUT := 300

  class RegisteredClient {
    const clientId: string
    // The token that commands for this client are signed with.
    var authToken: string
    var lastPing: int
    var tags: seq<string>
    var dispatchedCmds: map<string, Cmd>
    var cmds: map<string, Cmd>

    constructor (clientId: string)
      ensures this.clientId == clientId && authToken == "" && dispatchedCmds == map[] && cmds == map[]
    {
      this.clientId, authToken, lastPing, tags, dispatchedCmds, cmds := clientId, "", 0, [], map[], map[];
    }

    /** Put a command on the pending list and on the dispatched list. */
    method Submit(cmd: Cmd)
      modifies this`cmds, this`dispatchedCmds
      ensures cmds == old(cmds)[cmd.id := cmd]
      ensures dispatchedCmds == old(dispatchedCmds)[cmd.id := cmd]
    {
      cmds := cmds[cmd.id := cmd];
      dispatchedCmds := dispatchedCmds[cmd.id := cmd];
    }

    /** Commands are filed under their own id, so the pending list holds no object twice. */
    ghost predicate Filed()
      reads this, cmds.Values
    {
      forall id :: id in cmds ==> cmds[id].id == id
    }

    /** The sweep of a poll that was signalled: hand out every pending command and mark it as handed out. */
    method TakePending() returns (batch: seq<Cmd>)
      requires Filed()
      modifies cmds.Values`pending
      ensures forall id :: id in cmds ==> !cmds[id].pending
      ensures forall cmd :: cmd in batch <==> cmd in cmds.Values && old(cmd.pending)
      ensures forall i, j :: 0 <= i < j < |batch| ==> batch[i] != batch[j]
    {
      batch := [];
      var left := cmds.Keys;
      while left != {}
        invariant left <= cmds.Keys
        invariant forall id :: id in left ==> cmds[id].pending == old(cmds[id].pending)
        invariant forall id :: id in cmds && id !in left ==> !cmds[id].pending
        invariant forall cmd :: cmd in batch ==> cmd in cmds.Values && old(cmd.pending) && cmd.id !in left
        invariant forall id :: id in cmds && id !in left && old(cmds[id].pending) ==> cmds[id] in batch
        invariant forall i, j :: 0 <= i < j < |batch| ==> batch[i] != batch[j]
        decreases left
      {
        var id :| id in left;
        var cmd := cmds[id];
        if cmd.pending {
          batch := batch + [cmd];
          cmd.pending := false;
        }
        left := left - {id};
      }
    }

    ghost predicate Young(id: string, now: int)
      requires id in dispatchedCmds
      reads this
    {
      dispatchedCmds[id].created >= now - MAX_COMMAND_AGE
    }

    /** The dispatched commands that are not too old; the others are dropped from the list. */
    method GetDispatchedCmds(now: int) returns (young: map<string, Cmd>)
      modifies this`dispatchedCmds
      ensures young == dispatchedCmds
      ensures dispatchedCmds == map id | id in old(dispatchedCmds)
                                         && old(dispatchedCmds)[id].created >= now - 14 * 86400
                                  :: old(dispatchedCmds)[id]
    {
      var maxAge := now - MAX_COMMAND_AGE;
      var dirty := false;
      young := map[];
      var left := dispatchedCmds.Keys;
      while left != {}
        invariant left <= dispatchedCmds.Keys
        invariant young == map id | id in dispatchedCmds && id !in left && Young(id, now) :: dispatchedCmds[id]
        invariant dirty <==> exists id :: id in dispatchedCmds && id !in left && !Young(id, now)
        decreases left
      {
        var id :| id in left;
        if dispatchedCmds[id].created >= maxAge {
          young := young[id := dispatchedCmds[id]];
        } else {
          dirty := true;
          assert !Young(id, now);
        }
        left := left - {id};
      }
      if dirty {
        dispatchedCmds := young;
      } else {
        assert young == dispatchedCmds;
      }
    }
  }

  class Server {
    var clients: map<string, RegisteredClient>
    var tags: set<string>

    constructor ()
      ensures clients == map[] && tags == {}
    {
      clients, tags := map[], {};
    }

    /** Every dispatched command of every registered client. */
    ghost function Dispatched(): set<Cmd>
      reads this, clients.Values
    {
      set c, id | c in clients && id in clients[c].dispatchedCmds :: clients[c].dispatchedCmds[id]
    }

    /** Tags are only ever added. */
    method RegisterClient(clientId: string, tags: seq<string>, now: int)
      modifies this`clients, this`tags, (if clientId in clients then {clients[clientId]} else {})
      ensures clientId in clients && clients[clientId].lastPing == now && clients[clientId].tags == tags
      ensures forall tag :: tag in this.tags <==> tag in old(this.tags) || tag in tags
      ensures clients == old(clients)[clientId := clients[clientId]]
      ensures clientId in old(clients) ==>
                clients[clientId] == old(clients[clientId])
                && clients[clientId].dispatchedCmds == old(clients[clientId].dispatchedCmds)
                && clients[clientId].cmds == old(clients[clientId].cmds)
                && clients[clientId].authToken == old(clients[clientId].authToken)
      ensures clientId !in old(clients) ==>
                fresh(clients[clientId]) && clients[clientId].dispatchedCmds == map[] && clients[clientId].cmds == map[]
                && clients[clientId].clientId == clientId && clients[clientId].authToken == ""
    {
      if clientId !in clients {
        var client := new RegisteredClient(clientId);
        clients := clients[clientId := client];
      }
      clients[clientId].lastPing := now;
      clients[clientId].tags := tags;
      for i := 0 to |tags|
        modifies this`tags
        invariant forall tag :: tag in this.tags <==> tag in old(this.tags) || tag in tags[..i]
      {
        this.tags := this.tags + {tags[i]};
      }
    }

    /** Later commands for the client are signed with the new token. */
    method AuthClient(clientId: string, token: string) returns (found: bool)
      modifies (if clientId in clients then {clients[clientId]} else {})`authToken
      ensures found <==> clientId in clients
      ensures found ==> clients[clientId].authToken == token
    {
      found := clientId in clients;
      if found {
        clients[clientId].authToken := token;
      }
    }

    method CleanupClients(now: int)
      modifies this`clients
      ensures clients == map c | c in old(clients) && now - old(clients)[c].lastPing <= 300 :: old(clients)[c]
    {
      var left := clients.Keys;
      while left != {}
        invariant left <= clients.Keys <= old(clients).Keys
        invariant clients == map c | c in old(clients)
                               && (c in left || now - old(clients)[c].lastPing <= CLIENT_PING_INTERVAL * 5)
                               :: old(clients)[c]
        decreases left
      {
        var c :| c in left;
        if now - clients[c].lastPing > CLIENT_PING_INTERVAL * 5 {
          clients := clients - {c};
        }
        left := left - {c};
      }
    }

    /** The command a client's message is about, if there is one. */
    ghost function Addressed(clientId: string, cmdId: string): set<Cmd>
      reads this, clients.Values
    {
      if clientId in clients && cmdId in clients[clientId].dispatchedCmds
      then {clients[clientId].dispatchedCmds[cmdId]} else {}
    }

    /** Only the addressed command changes; a message about an unknown client or command does nothing. */
    method PutClientCmdState(clientId: string, cmdId: string, message: Status, context: Context)
      returns (found: bool, next: bool)
      modifies Addressed(clientId, cmdId)
      ensures found <==> old(Addressed(clientId, cmdId)) != {}
      ensures !found ==> !next
      ensures found ==>
        var cmd := old(clients[clientId].dispatchedCmds[cmdId]);
        && cmd.state == Settle(old(cmd.state), message,
                               Judge(context.RulesOf(cmd.templateId), old(cmd.bufOutput), old(cmd.bufOutputErr)))
        && cmd.bufOutput == old(cmd.bufOutput) && cmd.bufOutputErr == old(cmd.bufOutputErr)
        && (next <==> TriggersValidation(old(cmd.state), message) && cmd.state == Finished
                      && cmd.consensusRequestId in context.active)
    {
      found, next := false, false;
      if clientId !in clients {
        return;
      }
      var client := clients[clientId];
      if cmdId !in client.dispatchedCmds {
        return;
      }
      found := true;
      next := client.dispatchedCmds[cmdId].SetState(message, context);
    }

    method PutClientCmdLogs(clientId: string, cmdId: string, output: seq<string>, errors: seq<string>)
      returns (found: bool)
      modifies Addressed(clientId, cmdId)
      ensures found <==> old(Addressed(clientId, cmdId)) != {}
      ensures found ==>
        var cmd := old(clients[clientId].dispatchedCmds[cmdId]);
        && cmd.bufOutput == old(cmd.bufOutput) + output
        && cmd.bufOutputErr == old(cmd.bufOutputErr) + errors
        && cmd.state == old(cmd.state)
    {
      found := clientId in clients && cmdId in clients[clientId].dispatchedCmds;
      if found {
        clients[clientId].dispatchedCmds[cmdId].ReceiveLogs(output, errors);
      }
    }

    /** The part of deleting a request that takes its commands off every registered client's list. */
    method DeleteCommands(request: string)
      modifies clients.Values
      ensures forall c :: c in clients.Values ==>
        c.dispatchedCmds == (map id | id in old(c.dispatchedCmds)
                               && old(c.dispatchedCmds)[id].consensusRequestId != request
                               :: old(c.dispatchedCmds)[id])
        && c.cmds == old(c.cmds)
    {
      var left := clients.Values;
      while left != {}
        invariant left <= clients.Values
        invariant forall c :: c in left ==> c.dispatchedCmds == old(c.dispatchedCmds)
        invariant forall c :: c in clients.Values ==> c.cmds == old(c.cmds)
        invariant forall c :: c in clients.Values && c !in left ==>
                    c.dispatchedCmds == map id | id in old(c.dispatchedCmds)
                                          && old(c.dispatchedCmds)[id].consensusRequestId != request
                                          :: old(c.dispatchedCmds)[id]
        decreases left
      {
        var client :| client in left;
        DeleteFrom(client, request);
        left := left - {client};
      }
    }

    static method DeleteFrom(client: RegisteredClient, request: string)
      modifies client`dispatchedCmds
      ensures client.dispatchedCmds == map id | id in old(client.dispatchedCmds)
                                         && old(client.dispatchedCmds)[id].consensusRequestId != request
                                         :: old(client.dispatchedCmds)[id]
    {
      var keys := client.dispatchedCmds.Keys;
      while keys != {}
        invariant keys <= client.dispatchedCmds.Keys <= old(client.dispatchedCmds).Keys
        invariant client.dispatchedCmds == map id | id in old(client.dispatchedCmds)
                    && (id in keys || old(client.dispatchedCmds)[id].consensusRequestId != request)
                    :: old(client.dispatchedCmds)[id]
        decreases keys
      {
        var id :| id in keys;
        if client.dispatchedCmds[id].consensusRequestId == request {
          client.dispatchedCmds := client.dispatchedCmds - {id};
        }
        keys := keys - {id};
      }
    }
  }

  datatype PendingClientCmd = PendingClientCmd(client: RegisteredClient, cmd: Cmd)

  class ExecutionCoordinatorEntry {
    const id: string
    const strategy: StrategyType
    var cmds: seq<PendingClientCmd>
    var iteration: nat
    ghost const assembled: seq<PendingClientCmd>
    ghost var launched: seq<PendingClientCmd>

    constructor (id: string, strategy: StrategyType, cmds: seq<PendingClientCmd>)
      ensures this.id == id && View() == Rollout.NewEntry(strategy, cmds) && Valid()
    {
      this.id, this.strategy, this.cmds, iteration := id, strategy, cmds, 0;
      assembled, launched := cmds, [];
      new;
      assert cmds == cmds + Rollout.Reverse<PendingClientCmd>([]);
    }

    ghost function View(): Rollout.Entry<PendingClientCmd>
      reads this
    {
      Rollout.Entry(strategy, iteration, cmds, assembled, launched)
    }

    /** Conservation: queued and launched commands are the assembled ones, and the strategy is kept to. */
    ghost predicate Valid()
      reads this
    {
      Rollout.Consistent(View())
    }

    predicate InBatch(cmd: Cmd)
      reads this
    {
      cmd.consensusRequestId == id && cmd.executionIterationId == iteration
    }

    ghost predicate BatchDone(server: Server)
      reads this, server, server.clients.Values, server.Dispatched()
    {
      forall cmd :: cmd in server.Dispatched() ==> InBatch(cmd) ==> cmd.state == Finished
    }

    /** The scan over all dispatched commands of all registered clients, left at the first unfinished one. */
    method ScanBatch(server: Server) returns (allFinished: bool)
      ensures allFinished <==> BatchDone(server)
    {
      allFinished := true;
      var clientsLeft := server.clients.Keys;
      while clientsLeft != {}
        invariant clientsLeft <= server.clients.Keys
        invariant allFinished
        invariant forall c, k :: c in server.clients && c !in clientsLeft && k in server.clients[c].dispatchedCmds ==>
                    var cmd := server.clients[c].dispatchedCmds[k]; InBatch(cmd) ==> cmd.state == Finished
        decreases clientsLeft
      {
        var c :| c in clientsLeft;
        var client := server.clients[c];
        var keys := client.dispatchedCmds.Keys;
        while keys != {}
          invariant keys <= client.dispatchedCmds.Keys
          invariant allFinished
          invariant forall k :: k in client.dispatchedCmds && k !in keys ==>
                      InBatch(client.dispatchedCmds[k]) ==> client.dispatchedCmds[k].state == Finished
          decreases keys
        {
          var k :| k in keys;
          var cmd := client.dispatchedCmds[k];
          if cmd.consensusRequestId == id && cmd.executionIterationId == iteration {
            if cmd.state != Finished {
              assert cmd in server.Dispatched();
              return false;
            }
          }
          keys := keys - {k};
        }
        clientsLeft := clientsLeft - {c};
      }
    }

    method CmdsToStart() returns (size: nat)
      requires cmds != []
      ensures size == BatchSize(strategy, iteration, |cmds|)
    {
      match strategy {
        case Simple => size := |cmds|;
        case OneTest =>
          if iteration == 0 {
            size := 1;
          } else {
            size := |cmds|;
          }
        case Rolling => size := 1;
        case ExponentialRolling =>
          size := Pow2(iteration);
          if size > |cmds| {
            size := |cmds|;
          }
      }
    }

    /** One call of Next. `turn` tells what it did: nothing, trigger the callbacks, or spawn launches, in
        spawning order. */
    method Next(server: Server) returns (turn: Rollout.Turn<PendingClientCmd>)
      requires Valid()
      modifies this`cmds, this`iteration, this`launched
      ensures turn == Rollout.TakeTurn(old(View()), old(BatchDone(server)))
      ensures View() == Rollout.AfterTurn(old(View()), turn)
      ensures Valid()
    {
      ghost var before := View();
      ghost var done := BatchDone(server);
      Rollout.TurnKeepsConsistent(before, done);
      var allFinished := ScanBatch(server);
      if |cmds| == 0 {
        turn := if allFinished then Rollout.Drained else Rollout.Idle;
        return;
      }
      if !allFinished {
        turn := Rollout.Idle;
        return;
      }
      var cmdsToStart := CmdsToStart();
      var started := LaunchLoop(cmdsToStart);
      iteration := iteration + 1;
      turn := Rollout.Batch(started);
    }

    /** The launch loop: spawn for the last command of the queue and take it off. */
    method LaunchLoop(cmdsToStart: nat) returns (started: seq<PendingClientCmd>)
      requires cmdsToStart <= |cmds|
      modifies this`cmds, this`launched
      ensures started == Rollout.Reverse(old(cmds)[|old(cmds)| - cmdsToStart..])
      ensures cmds == old(cmds)[..|old(cmds)| - cmdsToStart]
      ensures launched == old(launched) + started
    {
      started := [];
      for i := 0 to cmdsToStart
        invariant cmds == old(cmds)[..|old(cmds)| - i]
        invariant started == Rollout.Reverse(old(cmds)[|old(cmds)| - i..])
        invariant launched == old(launched) + started
      {
        var cmd := cmds[|cmds| - 1];
        started := started + [cmd];
        launched := launched + [cmd];
        cmds := cmds[..|cmds| - 1];
      }
    }

    /** The body of a launch goroutine: submit a copy that carries the iteration number it reads. */
    method Launch(pending: PendingClientCmd)
      modifies pending.client`cmds, pending.client`dispatchedCmds
      ensures pending.cmd.id in pending.client.dispatchedCmds
      ensures var copy := pending.client.dispatchedCmds[pending.cmd.id];
        && fresh(copy)
        && copy.id == pending.cmd.id && copy.command == pending.cmd.command && copy.timeout == pending.cmd.timeout
        && copy.clientId == pending.cmd.clientId && copy.templateId == pending.cmd.templateId
        && copy.consensusRequestId == pending.cmd.consensusRequestId
        && copy.requestUserId == pending.cmd.requestUserId
        && copy.signature == pending.cmd.signature && copy.created == pending.cmd.created
        && copy.executionIterationId == iteration
        && copy.pending && copy.state == Pending && copy.bufOutput == [] && copy.bufOutputErr == []
        && pending.client.dispatchedCmds == old(pending.client.dispatchedCmds)[copy.id := copy]
        && pending.client.cmds == old(pending.client.cmds)[copy.id := copy]
    {
      var cmd := pending.cmd;
      var copy := new Cmd(cmd.id, cmd.command, cmd.timeout, cmd.clientId, cmd.templateId, cmd.consensusRequestId,
                          cmd.requestUserId, cmd.signature, cmd.created, iteration);
      pending.client.Submit(copy);
    }
  }

  class ExecutionCoordinator {
    var active: map<string, ExecutionCoordinatorEntry>

    constructor ()
      ensures active == map[]
    {
      active := map[];
    }

    method Add(request: string, strategy: StrategyType, cmds: seq<PendingClientCmd>)
      modifies this`active
      ensures request in active && active == old(active)[request := active[request]]
      ensures fresh(active[request]) && active[request].id == request
      ensures active[request].View() == Rollout.NewEntry(strategy, cmds) && active[request].Valid()
    {
      var entry := new ExecutionCoordinatorEntry(request, strategy, cmds);
      active := active[request := entry];
    }
  }

  /** The parts of a template that its commands are made of. */
  datatype Template = Template(id: string, command: string, timeout: int)

  /** What is the same for all commands of a request. */
  datatype Order = Order(request: string, requester: string, template: Template)

  /** The command carries out the order on the client: the template's command and timeout, under the template's id,
      for that client, and signed under the token the client had when it was assembled. */
  ghost predicate CarriesOut(cmd: Cmd, order: Order, clientId: string, token: string, mac: Mac, now: int) {
    && cmd.consensusRequestId == order.request && cmd.requestUserId == order.requester
    && cmd.templateId == order.template.id && cmd.command == order.template.command
    && cmd.timeout == (if order.template.timeout < 1 then 300 else order.template.timeout)
    && cmd.clientId == clientId && cmd.created == now
    && cmd.signature == mac(token, order.template.command, cmd.id)
  }

  ghost predicate AllCarryOut(cmds: seq<PendingClientCmd>, order: Order, mac: Mac, now: int)
    reads set p | p in cmds :: p.client
  {
    forall p :: p in cmds ==> CarriesOut(p.cmd, order, p.client.clientId, p.client.authToken, mac, now)
  }

  /** From order to verdict: a command that was assembled for a client is accepted by that client as long as both hold
      one token, and what it sends leaves the server with `finished` exactly if the script exited zero and its output
      holds to the rules. */
  method RunAtItsClient(cmd: Cmd, order: Order, token: string, mac: Mac, now: int, outcome: Outcome, stdout: string,
                        stderr: string, context: Context, rules: seq<Rule>)
    requires CarriesOut(cmd, order, cmd.clientId, token, mac, now) && mac(token, order.template.command, cmd.id) != ""
    requires cmd.sent == [] && cmd.bufOutput == [] && cmd.bufOutputErr == []
    modifies cmd
    ensures EmittedBy(cmd.sent, outcome, stdout, stderr)
    ensures Deliver(cmd.sent, Some(rules)).status == Finished <==>
            outcome == Exited(None)
            && forall rule :: rule in rules ==>
                 ('\n' !in rule.text && Contains(if rule.outputStream == 1 then stdout else stderr, rule.text))
                 == rule.mustContain
  {
    var _ := cmd.Execute(Some(token), mac, outcome, stdout, stderr, context);
    ExecutionVerdict(cmd.sent, outcome, stdout, stderr, Some(rules));
  }

  /** One signed command per listed client that is registered, in listing order. */
  method AssembleCmds(server: Server, order: Order, targets: seq<Rollout.Target>, mac: Mac, now: int)
    returns (clientCmds: seq<PendingClientCmd>)
    ensures IdsOf(clientCmds) == Assembled(server, targets)
    ensures forall p :: p in clientCmds ==>
              && fresh(p.cmd) && p.client in server.clients.Values
              && p.cmd.consensusRequestId == order.request && p.cmd.requestUserId == order.requester
              && p.cmd.templateId == order.template.id && p.cmd.command == order.template.command
              && p.cmd.timeout == (if order.template.timeout < 1 then 300 else order.template.timeout)
              && p.cmd.clientId == p.client.clientId && p.cmd.created == now
              && p.cmd.signature == mac(p.client.authToken, order.template.command, p.cmd.id)
  {
    clientCmds := [];
    for i := 0 to |targets|
      invariant IdsOf(clientCmds) == Assembled(server, targets[..i])
      invariant forall p :: p in clientCmds ==>
                  fresh(p.cmd) && p.client in server.clients.Values
                  && CarriesOut(p.cmd, order, p.client.clientId, p.client.authToken, mac, now)
    {
      assert targets[..i + 1][..i] == targets[..i];
      if targets[i].client in server.clients {
        var client := server.clients[targets[i].client];
        var timeout := order.template.timeout;
        if timeout < 1 {
          timeout := DEFAULT_COMMAND_TIMEOUT;
        }
        var signature := mac(client.authToken, order.template.command, targets[i].cmd);
        var cmd := new Cmd(targets[i].cmd, order.template.command, timeout, client.clientId, order.template.id,
                           order.request, order.requester, signature, now, 0);
        clientCmds := clientCmds + [PendingClientCmd(client, cmd)];
      }
    }
    assert targets[..|targets|] == targets;
  }

  /** Every command of this request and iteration on a registered client is finished. */
  ghost predicate IterationFinished(server: Server, request: string, iteration: nat)
    reads server, server.clients.Values, server.Dispatched()
  {
    forall cmd :: cmd in server.Dispatched() ==>
      cmd.consensusRequestId == request && cmd.executionIterationId == iteration ==> cmd.state == Finished
  }

  /** Assemble the commands of a request and register its entry. */
  method Enlist(coordinator: ExecutionCoordinator, server: Server, order: Order, strategy: StrategyType,
                targets: seq<Rollout.Target>, mac: Mac, now: int)
    modifies coordinator`active
    ensures order.request in coordinator.active && fresh(coordinator.active[order.request])
    ensures coordinator.active == old(coordinator.active)[order.request := coordinator.active[order.request]]
    ensures var entry := coordinator.active[order.request];
      && entry.id == order.request && entry.Valid() && IdsOf(entry.assembled) == Assembled(server, targets)
      && entry.View() == Rollout.NewEntry(strategy, entry.assembled)
      && AllCarryOut(entry.assembled, order, mac, now)
  {
    var clientCmds := AssembleCmds(server, order, targets, mac, now);
    hide Rollout.Consistent, IdsOf, Assembled;
    coordinator.Add(order.request, strategy, clientCmds);
  }

  /** Assemble the commands of a request, register its entry and call Next once. */
  method ExecuteStrategy(coordinator: ExecutionCoordinator, server: Server, order: Order, strategy: StrategyType,
                         targets: seq<Rollout.Target>, mac: Mac, now: int)
    returns (turn: Rollout.Turn<PendingClientCmd>)
    modifies coordinator`active
    ensures order.request in coordinator.active && fresh(coordinator.active[order.request])
    ensures coordinator.active == old(coordinator.active)[order.request := coordinator.active[order.request]]
    ensures var entry := coordinator.active[order.request];
      var started := Rollout.NewEntry(strategy, entry.assembled);
      && entry.id == order.request && entry.Valid() && IdsOf(entry.assembled) == Assembled(server, targets)
      && turn == Rollout.TakeTurn(started, IterationFinished(server, order.request, 0))
      && entry.View() == Rollout.AfterTurn(started, turn)
      && AllCarryOut(entry.assembled, order, mac, now)
  {
    Enlist(coordinator, server, order, strategy, targets, mac, now);
    hide AllCarryOut, Rollout.Consistent, IdsOf, Assembled;
    turn := coordinator.active[order.request].Next(server);
  }

  ghost function IdsOf(cmds: seq<PendingClientCmd>): seq<(RegisteredClient, string)> {
    seq(|cmds|, i requires 0 <= i < |cmds| => (cmds[i].client, cmds[i].cmd.id))
  }

  /** The client object and command id of every listed client that is registered, in order. */
  ghost function Assembled(server: Server, targets: seq<Rollout.Target>): seq<(RegisteredClient, string)>
    reads server
  {
    if targets == [] then []
    else
      var before, last := Assembled(server, targets[..|targets| - 1]), targets[|targets| - 1];
      if last.client in server.clients then before + [(server.clients[last.client], last.cmd)] else before
  }

  // ---------- the objects and the state machine ----------

  ghost predicate Shows(cmd: Cmd, d: Rollout.Dispatched, host: Rollout.Ref)
    reads cmd
  {
    d.host == host && d.request == cmd.consensusRequestId
    && d.tag == cmd.executionIterationId && d.status == cmd.state
  }

  /** The registered clients and their dispatched commands are those of the state machine; `handle` names the
      client objects. */
  ghost predicate Represents(server: Server, w: Rollout.World, handle: map<RegisteredClient, Rollout.Ref>)
    reads server, server.clients.Values, server.Dispatched()
  {
    && (forall c :: c in server.clients ==>
          c in w.registered && server.clients[c] in handle && w.registered[c] == handle[server.clients[c]])
    && (forall c :: c in w.registered ==> c in server.clients)
    && (forall c, k :: c in server.clients && k in server.clients[c].dispatchedCmds ==>
          k in w.dispatched && Shows(server.clients[c].dispatchedCmds[k], w.dispatched[k], w.registered[c]))
    && (forall k :: k in w.dispatched && Rollout.OnRegistered(w, w.dispatched[k].host) ==>
          exists c :: c in server.clients && w.registered[c] == w.dispatched[k].host
                      && k in server.clients[c].dispatchedCmds)
  }

  /** The nested scan over client objects decides what the state machine's scan decides. */
  lemma ScanAgrees(server: Server, w: Rollout.World, handle: map<RegisteredClient, Rollout.Ref>, request: string,
                   iteration: nat)
    requires Represents(server, w, handle)
    ensures IterationFinished(server, request, iteration) <==> Rollout.BatchDone(w, request, iteration)
  {
    if IterationFinished(server, request, iteration) {
      forall k | k in w.dispatched && Rollout.Scanned(w, w.dispatched[k], request, iteration)
        ensures w.dispatched[k].status == Finished
      {
        var c :| c in server.clients && w.registered[c] == w.dispatched[k].host
                 && k in server.clients[c].dispatchedCmds;
        assert server.clients[c].dispatchedCmds[k] in server.Dispatched();
      }
    }
    if Rollout.BatchDone(w, request, iteration) {
      forall cmd | cmd in server.Dispatched() && cmd.consensusRequestId == request
                   && cmd.executionIterationId == iteration
        ensures cmd.state == Finished
      {
        var c, k :| c in server.clients && k in server.clients[c].dispatchedCmds
                    && server.clients[c].dispatchedCmds[k] == cmd;
        assert Rollout.Scanned(w, w.dispatched[k], request, iteration);
      }
    }
  }

  ghost predicate AllNamed(cmds: seq<PendingClientCmd>, handle: map<RegisteredClient, Rollout.Ref>) {
    forall p :: p in cmds ==> p.client in handle
  }

  ghost function Jobs(cmds: seq<PendingClientCmd>, handle: map<RegisteredClient, Rollout.Ref>): seq<Rollout.Job>
    requires AllNamed(cmds, handle)
  {
    seq(|cmds|, i requires 0 <= i < |cmds| => Rollout.Job(cmds[i].cmd.id, handle[cmds[i].client]))
  }

  ghost predicate Handled(e: Rollout.Entry<PendingClientCmd>, handle: map<RegisteredClient, Rollout.Ref>) {
    AllNamed(e.queue, handle) && AllNamed(e.assembled, handle) && AllNamed(e.launched, handle)
  }

  ghost function Abstract(e: Rollout.Entry<PendingClientCmd>, handle: map<RegisteredClient, Rollout.Ref>)
    : Rollout.Entry<Rollout.Job>
    requires Handled(e, handle)
  {
    Rollout.Entry(e.strategy, e.iteration, Jobs(e.queue, handle), Jobs(e.assembled, handle), Jobs(e.launched, handle))
  }

  /** Taking a turn commutes with naming client objects by handles. */
  lemma TurnCommutes(e: Rollout.Entry<PendingClientCmd>, done: bool, handle: map<RegisteredClient, Rollout.Ref>)
    requires Handled(e, handle)
    ensures var turn := Rollout.TakeTurn(e, done); var after := Rollout.AfterTurn(e, turn);
      var abstractTurn := Rollout.TakeTurn(Abstract(e, handle), done);
      && Handled(after, handle)
      && abstractTurn.Batch? == turn.Batch? && abstractTurn.Drained? == turn.Drained?
      && (turn.Batch? ==> AllNamed(turn.jobs, handle) && abstractTurn.jobs == Jobs(turn.jobs, handle))
      && Rollout.AfterTurn(Abstract(e, handle), abstractTurn) == Abstract(after, handle)
  {
    var turn := Rollout.TakeTurn(e, done);
    if turn.Batch? {
      var size := BatchSize(e.strategy, e.iteration, |e.queue|);
      var cut := |e.queue| - size;
      assert forall p :: p in turn.jobs ==> p in e.queue;
      assert Jobs(e.queue, handle)[..cut] == Jobs(e.queue[..cut], handle);
      assert Rollout.Reverse(Jobs(e.queue, handle)[cut..]) == Jobs(turn.jobs, handle);
      assert Jobs(e.launched + turn.jobs, handle) == Jobs(e.launched, handle) + Jobs(turn.jobs, handle);
    }
  }

  /** What a turn on the objects spawns or triggers is what the state machine spawns or triggers: the goroutines of
      the batch, the callbacks, or the panic of callbacks without a request. */
  ghost predicate SpawnedAlike(turn: Rollout.Turn<PendingClientCmd>, w: Rollout.World, w': Rollout.World,
                               request: string, batch: nat, early: set<string>,
                               handle: map<RegisteredClient, Rollout.Ref>)
  {
    && w'.wakeups == w.wakeups
    && match turn
       case Idle => w'.inflight == w.inflight && w'.callbacks == w.callbacks && w'.crashed == w.crashed
       case Drained =>
         && w'.inflight == w.inflight
         && w'.callbacks == (if request in w.stored then w.callbacks + multiset{request} else w.callbacks)
         && w'.crashed == (w.crashed || request !in w.stored)
       case Batch(cmds) =>
         && AllNamed(cmds, handle)
         && w'.inflight == Rollout.Spawn(w.inflight, Jobs(cmds, handle), request, batch, early)
         && w'.callbacks == w.callbacks && w'.crashed == w.crashed
  }

  /** Next on the objects is the state machine's Next: the entry it leaves behind is the entry the state machine
      reaches, and it spawns the same. */
  lemma NextRefines(entry: ExecutionCoordinatorEntry, server: Server, w: Rollout.World,
                    handle: map<RegisteredClient, Rollout.Ref>, early: set<string>)
    requires Represents(server, w, handle) && Handled(entry.View(), handle)
    requires entry.id in w.entries && w.entries[entry.id] == Abstract(entry.View(), handle)
    ensures var turn := Rollout.TakeTurn(entry.View(), entry.BatchDone(server));
      var after := Rollout.AfterTurn(entry.View(), turn);
      && Handled(after, handle)
      && Rollout.RunNext(w, entry.id, early).entries == w.entries[entry.id := Abstract(after, handle)]
      && SpawnedAlike(turn, w, Rollout.RunNext(w, entry.id, early), entry.id, after.iteration, early, handle)
  {
    ScanAgrees(server, w, handle, entry.id, entry.iteration);
    assert entry.BatchDone(server) == IterationFinished(server, entry.id, entry.iteration);
    hide Represents, Handled, Abstract, Rollout.BatchDone, Rollout.TakeTurn, Rollout.AfterTurn, Rollout.RunNext,
      SpawnedAlike;
    AbstractNext(w, entry.id, entry.View(), entry.BatchDone(server), handle, early);
  }

  lemma AbstractNext(w: Rollout.World, id: string, e: Rollout.Entry<PendingClientCmd>, done: bool,
                     handle: map<RegisteredClient, Rollout.Ref>, early: set<string>)
    requires Handled(e, handle) && id in w.entries && w.entries[id] == Abstract(e, handle)
    requires Rollout.BatchDone(w, id, e.iteration) == done
    ensures var turn := Rollout.TakeTurn(e, done); var after := Rollout.AfterTurn(e, turn);
      && Handled(after, handle)
      && Rollout.RunNext(w, id, early).entries == w.entries[id := Abstract(after, handle)]
      && SpawnedAlike(turn, w, Rollout.RunNext(w, id, early), id, after.iteration, early, handle)
  {
    TurnCommutes(e, done, handle);
    Rollout.NextEntries(w, id, early);
    AbstractSpawns(w, id, e, done, handle, early);
    assert Abstract(e, handle).iteration == e.iteration;
    hide *;
  }

  lemma AbstractSpawns(w: Rollout.World, id: string, e: Rollout.Entry<PendingClientCmd>, done: bool,
                       handle: map<RegisteredClient, Rollout.Ref>, early: set<string>)
    requires Handled(e, handle) && id in w.entries && w.entries[id] == Abstract(e, handle)
    requires Rollout.BatchDone(w, id, e.iteration) == done
    ensures var turn := Rollout.TakeTurn(e, done);
      SpawnedAlike(turn, w, Rollout.RunNext(w, id, early), id, Rollout.AfterTurn(e, turn).iteration, early, handle)
  {
    TurnCommutes(e, done, handle);
    var turn := Rollout.TakeTurn(e, done);
    var after := Rollout.AfterTurn(e, turn);
    assert Abstract(e, handle).iteration == e.iteration && Abstract(after, handle).iteration == after.iteration;
    hide Rollout.TakeTurn, Rollout.AfterTurn, Rollout.BatchDone, Rollout.Spawn, Rollout.RunNext, Abstract, Handled,
      AllNamed, Jobs;
    NextSpawns(w, id, early);
  }

  lemma NextSpawns(w: Rollout.World, id: string, early: set<string>)
    requires id in w.entries
    ensures var e, w' := w.entries[id], Rollout.RunNext(w, id, early);
      var turn := Rollout.TakeTurn(e, Rollout.BatchDone(w, id, e.iteration));
      && w'.wakeups == w.wakeups
      && match turn
         case Idle => w'.inflight == w.inflight && w'.callbacks == w.callbacks && w'.crashed == w.crashed
         case Drained =>
           && w'.inflight == w.inflight
           && w'.callbacks == (if id in w.stored then w.callbacks + multiset{id} else w.callbacks)
           && w'.crashed == (w.crashed || id !in w.stored)
         case Batch(jobs) =>
           && w'.inflight == Rollout.Spawn(w.inflight, jobs, id, Rollout.AfterTurn(e, turn).iteration, early)
           && w'.callbacks == w.callbacks && w'.crashed == w.crashed
  {
    hide Rollout.TakeTurn, Rollout.AfterTurn, Rollout.BatchDone, Rollout.Spawn;
    var e := w.entries[id];
    match Rollout.TakeTurn(e, Rollout.BatchDone(w, id, e.iteration))
    case Idle =>
    case Drained =>
    case Batch(_) =>
  }
}
