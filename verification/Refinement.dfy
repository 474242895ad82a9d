/** Every method of the server's objects takes the step of the rollout state machine that it stands for. */
module Refinement {
  import opened Wrappers
  import opened Strategy
  import opened Commands
  import opened Coordinator
  import Rollout

  // ---------- what the objects show ----------

  /** A dispatched command as the server sees it. */
  datatype Seen = Seen(id: string, request: string, template: string, tag: nat, status: Status)

  datatype Seat = Seat(client: RegisteredClient, cmds: map<string, Seen>)

  type Picture = map<string, Seat>

  ghost function Look(cmd: Cmd): Seen
    reads cmd
  {
    Seen(cmd.id, cmd.consensusRequestId, cmd.templateId, cmd.executionIterationId, cmd.state)
  }

  /** The seat shows a client object and its list. */
  ghost predicate Drawn(client: RegisteredClient, seat: Seat)
    reads client, client.dispatchedCmds.Values
  {
    && seat.client == client && seat.cmds.Keys == client.dispatchedCmds.Keys
    && forall k :: k in seat.cmds ==> seat.cmds[k] == Look(client.dispatchedCmds[k])
  }

  /** The picture shows the registered clients and their dispatched commands. */
  ghost predicate Pictured(server: Server, p: Picture)
    reads server, server.clients.Values, server.Dispatched()
  {
    p.Keys == server.clients.Keys && forall c :: c in p ==> InPicture(server, p, c)
  }

  ghost predicate InPicture(server: Server, p: Picture, c: string)
    requires c in p && c in server.clients
    reads server, server.clients.Values, server.Dispatched()
  {
    assert forall k :: k in server.clients[c].dispatchedCmds ==>
      server.clients[c].dispatchedCmds[k] in server.Dispatched();
    Drawn(server.clients[c], p[c])
  }

  type Handles = map<RegisteredClient, Rollout.Ref>

  ghost predicate SeatsNamed(p: Picture, w: Rollout.World, handle: Handles) {
    && p.Keys == w.registered.Keys
    && (forall c :: c in p ==> p[c].client in handle && w.registered[c] == handle[p[c].client])
    && (forall c, d :: c in p && d in p && p[c].client == p[d].client ==> c == d)
    && (forall a, b :: a in handle && b in handle && handle[a] == handle[b] ==> a == b)
  }

  /** Every command on a list is where the state machine has it. */
  ghost predicate ListsKnown(p: Picture, w: Rollout.World) {
    forall c, k :: c in p && k in p[c].cmds ==> Known(p, w, c, k)
  }

  ghost predicate Known(p: Picture, w: Rollout.World, c: string, k: string)
    requires c in p && k in p[c].cmds
  {
    var s := p[c].cmds[k];
    && c in w.registered && s.id == k && k in w.dispatched
    && w.dispatched[k].host == w.registered[c] && w.dispatched[k].request == s.request
    && w.dispatched[k].tag == s.tag && w.dispatched[k].status == s.status
  }

  ghost predicate IsListed(p: Picture, w: Rollout.World, host: Rollout.Ref, k: string) {
    exists c :: c in p && c in w.registered && w.registered[c] == host && k in p[c].cmds
  }

  /** And every command that the state machine has on a registered client is on that client's list. */
  ghost predicate ListsComplete(p: Picture, w: Rollout.World) {
    forall k :: k in w.dispatched && Rollout.OnRegistered(w, w.dispatched[k].host) ==>
      IsListed(p, w, w.dispatched[k].host, k)
  }

  ghost predicate Tied(p: Picture, w: Rollout.World, handle: Handles) {
    SeatsNamed(p, w, handle) && ListsKnown(p, w) && ListsComplete(p, w)
  }

  /** What is tied represents the state machine's world, as far as the scan of Next can tell. */
  lemma TiedRepresents(server: Server, p: Picture, w: Rollout.World, handle: Handles)
    requires Pictured(server, p) && Tied(p, w, handle)
    ensures Represents(server, w, handle)
  {
    forall c, k | c in server.clients && k in server.clients[c].dispatchedCmds
      ensures k in w.dispatched && Shows(server.clients[c].dispatchedCmds[k], w.dispatched[k], w.registered[c])
    {
      assert InPicture(server, p, c) && Known(p, w, c, k);
    }
    forall k | k in w.dispatched && Rollout.OnRegistered(w, w.dispatched[k].host)
      ensures exists c :: c in server.clients && w.registered[c] == w.dispatched[k].host
                          && k in server.clients[c].dispatchedCmds
    {
      assert IsListed(p, w, w.dispatched[k].host, k);
    }
  }

  // ---------- templates ----------

  /** Every command on a list is of its request's template; a request names one template for good. */
  ghost predicate Templated(p: Picture, templateOf: string -> string) {
    forall c, k :: c in p && k in p[c].cmds ==> p[c].cmds[k].template == templateOf(p[c].cmds[k].request)
  }

  /** And so is every command that an entry was given. */
  ghost predicate EntryTemplated(entry: ExecutionCoordinatorEntry, templateOf: string -> string) {
    forall q :: q in entry.assembled ==>
      q.cmd.consensusRequestId == entry.id && q.cmd.templateId == templateOf(entry.id)
  }

  /** Status messages, cancels, purges and cleanups leave the templates of the listed commands alone, and a new client
      has none. */
  lemma ListsStayTemplated(p: Picture, templateOf: string -> string, request: string, client: string,
                           gone: set<string>, arrival: RegisteredClient)
    requires Templated(p, templateOf)
    ensures Templated(Others(p, request), templateOf)
    ensures Templated(Without(p, client, gone), templateOf)
    ensures Templated(p - gone, templateOf)
    ensures Templated(p[client := Seat(arrival, map[])], templateOf)
  {
  }

  lemma RestatedStaysTemplated(p: Picture, templateOf: string -> string, client: string, cmd: string, status: Status)
    requires Templated(p, templateOf) && client in p && cmd in p[client].cmds
    ensures Templated(Restated(p, client, cmd, status), templateOf)
  {
  }

  // ---------- status messages ----------

  function Restated(p: Picture, client: string, cmd: string, status: Status): Picture
    requires client in p && cmd in p[client].cmds
  {
    var seat := p[client];
    p[client := seat.(cmds := seat.cmds[cmd := seat.cmds[cmd].(status := status)])]
  }

  lemma Addressed(p: Picture, w: Rollout.World, handle: Handles, client: string, cmd: string)
    requires Tied(p, w, handle)
    ensures Rollout.Reaches(w, client, cmd) <==> client in p && cmd in p[client].cmds
  {
    if Rollout.Reaches(w, client, cmd) {
      assert Rollout.OnRegistered(w, w.dispatched[cmd].host);
      assert IsListed(p, w, w.dispatched[cmd].host, cmd);
    }
  }

  /** A command is on one list only. */
  lemma OneListEach(p: Picture, w: Rollout.World, handle: Handles, c: string, d: string, k: string)
    requires SeatsNamed(p, w, handle) && ListsKnown(p, w)
    requires c in p && d in p && k in p[c].cmds && k in p[d].cmds
    ensures c == d
  {
    assert w.dispatched[k].host == w.registered[c];
    assert w.dispatched[k].host == w.registered[d];
  }

  lemma StatusKeepsKnown(p: Picture, w: Rollout.World, client: string, cmd: string, status: Status)
    requires ListsKnown(p, w) && client in p && cmd in p[client].cmds && cmd in w.dispatched
    requires forall c :: c in p && cmd in p[c].cmds ==> c == client
    ensures ListsKnown(Restated(p, client, cmd, status),
                       w.(dispatched := w.dispatched[cmd := w.dispatched[cmd].(status := status)]))
  {
    var p' := Restated(p, client, cmd, status);
    var w' := w.(dispatched := w.dispatched[cmd := w.dispatched[cmd].(status := status)]);
    forall c, k | c in p' && k in p'[c].cmds ensures Known(p', w', c, k) {
      assert k in p[c].cmds && Known(p, w, c, k);
    }
  }

  lemma StatusKeepsComplete(p: Picture, w: Rollout.World, client: string, cmd: string, status: Status)
    requires ListsComplete(p, w) && client in p && cmd in p[client].cmds && cmd in w.dispatched
    ensures ListsComplete(Restated(p, client, cmd, status),
                          w.(dispatched := w.dispatched[cmd := w.dispatched[cmd].(status := status)]))
  {
    var w' := w.(dispatched := w.dispatched[cmd := w.dispatched[cmd].(status := status)]);
    forall k | k in w'.dispatched && Rollout.OnRegistered(w', w'.dispatched[k].host)
      ensures IsListed(Restated(p, client, cmd, status), w', w'.dispatched[k].host, k)
    {
      assert Rollout.OnRegistered(w, w.dispatched[k].host);
      assert IsListed(p, w, w.dispatched[k].host, k);
    }
  }

  lemma WakeupsKeepTied(p: Picture, w: Rollout.World, handle: Handles, wakeups: multiset<string>)
    requires Tied(p, w, handle)
    ensures Tied(p, w.(wakeups := wakeups), handle)
  {
    var w' := w.(wakeups := wakeups);
    forall k | k in w'.dispatched && Rollout.OnRegistered(w', w'.dispatched[k].host)
      ensures IsListed(p, w', w'.dispatched[k].host, k)
    {
      assert Rollout.OnRegistered(w, w.dispatched[k].host);
      assert IsListed(p, w, w.dispatched[k].host, k);
    }
  }

  lemma KnownAt(p: Picture, w: Rollout.World, handle: Handles, c: string, k: string)
    requires Tied(p, w, handle) && c in p && k in p[c].cmds
    ensures p[c].cmds[k].id == k && k in w.dispatched && w.dispatched[k].status == p[c].cmds[k].status
    ensures w.dispatched[k].request == p[c].cmds[k].request
    ensures forall d :: d in p && k in p[d].cmds ==> d == c
  {
    forall d | d in p && k in p[d].cmds ensures d == c {
      OneListEach(p, w, handle, c, d, k);
    }
    hide SeatsNamed, ListsComplete;
  }

  /** The picture and the world after a command's status changed on both sides. */
  lemma SettledTies(p: Picture, w: Rollout.World, handle: Handles, client: string, cmd: string, status: Status)
    requires Tied(p, w, handle) && client in p && cmd in p[client].cmds && cmd in w.dispatched
    requires forall d :: d in p && cmd in p[d].cmds ==> d == client
    ensures Tied(Restated(p, client, cmd, status),
                 w.(dispatched := w.dispatched[cmd := w.dispatched[cmd].(status := status)]), handle)
  {
    StatusKeepsKnown(p, w, client, cmd, status);
    StatusKeepsComplete(p, w, client, cmd, status);
    hide ListsKnown, ListsComplete;
  }

  lemma StatusTies(p: Picture, w: Rollout.World, handle: Handles, client: string, cmd: string, message: Status,
                   verdict: Verdict)
    requires Tied(p, w, handle) && client in p && cmd in p[client].cmds
    ensures cmd in w.dispatched && w.dispatched[cmd].status == p[client].cmds[cmd].status
    ensures Tied(Restated(p, client, cmd, Settle(p[client].cmds[cmd].status, message, verdict)),
                 Rollout.ReportStatus(w, cmd, message, verdict), handle)
  {
    hide Tied, Restated, Settle;
    var status := Settle(p[client].cmds[cmd].status, message, verdict);
    KnownAt(p, w, handle, client, cmd);
    SettledTies(p, w, handle, client, cmd, status);
    var w' := w.(dispatched := w.dispatched[cmd := w.dispatched[cmd].(status := status)]);
    WakeupsKeepTied(Restated(p, client, cmd, status), w', handle,
                    Rollout.ReportStatus(w, cmd, message, verdict).wakeups);
  }

  ghost predicate OnlyHere(server: Server, client: string, cmd: string)
    requires client in server.clients && cmd in server.clients[client].dispatchedCmds
    reads server, server.clients.Values
  {
    forall c, k :: c in server.clients && k in server.clients[c].dispatchedCmds && !(c == client && k == cmd) ==>
      server.clients[c].dispatchedCmds[k] != server.clients[client].dispatchedCmds[cmd]
  }

  lemma OneObjectPerPlace(server: Server, p: Picture, w: Rollout.World, handle: Handles, client: string, cmd: string)
    requires Pictured(server, p) && Tied(p, w, handle)
    requires client in server.clients && cmd in server.clients[client].dispatchedCmds
    ensures OnlyHere(server, client, cmd)
  {
    hide Tied;
    var target := server.clients[client].dispatchedCmds[cmd];
    assert InPicture(server, p, client);
    forall c, k | c in server.clients && k in server.clients[c].dispatchedCmds && !(c == client && k == cmd)
      ensures server.clients[c].dispatchedCmds[k] != target
    {
      assert InPicture(server, p, c);
      KnownAt(p, w, handle, c, k);
      KnownAt(p, w, handle, client, cmd);
    }
  }

  /** The verdict on a command's own output. */
  ghost function VerdictOn(cmd: Cmd, context: Context): Verdict
    reads cmd
  {
    Judge(context.RulesOf(cmd.templateId), cmd.bufOutput, cmd.bufOutputErr)
  }

  method PutState(server: Server, client: string, cmd: string, target: Cmd, message: Status, context: Context)
    returns (next: bool)
    requires client in server.clients && cmd in server.clients[client].dispatchedCmds
    requires server.clients[client].dispatchedCmds[cmd] == target
    modifies target
    ensures Look(target)
            == old(Look(target)).(status := Settle(old(target.state), message, old(VerdictOn(target, context))))
    ensures next <==> TriggersValidation(old(target.state), message) && target.state == Finished
                      && target.consensusRequestId in context.active
  {
    hide Settle, Judge, TriggersValidation;
    var found;
    found, next := server.PutClientCmdState(client, cmd, message, context);
  }

  /** What a status message does to the picture. */
  method SetStatus(server: Server, client: string, cmd: string, message: Status, context: Context, ghost p: Picture)
    returns (next: bool)
    requires Pictured(server, p) && client in p && cmd in p[client].cmds && OnlyHere(server, client, cmd)
    modifies server.clients[client].dispatchedCmds[cmd]
    ensures var target := server.clients[client].dispatchedCmds[cmd];
      var status := Settle(p[client].cmds[cmd].status, message, old(VerdictOn(target, context)));
      && Pictured(server, Restated(p, client, cmd, status))
      && (next <==> TriggersValidation(p[client].cmds[cmd].status, message) && status == Finished
                    && p[client].cmds[cmd].request in context.active)
  {
    var target, member := server.clients[client].dispatchedCmds[cmd], server.clients[client];
    OthersApart(server, p, client, cmd);
    RestApart(server, p, client, cmd);
    hide Settle, TriggersValidation, Pictured, OnlyHere, InPicture, VerdictOn;
    next := PutState(server, client, cmd, target, message, context);
    ghost var after := Restated(p, client, cmd, target.state);
    forall c | c in p && c != client ensures Drawn(server.clients[c], after[c]) {}
    hide Drawn, Restated;
    DrawnAgain(member, p[client], cmd, target);
    RestatedAt(p, client, cmd, target.state);
    PicturedBy(server, after);
  }

  lemma RestatedAt(p: Picture, client: string, cmd: string, status: Status)
    requires client in p && cmd in p[client].cmds
    ensures var seat := p[client];
      Restated(p, client, cmd, status)
      == p[client := seat.(cmds := seat.cmds[cmd := seat.cmds[cmd].(status := status)])]
  {
  }

  lemma RestApart(server: Server, p: Picture, client: string, cmd: string)
    requires Pictured(server, p) && client in p && cmd in p[client].cmds && OnlyHere(server, client, cmd)
    ensures client in server.clients && cmd in server.clients[client].dispatchedCmds
    ensures var member := server.clients[client];
      && p[client].client == member && p[client].cmds.Keys == member.dispatchedCmds.Keys
      && (forall k :: k in p[client].cmds ==> p[client].cmds[k] == Look(member.dispatchedCmds[k]))
      && (forall k :: k in member.dispatchedCmds && k != cmd ==> member.dispatchedCmds[k] != member.dispatchedCmds[cmd])
  {
    assert InPicture(server, p, client);
  }

  /** A seat shows its client again after the change of one command. */
  lemma DrawnAgain(member: RegisteredClient, seat: Seat, cmd: string, target: Cmd)
    requires seat.client == member && seat.cmds.Keys == member.dispatchedCmds.Keys
    requires cmd in seat.cmds && member.dispatchedCmds[cmd] == target
    requires forall k :: k in seat.cmds && k != cmd ==> seat.cmds[k] == Look(member.dispatchedCmds[k])
    requires Look(target) == seat.cmds[cmd].(status := target.state)
    ensures Drawn(member, seat.(cmds := seat.cmds[cmd := seat.cmds[cmd].(status := target.state)]))
  {
  }

  lemma PicturedBy(server: Server, p: Picture)
    requires p.Keys == server.clients.Keys && forall c :: c in p ==> Drawn(server.clients[c], p[c])
    ensures Pictured(server, p)
  {
    forall c | c in p ensures InPicture(server, p, c) {}
  }

  lemma OthersApart(server: Server, p: Picture, client: string, cmd: string)
    requires Pictured(server, p) && client in p && cmd in p[client].cmds && OnlyHere(server, client, cmd)
    ensures p.Keys == server.clients.Keys
    ensures forall c :: c in p && c != client ==>
              Drawn(server.clients[c], p[c])
              && server.clients[client].dispatchedCmds[cmd] !in server.clients[c].dispatchedCmds.Values
  {
    forall c | c in p ensures Drawn(server.clients[c], p[c]) {
      assert InPicture(server, p, c);
    }
  }

  lemma NextSpawnsAlike(w: Rollout.World, cmd: string, message: Status, verdict: Verdict)
    requires cmd in w.dispatched
    ensures var d := w.dispatched[cmd];
      Rollout.ReportStatus(w, cmd, message, verdict).wakeups != w.wakeups
      <==> TriggersValidation(d.status, message) && Settle(d.status, message, verdict) == Finished
           && d.request in w.entries
  {
    hide Settle, TriggersValidation;
    var d := w.dispatched[cmd];
    assert (w.wakeups + multiset{d.request})[d.request] == w.wakeups[d.request] + 1;
  }

  lemma ApplyReport(w: Rollout.World, client: string, cmd: string, message: Status, verdict: Verdict)
    ensures Rollout.Apply(w, Rollout.Report(client, cmd, message, verdict))
            == if Rollout.Reaches(w, client, cmd) then Rollout.ReportStatus(w, cmd, message, verdict) else w
  {
  }

  lemma ReportTies(p: Picture, w: Rollout.World, handle: Handles, client: string, cmd: string, message: Status,
                   verdict: Verdict)
    requires Tied(p, w, handle) && client in p && cmd in p[client].cmds
    ensures var w' := Rollout.Apply(w, Rollout.Report(client, cmd, message, verdict)); var s := p[client].cmds[cmd];
      && Tied(Restated(p, client, cmd, Settle(s.status, message, verdict)), w', handle)
      && (w'.wakeups != w.wakeups <==>
            TriggersValidation(s.status, message) && Settle(s.status, message, verdict) == Finished
            && s.request in w.entries)
  {
    Addressed(p, w, handle, client, cmd);
    KnownAt(p, w, handle, client, cmd);
    StatusTies(p, w, handle, client, cmd, message, verdict);
    NextSpawnsAlike(w, cmd, message, verdict);
    ApplyReport(w, client, cmd, message, verdict);
    hide *;
  }

  lemma ReportMisses(p: Picture, w: Rollout.World, handle: Handles, client: string, cmd: string, message: Status,
                     verdict: Verdict)
    requires Tied(p, w, handle) && !(client in p && cmd in p[client].cmds)
    ensures Rollout.Apply(w, Rollout.Report(client, cmd, message, verdict)) == w
  {
    Addressed(p, w, handle, client, cmd);
    ApplyReport(w, client, cmd, message, verdict);
    hide *;
  }

  lemma PictureKeys(server: Server, p: Picture, client: string, cmd: string)
    requires Pictured(server, p)
    ensures client in p <==> client in server.clients
    ensures client in p ==> (cmd in p[client].cmds <==> cmd in server.clients[client].dispatchedCmds)
    ensures client in p && cmd in p[client].cmds ==>
              server.Addressed(client, cmd) == {server.clients[client].dispatchedCmds[cmd]}
  {
    assert client in p ==> InPicture(server, p, client);
  }

  lemma VerdictByRequest(server: Server, client: string, cmd: string, context: Context, templateOf: string -> string,
                         p: Picture)
    requires Pictured(server, p) && Templated(p, templateOf)
    requires client in server.clients && cmd in server.clients[client].dispatchedCmds
    ensures var target := server.clients[client].dispatchedCmds[cmd];
      VerdictOn(target, context)
      == Judge(context.RulesOf(templateOf(target.consensusRequestId)), target.bufOutput, target.bufOutputErr)
  {
    assert InPicture(server, p, client);
    hide Judge;
  }

  /** A status message on the objects is the state machine's, with the verdict that the rules of the request's template
      give on the command's own output; Next is spawned exactly when the state machine spawns it. */
  method StatusMessage(server: Server, client: string, cmd: string, message: Status, context: Context,
                       ghost templateOf: string -> string, ghost p: Picture, ghost w: Rollout.World,
                       ghost handle: Handles)
    returns (next: bool, ghost after: Picture, ghost verdict: Verdict)
    requires Pictured(server, p) && Tied(p, w, handle) && Templated(p, templateOf) && context.active == w.entries.Keys
    modifies server.Addressed(client, cmd)
    ensures client in server.clients && cmd in server.clients[client].dispatchedCmds ==>
              var target := server.clients[client].dispatchedCmds[cmd];
              verdict == old(Judge(context.RulesOf(templateOf(target.consensusRequestId)),
                                   target.bufOutput, target.bufOutputErr))
    ensures Pictured(server, after) && Templated(after, templateOf)
    ensures Tied(after, Rollout.Apply(w, Rollout.Report(client, cmd, message, verdict)), handle)
    ensures next <==> Rollout.Apply(w, Rollout.Report(client, cmd, message, verdict)).wakeups != w.wakeups
  {
    hide *;
    next, after, verdict := false, p, Unjudged;
    PictureKeys(server, p, client, cmd);
    if client in server.clients && cmd in server.clients[client].dispatchedCmds {
      verdict := VerdictOn(server.clients[client].dispatchedCmds[cmd], context);
      VerdictByRequest(server, client, cmd, context, templateOf, p);
      ReportTies(p, w, handle, client, cmd, message, verdict);
      OneObjectPerPlace(server, p, w, handle, client, cmd);
      after := Restated(p, client, cmd, Settle(p[client].cmds[cmd].status, message, verdict));
      RestatedStaysTemplated(p, templateOf, client, cmd, Settle(p[client].cmds[cmd].status, message, verdict));
      next := SetStatus(server, client, cmd, message, context, p);
    } else {
      ReportMisses(p, w, handle, client, cmd, message, verdict);
    }
  }

  // ---------- cancelling and purging ----------

  /** The commands left on the lists. */
  function Thinned(p: Picture, left: (string, Seen) -> bool): Picture {
    map c | c in p :: p[c].(cmds := map k | k in p[c].cmds && left(c, p[c].cmds[k]) :: p[c].cmds[k])
  }

  /** Taking commands off the lists on both sides. */
  lemma ThinningTies(p: Picture, w: Rollout.World, w': Rollout.World, handle: Handles, left: (string, Seen) -> bool)
    requires Tied(p, w, handle) && w'.registered == w.registered
    requires forall k :: k in w'.dispatched ==> k in w.dispatched && w'.dispatched[k] == w.dispatched[k]
    requires forall c, k :: c in p && k in p[c].cmds ==> (k in w'.dispatched <==> left(c, p[c].cmds[k]))
    ensures Tied(Thinned(p, left), w', handle)
  {
    var p' := Thinned(p, left);
    forall c, k | c in p' && k in p'[c].cmds ensures Known(p', w', c, k) {
      assert k in p[c].cmds && Known(p, w, c, k);
    }
    forall k | k in w'.dispatched && Rollout.OnRegistered(w', w'.dispatched[k].host)
      ensures IsListed(p', w', w'.dispatched[k].host, k)
    {
      assert Rollout.OnRegistered(w, w.dispatched[k].host);
      assert IsListed(p, w, w.dispatched[k].host, k);
    }
  }

  function Others(p: Picture, request: string): Picture {
    Thinned(p, (_, s: Seen) => s.request != request)
  }

  lemma OthersAt(p: Picture, request: string, c: string)
    requires c in p
    ensures var after := Others(p, request);
      && after.Keys == p.Keys && after[c].client == p[c].client
      && (forall k :: k in after[c].cmds <==> k in p[c].cmds && p[c].cmds[k].request != request)
      && (forall k :: k in after[c].cmds ==> after[c].cmds[k] == p[c].cmds[k])
  {
  }

  lemma CancelThins(p: Picture, w: Rollout.World, handle: Handles, request: string)
    requires Tied(p, w, handle)
    ensures Tied(Others(p, request), Rollout.Apply(w, Rollout.Cancel(request)), handle)
  {
    var w' := Rollout.Apply(w, Rollout.Cancel(request));
    forall c, k | c in p && k in p[c].cmds ensures k in w'.dispatched <==> p[c].cmds[k].request != request {
      assert Known(p, w, c, k);
    }
    hide Tied;
    ThinningTies(p, w, w', handle, (_, s: Seen) => s.request != request);
  }

  method TakeOff(server: Server, request: string, ghost p: Picture)
    requires Pictured(server, p)
    modifies server.clients.Values
    ensures Pictured(server, Others(p, request))
  {
    ghost var after := Others(p, request);
    assert after.Keys == p.Keys;
    forall c | c in p ensures Drawn(server.clients[c], p[c]) && server.clients[c] in server.clients.Values {
      assert InPicture(server, p, c);
    }
    hide Others;
    server.DeleteCommands(request);
    forall c | c in after ensures InPicture(server, after, c) {
      OthersAt(p, request, c);
    }
  }

  /** Taking a request's commands off the clients' lists is the state machine's cancel. */
  method CancelRequest(server: Server, request: string, ghost p: Picture, ghost w: Rollout.World, ghost handle: Handles)
    returns (ghost after: Picture)
    requires Pictured(server, p) && Tied(p, w, handle)
    modifies server.clients.Values
    ensures Pictured(server, after) && Tied(after, Rollout.Apply(w, Rollout.Cancel(request)), handle)
  {
    CancelThins(p, w, handle, request);
    hide Tied, Rollout.Apply, Others, Pictured;
    after := Others(p, request);
    TakeOff(server, request, p);
  }

  // ---------- clients that come and go ----------

  lemma LeavingTies(p: Picture, w: Rollout.World, handle: Handles, gone: set<string>)
    requires Tied(p, w, handle)
    ensures Tied(p - gone, Rollout.Apply(w, Rollout.Cleanup(gone)), handle)
  {
    var p', w' := p - gone, Rollout.Apply(w, Rollout.Cleanup(gone));
    forall c, k | c in p' && k in p'[c].cmds ensures Known(p', w', c, k) {
      assert Known(p, w, c, k);
    }
    forall k | k in w'.dispatched && Rollout.OnRegistered(w', w'.dispatched[k].host)
      ensures IsListed(p', w', w'.dispatched[k].host, k)
    {
      StillListed(p, w, handle, gone, k);
    }
  }

  lemma StillListed(p: Picture, w: Rollout.World, handle: Handles, gone: set<string>, k: string)
    requires SeatsNamed(p, w, handle) && ListsComplete(p, w) && k in w.dispatched
    requires w.dispatched[k].host in (w.registered - gone).Values
    ensures IsListed(p - gone, w.(registered := w.registered - gone), w.dispatched[k].host, k)
  {
    var host := w.dispatched[k].host;
    var d :| d in w.registered - gone && (w.registered - gone)[d] == host;
    assert d in w.registered && w.registered[d] == host;
    assert IsListed(p, w, host, k);
    var c :| c in p && c in w.registered && w.registered[c] == host && k in p[c].cmds;
    assert c == d;
  }

  ghost function Silent(p: Picture, now: int): set<string>
    reads set c | c in p :: p[c].client
  {
    set c | c in p && p[c].client.lastPing + CLIENT_PING_INTERVAL * 5 < now
  }

  method Depart(server: Server, now: int, ghost p: Picture)
    requires Pictured(server, p)
    modifies server`clients
    ensures Pictured(server, p - Silent(p, now))
  {
    forall c | c in p ensures Drawn(server.clients[c], p[c]) {
      assert InPicture(server, p, c);
    }
    server.CleanupClients(now);
    ghost var left := p - Silent(p, now);
    forall c | c in left ensures InPicture(server, left, c) {}
  }

  /** Removing silent clients is the state machine's cleanup of exactly those. */
  method RemoveSilent(server: Server, now: int, ghost p: Picture, ghost w: Rollout.World, ghost handle: Handles)
    requires Pictured(server, p) && Tied(p, w, handle)
    modifies server`clients
    ensures var gone := Silent(p, now);
      Pictured(server, p - gone) && Tied(p - gone, Rollout.Apply(w, Rollout.Cleanup(gone)), handle)
  {
    LeavingTies(p, w, handle, Silent(p, now));
    hide Tied, Rollout.Apply, Pictured;
    Depart(server, now, p);
  }

  lemma ComingSeats(p: Picture, w: Rollout.World, handle: Handles, client: string, arrival: RegisteredClient,
                    ref: Rollout.Ref)
    requires SeatsNamed(p, w, handle) && client !in p && arrival !in handle && ref !in handle.Values
    ensures SeatsNamed(p[client := Seat(arrival, map[])], w.(registered := w.registered[client := ref]),
                       handle[arrival := ref])
  {
    forall a | a in handle ensures handle[a] != ref {
      assert handle[a] in handle.Values;
    }
  }

  lemma ComingKnown(p: Picture, w: Rollout.World, w': Rollout.World, client: string, arrival: RegisteredClient,
                    ref: Rollout.Ref)
    requires ListsKnown(p, w) && client !in p && p.Keys == w.registered.Keys
    requires w'.registered == w.registered[client := ref] && w'.dispatched == w.dispatched
    ensures ListsKnown(p[client := Seat(arrival, map[])], w')
  {
    var p' := p[client := Seat(arrival, map[])];
    forall c, k | c in p' && k in p'[c].cmds ensures Known(p', w', c, k) {
      assert Known(p, w, c, k);
    }
  }

  lemma ComingComplete(p: Picture, w: Rollout.World, w': Rollout.World, client: string, arrival: RegisteredClient,
                       ref: Rollout.Ref)
    requires ListsComplete(p, w) && client !in p && p.Keys == w.registered.Keys
    requires w'.registered == w.registered[client := ref] && w'.dispatched == w.dispatched
    requires forall k :: k in w.dispatched ==> w.dispatched[k].host != ref
    ensures ListsComplete(p[client := Seat(arrival, map[])], w')
  {
    var p' := p[client := Seat(arrival, map[])];
    forall k | k in w'.dispatched && Rollout.OnRegistered(w', w'.dispatched[k].host)
      ensures IsListed(p', w', w'.dispatched[k].host, k)
    {
      var host := w.dispatched[k].host;
      var d :| d in w'.registered && w'.registered[d] == host;
      assert d in w.registered && w.registered[d] == host;
      assert IsListed(p, w, host, k);
      var c :| c in p && c in w.registered && w.registered[c] == host && k in p[c].cmds;
      assert c in p' && c in w'.registered && w'.registered[c] == host && k in p'[c].cmds;
    }
  }

  /** A new seat without commands. */
  lemma ComingTies(p: Picture, w: Rollout.World, handle: Handles, client: string, arrival: RegisteredClient,
                   ref: Rollout.Ref)
    requires Tied(p, w, handle) && client !in p && arrival !in handle
    requires ref !in handle.Values && forall k :: k in w.dispatched ==> w.dispatched[k].host != ref
    ensures Tied(p[client := Seat(arrival, map[])], Rollout.Apply(w, Rollout.Register(client, ref)),
                 handle[arrival := ref])
  {
    ComingSeats(p, w, handle, client, arrival, ref);
    var w' := Rollout.Apply(w, Rollout.Register(client, ref));
    ComingKnown(p, w, w', client, arrival, ref);
    ComingComplete(p, w, w', client, arrival, ref);
    hide ListsKnown, ListsComplete;
  }

  method Arrive(server: Server, client: string, tags: seq<string>, now: int, ghost p: Picture)
    requires Pictured(server, p)
    modifies server`clients, server`tags, (if client in server.clients then {server.clients[client]} else {})
    ensures client in server.clients
    ensures client in p ==> Pictured(server, p)
    ensures client !in p ==> fresh(server.clients[client])
                             && Pictured(server, p[client := Seat(server.clients[client], map[])])
  {
    forall c | c in p ensures Drawn(server.clients[c], p[c]) {
      assert InPicture(server, p, c);
    }
    server.RegisterClient(client, tags, now);
    ghost var after := if client in p then p else p[client := Seat(server.clients[client], map[])];
    forall c | c in after ensures InPicture(server, after, c) {}
  }

  /** A registration is the state machine's: a new client gets a new object and handle, a known one keeps its own. */
  method RegisterOne(server: Server, client: string, tags: seq<string>, now: int, ghost ref: Rollout.Ref,
                     ghost p: Picture, ghost w: Rollout.World, ghost handle: Handles)
    returns (ghost after: Picture, ghost named: Handles)
    requires Pictured(server, p) && Tied(p, w, handle)
    requires ref !in handle.Values && forall k :: k in w.dispatched ==> w.dispatched[k].host != ref
    modifies server`clients, server`tags, (if client in server.clients then {server.clients[client]} else {})
    ensures Pictured(server, after) && Tied(after, Rollout.Apply(w, Rollout.Register(client, ref)), named)
    ensures client in p ==> after == p && named == handle
  {
    assert client in p ==> Rollout.Apply(w, Rollout.Register(client, ref)) == w;
    hide Tied, Rollout.Apply, Pictured;
    Arrive(server, client, tags, now, p);
    after, named := p, handle;
    if client !in p {
      var arrival := server.clients[client];
      after, named := p[client := Seat(arrival, map[])], handle[arrival := ref];
      ComingTies(p, w, handle, client, arrival, ref);
    }
  }

  // ---------- launches ----------

  function Added(p: Picture, c: string, s: Seen): Picture
    requires c in p
  {
    p[c := p[c].(cmds := p[c].cmds[s.id := s])]
  }

  function WithLanded(w: Rollout.World, cmd: string, d: Rollout.Dispatched): Rollout.World {
    w.(inflight := w.inflight - {cmd}, dispatched := w.dispatched[cmd := d], landed := w.landed + multiset{cmd})
  }

  lemma SubmittedElsewhere(p: Picture, w: Rollout.World, handle: Handles, cmd: string, d: Rollout.Dispatched)
    requires Tied(p, w, handle) && cmd !in w.dispatched && !Rollout.OnRegistered(w, d.host)
    ensures Tied(p, WithLanded(w, cmd, d), handle)
  {
    var w' := WithLanded(w, cmd, d);
    forall c, k | c in p && k in p[c].cmds ensures Known(p, w', c, k) {
      assert Known(p, w, c, k);
    }
    forall k | k in w'.dispatched && Rollout.OnRegistered(w', w'.dispatched[k].host)
      ensures IsListed(p, w', w'.dispatched[k].host, k)
    {
      assert k != cmd && Rollout.OnRegistered(w, w.dispatched[k].host);
      assert IsListed(p, w, w.dispatched[k].host, k);
    }
  }

  lemma SubmittedHere(p: Picture, w: Rollout.World, handle: Handles, c: string, cmd: string, template: string,
                      d: Rollout.Dispatched)
    requires Tied(p, w, handle) && cmd !in w.dispatched && c in p && d.host == w.registered[c]
    ensures Tied(Added(p, c, Seen(cmd, d.request, template, d.tag, d.status)), WithLanded(w, cmd, d), handle)
  {
    var p', w' := Added(p, c, Seen(cmd, d.request, template, d.tag, d.status)), WithLanded(w, cmd, d);
    forall e, k | e in p' && k in p'[e].cmds ensures Known(p', w', e, k) {
      if e != c || k != cmd {
        assert k in p[e].cmds && Known(p, w, e, k);
      }
    }
    forall k | k in w'.dispatched && Rollout.OnRegistered(w', w'.dispatched[k].host)
      ensures IsListed(p', w', w'.dispatched[k].host, k)
    {
      if k != cmd {
        assert Rollout.OnRegistered(w, w.dispatched[k].host);
        assert IsListed(p, w, w.dispatched[k].host, k);
      }
    }
  }

  lemma ApplyLand(w: Rollout.World, cmd: string)
    requires cmd in w.inflight && w.inflight[cmd].tag.Some?
    ensures var l := w.inflight[cmd];
      Rollout.Apply(w, Rollout.Land(cmd))
      == WithLanded(w, cmd, Rollout.Dispatched(l.request, l.host, l.batch, l.tag.value, Pending))
  {
  }

  lemma NotRegistered(p: Picture, w: Rollout.World, handle: Handles, client: RegisteredClient)
    requires SeatsNamed(p, w, handle) && client in handle && forall c :: c in p ==> p[c].client != client
    ensures !Rollout.OnRegistered(w, handle[client])
  {
  }

  /** Where a client object sits, if it is registered. */
  ghost predicate SitsAt(p: Picture, client: RegisteredClient, c: Option<string>) {
    match c
    case Some(name) =>
      name in p && p[name].client == client && forall d :: d in p && p[d].client == client ==> d == name
    case None => forall d :: d in p ==> p[d].client != client
  }

  function AddedAt(p: Picture, c: Option<string>, s: Seen): Picture {
    if c.Some? && c.value in p then Added(p, c.value, s) else p
  }

  /** What the list shows of a command that is launched now. */
  ghost function Landing(entry: ExecutionCoordinatorEntry, pending: PendingClientCmd): Seen
    reads entry
  {
    Seen(pending.cmd.id, entry.id, pending.cmd.templateId, entry.iteration, Pending)
  }

  method LaunchInto(server: Server, entry: ExecutionCoordinatorEntry, pending: PendingClientCmd, ghost p: Picture,
                    ghost c: Option<string>)
    requires Pictured(server, p) && SitsAt(p, pending.client, c) && pending.cmd.consensusRequestId == entry.id
    modifies pending.client`cmds, pending.client`dispatchedCmds
    ensures Pictured(server, AddedAt(p, c, Landing(entry, pending)))
  {
    forall d | d in p ensures Drawn(server.clients[d], p[d]) && (Some(d) != c ==> server.clients[d] != pending.client) {
      assert InPicture(server, p, d);
    }
    ghost var after := AddedAt(p, c, Landing(entry, pending));
    assert after.Keys == p.Keys && forall d :: d in p && Some(d) != c ==> after[d] == p[d];
    hide SitsAt;
    entry.Launch(pending);
    forall d | d in after && Some(d) != c ensures Drawn(server.clients[d], after[d]) {}
    if c.Some? {
      assert Drawn(server.clients[c.value], after[c.value]);
    }
    hide Drawn, AddedAt;
    forall d | d in after ensures InPicture(server, after, d) {}
  }

  lemma LandTies(p: Picture, w: Rollout.World, handle: Handles, client: RegisteredClient, cmd: string,
                 template: string, c: Option<string>)
    requires Tied(p, w, handle) && SitsAt(p, client, c) && client in handle
    requires cmd in w.inflight && cmd !in w.dispatched
    requires w.inflight[cmd].host == handle[client] && w.inflight[cmd].tag.Some?
    ensures var l := w.inflight[cmd];
      Tied(AddedAt(p, c, Seen(cmd, l.request, template, l.tag.value, Pending)), Rollout.Apply(w, Rollout.Land(cmd)),
           handle)
  {
    var l := w.inflight[cmd];
    var d := Rollout.Dispatched(l.request, l.host, l.batch, l.tag.value, Pending);
    ApplyLand(w, cmd);
    if c.Some? {
      SubmittedHere(p, w, handle, c.value, cmd, template, d);
    } else {
      NotRegistered(p, w, handle, client);
      SubmittedElsewhere(p, w, handle, cmd, d);
    }
    hide Rollout.Apply, WithLanded, SeatsNamed, ListsKnown, ListsComplete, Added;
  }

  lemma AddedStaysTemplated(p: Picture, templateOf: string -> string, c: Option<string>, s: Seen)
    requires Templated(p, templateOf) && s.template == templateOf(s.request)
    ensures Templated(AddedAt(p, c, s), templateOf)
  {
  }

  /** The second half of a launch goroutine, once it has read the iteration number, is the state machine's landing,
      whether or not its client object is still registered. */
  method LandOne(server: Server, entry: ExecutionCoordinatorEntry, pending: PendingClientCmd,
                 ghost templateOf: string -> string, ghost p: Picture, ghost w: Rollout.World, ghost handle: Handles)
    returns (ghost after: Picture)
    requires Pictured(server, p) && Tied(p, w, handle) && Templated(p, templateOf)
    requires pending in entry.assembled && EntryTemplated(entry, templateOf) && pending.client in handle
    requires pending.cmd.id in w.inflight && pending.cmd.id !in w.dispatched
    requires var l := w.inflight[pending.cmd.id];
      l.request == entry.id && l.host == handle[pending.client] && l.tag == Some(entry.iteration)
    modifies pending.client`cmds, pending.client`dispatchedCmds
    ensures Pictured(server, after) && Tied(after, Rollout.Apply(w, Rollout.Land(pending.cmd.id)), handle)
    ensures Templated(after, templateOf)
  {
    ghost var c := None;
    if name :| name in p && p[name].client == pending.client {
      c := Some(name);
    }
    assert SitsAt(p, pending.client, c);
    hide Tied, Pictured, SitsAt, AddedAt, Rollout.Apply;
    LandTies(p, w, handle, pending.client, pending.cmd.id, pending.cmd.templateId, c);
    after := AddedAt(p, c, Landing(entry, pending));
    AddedStaysTemplated(p, templateOf, c, Landing(entry, pending));
    LaunchInto(server, entry, pending, p, c);
  }

  // ---------- old commands and Next ----------

  function Without(p: Picture, client: string, gone: set<string>): Picture {
    Thinned(p, (c: string, s: Seen) => !(c == client && s.id in gone))
  }

  lemma PurgeTies(p: Picture, w: Rollout.World, handle: Handles, client: string, gone: set<string>)
    requires Tied(p, w, handle)
    ensures Tied(Without(p, client, gone), Rollout.Apply(w, Rollout.Purge(client, gone)), handle)
  {
    var w' := Rollout.Apply(w, Rollout.Purge(client, gone));
    forall c, k | c in p && k in p[c].cmds
      ensures k in w'.dispatched <==> !(c == client && p[c].cmds[k].id in gone)
    {
      assert Known(p, w, c, k);
      if client in p && k in p[client].cmds {
        OneListEach(p, w, handle, c, client, k);
      }
      Addressed(p, w, handle, client, k);
    }
    hide Tied, Rollout.Reaches;
    ThinningTies(p, w, w', handle, (c: string, s: Seen) => !(c == client && s.id in gone));
  }

  lemma WithoutAt(p: Picture, client: string, gone: set<string>, c: string)
    requires c in p
    ensures var after := Without(p, client, gone);
      && after.Keys == p.Keys && after[c].client == p[c].client
      && (forall k :: k in after[c].cmds <==> k in p[c].cmds && !(c == client && p[c].cmds[k].id in gone))
      && (forall k :: k in after[c].cmds ==> after[c].cmds[k] == p[c].cmds[k])
  {
  }

  /** The commands on a client's list that are too old. */
  ghost function Stale(client: RegisteredClient, now: int): set<string>
    reads client, client.dispatchedCmds.Values
  {
    set k | k in client.dispatchedCmds && !client.Young(k, now)
  }

  method DropStale(server: Server, client: string, member: RegisteredClient, now: int, ghost p: Picture)
    requires Pictured(server, p) && client in server.clients && server.clients[client] == member
    requires forall c, k :: c in p && k in p[c].cmds ==> p[c].cmds[k].id == k
    requires forall c :: c in p && c != client ==> p[c].client != member
    modifies member`dispatchedCmds
    ensures Pictured(server, Without(p, client, old(Stale(member, now))))
  {
    ghost var gone := Stale(member, now);
    ghost var after := Without(p, client, gone);
    WithoutAt(p, client, gone, client);
    forall c | c in p ensures Drawn(server.clients[c], p[c]) && (c != client ==> server.clients[c] != member) {
      assert InPicture(server, p, c);
    }
    forall c | c in p && c != client ensures after[c] == p[c] {
      WithoutAt(p, client, gone, c);
    }
    hide Without, Pictured;
    var _ := member.GetDispatchedCmds(now);
    forall c | c in p && c != client ensures Drawn(server.clients[c], after[c]) {}
    assert Drawn(member, after[client]);
    hide Drawn;
    PicturedBy(server, after);
  }

  /** Looking up a client's dispatched commands drops the old ones, which is the state machine's purge of those. */
  method PurgeOld(server: Server, client: string, member: RegisteredClient, now: int,
                  ghost p: Picture, ghost w: Rollout.World, ghost handle: Handles)
    requires Pictured(server, p) && Tied(p, w, handle) && client in server.clients && server.clients[client] == member
    modifies member`dispatchedCmds
    ensures var gone := old(Stale(member, now)); var after := Without(p, client, gone);
      Pictured(server, after) && Tied(after, Rollout.Apply(w, Rollout.Purge(client, gone)), handle)
  {
    PictureKeys(server, p, client, "");
    assert InPicture(server, p, client);
    PurgeTies(p, w, handle, client, Stale(member, now));
    forall c, k | c in p && k in p[c].cmds ensures p[c].cmds[k].id == k {
      KnownAt(p, w, handle, c, k);
    }
    hide ListsKnown, ListsComplete, Rollout.Apply, Pictured, Drawn, Without;
    DropStale(server, client, member, now, p);
  }

  /** Next changes no list and registers nobody. */
  lemma NextKeepsLists(w: Rollout.World, request: string, early: set<string>)
    requires request in w.entries
    ensures var w' := Rollout.RunNext(w, request, early);
      w'.registered == w.registered && w'.dispatched == w.dispatched
  {
    hide Rollout.TakeTurn, Rollout.AfterTurn, Rollout.BatchDone, Rollout.Spawn;
    var e := w.entries[request];
    match Rollout.TakeTurn(e, Rollout.BatchDone(w, request, e.iteration))
    case Idle =>
    case Drained =>
    case Batch(_) =>
  }

  lemma SameListsTied(p: Picture, w: Rollout.World, w': Rollout.World, handle: Handles)
    requires Tied(p, w, handle) && w'.registered == w.registered && w'.dispatched == w.dispatched
    ensures Tied(p, w', handle)
  {
    forall c, k | c in p && k in p[c].cmds ensures Known(p, w', c, k) {
      assert Known(p, w, c, k);
    }
    forall k | k in w'.dispatched && Rollout.OnRegistered(w', w'.dispatched[k].host)
      ensures IsListed(p, w', w'.dispatched[k].host, k)
    {
      assert Rollout.OnRegistered(w, w.dispatched[k].host);
      assert IsListed(p, w, w.dispatched[k].host, k);
    }
  }

  /** The coordinator has an entry object for each entry of the state machine, and for no other request. */
  ghost predicate EntriesTied(coordinator: ExecutionCoordinator, w: Rollout.World, handle: Handles)
    reads coordinator, coordinator.active.Values
  {
    coordinator.active.Keys == w.entries.Keys
    && forall r :: r in coordinator.active ==> EntryTied(coordinator.active[r], r, w, handle)
  }

  ghost predicate EntryTied(entry: ExecutionCoordinatorEntry, r: string, w: Rollout.World, handle: Handles)
    requires r in w.entries
    reads entry
  {
    entry.id == r && entry.Valid() && Handled(entry.View(), handle) && w.entries[r] == Abstract(entry.View(), handle)
  }

  lemma OneEntryEach(coordinator: ExecutionCoordinator, w: Rollout.World, handle: Handles, request: string)
    requires EntriesTied(coordinator, w, handle) && request in coordinator.active
    ensures coordinator.active.Keys == w.entries.Keys
    ensures forall r :: r in coordinator.active ==> EntryTied(coordinator.active[r], r, w, handle)
    ensures forall r :: r in coordinator.active && r != request ==>
              coordinator.active[r] != coordinator.active[request]
  {
    hide ExecutionCoordinatorEntry.Valid, Handled, Abstract;
    assert EntryTied(coordinator.active[request], request, w, handle);
  }

  lemma NowTied(entry: ExecutionCoordinatorEntry, r: string, w: Rollout.World, w': Rollout.World, handle: Handles)
    requires entry.id == r && entry.Valid() && Handled(entry.View(), handle)
    requires w'.entries == w.entries[r := Abstract(entry.View(), handle)]
    ensures EntryTied(entry, r, w', handle)
  {
  }

  lemma StillTied(entry: ExecutionCoordinatorEntry, r: string, w: Rollout.World, w': Rollout.World, handle: Handles)
    requires r in w.entries && r in w'.entries && w'.entries[r] == w.entries[r] && EntryTied(entry, r, w, handle)
    ensures EntryTied(entry, r, w', handle)
  {
  }

  lemma AllTied(coordinator: ExecutionCoordinator, w: Rollout.World, handle: Handles)
    requires coordinator.active.Keys == w.entries.Keys
    requires forall r :: r in coordinator.active ==> EntryTied(coordinator.active[r], r, w, handle)
    ensures EntriesTied(coordinator, w, handle)
  {
  }

  /** Nothing but a start and a call of Next touches an entry of the state machine; the methods for all other events
      touch no entry object. */
  lemma OthersKeepEntries(w: Rollout.World, e: Rollout.Event)
    requires !e.Start? && !e.NextRuns?
    ensures Rollout.Apply(w, e).entries == w.entries
  {
    hide Settle, TriggersValidation, Rollout.Reaches, Rollout.OnRegistered;
  }

  lemma ViewIteration(entry: ExecutionCoordinatorEntry)
    ensures entry.View().iteration == entry.iteration
  {
  }

  /** A call of Next on the objects is the state machine's: same lists, the entry the state machine reaches, and
      the same launches spawned or callbacks triggered. */
  method NextOne(server: Server, entry: ExecutionCoordinatorEntry, ghost early: set<string>, ghost p: Picture,
                 ghost w: Rollout.World, ghost handle: Handles)
    returns (turn: Rollout.Turn<PendingClientCmd>)
    requires Pictured(server, p) && Tied(p, w, handle) && entry.Valid()
    requires Handled(entry.View(), handle) && entry.id in w.entries
    requires w.entries[entry.id] == Abstract(entry.View(), handle)
    modifies entry`cmds, entry`iteration, entry`launched
    ensures Pictured(server, p) && Tied(p, Rollout.RunNext(w, entry.id, early), handle)
    ensures entry.Valid() && Handled(entry.View(), handle)
    ensures Rollout.RunNext(w, entry.id, early).entries == w.entries[entry.id := Abstract(entry.View(), handle)]
    ensures SpawnedAlike(turn, w, Rollout.RunNext(w, entry.id, early), entry.id, entry.iteration, early, handle)
  {
    TiedRepresents(server, p, w, handle);
    NextRefines(entry, server, w, handle, early);
    NextKeepsLists(w, entry.id, early);
    SameListsTied(p, w, Rollout.RunNext(w, entry.id, early), handle);
    hide *;
    turn := entry.Next(server);
    ViewIteration(entry);
  }

  /** And so it is for the coordinator as a whole: the other entries are left alone on both sides. */
  method NextOfRequest(coordinator: ExecutionCoordinator, server: Server, request: string, ghost early: set<string>,
                       ghost p: Picture, ghost w: Rollout.World, ghost handle: Handles)
    returns (turn: Rollout.Turn<PendingClientCmd>)
    requires Pictured(server, p) && Tied(p, w, handle) && EntriesTied(coordinator, w, handle)
    requires request in coordinator.active
    modifies coordinator.active[request]
    ensures Pictured(server, p) && Tied(p, Rollout.RunNext(w, request, early), handle)
    ensures EntriesTied(coordinator, Rollout.RunNext(w, request, early), handle)
    ensures SpawnedAlike(turn, w, Rollout.RunNext(w, request, early), request, coordinator.active[request].iteration,
                         early, handle)
  {
    var entry := coordinator.active[request];
    OneEntryEach(coordinator, w, handle, request);
    assert EntryTied(entry, request, w, handle);
    ghost var w' := Rollout.RunNext(w, request, early);
    assert entry.id == request && entry.Valid() && Handled(entry.View(), handle);
    hide *;
    turn := NextOne(server, entry, early, p, w, handle);
    NowTied(entry, request, w, w', handle);
    forall r | r in coordinator.active && r != request ensures r in w'.entries
      ensures EntryTied(coordinator.active[r], r, w', handle)
    {
      StillTied(coordinator.active[r], r, w, w', handle);
    }
    AllTied(coordinator, w', handle);
  }

  // ---------- starting a request ----------

  ghost predicate Listed(ids: seq<(RegisteredClient, string)>, handle: Handles) {
    forall i :: 0 <= i < |ids| ==> ids[i].0 in handle
  }

  ghost function Named(ids: seq<(RegisteredClient, string)>, handle: Handles): seq<Rollout.Job>
    requires Listed(ids, handle)
  {
    seq(|ids|, i requires 0 <= i < |ids| => Rollout.Job(ids[i].1, handle[ids[i].0]))
  }

  /** Assembling for client objects and assembling for handles agree. */
  lemma {:induction false} AssemblyAgrees(server: Server, w: Rollout.World, handle: Handles,
                                          targets: seq<Rollout.Target>)
    requires forall c :: c in server.clients <==> c in w.registered
    requires forall c :: c in server.clients ==>
               server.clients[c] in handle && w.registered[c] == handle[server.clients[c]]
    ensures Listed(Assembled(server, targets), handle)
    ensures Named(Assembled(server, targets), handle) == Rollout.Assemble(w.registered, targets)
  {
    if targets != [] {
      var init, last := targets[..|targets| - 1], targets[|targets| - 1];
      AssemblyAgrees(server, w, handle, init);
      Rollout.AssembledExactly(w.registered, init, [last]);
      assert targets == init + [last];
      assert Rollout.Assemble(w.registered, [last][1..]) == [];
    }
  }

  lemma StartKeepsLists(w: Rollout.World, request: string, strategy: StrategyType, targets: seq<Rollout.Target>)
    ensures var w1 := Rollout.StartRequest(w, request, strategy, targets);
      && w1.registered == w.registered && w1.dispatched == w.dispatched
      && w1.entries == w.entries[request := Rollout.NewEntry(strategy, Rollout.Assemble(w.registered, targets))]
  {
    hide Rollout.Assemble, Rollout.JobIds;
  }

  /** A new entry for client objects is the new entry for their handles. */
  lemma NewEntryAgrees(strategy: StrategyType, cmds: seq<PendingClientCmd>, handle: Handles)
    requires Listed(IdsOf(cmds), handle)
    ensures Handled(Rollout.NewEntry(strategy, cmds), handle)
    ensures Abstract(Rollout.NewEntry(strategy, cmds), handle)
            == Rollout.NewEntry(strategy, Named(IdsOf(cmds), handle))
  {
    forall q | q in cmds ensures q.client in handle {
      var i :| 0 <= i < |cmds| && cmds[i] == q;
      assert IdsOf(cmds)[i].0 == q.client;
    }
    assert Jobs(cmds, handle) == Named(IdsOf(cmds), handle);
  }

  lemma ApplyStart(w: Rollout.World, request: string, strategy: StrategyType, targets: seq<Rollout.Target>,
                   early: set<string>)
    ensures Rollout.Apply(w, Rollout.Start(request, strategy, targets, early))
            == Rollout.RunNext(Rollout.StartRequest(w, request, strategy, targets), request, early)
  {
  }

  lemma StartTies(p: Picture, w: Rollout.World, handle: Handles, request: string, strategy: StrategyType,
                  targets: seq<Rollout.Target>, early: set<string>)
    requires Tied(p, w, handle)
    ensures Tied(p, Rollout.StartRequest(w, request, strategy, targets), handle)
    ensures Tied(p, Rollout.Apply(w, Rollout.Start(request, strategy, targets, early)), handle)
  {
    hide *;
    var w1 := Rollout.StartRequest(w, request, strategy, targets);
    ApplyStart(w, request, strategy, targets, early);
    StartKeepsLists(w, request, strategy, targets);
    SameListsTied(p, w, w1, handle);
    NextKeepsLists(w1, request, early);
    SameListsTied(p, w1, Rollout.RunNext(w1, request, early), handle);
  }

  lemma FirstEntry(w: Rollout.World, handle: Handles, request: string, strategy: StrategyType,
                   targets: seq<Rollout.Target>, early: set<string>, cmds: seq<PendingClientCmd>, done: bool)
    requires Listed(IdsOf(cmds), handle) && Named(IdsOf(cmds), handle) == Rollout.Assemble(w.registered, targets)
    requires Rollout.BatchDone(Rollout.StartRequest(w, request, strategy, targets), request, 0) == done
    ensures var started := Rollout.NewEntry(strategy, cmds);
      var after := Rollout.AfterTurn(started, Rollout.TakeTurn(started, done));
      var w' := Rollout.Apply(w, Rollout.Start(request, strategy, targets, early));
      && Handled(after, handle)
      && w'.entries == w.entries[request := Abstract(after, handle)]
      && SpawnedAlike(Rollout.TakeTurn(started, done), Rollout.StartRequest(w, request, strategy, targets), w',
                      request, after.iteration, early, handle)
  {
    var w1 := Rollout.StartRequest(w, request, strategy, targets);
    var started := Rollout.NewEntry(strategy, cmds);
    assert started.iteration == 0;
    hide *;
    ApplyStart(w, request, strategy, targets, early);
    StartKeepsLists(w, request, strategy, targets);
    NewEntryAgrees(strategy, cmds, handle);
    var first := Rollout.NewEntry(strategy, Rollout.Assemble(w.registered, targets));
    assert w1.entries[request] == first == Abstract(started, handle);
    AbstractNext(w1, request, started, done, handle, early);
    var after := Rollout.AfterTurn(started, Rollout.TakeTurn(started, done));
    Overwritten(w.entries, request, first, Abstract(after, handle));
  }

  lemma Overwritten<T>(entries: map<string, T>, key: string, first: T, second: T)
    ensures entries[key := first][key := second] == entries[key := second]
  {
  }

  lemma FirstTurn(server: Server, request: string, strategy: StrategyType, targets: seq<Rollout.Target>,
                  early: set<string>, cmds: seq<PendingClientCmd>, p: Picture, w: Rollout.World, handle: Handles)
    requires Pictured(server, p) && Tied(p, w, handle) && IdsOf(cmds) == Assembled(server, targets)
    ensures var started := Rollout.NewEntry(strategy, cmds);
      var after := Rollout.AfterTurn(started, Rollout.TakeTurn(started, IterationFinished(server, request, 0)));
      var w' := Rollout.Apply(w, Rollout.Start(request, strategy, targets, early));
      && Handled(after, handle) && w'.entries == w.entries[request := Abstract(after, handle)] && Tied(p, w', handle)
      && SpawnedAlike(Rollout.TakeTurn(started, IterationFinished(server, request, 0)),
                      Rollout.StartRequest(w, request, strategy, targets), w', request, after.iteration, early, handle)
  {
    var w1 := Rollout.StartRequest(w, request, strategy, targets);
    TiedRepresents(server, p, w, handle);
    AssemblyAgrees(server, w, handle, targets);
    hide *;
    StartTies(p, w, handle, request, strategy, targets, early);
    TiedRepresents(server, p, w1, handle);
    ScanAgrees(server, w1, handle, request, 0);
    FirstEntry(w, handle, request, strategy, targets, early, cmds, IterationFinished(server, request, 0));
  }

  /** The new entry object. */
  method StartEntry(coordinator: ExecutionCoordinator, server: Server, order: Order, strategy: StrategyType,
                    targets: seq<Rollout.Target>, mac: Mac, now: int, ghost early: set<string>,
                    ghost p: Picture, ghost w: Rollout.World, ghost handle: Handles)
    returns (turn: Rollout.Turn<PendingClientCmd>)
    requires Pictured(server, p) && Tied(p, w, handle)
    modifies coordinator`active
    ensures order.request in coordinator.active && fresh(coordinator.active[order.request])
    ensures AllCarryOut(coordinator.active[order.request].assembled, order, mac, now)
    ensures coordinator.active == old(coordinator.active)[order.request := coordinator.active[order.request]]
    ensures var w' := Rollout.Apply(w, Rollout.Start(order.request, strategy, targets, early));
      var entry := coordinator.active[order.request];
      && Pictured(server, p) && Tied(p, w', handle)
      && entry.id == order.request && entry.Valid() && Handled(entry.View(), handle)
      && w'.entries == w.entries[order.request := Abstract(entry.View(), handle)]
      && SpawnedAlike(turn, Rollout.StartRequest(w, order.request, strategy, targets), w', order.request,
                      entry.View().iteration, early, handle)
  {
    hide Tied, Handled, Abstract, IdsOf, Assembled, IterationFinished, SpawnedAlike, Rollout.Apply,
      Rollout.StartRequest, Rollout.AfterTurn, Rollout.TakeTurn, ExecutionCoordinatorEntry.Valid;
    turn := ExecuteStrategy(coordinator, server, order, strategy, targets, mac, now);
    assert forall c :: c in p ==> InPicture(server, p, c);
    FirstTurn(server, order.request, strategy, targets, early, coordinator.active[order.request].assembled, p, w,
              handle);
  }

  /** Executing a strategy on the objects is the state machine's start of a request: the entry it leaves is the
      one the state machine reaches, the other entries stay, and the launches of the first batch are spawned. */
  method StartOne(coordinator: ExecutionCoordinator, server: Server, order: Order, strategy: StrategyType,
                  targets: seq<Rollout.Target>, mac: Mac, now: int, ghost early: set<string>,
                  ghost templateOf: string -> string, ghost p: Picture, ghost w: Rollout.World, ghost handle: Handles)
    returns (turn: Rollout.Turn<PendingClientCmd>)
    requires Pictured(server, p) && Tied(p, w, handle) && EntriesTied(coordinator, w, handle)
    requires order.template.id == templateOf(order.request)
    modifies coordinator`active
    ensures order.request in coordinator.active && EntryTemplated(coordinator.active[order.request], templateOf)
    ensures AllCarryOut(coordinator.active[order.request].assembled, order, mac, now)
    ensures var w' := Rollout.Apply(w, Rollout.Start(order.request, strategy, targets, early));
      && Pictured(server, p) && Tied(p, w', handle) && EntriesTied(coordinator, w', handle)
      && SpawnedAlike(turn, Rollout.StartRequest(w, order.request, strategy, targets), w', order.request,
                      coordinator.active[order.request].View().iteration, early, handle)
  {
    AllEntries(coordinator, w, handle);
    hide *;
    turn := StartEntry(coordinator, server, order, strategy, targets, mac, now, early, p, w, handle);
    ghost var w' := Rollout.Apply(w, Rollout.Start(order.request, strategy, targets, early));
    OrderIsTemplated(coordinator.active[order.request], order, mac, now, templateOf);
    NowTied(coordinator.active[order.request], order.request, w, w', handle);
    forall r | r in coordinator.active && r != order.request ensures r in w'.entries
      ensures EntryTied(coordinator.active[r], r, w', handle)
    {
      StillTied(coordinator.active[r], r, w, w', handle);
    }
    AllTied(coordinator, w', handle);
  }

  lemma OrderIsTemplated(entry: ExecutionCoordinatorEntry, order: Order, mac: Mac, now: int,
                         templateOf: string -> string)
    requires entry.id == order.request && order.template.id == templateOf(order.request)
    requires AllCarryOut(entry.assembled, order, mac, now)
    ensures EntryTemplated(entry, templateOf)
  {
  }

  lemma AllEntries(coordinator: ExecutionCoordinator, w: Rollout.World, handle: Handles)
    requires EntriesTied(coordinator, w, handle)
    ensures coordinator.active.Keys == w.entries.Keys
    ensures forall r :: r in coordinator.active ==> EntryTied(coordinator.active[r], r, w, handle)
  {
  }
}
