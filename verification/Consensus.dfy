/** Requests collect votes until their template's threshold is met, and then start once. */
module Consensus {
  import opened Wrappers

  const MAX_REQUEST_AGE := 14 * 86400

  /** What is stored of a request. */
  datatype Request = Request(templateId: string, requester: string, approvers: set<string>, executed: bool,
                             created: int)

  /** The requester's own vote counts. */
  function Votes(r: Request): nat {
    1 + |r.approvers|
  }

  predicate Authorised(r: Request, templates: map<string, nat>) {
    r.templateId in templates && Votes(r) >= templates[r.templateId]
  }

  predicate Expired(r: Request, now: int) {
    r.created < now - MAX_REQUEST_AGE
  }

  /** The effect of checking a request: it starts if it is authorised and has not started before. */
  function Checked(r: Request, templates: map<string, nat>): Request {
    r.(executed := r.executed || Authorised(r, templates))
  }

  predicate Starts(r: Request, templates: map<string, nat>) {
    Authorised(r, templates) && !r.executed
  }

  // ---------- the objects ----------

  class ConsensusRequest {
    const id: string
    const templateId: string
    const requestUserId: string
    const createTime: int
    var approveUserIds: set<string>
    var executed: bool

    constructor (id: string, templateId: string, requestUserId: string, createTime: int)
      ensures this.id == id && View() == Request(templateId, requestUserId, {}, false, createTime)
    {
      this.id, this.templateId, this.requestUserId, this.createTime := id, templateId, requestUserId, createTime;
      approveUserIds, executed := {}, false;
    }

    function View(): Request
      reads this
    {
      Request(templateId, requestUserId, approveUserIds, executed, createTime)
    }

    /** `started` tells that the strategy was executed, which registers a coordinator entry. */
    method Start(templates: map<string, nat>) returns (started: bool)
      modifies this`executed
      ensures started <==> templateId in templates && !old(executed)
      ensures View() == old(View()).(executed := old(executed) || templateId in templates)
    {
      if templateId !in templates {
        return false;
      }
      if executed {
        return false;
      }
      executed := true;
      return true;
    }

    method Check(templates: map<string, nat>) returns (started: bool)
      modifies this`executed
      ensures started <==> Starts(old(View()), templates)
      ensures View() == Checked(old(View()), templates)
    {
      if templateId !in templates {
        return false;
      }
      var minAuth := templates[templateId];
      var voteCount := 1;
      var left := approveUserIds;
      while left != {}
        invariant left <= approveUserIds
        invariant voteCount + |left| == Votes(old(View())) && executed == old(executed)
        decreases left
      {
        var user :| user in left;
        voteCount := voteCount + 1;
        left := left - {user};
      }
      if voteCount < minAuth {
        return false;
      }
      started := Start(templates);
    }

    /** A vote counts unless it is the requester's or was cast before. */
    method Approve(user: string, templates: map<string, nat>) returns (counted: bool, started: bool)
      modifies this`approveUserIds, this`executed
      ensures counted <==> user != requestUserId && user !in old(approveUserIds)
      ensures var voted := old(View()).(approvers := old(approveUserIds) + {user});
        if counted then View() == Checked(voted, templates) && (started <==> Starts(voted, templates))
        else View() == old(View()) && !started
    {
      if requestUserId == user {
        return false, false;
      }
      if user in approveUserIds {
        return false, false;
      }
      approveUserIds := approveUserIds + {user};
      started := Check(templates);
      counted := true;
    }
  }

  class ConsensusStore {
    var pending: map<string, ConsensusRequest>

    constructor ()
      ensures pending == map[]
    {
      pending := map[];
    }

    /** Requests need the requester role; the result is missing without it. */
    method AddRequest(id: string, templateId: string, user: string, isRequester: bool, now: int)
      returns (r: Option<ConsensusRequest>)
      modifies this`pending
      ensures isRequester <==> r.Some?
      ensures r.Some? ==> fresh(r.value) && r.value.id == id && pending == old(pending)[id := r.value]
                          && r.value.View() == Request(templateId, user, {}, false, now)
      ensures r.None? ==> pending == old(pending)
    {
      if !isRequester {
        return None;
      }
      var cr := new ConsensusRequest(id, templateId, user, now);
      pending := pending[id := cr];
      r := Some(cr);
    }

    method Delete(id: string)
      modifies this`pending
      ensures pending == old(pending) - {id}
    {
      pending := pending - {id};
    }

    /** The part of saving that drops requests older than two weeks. */
    method Save(now: int)
      modifies this`pending
      ensures pending == map id | id in old(pending) && old(pending)[id].createTime >= now - 14 * 86400
                           :: old(pending)[id]
    {
      var maxAge := now - MAX_REQUEST_AGE;
      var newPending: map<string, ConsensusRequest> := map[];
      var left := pending.Keys;
      while left != {}
        invariant left <= pending.Keys && pending == old(pending)
        invariant newPending == map id | id in pending && id !in left && !Expired(pending[id].View(), now)
                                  :: pending[id]
        decreases left
      {
        var id :| id in left;
        if !(pending[id].createTime < maxAge) {
          newPending := newPending[id := pending[id]];
        }
        left := left - {id};
      }
      pending := newPending;
    }
  }

  // ---------- handlers, as atomic steps ----------

  /** `issued` and `named` are history: request ids drawn, and template ids drawn or mentioned in a request.
      `registered` counts the coordinator entries registered for each request. */
  datatype Desk = Desk(requests: map<string, Request>, templates: map<string, nat>,
                       issued: set<string>, named: set<string>, registered: multiset<string>)

  const EMPTY_DESK := Desk(map[], map[], {}, {}, multiset{})

  datatype Event =
    | AddTemplate(id: string, minAuth: nat)
    | RemoveTemplate(id: string)
    | Post(id: string, templateId: string, user: string, isRequester: bool, now: int)
    | Vote(id: string, user: string, isApprover: bool, now: int)
    | CancelRequest(id: string, now: int)

  function Saved(d: Desk, now: int): Desk {
    d.(requests := map id | id in d.requests && !Expired(d.requests[id], now) :: d.requests[id])
  }

  /** Check one stored request and register an entry if it starts. */
  function CheckStored(d: Desk, id: string): Desk
    requires id in d.requests
  {
    var r := d.requests[id];
    d.(requests := d.requests[id := Checked(r, d.templates)],
       registered := if Starts(r, d.templates) then d.registered + multiset{id} else d.registered)
  }

  function Step(d: Desk, e: Event): Desk {
    match e
    case AddTemplate(id, minAuth) => d.(templates := d.templates[id := minAuth], named := d.named + {id})
    case RemoveTemplate(id) => d.(templates := d.templates - {id})
    case Post(id, templateId, user, isRequester, now) =>
      if !isRequester then d
      else
        var added := d.(requests := d.requests[id := Request(templateId, user, {}, false, now)],
                        issued := d.issued + {id}, named := d.named + {templateId});
        Saved(CheckStored(added, id), now)
    case Vote(id, user, isApprover, now) =>
      if !isApprover || id !in d.requests then d
      else
        var r := d.requests[id];
        if user == r.requester || user in r.approvers then Saved(d, now)
        else
          var voted := d.(requests := d.requests[id := r.(approvers := r.approvers + {user})]);
          Saved(CheckStored(voted, id), now)
    case CancelRequest(id, now) =>
      if id !in d.requests then d else Saved(d.(requests := d.requests - {id}), now)
  }

  function Run(events: seq<Event>): Desk {
    if events == [] then EMPTY_DESK else Step(Run(events[..|events| - 1]), events[|events| - 1])
  }

  // ---------- what a step does ----------

  /** A vote counts if an approver casts it on a stored request that is not his own and that he has not approved; then
      he joins the approvers, and if the request is not executed and its template's threshold is met, it is, and one
      entry is registered for it. Any other vote changes no request. Every vote on a stored request drops what is older
      than two weeks. */
  lemma VoteDoes(d: Desk, id: string, user: string, isApprover: bool, now: int)
    ensures var d' := Step(d, Vote(id, user, isApprover, now));
      var counts := isApprover && id in d.requests && user != d.requests[id].requester
                    && user !in d.requests[id].approvers;
      && d'.templates == d.templates && d'.issued == d.issued && d'.named == d.named
      && (forall other :: other != id ==> d'.registered[other] == d.registered[other])
      && (!isApprover || id !in d.requests ==> d' == d)
      && (isApprover && id in d.requests ==>
            && (forall r :: r in d'.requests <==> r in d.requests && d.requests[r].created >= now - 14 * 86400)
            && (forall r :: r in d'.requests && r != id ==> d'.requests[r] == d.requests[r]))
      && (!counts ==>
            d'.registered == d.registered && forall r :: r in d'.requests ==> d'.requests[r] == d.requests[r])
      && (counts ==>
            var r := d.requests[id];
            var met := r.templateId in d.templates && 2 + |r.approvers| >= d.templates[r.templateId];
            && d'.registered[id] == d.registered[id] + (if met && !r.executed then 1 else 0)
            && (id in d'.requests ==>
                  d'.requests[id] == Request(r.templateId, r.requester, r.approvers + {user}, r.executed || met,
                                             r.created)))
  {
  }

  /** A post by a requester is stored, without approvers, and executed at once exactly if its template exists and asks
      for one vote or none; then one entry is registered for it. It drops what is older than two weeks and changes no
      other request. */
  lemma PostDoes(d: Desk, id: string, templateId: string, user: string, isRequester: bool, now: int)
    ensures var d' := Step(d, Post(id, templateId, user, isRequester, now));
      && (!isRequester ==> d' == d)
      && (isRequester ==>
            var met := templateId in d.templates && 1 >= d.templates[templateId];
            && d'.templates == d.templates && d'.issued == d.issued + {id} && d'.named == d.named + {templateId}
            && id in d'.requests && d'.requests[id] == Request(templateId, user, {}, met, now)
            && d'.registered[id] == d.registered[id] + (if met then 1 else 0)
            && forall other :: other != id ==>
                 && d'.registered[other] == d.registered[other]
                 && (other in d'.requests
                     <==> other in d.requests && d.requests[other].created >= now - 14 * 86400)
                 && (other in d'.requests ==> d'.requests[other] == d.requests[other]))
  {
  }

  /** A cancel takes a stored request off, registers nothing, and changes no other request. */
  lemma CancelDoes(d: Desk, id: string, now: int)
    ensures var d' := Step(d, CancelRequest(id, now));
      && (id !in d.requests ==> d' == d)
      && id !in d'.requests && d' == d.(requests := d'.requests)
      && forall other :: other != id && id in d.requests ==>
           && (other in d'.requests <==> other in d.requests && d.requests[other].created >= now - 14 * 86400)
           && (other in d'.requests ==> d'.requests[other] == d.requests[other])
  {
  }

  /** Templates come and go without touching a request. */
  lemma TemplatesDo(d: Desk, id: string, minAuth: nat)
    ensures Step(d, AddTemplate(id, minAuth)) == d.(templates := d.templates[id := minAuth], named := d.named + {id})
    ensures Step(d, RemoveTemplate(id)) == d.(templates := d.templates - {id})
  {
  }

  // ---------- the handlers on the objects ----------

  /** The desk shows the stored requests. */
  ghost predicate Shows(d: Desk, store: ConsensusStore)
    reads store, store.pending.Values
  {
    && d.requests.Keys == store.pending.Keys
    && (forall id :: id in store.pending ==> store.pending[id].id == id)
    && (forall id :: id in store.pending ==> d.requests[id] == store.pending[id].View())
  }

  /** Requests of different ids are different objects. */
  lemma OneObjectEach(d: Desk, store: ConsensusStore)
    requires Shows(d, store)
    ensures forall a, b :: a in store.pending && b in store.pending && store.pending[a] == store.pending[b] ==> a == b
  {
    forall a, b | a in store.pending && b in store.pending && store.pending[a] == store.pending[b] ensures a == b {
      assert store.pending[a].id == a && store.pending[b].id == b;
    }
  }

  /** Saving on the objects drops what it drops on the desk. */
  method SaveStore(store: ConsensusStore, now: int, ghost d: Desk)
    requires Shows(d, store)
    modifies store`pending
    ensures Shows(Saved(d, now), store)
  {
    store.Save(now);
  }

  /** The desk after a vote that counts, before it is saved. */
  function Voted(d: Desk, id: string, user: string): Desk
    requires id in d.requests
  {
    CheckStored(d.(requests := d.requests[id := d.requests[id].(approvers := d.requests[id].approvers + {user})]), id)
  }

  method RecordVote(store: ConsensusStore, id: string, user: string, templates: map<string, nat>, ghost d: Desk)
    returns (approved: bool, started: bool)
    requires Shows(d, store) && templates == d.templates && id in store.pending
    modifies store.pending[id]
    ensures approved <==> user != d.requests[id].requester && user !in d.requests[id].approvers
    ensures var d' := if approved then Voted(d, id, user) else d;
      && Shows(d', store)
      && d'.registered == (if started then d.registered + multiset{id} else d.registered)
  {
    OneObjectEach(d, store);
    approved, started := store.pending[id].Approve(user, templates);
  }

  /** The handler of a vote: `started` tells whether the strategy was executed. */
  method PostConsensusApprove(store: ConsensusStore, id: string, user: string, isApprover: bool, now: int,
                              templates: map<string, nat>, ghost d: Desk)
    returns (approved: bool, started: bool)
    requires Shows(d, store) && templates == d.templates
    modifies store, store.pending.Values
    ensures var d' := Step(d, Vote(id, user, isApprover, now));
      && Shows(d', store)
      && d'.registered == (if started then d.registered + multiset{id} else d.registered)
      && (approved <==> isApprover && id in d.requests && user != d.requests[id].requester
                        && user !in d.requests[id].approvers)
  {
    approved, started := false, false;
    if !isApprover || id !in store.pending {
      return;
    }
    approved, started := RecordVote(store, id, user, templates, d);
    hide Shows, CheckStored;
    SaveStore(store, now, if approved then Voted(d, id, user) else d);
  }

  /** The desk after a new request was checked, before it is saved. */
  function Posted(d: Desk, id: string, templateId: string, user: string, now: int): Desk {
    CheckStored(d.(requests := d.requests[id := Request(templateId, user, {}, false, now)],
                   issued := d.issued + {id}, named := d.named + {templateId}), id)
  }

  method RecordPost(store: ConsensusStore, id: string, templateId: string, user: string, now: int,
                    templates: map<string, nat>, ghost d: Desk)
    returns (started: bool)
    requires Shows(d, store) && templates == d.templates
    modifies store`pending
    ensures var d' := Posted(d, id, templateId, user, now);
      Shows(d', store) && d'.registered == (if started then d.registered + multiset{id} else d.registered)
  {
    var added := store.AddRequest(id, templateId, user, true, now);
    started := added.value.Check(templates);
  }

  /** The handler of a new request: it is stored, checked and saved. */
  method PostConsensusRequest(store: ConsensusStore, id: string, templateId: string, user: string, isRequester: bool,
                              now: int, templates: map<string, nat>, ghost d: Desk)
    returns (started: bool)
    requires Shows(d, store) && templates == d.templates
    modifies store`pending
    ensures var d' := Step(d, Post(id, templateId, user, isRequester, now));
      Shows(d', store) && d'.registered == (if started then d.registered + multiset{id} else d.registered)
  {
    started := false;
    if !isRequester {
      return;
    }
    started := RecordPost(store, id, templateId, user, now, templates, d);
    hide Shows, CheckStored;
    SaveStore(store, now, Posted(d, id, templateId, user, now));
  }

  /** The handler of a cancel that passed the checks on its user. */
  method DeleteConsensusRequest(store: ConsensusStore, id: string, now: int, ghost d: Desk)
    requires Shows(d, store)
    modifies store`pending
    ensures Shows(Step(d, CancelRequest(id, now)), store)
  {
    if id in store.pending {
      store.Delete(id);
      SaveStore(store, now, d.(requests := d.requests - {id}));
    }
  }

  // ---------- runs ----------

  /** Request and template ids are drawn fresh; no request has named a template before it was created. */
  predicate Fresh(d: Desk, e: Event) {
    match e
    case AddTemplate(id, _) => id !in d.named
    case Post(id, _, _, _, _) => id !in d.issued
    case _ => true
  }

  predicate FreshRun(events: seq<Event>) {
    events == [] || (FreshRun(events[..|events| - 1]) && Fresh(Run(events[..|events| - 1]), events[|events| - 1]))
  }

  ghost predicate Sound(d: Desk, id: string)
    requires id in d.requests
  {
    var r := d.requests[id];
    && id in d.issued && r.templateId in d.named
    && r.requester !in r.approvers
    && (r.templateId in d.templates ==> (r.executed <==> Votes(r) >= d.templates[r.templateId]))
    && d.registered[id] == if r.executed then 1 else 0
  }

  ghost predicate Books(d: Desk) {
    && (forall id :: id in d.requests ==> Sound(d, id))
    && (forall id :: d.registered[id] <= 1)
    && (forall id :: id in d.registered ==> id in d.issued)
    && (forall id :: id in d.templates ==> id in d.named)
  }

  lemma SavingKeepsBooks(d: Desk, now: int)
    requires Books(d)
    ensures Books(Saved(d, now))
  {
    forall id | id in Saved(d, now).requests ensures Sound(Saved(d, now), id) {
      assert Sound(d, id);
    }
  }

  /** Checking restores the equivalence of one request whose vote count may just have reached the threshold. */
  lemma CheckKeepsBooks(d: Desk, id: string)
    requires id in d.requests && Books(d.(requests := d.requests - {id}))
    requires var r := d.requests[id];
      && id in d.issued && r.templateId in d.named && r.requester !in r.approvers
      && (r.executed && r.templateId in d.templates ==> Votes(r) >= d.templates[r.templateId])
      && d.registered[id] == if r.executed then 1 else 0
    ensures Books(CheckStored(d, id))
  {
    var d' := CheckStored(d, id);
    var others := d.(requests := d.requests - {id});
    forall other | other in d'.requests ensures Sound(d', other) {
      if other != id {
        assert Sound(others, other);
      }
    }
  }

  lemma StepKeepsBooks(d: Desk, e: Event)
    requires Books(d) && Fresh(d, e)
    ensures Books(Step(d, e))
  {
    match e
    case AddTemplate(id, _) =>
      forall r | r in d.requests ensures Sound(Step(d, e), r) { assert Sound(d, r); }
    case RemoveTemplate(id) =>
      forall r | r in d.requests ensures Sound(Step(d, e), r) { assert Sound(d, r); }
    case Post(id, templateId, user, isRequester, now) =>
      if isRequester {
        PostKeepsBooks(d, id, Request(templateId, user, {}, false, now));
        var added := d.(requests := d.requests[id := Request(templateId, user, {}, false, now)],
                        issued := d.issued + {id}, named := d.named + {templateId});
        SavingKeepsBooks(CheckStored(added, id), now);
      }
    case Vote(id, user, isApprover, now) =>
      if isApprover && id in d.requests {
        var r := d.requests[id];
        if user == r.requester || user in r.approvers {
          SavingKeepsBooks(d, now);
        } else {
          VoteKeepsBooks(d, id, user);
          var voted := d.(requests := d.requests[id := r.(approvers := r.approvers + {user})]);
          SavingKeepsBooks(CheckStored(voted, id), now);
        }
      }
    case CancelRequest(id, now) =>
      if id in d.requests {
        var without := d.(requests := d.requests - {id});
        forall r | r in without.requests ensures Sound(without, r) { assert Sound(d, r); }
        SavingKeepsBooks(without, now);
      }
  }

  lemma PostKeepsBooks(d: Desk, id: string, r: Request)
    requires Books(d) && id !in d.issued && r.approvers == {} && !r.executed
    ensures Books(CheckStored(d.(requests := d.requests[id := r], issued := d.issued + {id},
                                 named := d.named + {r.templateId}), id))
  {
    var added := d.(requests := d.requests[id := r], issued := d.issued + {id}, named := d.named + {r.templateId});
    var others := added.(requests := added.requests - {id});
    forall other | other in d.requests ensures other in d.issued { assert Sound(d, other); }
    assert id !in d.registered;
    forall other | other in others.requests ensures Sound(others, other) { assert Sound(d, other); }
    CheckKeepsBooks(added, id);
  }

  lemma VoteKeepsBooks(d: Desk, id: string, user: string)
    requires Books(d) && id in d.requests
    requires user != d.requests[id].requester && user !in d.requests[id].approvers
    ensures var r := d.requests[id];
      Books(CheckStored(d.(requests := d.requests[id := r.(approvers := r.approvers + {user})]), id))
  {
    var r := d.requests[id];
    var voted := d.(requests := d.requests[id := r.(approvers := r.approvers + {user})]);
    assert Sound(d, id);
    var others := voted.(requests := voted.requests - {id});
    forall other | other in others.requests ensures Sound(others, other) { assert Sound(d, other); }
    CheckKeepsBooks(voted, id);
  }

  lemma {:induction false} RunKeepsBooks(events: seq<Event>)
    requires FreshRun(events)
    ensures Books(Run(events))
  {
    if events != [] {
      RunKeepsBooks(events[..|events| - 1]);
      StepKeepsBooks(Run(events[..|events| - 1]), events[|events| - 1]);
    }
  }

  // ---------- whose votes count ----------

  predicate Posts(e: Event, id: string) {
    e.Post? && e.id == id && e.isRequester
  }

  /** The request was posted, and later the user, an approver, voted on it. */
  ghost predicate VotedOn(events: seq<Event>, id: string, user: string) {
    exists i, j :: 0 <= i < j < |events| && Posts(events[i], id)
                   && events[j].Vote? && events[j].id == id && events[j].user == user && events[j].isApprover
  }

  ghost predicate WasPosted(events: seq<Event>, id: string) {
    exists i :: 0 <= i < |events| && Posts(events[i], id)
  }

  lemma {:induction false} IssuedWerePosted(events: seq<Event>, id: string)
    ensures id in Run(events).issued <==> WasPosted(events, id)
    ensures id in Run(events).requests ==> id in Run(events).issued
  {
    if events != [] {
      var init, last := events[..|events| - 1], events[|events| - 1];
      IssuedWerePosted(init, id);
      StepIssues(Run(init), last, id);
      hide Step;
      assert Posts(last, id) ==> Posts(events[|events| - 1], id);
      if WasPosted(init, id) {
        var i :| 0 <= i < |init| && Posts(init[i], id);
        assert Posts(events[i], id);
      }
      if WasPosted(events, id) && !Posts(last, id) {
        var i :| 0 <= i < |events| && Posts(events[i], id);
        assert Posts(init[i], id);
      }
    }
  }

  lemma StepIssues(d: Desk, e: Event, id: string)
    ensures id in Step(d, e).issued <==> id in d.issued || Posts(e, id)
    ensures id in Step(d, e).requests ==> id in d.requests || Posts(e, id)
  {
  }

  lemma {:induction false} VotedOnOneMore(events: seq<Event>, id: string, user: string)
    requires events != []
    ensures var init, last := events[..|events| - 1], events[|events| - 1];
      VotedOn(events, id, user)
      <==> VotedOn(init, id, user)
           || (WasPosted(init, id) && last.Vote? && last.id == id && last.user == user && last.isApprover)
  {
    var n := |events| - 1;
    var init, last := events[..n], events[n];
    hide Posts;
    if VotedOn(init, id, user) {
      var i, j :| 0 <= i < j < |init| && Posts(init[i], id)
                  && init[j].Vote? && init[j].id == id && init[j].user == user && init[j].isApprover;
      assert Posts(events[i], id) && events[j] == init[j];
    }
    if WasPosted(init, id) && last.Vote? && last.id == id && last.user == user && last.isApprover {
      var i :| 0 <= i < |init| && Posts(init[i], id);
      assert Posts(events[i], id) && events[n] == last;
    }
    if VotedOn(events, id, user) {
      var i, j :| 0 <= i < j < |events| && Posts(events[i], id)
                  && events[j].Vote? && events[j].id == id && events[j].user == user && events[j].isApprover;
      assert Posts(init[i], id);
      assert j < n ==> init[j] == events[j];
    }
  }

  /** What one step does to the approvers of a request that is stored afterwards. */
  lemma ApproversAfter(d: Desk, e: Event, id: string)
    requires id in Step(d, e).requests
    ensures Posts(e, id) ==> Step(d, e).requests[id].approvers == {}
    ensures !Posts(e, id) ==>
              && id in d.requests && Step(d, e).requests[id].requester == d.requests[id].requester
              && Step(d, e).requests[id].approvers
                 == d.requests[id].approvers
                    + if e.Vote? && e.id == id && e.isApprover && e.user != d.requests[id].requester
                      then {e.user} else {}
  {
    hide Step;
    match e
    case Vote(other, user, isApprover, now) => VoteDoes(d, other, user, isApprover, now);
    case Post(other, templateId, user, isRequester, now) => PostDoes(d, other, templateId, user, isRequester, now);
    case CancelRequest(other, now) => CancelDoes(d, other, now);
    case AddTemplate(other, minAuth) => TemplatesDo(d, other, minAuth);
    case RemoveTemplate(other) => TemplatesDo(d, other, 0);
  }

  /** Over any run with fresh identifiers, the approvers of a stored request are exactly the users other than its
      requester who voted on it as approvers after it was posted. */
  lemma {:induction false} ApproversAreVoters(events: seq<Event>, id: string, user: string)
    requires FreshRun(events) && id in Run(events).requests
    ensures user in Run(events).requests[id].approvers
            <==> user != Run(events).requests[id].requester && VotedOn(events, id, user)
  {
    assert events != [];
    var init, last := events[..|events| - 1], events[|events| - 1];
    var d := Run(init);
    ApproversAfter(d, last, id);
    VotedOnOneMore(events, id, user);
    IssuedWerePosted(init, id);
    assert Posts(last, id) ==> id !in d.issued;
    hide Step;
    if Posts(last, id) {
      hide WasPosted;
      NotVotedUnposted(init, id, user);
    } else {
      ApproversAreVoters(init, id, user);
      hide VotedOn, WasPosted;
    }
  }

  lemma NotVotedUnposted(events: seq<Event>, id: string, user: string)
    requires !WasPosted(events, id)
    ensures !VotedOn(events, id, user)
  {
    hide Posts;
  }

  /** After any run of handlers, the approvers of a stored request are the users other than its requester who voted on
      it since it was posted; if its template still exists, it has been executed exactly if they and the requester
      meet the threshold; and no request ever registered more than one coordinator entry, stored ones exactly if they
      were executed. */
  lemma QuorumIff(events: seq<Event>)
    requires FreshRun(events)
    ensures var d := Run(events);
      && (forall id, user :: id in d.requests ==>
            (user in d.requests[id].approvers <==> user != d.requests[id].requester && VotedOn(events, id, user)))
      && (forall id :: id in d.requests && d.requests[id].templateId in d.templates ==>
            (d.requests[id].executed <==> 1 + |d.requests[id].approvers| >= d.templates[d.requests[id].templateId]))
      && (forall id :: d.registered[id] <= 1)
      && (forall id :: id in d.requests ==> d.registered[id] == if d.requests[id].executed then 1 else 0)
  {
    RunKeepsBooks(events);
    forall id | id in Run(events).requests ensures Sound(Run(events), id) {}
    forall id, user | id in Run(events).requests
      ensures user in Run(events).requests[id].approvers
              <==> user != Run(events).requests[id].requester && VotedOn(events, id, user)
    {
      ApproversAreVoters(events, id, user);
    }
  }

  /** Why template ids must be fresh: nothing checks the stored requests again when a template appears. Whatever id
      a template is added under, the books stay right exactly if every stored request that names it already has, or
      has not, been executed as its votes now demand. */
  lemma AddTemplateKeepsBooksIff(d: Desk, id: string, minAuth: nat)
    requires Books(d)
    ensures Books(Step(d, AddTemplate(id, minAuth)))
            <==> forall r :: r in d.requests && d.requests[r].templateId == id ==>
                   (d.requests[r].executed <==> Votes(d.requests[r]) >= minAuth)
  {
    var d' := Step(d, AddTemplate(id, minAuth));
    forall r | r in d.requests
      ensures Sound(d', r)
              <==> (d.requests[r].templateId == id ==> (d.requests[r].executed <==> Votes(d.requests[r]) >= minAuth))
    {
      assert Sound(d, r);
    }
  }
}
