/**
 * The server the protocol is meant to look like: no nodes, no versions, no gap between reading a handle and deleting it.
 * A handle is pending until one step spends it and hands its payload to one request.
 */
module AtomicServer {
  import opened Wrappers
  import opened Models
  import opened Storage
  import opened Protocol

  datatype Status = Pending(data: Payload) | Spent(data: Payload)

  datatype Server = Server(
    records: map<Key, Status>,
    apps: map<Key, Payload>,
    seen: set<AppRecord>,
    procs: map<nat, Proc>,
    used: set<string>,
    received: set<Receipt>,
    tokens: seq<TokenSet>)

  datatype Event =
    | Stutter
    | SetApp(org: string, client: string, app: Application)
    | RemoveApp(org: string, client: string)
    | Load(pid: nat, req: AuthorizationRequest, answered: bool)
    | Start(pid: nat, purpose: Purpose)
    | Consume(pid: nat)                 // spend the handle and receive its payload
    | Drop(pid: nat)                    // spend the handle, but the answer is lost
    | Miss(pid: nat)                    // fail without touching the handle
    | Examine(pid: nat, now: int)
    | Admit(pid: nat, app: Application)
    | IssueState(pid: nat, available: Option<seq<string>>, resolves: bool, hasURL: bool, handle: string, now: int, fault: Fault)
    | IssueCode(pid: nat, claims: Option<AuthClaims>, handle: string, now: int, fault: Fault)
    | IssueTokens(pid: nat, handle: string, family: string, now: int, fault: Fault)
    | GiveUp(pid: nat)

  function End(s: Server, pid: nat, outcome: Outcome): Server {
    s.(procs := s.procs[pid := Done(outcome)])
  }

  function Put(s: Server, pid: nat, key: Key, data: Payload, tokens: set<string>, fault: Fault, success: Outcome): Server {
    var s' := End(s.(used := s.used + tokens), pid, if fault.NoFault? then success else Failed);
    if fault.LostRequest? then s' else s'.(records := s.records[key := Pending(data)])
  }

  /** One step of the atomic server; None when the event is not possible. */
  function Next(s: Server, e: Event): Option<Server> {
    match e
    case Stutter => Some(s)
    case SetApp(org, client, app) =>
      if WellFiled(org, client, app) then
        Some(s.(apps := s.apps[AppKey(org, client) := AppPayload(app)], seen := s.seen + {AppRecord(org, client, app)}))
      else None
    case RemoveApp(org, client) => Some(s.(apps := s.apps - {AppKey(org, client)}))
    case Load(pid, req, answered) =>
      if pid in s.procs then None
      else
        var key := AppKey(req.organizationID, req.clientID);
        if answered && key in s.apps && s.apps[key].AppPayload? then Some(s.(procs := s.procs[pid := Loaded(0, req, s.apps[key].app)]))
        else Some(End(s, pid, Failed))
    case Start(pid, purpose) => if pid in s.procs then None else Some(s.(procs := s.procs[pid := Claiming(0, purpose)]))
    case Consume(pid) =>
      if pid in s.procs && s.procs[pid].Claiming? then
        var p := s.procs[pid];
        var key := p.purpose.Key();
        if key in s.records && s.records[key].Pending? then
          Some(s.(records := s.records[key := Spent(s.records[key].data)],
                  received := s.received + {Receipt(pid, key, s.records[key].data)},
                  procs := s.procs[pid := Holding(0, p.purpose, s.records[key].data, Claimed)]))
        else None
      else None
    case Drop(pid) =>
      if pid in s.procs && s.procs[pid].Claiming? then
        var key := s.procs[pid].purpose.Key();
        if key in s.records && s.records[key].Pending? then
          Some(End(s.(records := s.records[key := Spent(s.records[key].data)]), pid, Failed))
        else None
      else None
    case Miss(pid) => if pid in s.procs && s.procs[pid].Claiming? then Some(End(s, pid, Failed)) else None
    case Examine(pid, now) =>
      if pid in s.procs && s.procs[pid].Holding? && s.procs[pid].stage.Claimed? then
        var p := s.procs[pid];
        Some(if CheckPasses(p, now) then s.(procs := s.procs[pid := p.(stage := Accepted(now))]) else End(s, pid, Failed))
      else None
    case Admit(pid, app) =>
      if pid in s.procs && s.procs[pid].Holding? && s.procs[pid].stage.Accepted? && !s.procs[pid].purpose.ToComplete?
         && exists r :: r in s.seen && OwnerOf(s.procs[pid].data) == (r.org, r.client) && app == Resolved(r.org, r.app)
      then
        var p := s.procs[pid];
        match GrantOf(p, app)
        case None => Some(End(s, pid, Failed))
        case Some(g) => Some(s.(procs := s.procs[pid := p.(stage := Authenticated(p.stage.checkedAt, g))]))
      else None
    case IssueState(pid, available, resolves, hasURL, handle, now, fault) =>
      if pid in s.procs && s.procs[pid].Loaded? && handle != "" && handle !in s.used then
        var p := s.procs[pid];
        var idp := SelectIDP(p.app, p.req, available);
        if !RequestAcceptable(p.app, p.req) || idp.None? || !resolves then Some(End(s, pid, Failed))
        else Some(Put(s, pid, StateKey(handle), StatePayload(NewState(p.req, idp.value, now)), {handle}, fault,
                      if hasURL then Redirected(handle) else Failed))
      else None
    case IssueCode(pid, claims, handle, now, fault) =>
      if pid in s.procs && s.procs[pid].Holding? && s.procs[pid].stage.Accepted? && s.procs[pid].purpose.ToComplete?
         && handle != "" && handle !in s.used
      then
        var p := s.procs[pid];
        if !p.data.StatePayload? then Some(End(s, pid, Failed))
        else Some(Put(s, pid, CodeKey(handle), CodePayload(NewCode(p.data.state, claims, now)), {handle}, fault, CodeSent(handle)))
      else None
    case IssueTokens(pid, handle, family, now, fault) =>
      if pid in s.procs && s.procs[pid].Holding? && s.procs[pid].stage.Authenticated? && handle != "" && handle !in s.used
         && (s.procs[pid].stage.grant.family == "" ==> family != "" && family !in s.used && handle != family)
      then
        var p := s.procs[pid];
        var g := p.stage.grant;
        if g.base.None? then Some(End(s, pid, Failed))
        else
          var fam := if g.family == "" then family else g.family;
          var s' := Put(s, pid, RefreshKey(handle), RefreshPayload(NewRefresh(g.app, g.base.value, g.scope, fam, now)),
                        {handle, fam}, fault, TokensSent(handle));
          Some(if fault.NoFault? then s'.(tokens := s'.tokens + [TokensFrom(p, g, handle, pid)]) else s')
      else None
    case GiveUp(pid) => if pid in s.procs && !s.procs[pid].Done? then Some(End(s, pid, Failed)) else None
  }

  function Serve(s: Server, events: seq<Event>): Option<Server>
    decreases |events|
  {
    if events == [] then Some(s)
    else match Next(s, events[0])
      case None => None
      case Some(s') => Serve(s', events[1..])
  }

  /** Handles are used up when they are stored; a receipt is for a spent handle's payload, and there is one per handle. */
  ghost predicate Orderly(s: Server) {
    && (forall k | k in s.records :: !k.AppKey? && k.handle in s.used)
    && (forall r | r in s.received :: r.key in s.records && s.records[r.key] == Spent(r.data))
    && (forall r, q | r in s.received && q in s.received && r.key == q.key :: r == q)
  }

  ghost predicate KeepsSpent(s: Server, t: Server) {
    forall k | k in s.records && s.records[k].Spent? :: k in t.records && t.records[k] == s.records[k]
  }

  lemma PutKeepsOrder(s: Server, pid: nat, key: Key, data: Payload, tokens: set<string>, fault: Fault, success: Outcome)
    requires Orderly(s) && !key.AppKey? && key.handle !in s.used && key.handle in tokens
    ensures Orderly(Put(s, pid, key, data, tokens, fault, success)) && KeepsSpent(s, Put(s, pid, key, data, tokens, fault, success))
  {
  }

  lemma StoringKeepsOrder(s: Server, e: Event)
    requires Orderly(s) && Next(s, e).Some? && (e.IssueState? || e.IssueCode? || e.IssueTokens?)
    ensures Orderly(Next(s, e).value) && KeepsSpent(s, Next(s, e).value)
  {
    var p := s.procs[e.pid];
    if e.IssueState? {
      var idp := SelectIDP(p.app, p.req, e.available);
      if idp.Some? {
        PutKeepsOrder(s, e.pid, StateKey(e.handle), StatePayload(NewState(p.req, idp.value, e.now)), {e.handle}, e.fault,
                      if e.hasURL then Redirected(e.handle) else Failed);
      }
    } else if e.IssueCode? {
      if p.data.StatePayload? {
        PutKeepsOrder(s, e.pid, CodeKey(e.handle), CodePayload(NewCode(p.data.state, e.claims, e.now)), {e.handle}, e.fault, CodeSent(e.handle));
      }
    } else {
      var g := p.stage.grant;
      if g.base.Some? {
        var fam := if g.family == "" then e.family else g.family;
        PutKeepsOrder(s, e.pid, RefreshKey(e.handle), RefreshPayload(NewRefresh(g.app, g.base.value, g.scope, fam, e.now)), {e.handle, fam}, e.fault,
                      TokensSent(e.handle));
      }
    }
  }

  lemma SpendingKeepsOrder(s: Server, e: Event)
    requires Orderly(s) && Next(s, e).Some? && (e.Consume? || e.Drop?)
    ensures Orderly(Next(s, e).value) && KeepsSpent(s, Next(s, e).value)
  {
  }

  lemma NextKeepsOrder(s: Server, e: Event)
    requires Orderly(s) && Next(s, e).Some?
    ensures Orderly(Next(s, e).value) && KeepsSpent(s, Next(s, e).value)
  {
    if e.IssueState? || e.IssueCode? || e.IssueTokens? {
      StoringKeepsOrder(s, e);
    } else if e.Consume? || e.Drop? {
      SpendingKeepsOrder(s, e);
    } else {
      assert Next(s, e).value.records == s.records && Next(s, e).value.received == s.received && Next(s, e).value.used == s.used;
    }
  }

  /** What the atomic server is for: a handle is handed to at most one request, with what was stored, and once spent it stays spent. */
  lemma {:induction false} HandlesAreSpentOnce(s: Server, events: seq<Event>)
    requires Orderly(s) && Serve(s, events).Some?
    ensures var t := Serve(s, events).value;
            && Orderly(t) && KeepsSpent(s, t)
    decreases |events|
  {
    if events != [] {
      NextKeepsOrder(s, events[0]);
      HandlesAreSpentOnce(Next(s, events[0]).value, events[1..]);
    }
  }
}
