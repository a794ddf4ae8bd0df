/**
 * The authorization exchange of pkg/idp/idp_engine.go as a state machine: any number of nodes, each serving
 * any number of requests, over one versioned store. Every storage access is a step of its own, so other
 * requests may run between a handle's Get and its versioned Delete.
 */
module Protocol {
  import opened Wrappers
  import opened Models
  import opened Storage

  const AUTH_STATE_TTL: int := 15 * MINUTE
  const AUTH_CODE_TTL: int := 2 * MINUTE
  const REFRESH_TOKEN_TTL: int := 14 * 24 * HOUR

  const APP_CACHE_TTL: int := MINUTE

  const PKCE_METHOD_S256 := "S256"

  /** The S256 transformation; nothing is assumed about it. */
  const S256Challenge: string -> string

  /** What the store holds under a session key or an application key. */
  datatype Key =
    | StateKey(handle: string)
    | CodeKey(handle: string)
    | RefreshKey(handle: string)
    | AppKey(org: string, client: string)

  datatype AuthState = AuthState(
    organizationID: string,
    clientID: string,
    redirectURI: string,
    scope: string,
    originalState: string,
    upstreamIDP: string,
    codeChallenge: string,
    codeChallengeMethod: string,
    nonce: string,
    createdAt: int)

  datatype AuthCode = AuthCode(
    organizationID: string,
    clientID: string,
    redirectURI: string,
    scope: string,
    claims: Option<AuthClaims>,
    codeChallenge: string,
    codeChallengeMethod: string,
    nonce: string,
    createdAt: int,
    expiresAt: int)

  datatype RefreshToken = RefreshToken(
    organizationID: string,
    clientID: string,
    scope: string,
    claims: AuthClaims,
    familyID: string,
    createdAt: int,
    expiresAt: int)

  datatype Payload =
    | StatePayload(state: AuthState)
    | CodePayload(code: AuthCode)
    | RefreshPayload(refresh: RefreshToken)
    | AppPayload(app: Application)

  type Record = Versioned<Payload>

  datatype AuthorizationRequest = AuthorizationRequest(
    organizationID: string,
    clientID: string,
    redirectURI: string,
    scope: string,
    state: string,
    idpID: string,
    codeChallenge: string,
    codeChallengeMethod: string,
    nonce: string)

  datatype TokenRequest = TokenRequest(
    organizationID: string,
    clientID: string,
    clientSecret: string,
    redirectURI: string,
    codeVerifier: string)

  // ---------------------------------------------------------------------------------------------------
  // Local decisions: the checks a node makes between storage accesses
  // ---------------------------------------------------------------------------------------------------

  /** The precondition on application records: filed under their own client id, in their own organization. */
  predicate WellFiled(org: string, client: string, app: Application) {
    app.clientID == client && (app.organizationID == org || app.organizationID == "")
  }

  /** loadApplication fills in a missing organization. */
  function Resolved(org: string, app: Application): Application {
    if app.organizationID == "" then app.(organizationID := org) else app
  }

  predicate PkceMethodAccepted(challenge: string, transform: string) {
    challenge == "" || transform == PKCE_METHOD_S256
  }

  predicate RequestAcceptable(app: Application, req: AuthorizationRequest) {
    && req.redirectURI != "" && req.redirectURI in app.redirectURIs
    && (app.IsPublicClient() ==> req.codeChallenge != "")
    && PkceMethodAccepted(req.codeChallenge, req.codeChallengeMethod)
  }

  /** The provider an authorization request is sent to; `available` is the tenant's enabled list, if it could be read. */
  function SelectIDP(app: Application, req: AuthorizationRequest, available: Option<seq<string>>): Option<string> {
    if req.idpID == "" then
      if |app.allowedIDPs| > 0 then Some(app.allowedIDPs[0])
      else if available.Some? && |available.value| == 1 then Some(available.value[0])
      else None
    else if |app.allowedIDPs| > 0 && req.idpID !in app.allowedIDPs then None
    else Some(req.idpID)
  }

  function NewState(req: AuthorizationRequest, idp: string, now: int): AuthState {
    AuthState(req.organizationID, req.clientID, req.redirectURI, req.scope, req.state, idp,
              req.codeChallenge, req.codeChallengeMethod, req.nonce, now)
  }

  function NewCode(state: AuthState, claims: Option<AuthClaims>, now: int): AuthCode {
    AuthCode(state.organizationID, state.clientID, state.redirectURI, state.scope, claims,
             state.codeChallenge, state.codeChallengeMethod, state.nonce, now, now + AUTH_CODE_TTL)
  }

  function NewRefresh(app: Application, base: AuthClaims, scope: string, family: string, now: int): RefreshToken {
    RefreshToken(app.organizationID, app.clientID, scope, base, family, now, now + REFRESH_TOKEN_TTL)
  }

  predicate VerifyPKCE(code: AuthCode, verifier: string) {
    && code.codeChallenge != ""
    && verifier != ""
    && 43 <= |verifier| <= 128
    && code.codeChallengeMethod == PKCE_METHOD_S256
    && code.codeChallenge == S256Challenge(verifier)
  }

  predicate StateFresh(state: AuthState, now: int) {
    now <= state.createdAt + AUTH_STATE_TTL
  }

  predicate CodeRedeemable(code: AuthCode, req: TokenRequest, now: int) {
    && now <= code.expiresAt
    && code.clientID == req.clientID
    && (req.redirectURI == "" || req.redirectURI == code.redirectURI)
  }

  predicate RefreshRedeemable(rt: RefreshToken, req: TokenRequest, now: int) {
    now <= rt.expiresAt && rt.clientID == req.clientID
  }

  predicate CodeClientAuthenticated(app: Application, code: AuthCode, req: TokenRequest) {
    if app.IsPublicClient() then VerifyPKCE(code, req.codeVerifier)
    else app.clientSecret == req.clientSecret && (code.codeChallenge != "" ==> VerifyPKCE(code, req.codeVerifier))
  }

  predicate RefreshClientAuthenticated(app: Application, req: TokenRequest) {
    app.IsPublicClient() || app.clientSecret == req.clientSecret
  }

  // ---------------------------------------------------------------------------------------------------
  // Machine state
  // ---------------------------------------------------------------------------------------------------

  /** Why a request wants to consume a handle. */
  datatype Purpose =
    | ToComplete(stateID: string)
    | ToRedeem(code: string, treq: TokenRequest)
    | ToRefresh(token: string, treq: TokenRequest)
  {
    function Key(): Key {
      match this
      case ToComplete(h) => StateKey(h)
      case ToRedeem(h, _) => CodeKey(h)
      case ToRefresh(h, _) => RefreshKey(h)
    }
  }

  /** What a request that has claimed a record is about to mint from it. */
  datatype Grant = Grant(
    treq: TokenRequest,
    app: Application,
    base: Option<AuthClaims>,
    scope: string,
    nonce: string,
    family: string)

  datatype Stage =
    | Claimed                              // the versioned Delete succeeded; nothing checked yet
    | Accepted(checkedAt: int)             // the expiry and client checks passed
    | Authenticated(checkedAt: int, grant: Grant)

  datatype Outcome = Failed | Redirected(handle: string) | CodeSent(handle: string) | TokensSent(handle: string)

  /** One request in progress. */
  datatype Proc =
    | Loaded(node: nat, req: AuthorizationRequest, app: Application)
    | Claiming(node: nat, purpose: Purpose)
    | Read(node: nat, purpose: Purpose, record: Record)
    | Holding(node: nat, purpose: Purpose, data: Payload, stage: Stage)
    | Done(outcome: Outcome)

  /** A node's private maps; they are only ever written. */
  datatype Locals = Locals(states: map<string, AuthState>, codes: map<string, AuthCode>)

  /** A node's cached application record for an organization and client, and when it was read by that node's clock. */
  datatype AppSlot = AppSlot(node: nat, org: string, client: string)
  datatype CachedApp = CachedApp(app: Application, at: int)

  /** Where a session record came from. */
  datatype Source =
    | Requested(req: AuthorizationRequest, app: Application, available: Option<seq<string>>)
    | FromState(parent: Key, checkedAt: int)
    | FromGrant(parent: Key, checkedAt: int, grant: Grant)

  datatype Issue = Issue(data: Payload, source: Source, pid: nat, seqno: nat)

  datatype AppRecord = AppRecord(org: string, client: string, app: Application)
  datatype Receipt = Receipt(pid: nat, key: Key, data: Payload)
  datatype Attempt = Attempt(pid: nat, key: Key)

  /** A token set that was sent to a client. */
  datatype TokenSet = TokenSet(
    source: Key,
    checkedAt: int,
    grant: Grant,
    organizationID: string,
    clientID: string,
    scope: string,
    idTokenNonce: string,
    refreshHandle: string,
    pid: nat)

  /** What has happened so far; no step depends on it. */
  datatype History = History(
    apps: set<AppRecord>,          // application records ever stored
    issued: map<Key, Issue>,       // session records ever stored
    received: set<Receipt>,        // payloads handed to a request by claimSingleUse
    ended: set<Attempt>,           // claimSingleUse calls that returned
    tokens: seq<TokenSet>)

  datatype Sys = Sys(
    store: map<Key, Record>,
    nodes: map<nat, Locals>,
    appCaches: map<AppSlot, CachedApp>,
    procs: map<nat, Proc>,
    used: set<string>,             // values SecureToken has returned
    hist: History)

  const Init := Sys(map[], map[], map[], map[], {}, History({}, map[], {}, {}, []))

  function LocalsOf(s: Sys, node: nat): Locals {
    if node in s.nodes then s.nodes[node] else Locals(map[], map[])
  }

  // ---------------------------------------------------------------------------------------------------
  // Steps
  // ---------------------------------------------------------------------------------------------------

  datatype Action =
    | PutApp(org: string, client: string, app: Application, version: string)
    | DeleteApp(org: string, client: string)
    | LoadForAuthorize(pid: nat, node: nat, req: AuthorizationRequest, fault: Fault)
    | StoreState(pid: nat, available: Option<seq<string>>, resolves: bool, hasURL: bool,
                 handle: string, now: int, version: string, fault: Fault)
    | Begin(pid: nat, node: nat, purpose: Purpose)
    | Get(pid: nat, fault: Fault)
    | Delete(pid: nat, fault: Fault)
    | Check(pid: nat, now: int)
    | StoreCode(pid: nat, claims: Option<AuthClaims>, handle: string, now: int, version: string, fault: Fault)
    | CacheApp(slot: AppSlot, now: int)
    | Authenticate(pid: nat, app: Application, now: int)
    | Mint(pid: nat, handle: string, family: string, now: int, version: string, fault: Fault)
    | Abandon(pid: nat)

  predicate FreshToken(s: Sys, token: string) {
    token != "" && token !in s.used
  }

  /** The request whose step this is; administrators have none, and a node's cache is shared by its requests. */
  function Actor(a: Action): Option<nat> {
    match a
    case PutApp(_, _, _, _) => None
    case DeleteApp(_, _) => None
    case CacheApp(_, _) => None
    case _ => Some(a.pid)
  }

  predicate Enabled(s: Sys, a: Action) {
    match a
    case PutApp(org, client, app, _) => WellFiled(org, client, app)
    case DeleteApp(_, _) => true
    case LoadForAuthorize(pid, _, _, _) => pid !in s.procs
    case StoreState(pid, _, _, _, handle, _, _, _) => pid in s.procs && s.procs[pid].Loaded? && FreshToken(s, handle)
    case Begin(pid, _, _) => pid !in s.procs
    case Get(pid, _) => pid in s.procs && s.procs[pid].Claiming?
    case Delete(pid, _) => pid in s.procs && s.procs[pid].Read?
    case Check(pid, _) => pid in s.procs && s.procs[pid].Holding? && s.procs[pid].stage.Claimed?
    case StoreCode(pid, _, handle, _, _, _) =>
      pid in s.procs && s.procs[pid].Holding? && s.procs[pid].stage.Accepted? && s.procs[pid].purpose.ToComplete?
      && FreshToken(s, handle)
    case CacheApp(slot, _) => AppKey(slot.org, slot.client) in s.store && s.store[AppKey(slot.org, slot.client)].data.AppPayload?
    case Authenticate(pid, app, now) =>
      pid in s.procs && s.procs[pid].Holding? && s.procs[pid].stage.Accepted? && !s.procs[pid].purpose.ToComplete?
      && AppKnown(s, AppSlot(s.procs[pid].node, OwnerOf(s.procs[pid].data).0, OwnerOf(s.procs[pid].data).1), app, now)
    case Mint(pid, handle, family, _, _, _) =>
      pid in s.procs && s.procs[pid].Holding? && s.procs[pid].stage.Authenticated?
      && FreshToken(s, handle)
      && (s.procs[pid].stage.grant.family == "" ==> FreshToken(s, family) && handle != family)
    case Abandon(pid) => pid in s.procs && !s.procs[pid].Done?
  }

  /** loadApplication: what the node read at most a minute ago. */
  predicate AppKnown(s: Sys, slot: AppSlot, app: Application, now: int) {
    slot in s.appCaches && s.appCaches[slot].app == app && now <= s.appCaches[slot].at + APP_CACHE_TTL
  }

  /** The organization and client a claimed record names. */
  function OwnerOf(data: Payload): (string, string) {
    match data
    case StatePayload(st) => (st.organizationID, st.clientID)
    case CodePayload(c) => (c.organizationID, c.clientID)
    case RefreshPayload(rt) => (rt.organizationID, rt.clientID)
    case AppPayload(app) => (app.organizationID, app.clientID)
  }

  function Finish(s: Sys, pid: nat, outcome: Outcome): Sys {
    s.(procs := s.procs[pid := Done(outcome)])
  }

  /**
   * A Put of a new session record and the end of the request that makes it. The fresh tokens are used up whatever
   * happens; the record is stored unless the Put was lost; the request succeeds only if the Put reported success.
   */
  function StoreAndFinish(s: Sys, key: Key, i: Issue, version: string, tokens: set<string>, fault: Fault, success: Outcome): Sys {
    var s' := s.(used := s.used + tokens, procs := s.procs[i.pid := Done(if fault.NoFault? then success else Failed)]);
    if fault.LostRequest? then s'
    else s'.(store := s.store[key := Versioned(version, i.data)], hist := s.hist.(issued := s.hist.issued[key := i]))
  }

  function Ended(s: Sys, pid: nat, key: Key): Sys {
    s.(hist := s.hist.(ended := s.hist.ended + {Attempt(pid, key)}))
  }

  function DoLoadForAuthorize(s: Sys, pid: nat, node: nat, req: AuthorizationRequest, fault: Fault): Sys {
    var key := AppKey(req.organizationID, req.clientID);
    if fault.NoFault? && key in s.store && s.store[key].data.AppPayload? then
      s.(procs := s.procs[pid := Loaded(node, req, s.store[key].data.app)])
    else
      Finish(s, pid, Failed)
  }

  function StateIssue(s: Sys, p: Proc, pid: nat, idp: string, available: Option<seq<string>>, now: int): (i: Issue)
    requires p.Loaded?
    ensures i.data.StatePayload?
  {
    Issue(StatePayload(NewState(p.req, idp, now)), Requested(p.req, p.app, available), pid, |s.hist.issued|)
  }

  function DoStoreState(s: Sys, p: Proc, pid: nat, available: Option<seq<string>>, resolves: bool, hasURL: bool,
                        handle: string, now: int, version: string, fault: Fault): Sys
    requires p.Loaded?
  {
    var idp := SelectIDP(p.app, p.req, available);
    if !RequestAcceptable(p.app, p.req) || idp.None? || !resolves then
      Finish(s, pid, Failed)
    else
      var i := StateIssue(s, p, pid, idp.value, available, now);
      var s' := StoreAndFinish(s, StateKey(handle), i, version, {handle}, fault, if hasURL then Redirected(handle) else Failed);
      if !fault.NoFault? then s'
      else
        var l := LocalsOf(s, p.node);
        s'.(nodes := s.nodes[p.node := l.(states := l.states[handle := i.data.state])])
  }

  function DoBegin(s: Sys, pid: nat, node: nat, purpose: Purpose): Sys {
    var l := LocalsOf(s, node);
    var l' := match purpose
      case ToComplete(h) => l.(states := l.states - {h})
      case ToRedeem(h, _) => l.(codes := l.codes - {h})
      case ToRefresh(_, _) => l;
    s.(nodes := s.nodes[node := l'], procs := s.procs[pid := Claiming(node, purpose)])
  }

  /** The Get half of claimSingleUse. An empty version is refused. */
  function DoGet(s: Sys, p: Proc, pid: nat, fault: Fault): Sys
    requires p.Claiming?
  {
    var key := p.purpose.Key();
    if fault.NoFault? && key in s.store && s.store[key].version != "" then
      s.(procs := s.procs[pid := Read(p.node, p.purpose, s.store[key])])
    else
      Ended(Finish(s, pid, Failed), pid, key)
  }

  /** The versioned Delete half of claimSingleUse: it removes the record only at the version that was read. */
  function DoDelete(s: Sys, p: Proc, pid: nat, fault: Fault): Sys
    requires p.Read?
  {
    var key := p.purpose.Key();
    var matches := key in s.store && s.store[key].version == p.record.version;
    var s1 := if matches && !fault.LostRequest? then s.(store := s.store - {key}) else s;
    if matches && fault.NoFault? then
      var s2 := s1.(hist := s1.hist.(received := s1.hist.received + {Receipt(pid, key, p.record.data)}));
      Ended(s2.(procs := s2.procs[pid := Holding(p.node, p.purpose, p.record.data, Claimed)]), pid, key)
    else
      Ended(Finish(s1, pid, Failed), pid, key)
  }

  /** The expiry and client checks that follow a successful claim. */
  predicate CheckPasses(p: Proc, now: int)
    requires p.Holding?
  {
    match (p.purpose, p.data)
    case (ToComplete(_), StatePayload(st)) => StateFresh(st, now)
    case (ToRedeem(_, treq), CodePayload(c)) => CodeRedeemable(c, treq, now)
    case (ToRefresh(_, treq), RefreshPayload(rt)) => RefreshRedeemable(rt, treq, now)
    case _ => false
  }

  function DoCheck(s: Sys, p: Proc, pid: nat, now: int): Sys
    requires p.Holding?
  {
    if CheckPasses(p, now) then s.(procs := s.procs[pid := p.(stage := Accepted(now))]) else Finish(s, pid, Failed)
  }

  function CodeIssue(s: Sys, p: Proc, pid: nat, claims: Option<AuthClaims>, now: int): (i: Issue)
    requires p.Holding? && p.stage.Accepted? && p.data.StatePayload?
    ensures i.data.CodePayload?
  {
    Issue(CodePayload(NewCode(p.data.state, claims, now)), FromState(p.purpose.Key(), p.stage.checkedAt), pid, |s.hist.issued|)
  }

  function DoStoreCode(s: Sys, p: Proc, pid: nat, claims: Option<AuthClaims>, handle: string, now: int,
                       version: string, fault: Fault): Sys
    requires p.Holding? && p.stage.Accepted?
  {
    if !p.data.StatePayload? then Finish(s, pid, Failed)
    else
      var i := CodeIssue(s, p, pid, claims, now);
      var s' := StoreAndFinish(s, CodeKey(handle), i, version, {handle}, fault, CodeSent(handle));
      if !fault.NoFault? then s'
      else
        var l := LocalsOf(s, p.node);
        s'.(nodes := s.nodes[p.node := l.(codes := l.codes[handle := i.data.code])])
  }

  /** The grant a claimed code or refresh token gives once the client has proved itself. */
  function GrantOf(p: Proc, app: Application): Option<Grant>
    requires p.Holding?
  {
    match (p.purpose, p.data)
    case (ToRedeem(_, treq), CodePayload(c)) =>
      if CodeClientAuthenticated(app, c, treq) then Some(Grant(treq, app, c.claims, c.scope, c.nonce, "")) else None
    case (ToRefresh(_, treq), RefreshPayload(rt)) =>
      if RefreshClientAuthenticated(app, treq) then Some(Grant(treq, app, Some(rt.claims), rt.scope, "", rt.familyID)) else None
    case _ => None
  }

  function DoAuthenticate(s: Sys, p: Proc, pid: nat, app: Application): Sys
    requires p.Holding? && p.stage.Accepted?
  {
    match GrantOf(p, app)
    case None => Finish(s, pid, Failed)
    case Some(g) => s.(procs := s.procs[pid := p.(stage := Authenticated(p.stage.checkedAt, g))])
  }

  /** issueTokens and mintRefreshToken; a failure to resolve a signing key or to sign is an Abandon. */
  function DoMint(s: Sys, p: Proc, pid: nat, handle: string, family: string, now: int, version: string, fault: Fault): Sys
    requires p.Holding? && p.stage.Authenticated?
  {
    var g := p.stage.grant;
    if g.base.None? then Finish(s, pid, Failed)
    else
      var fam := if g.family == "" then family else g.family;
      var i := MintIssue(s, p, pid, fam, now);
      var s' := StoreAndFinish(s, RefreshKey(handle), i, version, {handle, fam}, fault, TokensSent(handle));
      if !fault.NoFault? then s'
      else s'.(hist := s'.hist.(tokens := s'.hist.tokens + [TokensFrom(p, g, handle, pid)]))
  }

  function MintIssue(s: Sys, p: Proc, pid: nat, fam: string, now: int): Issue
    requires p.Holding? && p.stage.Authenticated? && p.stage.grant.base.Some?
  {
    var g := p.stage.grant;
    Issue(RefreshPayload(NewRefresh(g.app, g.base.value, g.scope, fam, now)), FromGrant(p.purpose.Key(), p.stage.checkedAt, g),
          pid, |s.hist.issued|)
  }

  function TokensFrom(p: Proc, g: Grant, handle: string, pid: nat): TokenSet
    requires p.Holding? && p.stage.Authenticated?
  {
    TokenSet(p.purpose.Key(), p.stage.checkedAt, g, g.app.organizationID, g.app.clientID, g.scope, g.nonce, handle, pid)
  }

  function Apply(s: Sys, a: Action): Sys
    requires Enabled(s, a)
  {
    match a
    case PutApp(org, client, app, version) =>
      s.(store := s.store[AppKey(org, client) := Versioned(version, AppPayload(app))],
         hist := s.hist.(apps := s.hist.apps + {AppRecord(org, client, app)}))
    case DeleteApp(org, client) => s.(store := s.store - {AppKey(org, client)})
    case LoadForAuthorize(pid, node, req, fault) => DoLoadForAuthorize(s, pid, node, req, fault)
    case StoreState(pid, available, resolves, hasURL, handle, now, version, fault) =>
      DoStoreState(s, s.procs[pid], pid, available, resolves, hasURL, handle, now, version, fault)
    case Begin(pid, node, purpose) => DoBegin(s, pid, node, purpose)
    case Get(pid, fault) => DoGet(s, s.procs[pid], pid, fault)
    case Delete(pid, fault) => DoDelete(s, s.procs[pid], pid, fault)
    case Check(pid, now) => DoCheck(s, s.procs[pid], pid, now)
    case StoreCode(pid, claims, handle, now, version, fault) =>
      DoStoreCode(s, s.procs[pid], pid, claims, handle, now, version, fault)
    case CacheApp(slot, now) =>
      s.(appCaches := s.appCaches[slot := CachedApp(Resolved(slot.org, s.store[AppKey(slot.org, slot.client)].data.app), now)])
    case Authenticate(pid, app, _) => DoAuthenticate(s, s.procs[pid], pid, app)
    case Mint(pid, handle, family, now, version, fault) =>
      DoMint(s, s.procs[pid], pid, handle, family, now, version, fault)
    case Abandon(pid) => Finish(s, pid, Failed)
  }

  /** Runs a schedule; None when some step of it is not possible. */
  function Exec(s: Sys, acts: seq<Action>): Option<Sys>
    decreases |acts|
  {
    if acts == [] then Some(s)
    else if Enabled(s, acts[0]) then Exec(Apply(s, acts[0]), acts[1..])
    else None
  }

  lemma {:induction false} ExecAppend(s: Sys, a: seq<Action>, b: seq<Action>)
    requires Exec(s, a).Some?
    ensures Exec(s, a + b) == Exec(Exec(s, a).value, b)
    decreases |a|
  {
    if a == [] {
      assert a + b == b;
    } else {
      ExecAppend(Apply(s, a[0]), a[1..], b);
      assert (a + b)[1..] == a[1..] + b;
    }
  }
}
