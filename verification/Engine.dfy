/**
 * IDPEngine (pkg/idp/idp_engine.go): one node's engine, working step by step on a store it shares with any number of
 * others. Every method accounts for its storage accesses as steps of the protocol machine, and for the keys it resolves and
 * the tokens it signs as steps of the key machine, so what is proved of the machines' runs holds of the code.
 */
module Engine {
  import opened Wrappers
  import opened Models
  import opened Storage
  import opened Protocol
  import opened ProtocolInvariant
  import opened ProtocolTheorems
  import opened Registration
  import opened Schedule
  import opened Jwt
  import opened Minting
  import opened Racing
  import opened Providers
  import Presets
  import Cache
  import Keys
  import KeyRing
  import KeyService

  function AppCacheKey(org: string, client: string): string {
    Keys.CacheKey(org, Keys.AppArea, client).Render()
  }

  /** Every cached application is the machine's, expiring a minute after it was read; the machine may remember more. */
  ghost predicate AppsMirrored(items: map<string, Cache.Item<Application>>, appCaches: map<AppSlot, CachedApp>, node: nat, tenants: set<string>) {
    forall k | k in items :: exists slot :: AppMirrors(items[k], k, appCaches, node, slot) && slot.org in tenants
  }

  ghost predicate AppMirrors(item: Cache.Item<Application>, name: string, appCaches: map<AppSlot, CachedApp>, node: nat, slot: AppSlot) {
    && slot.node == node && name == AppCacheKey(slot.org, slot.client) && slot in appCaches
    && item.value == appCaches[slot].app && item.expiresAt == Some(appCaches[slot].at + APP_CACHE_TTL)
  }

  /** A cached application is the right tenant's and the right client's, as read at most a minute ago. */
  lemma CachedAppIsKnown(items: map<string, Cache.Item<Application>>, s: Sys, tenants: set<string>, slot: AppSlot, now: int)
    requires Keys.AppsApart(tenants) && AppsMirrored(items, s.appCaches, slot.node, tenants) && slot.org in tenants
    requires Cache.Lookup(items, AppCacheKey(slot.org, slot.client), now).Some?
    ensures slot in s.appCaches && now <= s.appCaches[slot].at + MINUTE
    ensures s.appCaches[slot].app == Cache.Lookup(items, AppCacheKey(slot.org, slot.client), now).value
  {
    var k := AppCacheKey(slot.org, slot.client);
    var other :| AppMirrors(items[k], k, s.appCaches, slot.node, other) && other.org in tenants;
    assert Keys.AppsApartFrom(slot.org, other.org);
    Keys.CacheKeysDetermine(slot.org, slot.client, other.org, other.client, Keys.AppArea);
  }

  lemma CachingMirrors(items: map<string, Cache.Item<Application>>, appCaches: map<AppSlot, CachedApp>, tenants: set<string>, slot: AppSlot,
                       app: Application, now: int)
    requires AppsMirrored(items, appCaches, slot.node, tenants) && slot.org in tenants
    ensures AppsMirrored(Cache.WithItem(items, AppCacheKey(slot.org, slot.client), app, APP_CACHE_TTL, now),
                         appCaches[slot := CachedApp(app, now)], slot.node, tenants)
  {
    var name := AppCacheKey(slot.org, slot.client);
    var more, all := Cache.WithItem(items, name, app, APP_CACHE_TTL, now), appCaches[slot := CachedApp(app, now)];
    forall k | k in more ensures exists x :: AppMirrors(more[k], k, all, slot.node, x) && x.org in tenants {
      if k == name {
        assert AppMirrors(more[k], k, all, slot.node, slot);
      } else {
        var x :| AppMirrors(items[k], k, appCaches, slot.node, x) && x.org in tenants;
        assert AppMirrors(more[k], k, all, slot.node, x);
      }
    }
  }

  /** The organization of a claimed record once had an application record stored. */
  lemma OwnerIsTenant(world: World, pid: nat)
    requires world.Scheduled() && pid in world.sys.procs && world.sys.procs[pid].Holding?
    ensures OwnerOf(world.sys.procs[pid].data).0 in world.tenants
  {
    var s := world.sys;
    world.Ran();
    ReachableInv(s);
    HolderFacts(s, pid);
    var k := s.procs[pid].purpose.Key();
    LineageCarries(s, k);
    OriginWasAuthorized(s, k);
  }

  datatype Redirection = Redirection(uri: string, code: string, state: string)

  datatype EngineError =
    | BadRequest         // turned away before anything was looked at
    | AppUnavailable     // the application record could not be loaded
    | RequestRejected    // an authorization request the application does not permit, or with no provider to choose
    | ProviderUnresolved // no usable record for the provider
    | NoAuthorizeURL
    | UpstreamFailed     // no identity came back from the provider
    | InvalidHandle      // nothing to claim
    | NotRedeemable      // claimed, but expired or not this client's
    | ClientRejected     // neither the secret nor the verifier fits
    | NoIdentity         // a code without claims
    | NoSigningKey
    | NotPersisted       // the store did not take the new record

  /** The clock readings of one request: at the expiry check, when it loads the application, when it stores a record. */
  datatype Readings = Readings(checked: int, loaded: int, stored: int)

  datatype TokenResponse = TokenResponse(accessToken: string, idToken: string, refreshToken: string, scope: string)

  /** What SecureToken gives one exchange: values nobody else was or will be given. */
  datatype Drawn = Drawn(refresh: string, family: string, accessJTI: string, idJTI: string)
  {
    function Handles(): set<string> {
      {refresh, family}
    }

    predicate Distinct() {
      refresh != "" && family != "" && refresh != family
    }
  }

  /** The access and ID tokens of a response were signed at one instant, with one key, over the claims they must carry. */
  ghost predicate CarriesTokens(ks: KeyRing.KSys, r: TokenResponse, slot: KeyRing.Slot, base: AuthClaims, app: Application, scope: string,
                                nonce: string, drawn: Drawn) {
    exists key, at ::
      && KeyService.MintedAs(ks, KeyRing.Minted(slot, key, KeyRing.Access(base, app, scope, drawn.accessJTI), at), r.accessToken)
      && KeyService.MintedAs(ks, KeyRing.Minted(slot, key, KeyRing.Identity(base, app, nonce, drawn.idJTI), at), r.idToken)
  }

  lemma KnownIsOwners(world: World, slot: AppSlot, app: Application, now: int)
    requires world.Scheduled() && AppKnown(world.sys, slot, app, now)
    ensures app.organizationID == slot.org && app.clientID == slot.client && slot.org in world.tenants
  {
    world.Ran();
    ScheduledInv(world.trace, world.sys);
    KnownIsRegistered(world.sys, slot, app, now);
  }

  /** A request that has read its application read the record stored then. */
  lemma LoadingWasLoaded(world: World, pid: nat)
    requires world.Scheduled() && pid in world.sys.procs && world.sys.procs[pid].Loaded?
    ensures WasLoaded(world.trace, pid, world.sys.procs[pid].req, world.sys.procs[pid].app)
  {
    world.Ran();
    StatesHadTheirApplication(world.trace, world.sys);
  }

  /** What a request holds was handed to it, and is of the kind it asked for. */
  lemma HolderReceived(world: World, pid: nat)
    requires world.Scheduled() && pid in world.sys.procs && world.sys.procs[pid].Holding?
    ensures var p := world.sys.procs[pid];
            && Receipt(pid, p.purpose.Key(), p.data) in world.sys.hist.received
            && (p.purpose.ToComplete? <==> p.data.StatePayload?)
            && (p.purpose.ToRedeem? <==> p.data.CodePayload?)
            && (p.purpose.ToRefresh? <==> p.data.RefreshPayload?)
  {
    var s := world.sys;
    world.Ran();
    ScheduledInv(world.trace, s);
    var p := s.procs[pid];
    assert ProcOk(pid, p, s.hist.apps, s.hist.issued, s.hist.received);
    assert EdgeOk(s.hist.apps, s.hist.issued, p.purpose.Key());
  }

  /** A record that was read and is still stored is still as it was read. */
  lemma ReadIsCurrent(world: World, pid: nat)
    requires world.Scheduled() && pid in world.sys.procs && world.sys.procs[pid].Read?
    requires world.sys.procs[pid].purpose.Key() in world.sys.store
    ensures world.sys.store[world.sys.procs[pid].purpose.Key()] == world.sys.procs[pid].record
  {
    world.Ran();
    InitInv();
    ReachableReadsAreCurrent(Init, world.trace);
  }

  /** Under an application's key there is an application record. */
  lemma AppKeysHoldApps(world: World, org: string, client: string)
    requires world.Scheduled() && AppKey(org, client) in world.sys.store
    ensures world.sys.store[AppKey(org, client)].data.AppPayload?
  {
    world.Ran();
    ScheduledInv(world.trace, world.sys);
  }

  method ContainsString(list: seq<string>, v: string) returns (found: bool)
    ensures found <==> v in list
  {
    for i := 0 to |list|
      invariant v !in list[..i]
    {
      if list[i] == v {
        return true;
      }
    }
    return false;
  }

  /** What an application record has against a request: its redirect URI, a missing challenge, or a method but S256. */
  predicate Forbids(app: Application, req: AuthorizationRequest) {
    || req.redirectURI == "" || req.redirectURI !in app.redirectURIs
    || ((app.isPublic || app.clientSecret == "") && req.codeChallenge == "")
    || (req.codeChallenge != "" && req.codeChallengeMethod != "S256")
  }

  /** The checks of PrepareAuthorization before the choice of provider. */
  method CheckRequest(app: Application, req: AuthorizationRequest) returns (acceptable: bool)
    ensures acceptable == RequestAcceptable(app, req) == !Forbids(app, req)
  {
    var registered := HasRedirectURI(app, req.redirectURI);
    if !registered {
      return false;
    }
    if app.IsPublicClient() && req.codeChallenge == "" {
      return false;
    }
    if req.codeChallenge != "" {
      var transform := req.codeChallengeMethod;
      if transform == "" {
        return false;
      }
      if transform != PKCE_METHOD_S256 {
        return false;
      }
    }
    return true;
  }

  class IDPEngine {
    const node: nat
    const world: World
    const cache: Cache.MemoryCache<Application>
    const keys: KeyService.KeyEngine
    const providers: ProviderSource
    const baseURL: string
    var states: map<string, AuthState>
    var codes: map<string, AuthCode>
    var issuerFor: Option<string -> string>

    ghost predicate Valid()
      reads this`states, this`codes, world, world.store`records, cache
    {
      && world.Valid()
      && Locals(states, codes) == LocalsOf(world.sys, node)
      && AppsMirrored(cache.items, world.sys.appCaches, node, world.tenants)
    }

    /** The key half of the engine is this node's and apart from the rest, and the issuer policy is the deployment's. */
    ghost predicate CanIssue()
      reads this`issuerFor, keys, keys.world, keys.world.store`records, keys.cache
    {
      && keys.Valid() && keys.node == node && world.tenants <= keys.world.tenants
      && baseURL == KeyRing.ISSUER_BASE_URL && issuerFor == KeyRing.ISSUER_RESOLVER
      && {this as object, world, world.store, cache} !! {keys as object, keys.world, keys.world.store, keys.cache}
    }

    /** What issuing tokens needs of a request: a fresh entry in the key machine and key material nobody else has. */
    ghost predicate MayIssue(material: KeyRing.KeyMaterial, kpid: nat)
      reads this`issuerFor, keys, keys.world, keys.world.store`records, keys.cache
    {
      CanIssue() && kpid !in keys.world.sys.procs && keys.Unused(material)
    }

    constructor (node: nat, world: World, cache: Cache.MemoryCache<Application>, keys: KeyService.KeyEngine, providers: ProviderSource,
                 baseURL: string)
      requires world.Valid() && node !in world.sys.nodes && cache.items == map[]
      ensures Valid() && this.node == node && this.world == world && this.cache == cache && this.keys == keys
      ensures this.providers == providers && this.baseURL == baseURL && issuerFor == None
    {
      this.node, this.world, this.cache, this.keys, this.providers, this.baseURL := node, world, cache, keys, providers, baseURL;
      states, codes := map[], map[];
      issuerFor := None;
    }

    method SetIssuerResolver(f: Option<string -> string>)
      modifies this`issuerFor
      ensures issuerFor == f
    {
      issuerFor := f;
    }

    /**
     * What all other requests, on this node and elsewhere, may do between two storage accesses of one request: any run
     * of the protocol, except acting for that request or drawing the very tokens it has drawn. Faults are counted per request.
     */
    method OthersRun(ghost pid: nat, ghost reserved: set<string>)
      requires Valid() && world.sys.used !! reserved
      modifies this`states, this`codes, world, world.store, cache
      ensures Valid() && world.sys.used !! reserved
      ensures old(world.trace) <= world.trace && OthersOnly(world.trace, |old(world.trace)|, pid)
      ensures world.store.faults == old(world.store.faults)
    {
    }

    method Yield(ghost pid: nat, ghost reserved: set<string>)
      requires Valid() && world.sys.used !! reserved
      modifies this`states, this`codes, world, world.store, cache
      ensures Valid() && world.sys.used !! reserved
      ensures Continues(old(world.trace), world.trace, pid) && SameProc(old(world.sys), world.sys, pid)
      ensures world.store.faults == old(world.store.faults)
    {
      ghost var before, s := world.trace, world.sys;
      world.Ran();
      OthersRun(pid, reserved);
      world.Ran();
      OthersDoNotInterfere(before, s, world.trace, world.sys, pid);
    }

    // --- why a request may fail ---

    /** Whatever failed has this cause, unless storage has let the request down since. */
    ghost predicate Refused(failed: bool, cause: bool, before: nat)
      reads world.store`faults
    {
      world.store.faults >= before && (failed ==> cause || world.store.faults > before)
    }

    /** The store let the request down since, where that shows: a handle, an application or a write. */
    ghost predicate LostAccess(e: EngineError, before: nat)
      reads world.store`faults
    {
      (e == InvalidHandle || e == AppUnavailable || e == NotPersisted) && world.store.faults > before
    }

    /** So did the provider records, where that shows: in the choice of a provider or in resolving it. */
    ghost predicate LostProvider(e: EngineError, before: nat)
      reads providers.store`faults
    {
      (e == RequestRejected || e == ProviderUnresolved) && providers.store.faults > before
    }

    /** So did the key records: only they can keep a tenant from having a signing key. */
    ghost predicate LostKey(e: EngineError, before: nat)
      reads keys.world.store`faults
    {
      e == NoSigningKey && keys.world.store.faults > before
    }

    /** There is no record to claim, or it has no version to claim it at. */
    ghost predicate Unclaimable(key: Key)
      reads world
    {
      key !in world.sys.store || world.sys.store[key].version == ""
    }

    ghost predicate GotState(pid: nat, handle: string, st: AuthState)
      reads world
    {
      Receipt(pid, StateKey(handle), StatePayload(st)) in world.sys.hist.received
    }

    ghost predicate GotCode(pid: nat, handle: string, c: AuthCode)
      reads world
    {
      Receipt(pid, CodeKey(handle), CodePayload(c)) in world.sys.hist.received
    }

    ghost predicate GotRefresh(pid: nat, handle: string, rt: RefreshToken)
      reads world
    {
      Receipt(pid, RefreshKey(handle), RefreshPayload(rt)) in world.sys.hist.received
    }

    /** Hands a one-time record to at most one caller: Get, then Delete at the version that was read. */
    method ClaimSingleUse(key: Key, ghost pid: nat, ghost purpose: Purpose, ghost reserved: set<string>) returns (data: Option<Payload>)
      requires Valid() && world.sys.used !! reserved
      requires key == purpose.Key() && pid in world.sys.procs && world.sys.procs[pid] == Claiming(node, purpose)
      modifies this`states, this`codes, world, world.store, cache
      ensures Valid() && world.sys.used !! reserved && Continues(old(world.trace), world.trace, pid)
      ensures pid in world.sys.procs && Attempt(pid, key) in world.sys.hist.ended
      ensures world.sys.procs[pid] == if data.Some? then Holding(node, purpose, data.value, Claimed) else Done(Failed)
      ensures data.Some? ==> Receipt(pid, key, data.value) in world.sys.hist.received
      ensures Refused(data.None?, Unclaimable(key), old(world.store.faults))
    {
      var version, read := ReadOnce(key, pid, purpose);
      if version.None? {
        return None;
      }
      Yield(pid, reserved);
      var deleted := DeleteAtVersion(key, version.value, pid);
      return if deleted then Some(read) else None;
    }

    /** The Get half: the version and payload to delete, unless there is no record or it has no version. */
    method ReadOnce(key: Key, ghost pid: nat, ghost purpose: Purpose) returns (version: Option<string>, data: Payload)
      requires Valid() && key == purpose.Key() && pid in world.sys.procs && world.sys.procs[pid] == Claiming(node, purpose)
      modifies world, world.store`faults
      ensures Valid() && Continues(old(world.trace), world.trace, pid) && world.sys.used == old(world.sys.used) && pid in world.sys.procs
      ensures Refused(version.None?, Unclaimable(key), old(world.store.faults))
      ensures version.None? ==> world.sys.procs[pid] == Done(Failed) && Attempt(pid, key) in world.sys.hist.ended
      ensures version.Some? ==> version.value != "" && world.sys.procs[pid] == Read(node, purpose, Versioned(version.value, data))
    {
      var rec, fault := world.store.Get(key);
      world.ReadRecord(pid, fault);
      if rec.Err? || rec.value.version == "" {
        data := *;
        return None, data;
      }
      return Some(rec.value.version), rec.value.data;
    }

    /** The Delete half: only the request that removes the record keeps what it read. */
    method DeleteAtVersion(key: Key, version: string, ghost pid: nat) returns (deleted: bool)
      requires Valid() && version != "" && pid in world.sys.procs && world.sys.procs[pid].Read?
      requires world.sys.procs[pid].purpose.Key() == key && world.sys.procs[pid].record.version == version
      modifies world, world.store
      ensures Valid() && Continues(old(world.trace), world.trace, pid) && world.sys.used == old(world.sys.used) && pid in world.sys.procs
      ensures Attempt(pid, key) in world.sys.hist.ended
      ensures var p := old(world.sys.procs[pid]);
              world.sys.procs[pid] == if deleted then Holding(p.node, p.purpose, p.record.data, Claimed) else Done(Failed)
      ensures deleted ==> Receipt(pid, key, old(world.sys.procs[pid].record.data)) in world.sys.hist.received && key !in world.sys.store
      ensures Refused(!deleted, Unclaimable(key), old(world.store.faults))
    {
      if key in world.sys.store {
        ReadIsCurrent(world, pid);
      }
      var error, lost := world.store.Delete(key, version);
      world.DeleteRecord(pid, lost);
      return error.None?;
    }

    method FetchAndConsumeAuthState(stateID: string, now: int, ghost pid: nat, ghost reserved: set<string>)
      returns (state: Result<AuthState, EngineError>)
      requires Valid() && world.sys.used !! reserved && pid !in world.sys.procs
      modifies this`states, this`codes, world, world.store, cache
      ensures Valid() && world.sys.used !! reserved && Continues(old(world.trace), world.trace, pid)
      ensures pid in world.sys.procs && Attempt(pid, StateKey(stateID)) in world.sys.hist.ended
      ensures world.store.faults >= old(world.store.faults)
      ensures match state
              case Ok(st) =>
                && now <= st.createdAt + 15 * MINUTE
                && world.sys.procs[pid] == Holding(node, ToComplete(stateID), StatePayload(st), Accepted(now))
              case Err(InvalidHandle) => world.sys.procs[pid] == Done(Failed) && Refused(true, Unclaimable(StateKey(stateID)), old(world.store.faults))
              case Err(NotRedeemable) =>
                world.sys.procs[pid] == Done(Failed) && exists st :: GotState(pid, stateID, st) && now > st.createdAt + 15 * MINUTE
              case Err(_) => false
    {
      states := states - {stateID};
      world.Start(pid, node, ToComplete(stateID));
      var data := ClaimSingleUse(StateKey(stateID), pid, ToComplete(stateID), reserved);
      if data.None? {
        return Err(InvalidHandle);
      }
      HolderReceived(world, pid);
      var checked := CheckState(data.value, now, pid);
      if checked.None? {
        assert GotState(pid, stateID, data.value.state);
        return Err(NotRedeemable);
      }
      return Ok(checked.value);
    }

    /** Expiry of a claimed state. */
    method CheckState(data: Payload, now: int, ghost pid: nat) returns (checked: Option<AuthState>)
      requires Valid() && pid in world.sys.procs && world.sys.procs[pid].Holding? && world.sys.procs[pid].stage.Claimed?
      requires world.sys.procs[pid].purpose.ToComplete? && world.sys.procs[pid].data == data
      modifies world
      ensures Valid() && Continues(old(world.trace), world.trace, pid) && world.sys.used == old(world.sys.used) && pid in world.sys.procs
      ensures world.sys.hist == old(world.sys.hist)
      ensures match checked
              case None => world.sys.procs[pid] == Done(Failed) && !(data.StatePayload? && StateFresh(data.state, now))
              case Some(st) =>
                data == StatePayload(st) && StateFresh(st, now) && world.sys.procs[pid] == old(world.sys.procs[pid]).(stage := Accepted(now))
    {
      world.Examine(pid, now);
      if !data.StatePayload? || now > data.state.createdAt + AUTH_STATE_TTL {
        return None;
      }
      return Some(data.state);
    }

    method FetchAndConsumeAuthCode(code: string, ghost pid: nat, ghost treq: TokenRequest, ghost reserved: set<string>) returns (c: Option<Payload>)
      requires Valid() && world.sys.used !! reserved && pid !in world.sys.procs
      modifies this`states, this`codes, world, world.store, cache
      ensures Valid() && world.sys.used !! reserved && Continues(old(world.trace), world.trace, pid)
      ensures pid in world.sys.procs && Attempt(pid, CodeKey(code)) in world.sys.hist.ended
      ensures world.sys.procs[pid] == if c.Some? then Holding(node, ToRedeem(code, treq), c.value, Claimed) else Done(Failed)
      ensures Refused(c.None?, Unclaimable(CodeKey(code)), old(world.store.faults))
    {
      codes := codes - {code};
      world.Start(pid, node, ToRedeem(code, treq));
      c := ClaimSingleUse(CodeKey(code), pid, ToRedeem(code, treq), reserved);
    }

    // --- authorize ---

    /** The request names a provider the application may not use, or leaves the choice to a tenant that has not just one. */
    ghost predicate NoChoice(app: Application, req: AuthorizationRequest)
      reads providers.store`records
    {
      if req.idpID != "" then app.allowedIDPs != [] && req.idpID !in app.allowedIDPs
      else app.allowedIDPs == [] && exists ids :: EnabledAre(providers.store.records, req.organizationID, ids) && |ids| != 1
    }

    /** A provider for the request: the one it names, else the application's first, else the only one the tenant seems to have. */
    ghost predicate Chooses(app: Application, req: AuthorizationRequest, idp: string)
      reads providers.store`records
    {
      if req.idpID != "" then idp == req.idpID && (app.allowedIDPs != [] ==> idp in app.allowedIDPs)
      else if app.allowedIDPs != [] then idp == app.allowedIDPs[0]
      else exists lost :: EnabledAre(providers.store.records - lost, req.organizationID, [idp])
    }

    /**
     * The provider for a request: the one it names, if the application may use it; else the application's first; else the
     * tenant's only one. Only then are the tenant's providers listed.
     */
    method SelectProvider(app: Application, req: AuthorizationRequest) returns (idp: Option<string>, ghost available: Option<seq<string>>)
      modifies providers.store`faults
      ensures idp == SelectIDP(app, req, available)
      ensures idp.Some? ==> Chooses(app, req, idp.value)
      ensures providers.store.faults >= old(providers.store.faults)
      ensures idp.None? ==> NoChoice(app, req) || providers.store.faults > old(providers.store.faults)
      ensures idp.Some? && req.idpID == "" && app.allowedIDPs == [] ==>
                EnabledAre(providers.store.records, req.organizationID, [idp.value]) || providers.store.faults > old(providers.store.faults)
    {
      if req.idpID == "" {
        if |app.allowedIDPs| > 0 {
          return Some(app.allowedIDPs[0]), None;
        }
        var listed, lost := providers.EnabledIDPIDs(req.organizationID);
        available := listed;
        if listed.None? {
          return None, available;
        }
        assert lost == {} ==> providers.store.records - lost == providers.store.records;
        if |listed.value| != 1 {
          return None, available;
        }
        assert listed.value == [listed.value[0]];
        return Some(listed.value[0]), available;
      }
      var allowed := ContainsString(app.allowedIDPs, req.idpID);
      if |app.allowedIDPs| > 0 && !allowed {
        return None, None;
      }
      return Some(req.idpID), None;
    }

    /** What the application record and the provider records have against a request. */
    ghost predicate NotSelected(e: EngineError, app: Application, req: AuthorizationRequest)
      reads providers.store`records
    {
      match e
      case RequestRejected => Forbids(app, req) || NoChoice(app, req)
      case ProviderUnresolved =>
        exists idp :: Chooses(app, req, idp) && providers.Resolves(req.organizationID, req.clientID, idp, None, false)
      case NoAuthorizeURL =>
        exists idp, provider :: SelectedIs(app, req, idp, provider) && Presets.EffectiveProvider(providers.presets, provider).authorizeURL == ""
      case _ => false
    }

    /** What is chosen for the request is this id, which resolves to this provider. */
    ghost predicate SelectedIs(app: Application, req: AuthorizationRequest, idp: string, provider: IdentityProvider)
      reads providers.store`records
    {
      Chooses(app, req, idp) && exists lost :: providers.Resolves(req.organizationID, req.clientID, idp, Some(provider), lost)
    }

    /** Selects a provider and resolves it. */
    method ResolveProvider(app: Application, req: AuthorizationRequest)
      returns (result: Result<(string, IdentityProvider), EngineError>, ghost available: Option<seq<string>>)
      requires RequestAcceptable(app, req)
      modifies providers.store`faults
      ensures providers.store.faults >= old(providers.store.faults)
      ensures match result
              case Ok((idp, provider)) => SelectIDP(app, req, available) == Some(idp) && SelectedIs(app, req, idp, provider)
              case Err(e) =>
                && (e == RequestRejected || e == ProviderUnresolved) && (e == RequestRejected ==> SelectIDP(app, req, available).None?)
                && (NotSelected(e, app, req) || LostProvider(e, old(providers.store.faults)))
    {
      var idp;
      idp, available := SelectProvider(app, req);
      if idp.None? {
        return Err(RequestRejected), available;
      }
      var provider, ownLost, defaultLost := providers.ResolveUpstreamIDP(req.organizationID, req.clientID, idp.value);
      if provider.None? {
        return Err(ProviderUnresolved), available;
      }
      return Ok((idp.value, provider.value)), available;
    }

    /** The redirect leads to the provider and carries our callback and this state, and no extra parameter replaces them. */
    ghost predicate LeadsTo(r: Redirect, provider: IdentityProvider, serverBaseURL: string, stateID: string)
    {
      && r.url == Presets.EffectiveProvider(providers.presets, provider).authorizeURL && r.url != ""
      && "client_id" in r.params && r.params["client_id"] == provider.clientID
      && "redirect_uri" in r.params && r.params["redirect_uri"] == serverBaseURL + "/oauth/v2/callback"
      && "response_type" in r.params && r.params["response_type"] == "code"
      && "state" in r.params && r.params["state"] == stateID
    }

    method RedirectFor(provider: IdentityProvider, serverBaseURL: string, stateID: string) returns (r: Option<Redirect>)
      ensures r.Some? ==> LeadsTo(r.value, provider, serverBaseURL, stateID)
      ensures r.None? <==> Presets.EffectiveProvider(providers.presets, provider).authorizeURL == ""
    {
      var p := Presets.EffectiveProvider(providers.presets, provider);
      if p.authorizeURL == "" {
        return None;
      }
      var params := AuthorizeParameters(p, serverBaseURL + "/oauth/v2/callback", stateID);
      return Some(Redirect(p.authorizeURL, params));
    }

    /** Why an authorization request may be refused, storage having worked. */
    ghost predicate RequestRefused(e: EngineError, req: AuthorizationRequest, pid: nat)
      reads world, providers.store`records
    {
      if e == AppUnavailable then AppKey(req.organizationID, req.clientID) !in world.sys.store
      else exists app :: WasLoaded(world.trace, pid, req, app) && NotSelected(e, app, req)
    }

    /** A state repeating the request and naming the provider is stored, acceptable to the application record the request read. */
    ghost predicate StateStored(app: Application, req: AuthorizationRequest, idp: string, stateID: string, now: int, pid: nat)
      reads world
    {
      && pid in world.sys.procs && world.sys.procs[pid] == Done(Redirected(stateID))
      && WasLoaded(world.trace, pid, req, app) && !Forbids(app, req)
      && StateKey(stateID) in world.sys.hist.issued
      && var i := world.sys.hist.issued[StateKey(stateID)];
         && i.pid == pid && i.source.Requested? && i.source.req == req && i.source.app == app
         && i.data == StatePayload(AuthState(req.organizationID, req.clientID, req.redirectURI, req.scope, req.state, idp,
                                             req.codeChallenge, req.codeChallengeMethod, req.nonce, now))
    }

    /** The state is stored, and the redirect leads to the very provider that the state names. */
    ghost predicate Authorized(r: Redirect, app: Application, req: AuthorizationRequest, serverBaseURL: string, stateID: string, now: int, pid: nat)
      reads world, providers.store`records
    {
      exists idp, provider ::
        && StateStored(app, req, idp, stateID, now, pid) && SelectedIs(app, req, idp, provider)
        && LeadsTo(r, provider, serverBaseURL, stateID)
    }

    /**
     * Validates an authorization request, stores a state for it and redirects to the provider under that state. It is refused
     * only for what the request's own application record or the provider records say, or when storage fails.
     */
    method PrepareAuthorization(req: AuthorizationRequest, serverBaseURL: string, stateID: string, now: int, ghost pid: nat)
      returns (result: Result<Redirect, EngineError>)
      requires Valid() && pid !in world.sys.procs && stateID != "" && world.sys.used !! {stateID}
      modifies this`states, this`codes, world, world.store, cache, providers.store`faults
      ensures Valid() && Continues(old(world.trace), world.trace, pid) && pid in world.sys.procs
      ensures result.Err? ==>
                && world.sys.procs[pid] == Done(Failed)
                && (RequestRefused(result.error, req, pid)
                    || LostAccess(result.error, old(world.store.faults)) || LostProvider(result.error, old(providers.store.faults)))
      ensures result.Ok? ==> exists app :: Authorized(result.value, app, req, serverBaseURL, stateID, now, pid)
    {
      var found := LoadClient(req, pid);
      if found.None? {
        return Err(AppUnavailable);
      }
      Yield(pid, {stateID});
      var app := found.value;
      var acceptable := CheckRequest(app, req);
      if !acceptable {
        RefuseRequest(req, app, None, false, stateID, pid);
        UnacceptableRefuses(app, req, pid);
        return Err(RequestRejected);
      }
      result := AuthorizeWith(app, req, serverBaseURL, stateID, now, pid);
    }

    method LoadClient(req: AuthorizationRequest, ghost pid: nat) returns (app: Option<Application>)
      requires Valid() && pid !in world.sys.procs
      modifies world, world.store`faults
      ensures Valid() && Continues(old(world.trace), world.trace, pid) && world.sys.used == old(world.sys.used) && pid in world.sys.procs
      ensures world.sys.procs[pid] == if app.Some? then Loaded(node, req, app.value) else Done(Failed)
      ensures Refused(app.None?, AppKey(req.organizationID, req.clientID) !in world.sys.store, old(world.store.faults))
    {
      var rec, lost := world.store.Get(AppKey(req.organizationID, req.clientID));
      if AppKey(req.organizationID, req.clientID) in world.sys.store {
        AppKeysHoldApps(world, req.organizationID, req.clientID);
      }
      world.Load(pid, node, req, lost);
      if rec.Err? || !rec.value.data.AppPayload? {
        return None;
      }
      return Some(rec.value.data.app);
    }

    ghost method RefuseRequest(req: AuthorizationRequest, app: Application, available: Option<seq<string>>, resolves: bool, stateID: string, pid: nat)
      requires Valid() && stateID != "" && stateID !in world.sys.used
      requires pid in world.sys.procs && world.sys.procs[pid] == Loaded(node, req, app)
      requires !RequestAcceptable(app, req) || SelectIDP(app, req, available).None? || !resolves
      modifies world
      ensures Valid() && Continues(old(world.trace), world.trace, pid) && pid in world.sys.procs && world.sys.procs[pid] == Done(Failed)
      ensures WasLoaded(world.trace, pid, req, app)
    {
      LoadingWasLoaded(world, pid);
      var before := world.trace;
      world.SaveState(pid, available, resolves, false, stateID, 0, "", NoFault);
      WasLoadedStays(before, world.trace, pid, req, app);
    }

    /** The rest of PrepareAuthorization, once the request itself is found acceptable. */
    method AuthorizeWith(app: Application, req: AuthorizationRequest, serverBaseURL: string, stateID: string, now: int, ghost pid: nat)
      returns (result: Result<Redirect, EngineError>)
      requires Valid() && stateID != "" && world.sys.used !! {stateID} && RequestAcceptable(app, req)
      requires pid in world.sys.procs && world.sys.procs[pid] == Loaded(node, req, app)
      modifies this`states, world, world.store, providers.store`faults
      ensures Valid() && Continues(old(world.trace), world.trace, pid) && pid in world.sys.procs
      ensures result.Err? ==>
                && world.sys.procs[pid] == Done(Failed)
                && (RequestRefused(result.error, req, pid)
                    || LostAccess(result.error, old(world.store.faults)) || LostProvider(result.error, old(providers.store.faults)))
      ensures result.Ok? ==> Authorized(result.value, app, req, serverBaseURL, stateID, now, pid)
    {
      var resolved, available := ResolveProvider(app, req);
      if resolved.Err? {
        RefuseRequest(req, app, available, false, stateID, pid);
        assert NotSelected(resolved.error, app, req) ==> RequestRefused(resolved.error, req, pid);
        return Err(resolved.error);
      }
      var (idp, provider) := resolved.value;
      ghost var records := providers.store.records;
      var redirect, stored := StoreAndRedirect(app, req, idp, provider, available, serverBaseURL, stateID, now, pid);
      assert providers.store.records == records;
      if !stored {
        return Err(NotPersisted);
      }
      if redirect.None? {
        NoURLRefuses(app, req, idp, provider, pid);
        return Err(NoAuthorizeURL);
      }
      PartsAuthorize(redirect.value, app, req, idp, provider, serverBaseURL, stateID, now, pid);
      return Ok(redirect.value);
    }

    method StoreAndRedirect(app: Application, req: AuthorizationRequest, idp: string, provider: IdentityProvider,
                            ghost available: Option<seq<string>>, serverBaseURL: string, stateID: string, now: int, ghost pid: nat)
      returns (redirect: Option<Redirect>, stored: bool)
      requires Valid() && stateID != "" && world.sys.used !! {stateID} && RequestAcceptable(app, req)
      requires SelectIDP(app, req, available) == Some(idp)
      requires pid in world.sys.procs && world.sys.procs[pid] == Loaded(node, req, app)
      modifies this`states, world, world.store
      ensures Valid() && Continues(old(world.trace), world.trace, pid) && pid in world.sys.procs && WasLoaded(world.trace, pid, req, app)
      ensures Refused(!stored, false, old(world.store.faults))
      ensures match redirect
              case None =>
                && world.sys.procs[pid] == Done(Failed)
                && (stored ==> Presets.EffectiveProvider(providers.presets, provider).authorizeURL == "")
              case Some(r) => stored && StateStored(app, req, idp, stateID, now, pid) && LeadsTo(r, provider, serverBaseURL, stateID)
    {
      ghost var hasURL := Presets.EffectiveProvider(providers.presets, provider).authorizeURL != "";
      stored := StoreNewState(app, req, idp, available, hasURL, stateID, now, pid);
      if !stored {
        return None, stored;
      }
      redirect := RedirectFor(provider, serverBaseURL, stateID);
    }

    lemma PartsAuthorize(r: Redirect, app: Application, req: AuthorizationRequest, idp: string, provider: IdentityProvider,
                         serverBaseURL: string, stateID: string, now: int, pid: nat)
      requires StateStored(app, req, idp, stateID, now, pid) && SelectedIs(app, req, idp, provider)
      requires LeadsTo(r, provider, serverBaseURL, stateID)
      ensures Authorized(r, app, req, serverBaseURL, stateID, now, pid)
    {
    }

    lemma UnacceptableRefuses(app: Application, req: AuthorizationRequest, pid: nat)
      requires WasLoaded(world.trace, pid, req, app) && Forbids(app, req)
      ensures RequestRefused(RequestRejected, req, pid)
    {
      assert NotSelected(RequestRejected, app, req);
    }

    lemma NoURLRefuses(app: Application, req: AuthorizationRequest, idp: string, provider: IdentityProvider, pid: nat)
      requires WasLoaded(world.trace, pid, req, app) && SelectedIs(app, req, idp, provider)
      requires Presets.EffectiveProvider(providers.presets, provider).authorizeURL == ""
      ensures RequestRefused(NoAuthorizeURL, req, pid)
    {
      assert NotSelected(NoAuthorizeURL, app, req);
    }

    /** Persists the state before anyone is redirected with it. */
    method StoreNewState(app: Application, req: AuthorizationRequest, idp: string, ghost available: Option<seq<string>>, ghost hasURL: bool,
                         stateID: string, now: int, ghost pid: nat) returns (stored: bool)
      requires Valid() && stateID != "" && world.sys.used !! {stateID}
      requires pid in world.sys.procs && world.sys.procs[pid] == Loaded(node, req, app)
      requires RequestAcceptable(app, req) && SelectIDP(app, req, available) == Some(idp)
      modifies this`states, world, world.store
      ensures Valid() && Continues(old(world.trace), world.trace, pid) && pid in world.sys.procs
      ensures !stored || !hasURL ==> world.sys.procs[pid] == Done(Failed)
      ensures Refused(!stored, false, old(world.store.faults))
      ensures WasLoaded(world.trace, pid, req, app)
      ensures stored && hasURL ==> StateStored(app, req, idp, stateID, now, pid)
    {
      LoadingWasLoaded(world, pid);
      ghost var before := world.trace;
      stored := PutState(app, req, idp, available, hasURL, stateID, now, pid);
      WasLoadedStays(before, world.trace, pid, req, app);
    }

    method PutState(app: Application, req: AuthorizationRequest, idp: string, ghost available: Option<seq<string>>, ghost hasURL: bool,
                    stateID: string, now: int, ghost pid: nat) returns (stored: bool)
      requires Valid() && stateID != "" && world.sys.used !! {stateID}
      requires pid in world.sys.procs && world.sys.procs[pid] == Loaded(node, req, app)
      requires RequestAcceptable(app, req) && SelectIDP(app, req, available) == Some(idp)
      modifies this`states, world, world.store
      ensures Valid() && Continues(old(world.trace), world.trace, pid) && pid in world.sys.procs
      ensures world.sys.procs[pid] == Done(if stored && hasURL then Redirected(stateID) else Failed)
      ensures Refused(!stored, false, old(world.store.faults))
      ensures stored ==>
                && StateKey(stateID) in world.sys.hist.issued
                && var i := world.sys.hist.issued[StateKey(stateID)];
                   && i.pid == pid && i.source == Requested(req, app, available) && i.data == StatePayload(NewState(req, idp, now))
    {
      var state := NewState(req, idp, now);
      var put, version, fault := world.store.Put(StateKey(stateID), StatePayload(state), "");
      AccountState(app, req, idp, available, hasURL, stateID, now, version, fault, pid);
      if put.Err? {
        return false;
      }
      states := states[stateID := state];
      return true;
    }

    /** That write on the machine. */
    ghost method AccountState(app: Application, req: AuthorizationRequest, idp: string, available: Option<seq<string>>, hasURL: bool,
                              stateID: string, now: int, version: string, fault: Fault, pid: nat)
      requires world.Scheduled() && stateID != "" && stateID !in world.sys.used
      requires pid in world.sys.procs && world.sys.procs[pid] == Loaded(node, req, app)
      requires RequestAcceptable(app, req) && SelectIDP(app, req, available) == Some(idp)
      modifies world
      ensures world.Scheduled() && Continues(old(world.trace), world.trace, pid)
      ensures world.sys.procs == old(world.sys.procs)[pid := Done(if fault.NoFault? && hasURL then Redirected(stateID) else Failed)]
      ensures world.sys.appCaches == old(world.sys.appCaches)
      ensures var data, l := StatePayload(NewState(req, idp, now)), LocalsOf(old(world.sys), node);
              && world.sys.store == (if fault.LostRequest? then old(world.sys.store) else old(world.sys.store)[StateKey(stateID) := Versioned(version, data)])
              && LocalsOf(world.sys, node) == (if fault.NoFault? then l.(states := l.states[stateID := data.state]) else l)
              && (fault.NoFault? ==> StateKey(stateID) in world.sys.hist.issued
                                     && var i := world.sys.hist.issued[StateKey(stateID)];
                                        i.pid == pid && i.source == Requested(req, app, available) && i.data == data)
    {
      world.SaveState(pid, available, true, hasURL, stateID, now, version, fault);
    }

    // --- upstream completion ---

    method CompleteUpstreamAuthenticationWithState(state: AuthState, claims: Option<AuthClaims>, code: string, now: int, ghost pid: nat)
      returns (result: Result<Redirection, EngineError>)
      requires Valid() && pid in world.sys.procs && world.sys.procs[pid].Holding? && world.sys.procs[pid].stage.Accepted?
      requires world.sys.procs[pid].node == node && world.sys.procs[pid].purpose.ToComplete? && world.sys.procs[pid].data == StatePayload(state)
      requires code != "" && world.sys.used !! {code}
      modifies this`states, this`codes, world, world.store, cache
      ensures Valid() && Continues(old(world.trace), world.trace, pid) && pid in world.sys.procs
      ensures result.Err? ==> world.sys.procs[pid] == Done(Failed) && result.error == NotPersisted
      ensures Refused(result.Err?, false, old(world.store.faults))
      ensures result.Ok? ==>
                && result.value == Redirection(state.redirectURI, code, state.originalState)
                && CodeStored(code, old(world.sys.procs[pid].purpose.Key()), state, claims, now, pid)
    {
      Yield(pid, {code});
      var authCode := NewCode(state, claims, now);
      var put, version, fault := world.store.Put(CodeKey(code), CodePayload(authCode), "");
      world.SaveCode(pid, claims, code, now, version, fault);
      if put.Err? {
        return Err(NotPersisted);
      }
      codes := codes[code := authCode];
      return Ok(Redirection(state.redirectURI, code, state.originalState));
    }

    /** A code for this state and identity is stored, to be redeemed within two minutes. */
    ghost predicate CodeStored(code: string, parent: Key, state: AuthState, claims: Option<AuthClaims>, now: int, pid: nat)
      reads world
    {
      && pid in world.sys.procs && world.sys.procs[pid] == Done(CodeSent(code))
      && CodeKey(code) in world.sys.hist.issued
      && var i := world.sys.hist.issued[CodeKey(code)];
         && i.source.FromState? && i.source.parent == parent
         && i.data == CodePayload(AuthCode(state.organizationID, state.clientID, state.redirectURI, state.scope, claims,
                                           state.codeChallenge, state.codeChallengeMethod, state.nonce, now, now + 2 * MINUTE))
    }

    /** What the provider records and the provider's answers have against a callback. */
    ghost predicate NotIdentified(e: EngineError, st: AuthState, serverBaseURL: string, upstreamCode: string, upstream: Upstream)
      reads providers.store`records
    {
      match e
      case ProviderUnresolved => providers.Resolves(st.organizationID, st.clientID, st.upstreamIDP, None, false)
      case UpstreamFailed =>
        exists provider, lost ::
          && providers.Resolves(st.organizationID, st.clientID, st.upstreamIDP, Some(provider), lost)
          && forall c :: !Identifies(providers.presets, provider, serverBaseURL + "/oauth/v2/callback", upstreamCode, upstream, c)
      case _ => false
    }

    /** The identity is what the state's own provider gives for the upstream code. */
    ghost predicate IdentifiedBy(st: AuthState, serverBaseURL: string, upstreamCode: string, upstream: Upstream, claims: AuthClaims)
      reads providers.store`records
    {
      exists provider, lost ::
        && providers.Resolves(st.organizationID, st.clientID, st.upstreamIDP, Some(provider), lost)
        && Identifies(providers.presets, provider, serverBaseURL + "/oauth/v2/callback", upstreamCode, upstream, claims)
    }

    /** Resolves the provider of a claimed state and asks it who the user is. */
    method IdentifyUser(st: AuthState, serverBaseURL: string, upstreamCode: string, upstream: Upstream) returns (result: Result<AuthClaims, EngineError>)
      modifies providers.store`faults
      ensures providers.store.faults >= old(providers.store.faults)
      ensures match result
              case Ok(claims) => IdentifiedBy(st, serverBaseURL, upstreamCode, upstream, claims)
              case Err(e) =>
                && (e == ProviderUnresolved || e == UpstreamFailed)
                && (NotIdentified(e, st, serverBaseURL, upstreamCode, upstream) || LostProvider(e, old(providers.store.faults)))
    {
      var provider, ownLost, defaultLost := providers.ResolveUpstreamIDP(st.organizationID, st.clientID, st.upstreamIDP);
      if provider.None? {
        return Err(ProviderUnresolved);
      }
      var claims := FetchIdentity(providers.presets, provider.value, serverBaseURL + "/oauth/v2/callback", upstreamCode, upstream);
      return if claims.Some? then Ok(claims.value) else Err(UpstreamFailed);
    }

    /** Why a callback may be refused, storage having worked. */
    ghost predicate CallbackRefused(e: EngineError, serverBaseURL: string, stateID: string, upstreamCode: string, upstream: Upstream, at: Readings,
                                    pid: nat)
      reads world, providers.store`records
    {
      match e
      case InvalidHandle => Unclaimable(StateKey(stateID))
      case NotRedeemable => exists st :: GotState(pid, stateID, st) && at.checked > st.createdAt + 15 * MINUTE
      case _ => exists st :: GotState(pid, stateID, st) && NotIdentified(e, st, serverBaseURL, upstreamCode, upstream)
    }

    /** The redirect names a code stored for this state and identity. */
    ghost predicate ServedFor(r: Redirection, st: AuthState, claims: AuthClaims, stateID: string, code: string, now: int, pid: nat)
      reads world
    {
      r == Redirection(st.redirectURI, code, st.originalState) && CodeStored(code, StateKey(stateID), st, Some(claims), now, pid)
    }

    /** The code stored carries the identity that the claimed state's provider gives for the upstream code. */
    ghost predicate CallbackServed(r: Redirection, serverBaseURL: string, stateID: string, upstreamCode: string, upstream: Upstream, code: string,
                                   at: Readings, pid: nat)
      reads world, providers.store`records
    {
      exists st: AuthState, claims ::
        && at.checked <= st.createdAt + 15 * MINUTE && ServedFor(r, st, claims, stateID, code, at.stored, pid)
        && IdentifiedBy(st, serverBaseURL, upstreamCode, upstream, claims)
    }

    /**
     * The provider's callback. A code is issued exactly when the state can be claimed in time and its provider gives an
     * identity for the upstream code, unless storage fails.
     */
    method ProcessUpstreamCallback(serverBaseURL: string, stateID: string, upstreamCode: string, upstream: Upstream, code: string, at: Readings,
                                   ghost pid: nat) returns (result: Result<Redirection, EngineError>)
      requires Valid() && pid !in world.sys.procs && code != "" && world.sys.used !! {code}
      modifies this`states, this`codes, world, world.store, cache, providers.store`faults
      ensures Valid() && old(world.trace) <= world.trace && pid in world.sys.procs
      ensures result != Err(UpstreamFailed) && result != Err(ProviderUnresolved) ==> Continues(old(world.trace), world.trace, pid)
      ensures result.Err? ==>
                && world.sys.procs[pid] == Done(Failed)
                && (CallbackRefused(result.error, serverBaseURL, stateID, upstreamCode, upstream, at, pid)
                    || LostAccess(result.error, old(world.store.faults)) || LostProvider(result.error, old(providers.store.faults)))
      ensures result.Ok? ==> CallbackServed(result.value, serverBaseURL, stateID, upstreamCode, upstream, code, at, pid)
    {
      var state := FetchAndConsumeAuthState(stateID, at.checked, pid, {code});
      if state.Err? {
        return Err(state.error);
      }
      result := CompleteCallback(state.value, serverBaseURL, stateID, upstreamCode, upstream, code, at, pid);
    }

    method CompleteCallback(st: AuthState, serverBaseURL: string, stateID: string, upstreamCode: string, upstream: Upstream, code: string,
                            at: Readings, ghost pid: nat) returns (result: Result<Redirection, EngineError>)
      requires Valid() && pid in world.sys.procs && code != "" && world.sys.used !! {code} && StateFresh(st, at.checked)
      requires world.sys.procs[pid] == Holding(node, ToComplete(stateID), StatePayload(st), Accepted(at.checked))
      modifies this`states, this`codes, world, world.store, cache, providers.store`faults
      ensures Valid() && old(world.trace) <= world.trace && pid in world.sys.procs
      ensures result != Err(UpstreamFailed) && result != Err(ProviderUnresolved) ==> Continues(old(world.trace), world.trace, pid)
      ensures result.Err? ==>
                && world.sys.procs[pid] == Done(Failed)
                && (CallbackRefused(result.error, serverBaseURL, stateID, upstreamCode, upstream, at, pid)
                    || LostAccess(result.error, old(world.store.faults)) || LostProvider(result.error, old(providers.store.faults)))
      ensures result.Ok? ==> CallbackServed(result.value, serverBaseURL, stateID, upstreamCode, upstream, code, at, pid)
    {
      var identified := IdentifyUser(st, serverBaseURL, upstreamCode, upstream);
      if identified.Err? {
        Abort(pid);
        RefusesUnidentified(identified.error, st, serverBaseURL, stateID, upstreamCode, upstream, at, pid);
        return Err(identified.error);
      }
      result := CompleteUpstreamAuthenticationWithState(st, Some(identified.value), code, at.stored, pid);
      if result.Ok? {
        ServesIdentified(result.value, st, serverBaseURL, stateID, upstreamCode, upstream, identified.value, code, at, pid);
      }
    }

    lemma RefusesUnidentified(e: EngineError, st: AuthState, serverBaseURL: string, stateID: string, upstreamCode: string, upstream: Upstream,
                              at: Readings, pid: nat)
      requires GotState(pid, stateID, st) && (e == ProviderUnresolved || e == UpstreamFailed)
      ensures NotIdentified(e, st, serverBaseURL, upstreamCode, upstream) ==> CallbackRefused(e, serverBaseURL, stateID, upstreamCode, upstream, at, pid)
    {
    }

    lemma ServesIdentified(r: Redirection, st: AuthState, serverBaseURL: string, stateID: string, upstreamCode: string, upstream: Upstream,
                           claims: AuthClaims, code: string, at: Readings, pid: nat)
      requires at.checked <= st.createdAt + 15 * MINUTE && ServedFor(r, st, claims, stateID, code, at.stored, pid)
      requires IdentifiedBy(st, serverBaseURL, upstreamCode, upstream, claims)
      ensures CallbackServed(r, serverBaseURL, stateID, upstreamCode, upstream, code, at, pid)
    {
    }

    /** Gives up a request that holds a record; what it was handed is on record. */
    ghost method Abort(pid: nat)
      requires Valid() && pid in world.sys.procs && world.sys.procs[pid].Holding?
      modifies world
      ensures Valid() && old(world.trace) <= world.trace && pid in world.sys.procs && world.sys.procs[pid] == Done(Failed)
      ensures Receipt(pid, old(world.sys.procs[pid].purpose.Key()), old(world.sys.procs[pid].data)) in world.sys.hist.received
      ensures world.sys.store == old(world.sys.store) && world.sys.used == old(world.sys.used)
    {
      HolderReceived(world, pid);
      world.GiveUp(pid);
    }

    // --- token exchange ---

    /** Cache first, then the store; a record without an organization takes the one it was asked for under. */
    method LoadApplication(org: string, client: string, now: int, ghost pid: nat) returns (app: Option<Application>)
      requires Valid() && org in world.tenants
      modifies world, world.store`faults, cache
      ensures Valid() && Continues(old(world.trace), world.trace, pid)
      ensures world.sys == old(world.sys).(appCaches := world.sys.appCaches)
      ensures var cached := Cache.Lookup(old(cache.items), AppCacheKey(org, client), now);
              cached.Some? ==> app == cached && cache.items == old(cache.items)
      ensures app.Some? ==> AppKnown(world.sys, AppSlot(node, org, client), app.value, now)
      ensures app.Some? ==> Cache.Lookup(cache.items, AppCacheKey(org, client), now) == app
      ensures app.Some? && Cache.Lookup(old(cache.items), AppCacheKey(org, client), now).None? ==>
                forall t :: Cache.Lookup(cache.items, AppCacheKey(org, client), t) == if t <= now + MINUTE then app else None
      ensures Refused(app.None?, AppKey(org, client) !in world.sys.store, old(world.store.faults))
    {
      var cached := cache.Get(AppCacheKey(org, client), now);
      if cached.Some? {
        CachedAppIsKnown(cache.items, world.sys, world.tenants, AppSlot(node, org, client), now);
        return cached;
      }
      app := ReadAndCacheApplication(org, client, now, pid);
    }

    /** The store half: what is read is cached for a minute. */
    method ReadAndCacheApplication(org: string, client: string, now: int, ghost pid: nat) returns (app: Option<Application>)
      requires Valid() && org in world.tenants
      modifies world, world.store`faults, cache
      ensures Valid() && Continues(old(world.trace), world.trace, pid)
      ensures world.sys == old(world.sys).(appCaches := world.sys.appCaches)
      ensures app.Some? ==> AppKnown(world.sys, AppSlot(node, org, client), app.value, now)
      ensures app.Some? ==> forall t :: Cache.Lookup(cache.items, AppCacheKey(org, client), t) == if t <= now + MINUTE then app else None
      ensures Refused(app.None?, AppKey(org, client) !in world.sys.store, old(world.store.faults))
    {
      var rec, lost := world.store.Get(AppKey(org, client));
      if AppKey(org, client) in world.sys.store {
        AppKeysHoldApps(world, org, client);
      }
      if rec.Err? || !rec.value.data.AppPayload? {
        return None;
      }
      var loaded := rec.value.data.app;
      if loaded.organizationID == "" {
        loaded := loaded.(organizationID := org);
      }
      world.ReadApplication(AppSlot(node, org, client), now, pid);
      CachingMirrors(cache.items, old(world.sys.appCaches), world.tenants, AppSlot(node, org, client), loaded, now);
      cache.Set(AppCacheKey(org, client), loaded, APP_CACHE_TTL, now);
      return Some(loaded);
    }

    method IssuerFor(org: string) returns (issuer: string)
      ensures issuer == Minting.IssuerFor(baseURL, issuerFor, org)
    {
      if issuerFor.Some? {
        var resolved := issuerFor.value(org);
        if resolved != "" {
          return resolved;
        }
      }
      return DefaultIssuerFor(baseURL, org);
    }

    /**
     * Resolves the tenant's signing key, signs the access and ID tokens, and stores the refresh token. `material` is what a
     * new key would be made of, if there is none yet.
     */
    method IssueTokens(app: Application, base: Option<AuthClaims>, scope: string, nonce: string, familyID: string,
                       material: KeyRing.KeyMaterial, drawn: Drawn, storedAt: int, ghost pid: nat, ghost kpid: nat, ghost g: Grant)
      returns (result: Result<TokenResponse, EngineError>)
      requires Valid() && MayIssue(material, kpid) && app.organizationID in world.tenants && drawn.Distinct() && world.sys.used !! drawn.Handles()
      requires pid in world.sys.procs && world.sys.procs[pid].Holding? && world.sys.procs[pid].node == node
      requires world.sys.procs[pid].stage.Authenticated? && world.sys.procs[pid].stage.grant == g
      requires g.app == app && g.base == base && g.scope == scope && g.nonce == nonce && g.family == familyID
      modifies this`states, this`codes, world, world.store, cache, keys`clock, keys.world, keys.world.store, keys.cache
      ensures Valid() && CanIssue() && old(world.trace) <= world.trace && pid in world.sys.procs
      ensures KeyService.Grown(old(keys.world.sys), keys.world.sys)
      ensures world.store.faults >= old(world.store.faults) && keys.world.store.faults >= old(keys.world.store.faults)
      ensures result != Err(NoSigningKey) ==> Continues(old(world.trace), world.trace, pid)
      ensures result.Err? ==>
                && world.sys.procs[pid] == Done(Failed) && result.error in {NoIdentity, NoSigningKey, NotPersisted}
                && (result.error == NoIdentity <==> base.None?)
                && (base.Some? ==> LostAccess(result.error, old(world.store.faults)) || LostKey(result.error, old(keys.world.store.faults)))
      ensures base.None? ==> world.sys.hist == old(world.sys.hist)
      ensures result.Ok? ==>
                && TokensWereSent(old(world.sys.procs[pid].purpose.Key()), g, drawn, pid)
                && result.value.refreshToken == drawn.refresh && result.value.scope == scope && base.Some?
                && CarriesTokens(keys.world.sys, result.value, KeyRing.Slot(node, app.organizationID, app.id), base.value, app, scope, nonce, drawn)
    {
      if base.None? {
        world.RefuseTokens(pid, drawn.refresh, drawn.family);
        return Err(NoIdentity);
      }
      result := IssueTokensFor(app, base.value, scope, nonce, familyID, material, drawn, storedAt, pid, kpid, g);
    }

    method IssueTokensFor(app: Application, base: AuthClaims, scope: string, nonce: string, familyID: string,
                          material: KeyRing.KeyMaterial, drawn: Drawn, storedAt: int, ghost pid: nat, ghost kpid: nat, ghost g: Grant)
      returns (result: Result<TokenResponse, EngineError>)
      requires Valid() && MayIssue(material, kpid) && app.organizationID in world.tenants && drawn.Distinct() && world.sys.used !! drawn.Handles()
      requires pid in world.sys.procs && world.sys.procs[pid].Holding? && world.sys.procs[pid].node == node
      requires world.sys.procs[pid].stage.Authenticated? && world.sys.procs[pid].stage.grant == g
      requires g.app == app && g.base == Some(base) && g.scope == scope && g.nonce == nonce && g.family == familyID
      modifies this`states, this`codes, world, world.store, cache, keys`clock, keys.world, keys.world.store, keys.cache
      ensures Valid() && CanIssue() && old(world.trace) <= world.trace && pid in world.sys.procs
      ensures KeyService.Grown(old(keys.world.sys), keys.world.sys)
      ensures world.store.faults >= old(world.store.faults) && keys.world.store.faults >= old(keys.world.store.faults)
      ensures result != Err(NoSigningKey) ==> Continues(old(world.trace), world.trace, pid)
      ensures result.Err? ==>
                && world.sys.procs[pid] == Done(Failed) && result.error in {NoSigningKey, NotPersisted}
                && (LostAccess(result.error, old(world.store.faults)) || LostKey(result.error, old(keys.world.store.faults)))
      ensures result.Ok? ==>
                && TokensWereSent(old(world.sys.procs[pid].purpose.Key()), g, drawn, pid)
                && result.value.refreshToken == drawn.refresh && result.value.scope == scope
                && CarriesTokens(keys.world.sys, result.value, KeyRing.Slot(node, app.organizationID, app.id), base, app, scope, nonce, drawn)
    {
      var signed := SignOrGiveUp(app, base, scope, nonce, material, drawn, pid, kpid);
      if signed.None? {
        return Err(NoSigningKey);
      }
      ghost var ks := keys.world.sys;
      var saved := MintRefreshToken(app, base, scope, familyID, drawn, storedAt, pid, g);
      assert keys.world.sys == ks && CanIssue();
      return if saved then Ok(signed.value) else Err(NotPersisted);
    }

    method SignOrGiveUp(app: Application, base: AuthClaims, scope: string, nonce: string, material: KeyRing.KeyMaterial, drawn: Drawn,
                        ghost pid: nat, ghost kpid: nat) returns (signed: Option<TokenResponse>)
      requires Valid() && MayIssue(material, kpid) && app.organizationID in world.tenants && world.sys.used !! drawn.Handles()
      requires pid in world.sys.procs && world.sys.procs[pid].Holding?
      modifies this`states, this`codes, world, world.store, cache, keys`clock, keys.world, keys.world.store, keys.cache
      ensures Valid() && CanIssue() && world.sys.used !! drawn.Handles() && old(world.trace) <= world.trace && pid in world.sys.procs
      ensures KeyService.Grown(old(keys.world.sys), keys.world.sys) && world.store.faults == old(world.store.faults)
      ensures keys.world.store.faults >= old(keys.world.store.faults) && (signed.None? ==> keys.world.store.faults > old(keys.world.store.faults))
      ensures signed.None? ==> world.sys.procs[pid] == Done(Failed)
      ensures signed.Some? ==>
                && Continues(old(world.trace), world.trace, pid) && world.sys.procs[pid] == old(world.sys.procs[pid])
                && signed.value.refreshToken == drawn.refresh && signed.value.scope == scope
                && CarriesTokens(keys.world.sys, signed.value, KeyRing.Slot(node, app.organizationID, app.id), base, app, scope, nonce, drawn)
    {
      Yield(pid, drawn.Handles());
      signed := SignTokens(app, base, scope, nonce, material, drawn, kpid);
      if signed.None? {
        Abort(pid);
      }
    }

    /** The signing half of issueTokens: nothing but a storage fault keeps it from signing. */
    method SignTokens(app: Application, base: AuthClaims, scope: string, nonce: string, material: KeyRing.KeyMaterial, drawn: Drawn, ghost kpid: nat)
      returns (signed: Option<TokenResponse>)
      requires MayIssue(material, kpid) && app.organizationID in world.tenants
      modifies keys`clock, keys.world, keys.world.store, keys.cache
      ensures CanIssue() && KeyService.Grown(old(keys.world.sys), keys.world.sys)
      ensures keys.world.store.faults >= old(keys.world.store.faults) && (signed.None? ==> keys.world.store.faults > old(keys.world.store.faults))
      ensures signed.Some? ==>
                && signed.value.refreshToken == drawn.refresh && signed.value.scope == scope
                && CarriesTokens(keys.world.sys, signed.value, KeyRing.Slot(node, app.organizationID, app.id), base, app, scope, nonce, drawn)
    {
      var key := keys.ResolveSigningKey(app.organizationID, app.id, material, kpid);
      if key.None? {
        return None;
      }
      var response := SignWith(KeyRing.Slot(node, app.organizationID, app.id), key.value, base, app, scope, nonce, drawn, kpid);
      return Some(response);
    }

    /** A resolved key always signs. */
    method SignWith(slot: KeyRing.Slot, key: SigningKey, base: AuthClaims, app: Application, scope: string, nonce: string, drawn: Drawn, ghost kpid: nat)
      returns (signed: TokenResponse)
      requires CanIssue() && slot == KeyRing.Slot(node, app.organizationID, app.id) && key.privateKey.RSAPrivate?
      requires kpid in keys.world.sys.procs && keys.world.sys.procs[kpid] == KeyRing.Resolved(slot, key)
      modifies keys`clock, keys.world
      ensures CanIssue() && KeyService.Grown(old(keys.world.sys), keys.world.sys)
      ensures signed.refreshToken == drawn.refresh && signed.scope == scope
      ensures CarriesTokens(keys.world.sys, signed, slot, base, app, scope, nonce, drawn)
    {
      var issuer := IssuerFor(app.organizationID);
      var now := keys.Now();
      var access := SignJWT(AccessClaims(base, app, issuer, scope, now, drawn.accessJTI), key.privateKey, key.kid);
      var id := SignJWT(IdClaims(base, app, issuer, nonce, now, drawn.idJTI), key.privateKey, key.kid);
      keys.AccountMint(slot, key, KeyRing.Access(base, app, scope, drawn.accessJTI), kpid);
      keys.AccountMint(slot, key, KeyRing.Identity(base, app, nonce, drawn.idJTI), kpid);
      signed := TokenResponse(access.value.token, id.value.token, drawn.refresh, scope);
      assert KeyService.MintedAs(keys.world.sys, KeyRing.Minted(slot, key, KeyRing.Access(base, app, scope, drawn.accessJTI), now), access.value.token);
      assert KeyService.MintedAs(keys.world.sys, KeyRing.Minted(slot, key, KeyRing.Identity(base, app, nonce, drawn.idJTI), now), id.value.token);
    }

    method MintRefreshToken(app: Application, base: AuthClaims, scope: string, familyID: string, drawn: Drawn, now: int, ghost pid: nat, ghost g: Grant)
      returns (saved: bool)
      requires Valid() && drawn.Distinct() && world.sys.used !! drawn.Handles()
      requires pid in world.sys.procs && world.sys.procs[pid].Holding? && world.sys.procs[pid].node == node
      requires world.sys.procs[pid].stage.Authenticated? && world.sys.procs[pid].stage.grant == g
      requires g.app == app && g.base == Some(base) && g.scope == scope && g.family == familyID
      modifies world, world.store
      ensures Valid() && Continues(old(world.trace), world.trace, pid) && pid in world.sys.procs
      ensures !saved ==> world.sys.procs[pid] == Done(Failed)
      ensures Refused(!saved, false, old(world.store.faults))
      ensures saved ==> TokensWereSent(old(world.sys.procs[pid].purpose.Key()), g, drawn, pid)
      ensures saved ==> RefreshStored(RefreshKey(drawn.refresh), app, base, scope, if familyID == "" then drawn.family else familyID, now)
    {
      var family := familyID;
      if family == "" {
        family := drawn.family;
      }
      var put, version, fault := world.store.Put(RefreshKey(drawn.refresh), RefreshPayload(NewRefresh(app, base, scope, family, now)), "");
      world.SaveTokens(pid, drawn.refresh, drawn.family, now, version, fault);
      return put.Ok?;
    }

    /**
     * What a client has not proved: the secret it is registered with; the challenge of its code, by a verifier; or, if it is
     * public or has no secret, that there is a challenge at all.
     */
    ghost predicate Unproven(app: Application, c: AuthCode, req: TokenRequest) {
      var open := app.isPublic || app.clientSecret == "";
      || (!open && app.clientSecret != req.clientSecret)
      || (open && c.codeChallenge == "")
      || (c.codeChallenge != ""
          && (!(43 <= |req.codeVerifier| <= 128) || c.codeChallengeMethod != "S256" || S256Challenge(req.codeVerifier) != c.codeChallenge))
    }

    /** Why exchanging a code may be refused, storage having worked. */
    ghost predicate CodeRefused(e: EngineError, code: string, req: TokenRequest, at: Readings, pid: nat)
      reads world
    {
      match e
      case InvalidHandle => Unclaimable(CodeKey(code))
      case NotRedeemable =>
        exists c ::
          && GotCode(pid, code, c)
          && (at.checked > c.expiresAt || c.clientID != req.clientID || (req.redirectURI != "" && c.redirectURI != req.redirectURI))
      case AppUnavailable => exists c :: GotCode(pid, code, c) && AppKey(c.organizationID, c.clientID) !in world.sys.store
      case ClientRejected =>
        exists c, app ::
          && GotCode(pid, code, c) && AppKnown(world.sys, AppSlot(node, c.organizationID, c.clientID), app, at.loaded)
          && Unproven(app, c, req)
      case NoIdentity => exists c :: GotCode(pid, code, c) && c.claims.None?
      case _ => false
    }

    /** The same for a refresh token. */
    ghost predicate RefreshRefused(e: EngineError, token: string, req: TokenRequest, at: Readings, pid: nat)
      reads world
    {
      match e
      case InvalidHandle => Unclaimable(RefreshKey(token))
      case NotRedeemable => exists rt :: GotRefresh(pid, token, rt) && (at.checked > rt.expiresAt || rt.clientID != req.clientID)
      case AppUnavailable => exists rt :: GotRefresh(pid, token, rt) && AppKey(rt.organizationID, rt.clientID) !in world.sys.store
      case ClientRejected =>
        exists rt, app ::
          && GotRefresh(pid, token, rt) && AppKnown(world.sys, AppSlot(node, rt.organizationID, rt.clientID), app, at.loaded)
          && !app.isPublic && app.clientSecret != "" && app.clientSecret != req.clientSecret
      case _ => false
    }

    /** The first part of exchangeAuthorizationCode: claims the code and checks it. */
    method ClaimCode(code: string, req: TokenRequest, now: int, ghost reserved: set<string>, ghost pid: nat)
      returns (claimed: Result<AuthCode, EngineError>)
      requires Valid() && world.sys.used !! reserved && pid !in world.sys.procs
      modifies this`states, this`codes, world, world.store, cache
      ensures Valid() && world.sys.used !! reserved && Continues(old(world.trace), world.trace, pid) && pid in world.sys.procs
      ensures world.store.faults >= old(world.store.faults)
      ensures match claimed
              case Ok(c) => CodeRedeemable(c, req, now) && world.sys.procs[pid] == Holding(node, ToRedeem(code, req), CodePayload(c), Accepted(now))
              case Err(InvalidHandle) => world.sys.procs[pid] == Done(Failed) && Refused(true, Unclaimable(CodeKey(code)), old(world.store.faults))
              case Err(NotRedeemable) =>
                world.sys.procs[pid] == Done(Failed) && exists c :: GotCode(pid, code, c) && !CodeRedeemable(c, req, now)
              case Err(_) => false
    {
      var data := FetchAndConsumeAuthCode(code, pid, req, reserved);
      if data.None? {
        return Err(InvalidHandle);
      }
      HolderReceived(world, pid);
      var checked := CheckCode(data.value, req, now, pid);
      if checked.None? {
        assert GotCode(pid, code, data.value.code);
        return Err(NotRedeemable);
      }
      return Ok(checked.value);
    }

    /** Everything exchangeAuthorizationCode does before it issues tokens. */
    method AdmitForCode(code: string, req: TokenRequest, at: Readings, drawn: Drawn, ghost pid: nat)
      returns (result: Result<(Application, AuthCode), EngineError>)
      requires Valid() && world.sys.used !! drawn.Handles() && pid !in world.sys.procs
      modifies this`states, this`codes, world, world.store, cache
      ensures Valid() && world.sys.used !! drawn.Handles() && old(world.trace) <= world.trace && pid in world.sys.procs
      ensures result != Err(AppUnavailable) ==> Continues(old(world.trace), world.trace, pid)
      ensures world.store.faults >= old(world.store.faults)
      ensures match result
              case Err(e) =>
                && world.sys.procs[pid] == Done(Failed)
                && (CodeRefused(e, code, req, at, pid) || LostAccess(e, old(world.store.faults)))
              case Ok((app, c)) =>
                && app.organizationID in world.tenants
                && world.sys.procs[pid] == Holding(node, ToRedeem(code, req), CodePayload(c),
                                                   Authenticated(at.checked, Grant(req, app, c.claims, c.scope, c.nonce, "")))
    {
      var claimed := ClaimCode(code, req, at.checked, drawn.Handles(), pid);
      if claimed.Err? {
        return Err(claimed.error);
      }
      var admitted := AuthenticateForCode(claimed.value, code, req, at, drawn, pid);
      if admitted.Err? {
        return Err(admitted.error);
      }
      return Ok((admitted.value, claimed.value));
    }

    /**
     * Exchanges a code for tokens, exactly when it can be claimed, is in time and this client's, the client proves itself and
     * the code has an identity, unless storage fails.
     */
    method ExchangeAuthorizationCode(code: string, req: TokenRequest, material: KeyRing.KeyMaterial, drawn: Drawn, at: Readings,
                                     ghost pid: nat, ghost kpid: nat)
      returns (result: Result<TokenResponse, EngineError>)
      requires Valid() && MayIssue(material, kpid) && pid !in world.sys.procs && drawn.Distinct() && world.sys.used !! drawn.Handles()
      modifies this`states, this`codes, world, world.store, cache, keys`clock, keys.world, keys.world.store, keys.cache
      ensures Valid() && CanIssue() && KeyService.Grown(old(keys.world.sys), keys.world.sys)
      ensures old(world.trace) <= world.trace && pid in world.sys.procs
      ensures result != Err(NoSigningKey) && result != Err(AppUnavailable) ==> Continues(old(world.trace), world.trace, pid)
      ensures result.Err? ==>
                && world.sys.procs[pid] == Done(Failed)
                && (CodeRefused(result.error, code, req, at, pid)
                    || LostAccess(result.error, old(world.store.faults)) || LostKey(result.error, old(keys.world.store.faults)))
      ensures result.Ok? ==> Delivered(CodeKey(code), req, result.value, drawn, pid)
    {
      var admitted := AdmitForCode(code, req, at, drawn, pid);
      if admitted.Err? {
        return Err(admitted.error);
      }
      var (app, authCode) := admitted.value;
      result := IssueForCode(app, authCode, code, req, material, drawn, at, pid, kpid);
    }

    method IssueForCode(app: Application, authCode: AuthCode, code: string, req: TokenRequest, material: KeyRing.KeyMaterial, drawn: Drawn,
                        at: Readings, ghost pid: nat, ghost kpid: nat) returns (result: Result<TokenResponse, EngineError>)
      requires Valid() && MayIssue(material, kpid) && app.organizationID in world.tenants && drawn.Distinct() && world.sys.used !! drawn.Handles()
      requires pid in world.sys.procs
      requires world.sys.procs[pid] == Holding(node, ToRedeem(code, req), CodePayload(authCode),
                 Authenticated(at.checked, Grant(req, app, authCode.claims, authCode.scope, authCode.nonce, "")))
      modifies this`states, this`codes, world, world.store, cache, keys`clock, keys.world, keys.world.store, keys.cache
      ensures Valid() && CanIssue() && KeyService.Grown(old(keys.world.sys), keys.world.sys)
      ensures old(world.trace) <= world.trace && pid in world.sys.procs
      ensures result != Err(NoSigningKey) ==> Continues(old(world.trace), world.trace, pid)
      ensures result.Err? ==>
                && world.sys.procs[pid] == Done(Failed)
                && (CodeRefused(result.error, code, req, at, pid)
                    || LostAccess(result.error, old(world.store.faults)) || LostKey(result.error, old(keys.world.store.faults)))
      ensures result.Ok? ==> Delivered(CodeKey(code), req, result.value, drawn, pid)
    {
      ghost var g := world.sys.procs[pid].stage.grant;
      HolderReceived(world, pid);
      assert GotCode(pid, code, authCode);
      result := IssueTokens(app, authCode.claims, authCode.scope, authCode.nonce, "", material, drawn, at.stored, pid, kpid, g);
    }

    /** Expiry, client and redirect URI of a claimed code. */
    method CheckCode(data: Payload, req: TokenRequest, now: int, ghost pid: nat) returns (checked: Option<AuthCode>)
      requires Valid() && pid in world.sys.procs && world.sys.procs[pid].Holding? && world.sys.procs[pid].stage.Claimed?
      requires world.sys.procs[pid].purpose.ToRedeem? && world.sys.procs[pid].purpose.treq == req && world.sys.procs[pid].data == data
      modifies world
      ensures Valid() && Continues(old(world.trace), world.trace, pid) && world.sys.used == old(world.sys.used) && pid in world.sys.procs
      ensures world.sys.hist == old(world.sys.hist)
      ensures match checked
              case None => world.sys.procs[pid] == Done(Failed) && !(data.CodePayload? && CodeRedeemable(data.code, req, now))
              case Some(c) =>
                data == CodePayload(c) && CodeRedeemable(c, req, now) && world.sys.procs[pid] == old(world.sys.procs[pid]).(stage := Accepted(now))
    {
      world.Examine(pid, now);
      if !data.CodePayload? {
        return None;
      }
      var authCode := data.code;
      if now > authCode.expiresAt {
        return None;
      }
      if authCode.clientID != req.clientID {
        return None;
      }
      if req.redirectURI != "" && req.redirectURI != authCode.redirectURI {
        return None;
      }
      return Some(authCode);
    }

    /** Loads the application a claimed record names; a request that cannot is given up. */
    method LoadOwner(org: string, client: string, now: int, ghost reserved: set<string>, ghost pid: nat) returns (app: Option<Application>)
      requires Valid() && world.sys.used !! reserved
      requires pid in world.sys.procs && world.sys.procs[pid].Holding? && OwnerOf(world.sys.procs[pid].data) == (org, client)
      modifies this`states, this`codes, world, world.store, cache
      ensures Valid() && world.sys.used !! reserved && old(world.trace) <= world.trace && pid in world.sys.procs
      ensures Receipt(pid, old(world.sys.procs[pid]).purpose.Key(), old(world.sys.procs[pid]).data) in world.sys.hist.received
      ensures Refused(app.None?, AppKey(org, client) !in world.sys.store, old(world.store.faults))
      ensures match app
              case None => world.sys.procs[pid] == Done(Failed)
              case Some(a) =>
                && Continues(old(world.trace), world.trace, pid)
                && world.sys.procs[pid] == old(world.sys.procs[pid])
                && AppKnown(world.sys, AppSlot(node, org, client), a, now) && a.organizationID in world.tenants
    {
      Yield(pid, reserved);
      OwnerIsTenant(world, pid);
      HolderReceived(world, pid);
      app := LoadApplication(org, client, now, pid);
      if app.None? {
        Abort(pid);
      } else {
        KnownIsOwners(world, AppSlot(node, org, client), app.value, now);
      }
    }

    /** The middle of exchangeAuthorizationCode: loads the application and makes the client prove itself. */
    method AuthenticateForCode(authCode: AuthCode, code: string, req: TokenRequest, at: Readings, drawn: Drawn, ghost pid: nat)
      returns (result: Result<Application, EngineError>)
      requires Valid() && world.sys.used !! drawn.Handles()
      requires pid in world.sys.procs && world.sys.procs[pid].Holding? && world.sys.procs[pid].node == node
      requires world.sys.procs[pid].stage.Accepted? && world.sys.procs[pid].data == CodePayload(authCode)
      requires world.sys.procs[pid].purpose == ToRedeem(code, req)
      modifies this`states, this`codes, world, world.store, cache
      ensures Valid() && world.sys.used !! drawn.Handles() && old(world.trace) <= world.trace && pid in world.sys.procs
      ensures result != Err(AppUnavailable) ==> Continues(old(world.trace), world.trace, pid)
      ensures world.store.faults >= old(world.store.faults)
      ensures match result
              case Err(e) =>
                && world.sys.procs[pid] == Done(Failed) && (e == AppUnavailable || e == ClientRejected)
                && (CodeRefused(e, code, req, at, pid) || LostAccess(e, old(world.store.faults)))
              case Ok(app) =>
                var p := old(world.sys.procs[pid]);
                && world.sys.procs[pid] == p.(stage := Authenticated(p.stage.checkedAt, Grant(req, app, authCode.claims, authCode.scope, authCode.nonce, "")))
                && CodeClientAuthenticated(app, authCode, req) && app.organizationID in world.tenants
    {
      var found := LoadOwner(authCode.organizationID, authCode.clientID, at.loaded, drawn.Handles(), pid);
      assert GotCode(pid, code, authCode);
      if found.None? {
        return Err(AppUnavailable);
      }
      var app := found.value;
      world.Admit(pid, app, at.loaded);
      assert GotCode(pid, code, authCode);
      assert AppKnown(world.sys, AppSlot(node, authCode.organizationID, authCode.clientID), app, at.loaded);
      if app.IsPublicClient() {
        if !VerifyPKCE(authCode, req.codeVerifier) {
          return Err(ClientRejected);
        }
      } else {
        if app.clientSecret != req.clientSecret {
          return Err(ClientRejected);
        }
        if authCode.codeChallenge != "" {
          if !VerifyPKCE(authCode, req.codeVerifier) {
            return Err(ClientRejected);
          }
        }
      }
      return Ok(app);
    }

    /** The first part of exchangeRefreshToken: claims the handle and checks expiry and client. */
    method FetchAndConsumeRefreshToken(token: string, req: TokenRequest, now: int, ghost reserved: set<string>, ghost pid: nat)
      returns (claimed: Result<RefreshToken, EngineError>)
      requires Valid() && world.sys.used !! reserved && pid !in world.sys.procs
      modifies this`states, this`codes, world, world.store, cache
      ensures Valid() && world.sys.used !! reserved && Continues(old(world.trace), world.trace, pid) && pid in world.sys.procs
      ensures world.store.faults >= old(world.store.faults)
      ensures match claimed
              case Ok(rt) => RefreshRedeemable(rt, req, now) && world.sys.procs[pid] == Holding(node, ToRefresh(token, req), RefreshPayload(rt), Accepted(now))
              case Err(InvalidHandle) => world.sys.procs[pid] == Done(Failed) && Refused(true, Unclaimable(RefreshKey(token)), old(world.store.faults))
              case Err(NotRedeemable) =>
                world.sys.procs[pid] == Done(Failed) && exists rt :: GotRefresh(pid, token, rt) && !RefreshRedeemable(rt, req, now)
              case Err(_) => false
    {
      world.Start(pid, node, ToRefresh(token, req));
      var data := ClaimSingleUse(RefreshKey(token), pid, ToRefresh(token, req), reserved);
      if data.None? {
        return Err(InvalidHandle);
      }
      HolderReceived(world, pid);
      var checked := CheckRefresh(data.value, req, now, pid);
      if checked.None? {
        assert GotRefresh(pid, token, data.value.refresh);
        return Err(NotRedeemable);
      }
      return Ok(checked.value);
    }

    /** The same for a refresh token; an empty one is turned away without a trace. */
    method ExchangeRefreshToken(token: string, req: TokenRequest, material: KeyRing.KeyMaterial, drawn: Drawn, at: Readings, ghost pid: nat, ghost kpid: nat)
      returns (result: Result<TokenResponse, EngineError>)
      requires Valid() && MayIssue(material, kpid) && pid !in world.sys.procs && drawn.Distinct() && world.sys.used !! drawn.Handles()
      modifies this`states, this`codes, world, world.store, cache, keys`clock, keys.world, keys.world.store, keys.cache
      ensures Valid() && CanIssue() && KeyService.Grown(old(keys.world.sys), keys.world.sys) && old(world.trace) <= world.trace
      ensures token == "" <==> result == Err(BadRequest)
      ensures token == "" ==> world.sys == old(world.sys) && keys.world.sys == old(keys.world.sys)
      ensures result != Err(NoSigningKey) && result != Err(AppUnavailable) ==> Continues(old(world.trace), world.trace, pid)
      ensures token != "" && result.Err? ==>
                && pid in world.sys.procs && world.sys.procs[pid] == Done(Failed)
                && (RefreshRefused(result.error, token, req, at, pid)
                    || LostAccess(result.error, old(world.store.faults)) || LostKey(result.error, old(keys.world.store.faults)))
      ensures result.Ok? ==> Delivered(RefreshKey(token), req, result.value, drawn, pid)
    {
      if token == "" {
        return Err(BadRequest);
      }
      result := RedeemRefreshToken(token, req, material, drawn, at, pid, kpid);
    }

    /** Everything exchangeRefreshToken does before it issues tokens. */
    method AdmitForRefresh(token: string, req: TokenRequest, at: Readings, drawn: Drawn, ghost pid: nat)
      returns (result: Result<(Application, RefreshToken), EngineError>)
      requires Valid() && world.sys.used !! drawn.Handles() && pid !in world.sys.procs
      modifies this`states, this`codes, world, world.store, cache
      ensures Valid() && world.sys.used !! drawn.Handles() && old(world.trace) <= world.trace && pid in world.sys.procs
      ensures result != Err(AppUnavailable) ==> Continues(old(world.trace), world.trace, pid)
      ensures world.store.faults >= old(world.store.faults)
      ensures match result
              case Err(e) =>
                && world.sys.procs[pid] == Done(Failed)
                && (RefreshRefused(e, token, req, at, pid) || LostAccess(e, old(world.store.faults)))
              case Ok((app, rt)) =>
                && app.organizationID in world.tenants
                && world.sys.procs[pid] == Holding(node, ToRefresh(token, req), RefreshPayload(rt),
                                                   Authenticated(at.checked, Grant(req, app, Some(rt.claims), rt.scope, "", rt.familyID)))
    {
      var claimed := FetchAndConsumeRefreshToken(token, req, at.checked, drawn.Handles(), pid);
      if claimed.Err? {
        return Err(claimed.error);
      }
      var admitted := AuthenticateForRefresh(claimed.value, token, req, at, drawn, pid);
      if admitted.Err? {
        return Err(admitted.error);
      }
      return Ok((admitted.value, claimed.value));
    }

    method RedeemRefreshToken(token: string, req: TokenRequest, material: KeyRing.KeyMaterial, drawn: Drawn, at: Readings, ghost pid: nat, ghost kpid: nat)
      returns (result: Result<TokenResponse, EngineError>)
      requires Valid() && MayIssue(material, kpid) && pid !in world.sys.procs && drawn.Distinct() && world.sys.used !! drawn.Handles()
      modifies this`states, this`codes, world, world.store, cache, keys`clock, keys.world, keys.world.store, keys.cache
      ensures Valid() && CanIssue() && KeyService.Grown(old(keys.world.sys), keys.world.sys)
      ensures old(world.trace) <= world.trace && pid in world.sys.procs
      ensures result != Err(NoSigningKey) && result != Err(AppUnavailable) ==> Continues(old(world.trace), world.trace, pid)
      ensures result.Err? ==>
                && world.sys.procs[pid] == Done(Failed)
                && (RefreshRefused(result.error, token, req, at, pid)
                    || LostAccess(result.error, old(world.store.faults)) || LostKey(result.error, old(keys.world.store.faults)))
      ensures result.Ok? ==> Delivered(RefreshKey(token), req, result.value, drawn, pid)
    {
      var admitted := AdmitForRefresh(token, req, at, drawn, pid);
      if admitted.Err? {
        return Err(admitted.error);
      }
      var (app, stored) := admitted.value;
      result := IssueForRefresh(app, stored, token, req, material, drawn, at, pid, kpid);
    }

    method IssueForRefresh(app: Application, stored: RefreshToken, token: string, req: TokenRequest, material: KeyRing.KeyMaterial, drawn: Drawn,
                           at: Readings, ghost pid: nat, ghost kpid: nat) returns (result: Result<TokenResponse, EngineError>)
      requires Valid() && MayIssue(material, kpid) && app.organizationID in world.tenants && drawn.Distinct() && world.sys.used !! drawn.Handles()
      requires pid in world.sys.procs
      requires world.sys.procs[pid] == Holding(node, ToRefresh(token, req), RefreshPayload(stored),
                 Authenticated(at.checked, Grant(req, app, Some(stored.claims), stored.scope, "", stored.familyID)))
      modifies this`states, this`codes, world, world.store, cache, keys`clock, keys.world, keys.world.store, keys.cache
      ensures Valid() && CanIssue() && KeyService.Grown(old(keys.world.sys), keys.world.sys)
      ensures old(world.trace) <= world.trace && pid in world.sys.procs
      ensures result != Err(NoSigningKey) ==> Continues(old(world.trace), world.trace, pid)
      ensures result.Err? ==>
                && world.sys.procs[pid] == Done(Failed)
                && (LostAccess(result.error, old(world.store.faults)) || LostKey(result.error, old(keys.world.store.faults)))
      ensures result.Ok? ==> Delivered(RefreshKey(token), req, result.value, drawn, pid)
    {
      ghost var g := world.sys.procs[pid].stage.grant;
      result := IssueTokens(app, Some(stored.claims), stored.scope, "", stored.familyID, material, drawn, at.stored, pid, kpid, g);
    }

    /** Expiry and client of a claimed refresh token. */
    method CheckRefresh(data: Payload, req: TokenRequest, now: int, ghost pid: nat) returns (checked: Option<RefreshToken>)
      requires Valid() && pid in world.sys.procs && world.sys.procs[pid].Holding? && world.sys.procs[pid].stage.Claimed?
      requires world.sys.procs[pid].purpose.ToRefresh? && world.sys.procs[pid].purpose.treq == req && world.sys.procs[pid].data == data
      modifies world
      ensures Valid() && Continues(old(world.trace), world.trace, pid) && world.sys.used == old(world.sys.used) && pid in world.sys.procs
      ensures world.sys.hist == old(world.sys.hist)
      ensures match checked
              case None => world.sys.procs[pid] == Done(Failed) && !(data.RefreshPayload? && RefreshRedeemable(data.refresh, req, now))
              case Some(rt) =>
                data == RefreshPayload(rt) && RefreshRedeemable(rt, req, now) && world.sys.procs[pid] == old(world.sys.procs[pid]).(stage := Accepted(now))
    {
      world.Examine(pid, now);
      if !data.RefreshPayload? {
        return None;
      }
      var stored := data.refresh;
      if now > stored.expiresAt {
        return None;
      }
      if stored.clientID != req.clientID {
        return None;
      }
      return Some(stored);
    }

    /** The middle of exchangeRefreshToken. */
    method AuthenticateForRefresh(stored: RefreshToken, token: string, req: TokenRequest, at: Readings, drawn: Drawn, ghost pid: nat)
      returns (result: Result<Application, EngineError>)
      requires Valid() && world.sys.used !! drawn.Handles()
      requires pid in world.sys.procs && world.sys.procs[pid].Holding? && world.sys.procs[pid].node == node
      requires world.sys.procs[pid].stage.Accepted? && world.sys.procs[pid].data == RefreshPayload(stored)
      requires world.sys.procs[pid].purpose == ToRefresh(token, req)
      modifies this`states, this`codes, world, world.store, cache
      ensures Valid() && world.sys.used !! drawn.Handles() && old(world.trace) <= world.trace && pid in world.sys.procs
      ensures result != Err(AppUnavailable) ==> Continues(old(world.trace), world.trace, pid)
      ensures world.store.faults >= old(world.store.faults)
      ensures match result
              case Err(e) =>
                && world.sys.procs[pid] == Done(Failed) && (e == AppUnavailable || e == ClientRejected)
                && (RefreshRefused(e, token, req, at, pid) || LostAccess(e, old(world.store.faults)))
              case Ok(app) =>
                var p := old(world.sys.procs[pid]);
                && world.sys.procs[pid] == p.(stage := Authenticated(p.stage.checkedAt, Grant(req, app, Some(stored.claims), stored.scope, "", stored.familyID)))
                && RefreshClientAuthenticated(app, req) && app.organizationID in world.tenants
    {
      var found := LoadOwner(stored.organizationID, stored.clientID, at.loaded, drawn.Handles(), pid);
      assert GotRefresh(pid, token, stored);
      if found.None? {
        return Err(AppUnavailable);
      }
      var app := found.value;
      world.Admit(pid, app, at.loaded);
      if !app.IsPublicClient() && app.clientSecret != req.clientSecret {
        assert GotRefresh(pid, token, stored) && AppKnown(world.sys, AppSlot(node, stored.organizationID, stored.clientID), app, at.loaded);
        return Err(ClientRejected);
      }
      return Ok(app);
    }

    /** The token endpoint. */
    method ExchangeCodeForToken(grantType: string, code: string, refreshToken: string, req: TokenRequest,
                                material: KeyRing.KeyMaterial, drawn: Drawn, at: Readings, ghost pid: nat, ghost kpid: nat)
      returns (result: Result<TokenResponse, EngineError>)
      requires Valid() && MayIssue(material, kpid) && pid !in world.sys.procs && drawn.Distinct() && world.sys.used !! drawn.Handles()
      modifies this`states, this`codes, world, world.store, cache, keys`clock, keys.world, keys.world.store, keys.cache
      ensures Valid() && CanIssue() && KeyService.Grown(old(keys.world.sys), keys.world.sys) && old(world.trace) <= world.trace
      ensures result == Err(BadRequest) <==>
                grantType !in {"", "authorization_code", "refresh_token"} || (grantType == "refresh_token" && refreshToken == "")
      ensures result == Err(BadRequest) ==> world.sys == old(world.sys)
      ensures result != Err(NoSigningKey) && result != Err(AppUnavailable) ==> Continues(old(world.trace), world.trace, pid)
      ensures result.Err? && result.error != BadRequest ==>
                || LostAccess(result.error, old(world.store.faults)) || LostKey(result.error, old(keys.world.store.faults))
                || (if grantType == "refresh_token" then RefreshRefused(result.error, refreshToken, req, at, pid)
                    else CodeRefused(result.error, code, req, at, pid))
      ensures result.Ok? ==>
                Delivered(if grantType == "refresh_token" then RefreshKey(refreshToken) else CodeKey(code), req, result.value, drawn, pid)
    {
      if grantType == "refresh_token" {
        result := ExchangeRefreshToken(refreshToken, req, material, drawn, at, pid, kpid);
      } else if grantType == "authorization_code" || grantType == "" {
        result := ExchangeAuthorizationCode(code, req, material, drawn, at, pid, kpid);
      } else {
        return Err(BadRequest);
      }
    }

    ghost predicate RefreshStored(key: Key, app: Application, base: AuthClaims, scope: string, family: string, now: int)
      reads world
    {
      && key in world.sys.store && world.sys.store[key].data.RefreshPayload?
      && var rt := world.sys.store[key].data.refresh;
         rt == RefreshToken(app.organizationID, app.clientID, scope, base, family, now, now + 14 * 24 * HOUR)
    }

    /** The last token set sent was minted from this handle and grant for this request. */
    ghost predicate TokensWereSent(source: Key, g: Grant, drawn: Drawn, pid: nat)
      reads world
    {
      && pid in world.sys.procs && world.sys.procs[pid] == Done(TokensSent(drawn.refresh))
      && |world.sys.hist.tokens| > 0
      && var ts := world.sys.hist.tokens[|world.sys.hist.tokens| - 1];
         ts.source == source && ts.grant == g && ts.pid == pid && ts.refreshHandle == drawn.refresh
    }

    /** What a successful exchange leaves behind on both machines, and that its answer says the same. */
    ghost predicate Delivered(source: Key, req: TokenRequest, r: TokenResponse, drawn: Drawn, pid: nat)
      reads world, keys, keys.world
    {
      exists g ::
        && TokensWereSent(source, g, drawn, pid)
        && g.treq == req && g.base.Some? && r.refreshToken == drawn.refresh && r.scope == g.scope
        && CarriesTokens(keys.world.sys, r, KeyRing.Slot(node, g.app.organizationID, g.app.id), g.base.value, g.app, g.scope, g.nonce, drawn)
    }
  }
}
