/** What the authorization protocol guarantees in every reachable state and over every run. */
module ProtocolTheorems {
  import opened Wrappers
  import opened Models
  import opened Storage
  import opened Protocol
  import opened ProtocolInvariant
  import opened Lineage
  import opened Registration

  /** States some schedule leads to, for any number of nodes, requests and storage faults. */
  ghost predicate Reachable(s: Sys) {
    exists acts :: Exec(Init, acts) == Some(s)
  }

  lemma ReachableInv(s: Sys)
    requires Reachable(s)
    ensures Inv(s) && WellFounded(s.hist.issued) && OneChild(s.hist.issued)
  {
    var acts :| Exec(Init, acts) == Some(s);
    InitInv();
    RunKeepsInv(Init, acts);
    InvIsWellFounded(s);
  }

  // --- single use ---

  /** However many requests race for a handle, at most one is ever handed its payload, and it is the payload stored. */
  lemma SingleUse(s: Sys, q: Receipt, r: Receipt)
    requires Reachable(s) && q in s.hist.received && r in s.hist.received && q.key == r.key
    ensures q == r && q.key in s.hist.issued && q.data == s.hist.issued[q.key].data && q.key !in s.store
  {
    ReachableInv(s);
  }

  // --- one live carrier per authorization request ---

  /** What can still turn into tokens: a stored handle, or a request that has claimed one and not yet minted. */
  datatype Carrier = Stored(key: Key) | InFlight(pid: nat)

  ghost predicate IsCarrier(s: Sys, c: Carrier) {
    match c
    case Stored(k) => IsSession(k) && k in s.store && k in s.hist.issued
    case InFlight(pid) => pid in s.procs && s.procs[pid].Holding? && s.procs[pid].purpose.Key() in s.hist.issued
  }

  ghost function CarriedKey(s: Sys, c: Carrier): Key
    requires IsCarrier(s, c)
  {
    match c
    case Stored(k) => k
    case InFlight(pid) => s.procs[pid].purpose.Key()
  }

  lemma CarriedIsChildless(s: Sys, c: Carrier)
    requires Inv(s) && IsCarrier(s, c)
    ensures Childless(s.hist.issued, CarriedKey(s, c))
  {
    match c
    case Stored(k) =>
      forall x | x in s.hist.issued ensures !IsChildOf(s.hist.issued, x, k) {
      }
    case InFlight(pid) => HolderFacts(s, pid);
  }

  lemma SameKeySameCarrier(s: Sys, c: Carrier, d: Carrier)
    requires Inv(s) && IsCarrier(s, c) && IsCarrier(s, d) && CarriedKey(s, c) == CarriedKey(s, d)
    ensures c == d
  {
    if c.InFlight? {
      HolderFacts(s, c.pid);
    }
    if d.InFlight? {
      HolderFacts(s, d.pid);
    }
  }

  /**
   * An authorization request is in at most one place: of all states, codes and refresh handles descending from it,
   * either one is stored or one request is working on one, never both and never two.
   */
  lemma OneCarrierPerAuthorization(s: Sys, c: Carrier, d: Carrier)
    requires Reachable(s) && IsCarrier(s, c) && IsCarrier(s, d)
    requires WellFounded(s.hist.issued)
    requires Chain(s.hist.issued, CarriedKey(s, c))[0] == Chain(s.hist.issued, CarriedKey(s, d))[0]
    ensures c == d
  {
    ReachableInv(s);
    CarriedIsChildless(s, c);
    CarriedIsChildless(s, d);
    ChildlessIsTip(s.hist.issued, CarriedKey(s, c), CarriedKey(s, d));
    SameKeySameCarrier(s, c, d);
  }

  // --- refresh families ---

  ghost predicate InFamily(s: Sys, k: Key, family: string) {
    k in s.hist.issued && k.RefreshKey? && FamilyOf(s.hist.issued[k].data) == family
  }

  /** A refresh token belongs to the family of the first refresh token its code was exchanged for. */
  lemma {:induction false} FamilyStartsAtCode(s: Sys, k: Key)
    requires Inv(s) && WellFounded(s.hist.issued) && k in s.hist.issued && k.RefreshKey?
    ensures var c := Chain(s.hist.issued, k);
            |c| > 2 && IsFamilyRoot(s.hist.issued, c[2]) && FamilyOf(s.hist.issued[c[2]].data) == FamilyOf(s.hist.issued[k].data)
    decreases s.hist.issued[k].seqno
  {
    ChainShape(s, k);
    var parent := s.hist.issued[k].source.parent;
    EdgeKinds(s, k);
    ChainShape(s, parent);
    if parent.RefreshKey? {
      FamilyStartsAtCode(s, parent);
      assert EdgeOk(s.hist.apps, s.hist.issued, k);
      assert EdgeOk(s.hist.apps, s.hist.issued, parent);
    }
  }

  /** Two refresh tokens share a family exactly when they descend from the same authorization request. */
  lemma FamilyIsOneAuthorization(s: Sys, j: Key, k: Key)
    requires Reachable(s) && WellFounded(s.hist.issued)
    requires j in s.hist.issued && j.RefreshKey? && k in s.hist.issued && k.RefreshKey?
    ensures FamilyOf(s.hist.issued[j].data) == FamilyOf(s.hist.issued[k].data)
       <==> Chain(s.hist.issued, j)[0] == Chain(s.hist.issued, k)[0]
  {
    ReachableInv(s);
    var issued := s.hist.issued;
    FamilyStartsAtCode(s, j);
    FamilyStartsAtCode(s, k);
    var cj, ck := Chain(issued, j), Chain(issued, k);
    ChainSteps(issued, j);
    ChainSteps(issued, k);
    if cj[0] == ck[0] {
      ChainsDoNotFork(issued, j, k);
    }
    if FamilyOf(issued[j].data) == FamilyOf(issued[k].data) {
      assert cj[2] == ck[2];
      assert cj[..3][0] == ck[..3][0];
    }
  }

  /** A family's handles form one chain: of any two, one descends from the other. */
  lemma FamilyIsOneChain(s: Sys, j: Key, k: Key, family: string)
    requires Reachable(s) && WellFounded(s.hist.issued) && InFamily(s, j, family) && InFamily(s, k, family)
    ensures Chain(s.hist.issued, j) <= Chain(s.hist.issued, k) || Chain(s.hist.issued, k) <= Chain(s.hist.issued, j)
    ensures |Chain(s.hist.issued, j)| > 2 && |Chain(s.hist.issued, k)| > 2
    ensures Chain(s.hist.issued, j)[1] == Chain(s.hist.issued, k)[1]
  {
    ReachableInv(s);
    FamilyIsOneAuthorization(s, j, k);
    FamilyStartsAtCode(s, j);
    FamilyStartsAtCode(s, k);
    ChainsDoNotFork(s.hist.issued, j, k);
  }

  ghost predicate CarriesFamily(s: Sys, c: Carrier, family: string) {
    IsCarrier(s, c) && InFamily(s, CarriedKey(s, c), family)
  }

  /** At most one of "a live handle" and "an exchange that has claimed but not minted" per family. */
  lemma OneCarrierPerFamily(s: Sys, c: Carrier, d: Carrier, family: string)
    requires Reachable(s) && CarriesFamily(s, c, family) && CarriesFamily(s, d, family)
    ensures c == d
  {
    ReachableInv(s);
    FamilyIsOneAuthorization(s, CarriedKey(s, c), CarriedKey(s, d));
    OneCarrierPerAuthorization(s, c, d);
  }

  /** A family id that has been handed out and that nothing carries any more. */
  ghost predicate DeadFamily(s: Sys, family: string) {
    family != "" && family in s.used && forall c :: !CarriesFamily(s, c, family)
  }

  lemma DeadFamilyHeld(s: Sys, family: string, pid: nat)
    requires Inv(s) && DeadFamily(s, family) && pid in s.procs && s.procs[pid].Holding? && s.procs[pid].stage.Authenticated?
    ensures s.procs[pid].stage.grant.family != family
  {
    HolderFacts(s, pid);
    EdgeKinds(s, s.procs[pid].purpose.Key());
    assert EdgeOk(s.hist.apps, s.hist.issued, s.procs[pid].purpose.Key());
    assert !CarriesFamily(s, InFlight(pid), family);
  }

  // What one step may change, established action by action.

  /** Used tokens and issued records are never forgotten, and nothing once issued is stored a second time. */
  ghost predicate StepFrame(s: Sys, s': Sys) {
    && s.used <= s'.used
    && (forall k | k in s.hist.issued :: k in s'.hist.issued && s'.hist.issued[k] == s.hist.issued[k])
    && (forall k | k in s'.store && IsSession(k) && k in s.hist.issued :: k in s.store && s'.store[k] == s.store[k])
  }

  /** A request holds a record only if it held it before or its Delete has just removed it. */
  ghost predicate HolderFrame(s: Sys, s': Sys) {
    forall pid | pid in s'.procs && s'.procs[pid].Holding? ::
      && pid in s.procs
      && (|| (s.procs[pid].Holding? && s.procs[pid].purpose == s'.procs[pid].purpose)
          || (s.procs[pid].Read? && s.procs[pid].purpose == s'.procs[pid].purpose && s.procs[pid].purpose.Key() in s.store))
  }

  /** Any refresh token the step adds belongs to a new family or to the one its minter held. */
  ghost predicate RefreshFrame(s: Sys, s': Sys, a: Action) {
    forall k: Key | k.RefreshKey? && k in s'.hist.issued && k !in s.hist.issued ::
      && a.Mint? && a.pid in s.procs && s.procs[a.pid].Holding? && s.procs[a.pid].stage.Authenticated?
      && var f := FamilyOf(s'.hist.issued[k].data); f !in s.used || f == s.procs[a.pid].stage.grant.family
  }

  lemma StoreFrame(s: Sys, key: Key, i: Issue, version: string, tokens: set<string>, fault: Fault, success: Outcome)
    requires key !in s.hist.issued
    ensures StepFrame(s, StoreAndFinish(s, key, i, version, tokens, fault, success))
    ensures HolderFrame(s, StoreAndFinish(s, key, i, version, tokens, fault, success))
  {
  }

  lemma FinishFrame(s: Sys, pid: nat, o: Outcome)
    ensures StepFrame(s, Finish(s, pid, o)) && HolderFrame(s, Finish(s, pid, o)) && NoNewTokens(s, Finish(s, pid, o))
  {
  }

  ghost predicate NoNewTokens(s: Sys, s': Sys) {
    forall k: Key | k.RefreshKey? && k in s'.hist.issued :: k in s.hist.issued
  }

  lemma NodesFrame(s: Sys, s': Sys, nodes: map<nat, Locals>)
    requires StepFrame(s, s') && HolderFrame(s, s') && NoNewTokens(s, s')
    ensures StepFrame(s, s'.(nodes := nodes)) && HolderFrame(s, s'.(nodes := nodes)) && NoNewTokens(s, s'.(nodes := nodes))
  {
  }

  lemma StoresState(s: Sys, p: Proc, pid: nat, available: Option<seq<string>>, resolves: bool, hasURL: bool, handle: string, now: int,
                    version: string, fault: Fault)
    requires Inv(s) && p.Loaded? && handle !in s.used
    ensures var s' := DoStoreState(s, p, pid, available, resolves, hasURL, handle, now, version, fault);
            StepFrame(s, s') && HolderFrame(s, s') && NoNewTokens(s, s')
  {
    var idp := SelectIDP(p.app, p.req, available);
    if !RequestAcceptable(p.app, p.req) || idp.None? || !resolves {
      FinishFrame(s, pid, Failed);
    } else {
      FreshKey(s, StateKey(handle));
      var i, success := StateIssue(s, p, pid, idp.value, available, now), if hasURL then Redirected(handle) else Failed;
      var stored := StoreAndFinish(s, StateKey(handle), i, version, {handle}, fault, success);
      StoreFrame(s, StateKey(handle), i, version, {handle}, fault, success);
      NodesFrame(s, stored, DoStoreState(s, p, pid, available, resolves, hasURL, handle, now, version, fault).nodes);
    }
  }

  lemma StoreStateFrame(s: Sys, a: Action)
    requires Inv(s) && a.StoreState? && Enabled(s, a)
    ensures StepFrame(s, Apply(s, a)) && HolderFrame(s, Apply(s, a)) && RefreshFrame(s, Apply(s, a), a)
  {
    StoresState(s, s.procs[a.pid], a.pid, a.available, a.resolves, a.hasURL, a.handle, a.now, a.version, a.fault);
  }

  lemma StoresCode(s: Sys, p: Proc, pid: nat, claims: Option<AuthClaims>, handle: string, now: int, version: string, fault: Fault)
    requires Inv(s) && p.Holding? && p.stage.Accepted? && handle !in s.used
    ensures var s' := DoStoreCode(s, p, pid, claims, handle, now, version, fault); StepFrame(s, s') && HolderFrame(s, s') && NoNewTokens(s, s')
  {
    FreshKey(s, CodeKey(handle));
    FinishFrame(s, pid, Failed);
    if p.data.StatePayload? {
      StoreFrame(s, CodeKey(handle), CodeIssue(s, p, pid, claims, now), version, {handle}, fault, CodeSent(handle));
    }
  }

  lemma StoreCodeFrame(s: Sys, a: Action)
    requires Inv(s) && a.StoreCode? && Enabled(s, a)
    ensures StepFrame(s, Apply(s, a)) && HolderFrame(s, Apply(s, a)) && RefreshFrame(s, Apply(s, a), a)
  {
    StoresCode(s, s.procs[a.pid], a.pid, a.claims, a.handle, a.now, a.version, a.fault);
  }

  lemma StoresTokens(s: Sys, p: Proc, pid: nat, handle: string, family: string, now: int, version: string, fault: Fault)
    requires Inv(s) && p.Holding? && p.stage.Authenticated? && handle !in s.used
    ensures var s' := DoMint(s, p, pid, handle, family, now, version, fault);
            && StepFrame(s, s') && HolderFrame(s, s')
            && forall k: Key | k.RefreshKey? && k in s'.hist.issued && k !in s.hist.issued ::
                 FamilyOf(s'.hist.issued[k].data) == if p.stage.grant.family == "" then family else p.stage.grant.family
  {
    FreshKey(s, RefreshKey(handle));
    FinishFrame(s, pid, Failed);
    if p.stage.grant.base.Some? {
      var fam := if p.stage.grant.family == "" then family else p.stage.grant.family;
      StoreFrame(s, RefreshKey(handle), MintIssue(s, p, pid, fam, now), version, {handle, fam}, fault, TokensSent(handle));
    }
  }

  lemma MintFrame(s: Sys, a: Action)
    requires Inv(s) && a.Mint? && Enabled(s, a)
    ensures StepFrame(s, Apply(s, a)) && HolderFrame(s, Apply(s, a)) && RefreshFrame(s, Apply(s, a), a)
  {
    StoresTokens(s, s.procs[a.pid], a.pid, a.handle, a.family, a.now, a.version, a.fault);
  }

  lemma BeginFrame(s: Sys, a: Action)
    requires (a.Begin? || a.Get?) && Enabled(s, a)
    ensures StepFrame(s, Apply(s, a)) && HolderFrame(s, Apply(s, a)) && Apply(s, a).hist.issued == s.hist.issued
  {
  }

  lemma Deletes(s: Sys, p: Proc, pid: nat, fault: Fault)
    requires pid in s.procs && s.procs[pid] == p && p.Read?
    ensures var s' := DoDelete(s, p, pid, fault); StepFrame(s, s') && HolderFrame(s, s') && s'.hist.issued == s.hist.issued
  {
  }

  lemma ClaimFrame(s: Sys, a: Action)
    requires (a.Begin? || a.Get? || a.Delete?) && Enabled(s, a)
    ensures StepFrame(s, Apply(s, a)) && HolderFrame(s, Apply(s, a)) && RefreshFrame(s, Apply(s, a), a)
    ensures Apply(s, a).hist.issued == s.hist.issued
  {
    if a.Delete? {
      Deletes(s, s.procs[a.pid], a.pid, a.fault);
    } else {
      BeginFrame(s, a);
    }
  }

  lemma AdminFrame(s: Sys, a: Action)
    requires (a.PutApp? || a.DeleteApp? || a.CacheApp?) && Enabled(s, a)
    ensures StepFrame(s, Apply(s, a)) && HolderFrame(s, Apply(s, a)) && Apply(s, a).hist.issued == s.hist.issued
  {
  }

  lemma DecisionFrame(s: Sys, a: Action)
    requires (a.Check? || a.Authenticate?) && Enabled(s, a)
    ensures StepFrame(s, Apply(s, a)) && HolderFrame(s, Apply(s, a)) && Apply(s, a).hist.issued == s.hist.issued
  {
  }

  lemma ArrivalFrame(s: Sys, a: Action)
    requires (a.LoadForAuthorize? || a.Abandon?) && Enabled(s, a)
    ensures StepFrame(s, Apply(s, a)) && HolderFrame(s, Apply(s, a)) && Apply(s, a).hist.issued == s.hist.issued
  {
  }

  lemma OtherFrame(s: Sys, a: Action)
    requires !a.StoreState? && !a.StoreCode? && !a.Mint? && !a.Begin? && !a.Get? && !a.Delete? && Enabled(s, a)
    ensures StepFrame(s, Apply(s, a)) && HolderFrame(s, Apply(s, a)) && RefreshFrame(s, Apply(s, a), a)
    ensures Apply(s, a).hist.issued == s.hist.issued
  {
    if a.PutApp? || a.DeleteApp? || a.CacheApp? {
      AdminFrame(s, a);
    } else if a.Check? || a.Authenticate? {
      DecisionFrame(s, a);
    } else {
      ArrivalFrame(s, a);
    }
  }

  lemma EveryStepFrame(s: Sys, a: Action)
    requires Inv(s) && Enabled(s, a)
    ensures StepFrame(s, Apply(s, a)) && HolderFrame(s, Apply(s, a)) && RefreshFrame(s, Apply(s, a), a)
  {
    if a.StoreState? {
      StoreStateFrame(s, a);
    } else if a.StoreCode? {
      StoreCodeFrame(s, a);
    } else if a.Mint? {
      MintFrame(s, a);
    } else if a.Begin? || a.Get? || a.Delete? {
      ClaimFrame(s, a);
    } else {
      OtherFrame(s, a);
    }
  }

  /** A step cannot make a new carrier for a family that had none. */
  lemma CarriersComeFromCarriers(s: Sys, a: Action, family: string, c: Carrier)
    requires Inv(s) && Enabled(s, a) && DeadFamily(s, family)
    ensures !CarriesFamily(Apply(s, a), c, family)
  {
    var s' := Apply(s, a);
    if IsCarrier(s', c) && CarriedKey(s', c).RefreshKey? {
      var k := CarriedKey(s', c);
      if k !in s.hist.issued {
        EveryStepFrame(s, a);
        DeadFamilyHeld(s, family, a.pid);
      } else {
        EveryStepFrame(s, a);
        OldKeyNewCarrier(s, a, family, c, k);
      }
    }
  }

  lemma OldKeyNewCarrier(s: Sys, a: Action, family: string, c: Carrier, k: Key)
    requires Inv(s) && Enabled(s, a) && DeadFamily(s, family) && k in s.hist.issued && k.RefreshKey?
    requires IsCarrier(Apply(s, a), c) && CarriedKey(Apply(s, a), c) == k
    ensures !InFamily(s, k, family)
  {
    EveryStepFrame(s, a);
    assert !CarriesFamily(s, Stored(k), family);
    assert c.InFlight? ==> !CarriesFamily(s, c, family);
  }

  lemma DeadFamilyStep(s: Sys, a: Action, family: string)
    requires Inv(s) && Enabled(s, a) && DeadFamily(s, family)
    ensures DeadFamily(Apply(s, a), family)
  {
    EveryStepFrame(s, a);
    forall c ensures !CarriesFamily(Apply(s, a), c, family) {
      CarriersComeFromCarriers(s, a, family, c);
    }
  }

  /** Once nothing carries a family it never comes back to life, whatever happens next. */
  lemma {:induction false} DeadFamilyStaysDead(s: Sys, acts: seq<Action>, family: string)
    requires Inv(s) && Exec(s, acts).Some? && DeadFamily(s, family)
    ensures DeadFamily(Exec(s, acts).value, family)
    decreases |acts|
  {
    if acts != [] {
      StepKeepsInv(s, acts[0]);
      DeadFamilyStep(s, acts[0], family);
      DeadFamilyStaysDead(Apply(s, acts[0]), acts[1..], family);
    }
  }

  /**
   * Replaying a spent refresh token just fails: it leaves the store, the record of what was issued and every live carrier of
   * every family as they were, the family's own included.
   */
  lemma ReplayRevokesNothing(s: Sys, pid: nat, node: nat, token: string, treq: TokenRequest, fault: Fault, family: string, c: Carrier)
    requires pid !in s.procs && RefreshKey(token) !in s.store && CarriesFamily(s, c, family)
    ensures var replay := [Begin(pid, node, ToRefresh(token, treq)), Get(pid, fault)];
            && Exec(s, replay).Some?
            && var s' := Exec(s, replay).value;
               && pid in s'.procs && s'.procs[pid] == Done(Failed) && s'.store == s.store && s'.hist.issued == s.hist.issued && s'.hist.tokens == s.hist.tokens
               && CarriesFamily(s', c, family)
  {
    var begin, get := Begin(pid, node, ToRefresh(token, treq)), Get(pid, fault);
    var mid := Apply(s, begin);
    assert [begin, get][1..] == [get];
    assert Exec(mid, [get]) == Exec(Apply(mid, get), []);
  }

  // --- provenance ---

  function ScopeOf(data: Payload): string {
    match data
    case StatePayload(st) => st.scope
    case CodePayload(c) => c.scope
    case RefreshPayload(rt) => rt.scope
    case AppPayload(_) => ""
  }

  lemma RegisteredOwner(apps: set<AppRecord>, org: string, client: string, app: Application)
    requires Registered(apps, org, client, app) && forall r | r in apps :: WellFiled(r.org, r.client, r.app)
    ensures app.organizationID == org && app.clientID == client
  {
  }

  /** A child record keeps its parent's organization, client and scope. */
  lemma EdgeCarries(s: Sys, k: Key)
    requires Inv(s) && k in s.hist.issued && !s.hist.issued[k].source.Requested?
    ensures var i := s.hist.issued[k];
            && i.source.parent in s.hist.issued
            && OwnerOf(i.data) == OwnerOf(s.hist.issued[i.source.parent].data)
            && ScopeOf(i.data) == ScopeOf(s.hist.issued[i.source.parent].data)
  {
    assert EdgeOk(s.hist.apps, s.hist.issued, k);
    var i := s.hist.issued[k];
    var up := s.hist.issued[i.source.parent].data;
    if i.source.FromGrant? {
      RegisteredOwner(s.hist.apps, OwnerOf(up).0, OwnerOf(up).1, i.source.grant.app);
    }
  }

  /** The authorization request a record descends from. */
  ghost function Origin(s: Sys, k: Key): (i: Issue)
    requires WellFounded(s.hist.issued) && k in s.hist.issued
  {
    s.hist.issued[Chain(s.hist.issued, k)[0]]
  }

  lemma {:induction false} LineageCarries(s: Sys, k: Key)
    requires Inv(s) && WellFounded(s.hist.issued) && k in s.hist.issued
    ensures Origin(s, k).source.Requested?
    ensures var req := Origin(s, k).source.req;
            OwnerOf(s.hist.issued[k].data) == (req.organizationID, req.clientID) && ScopeOf(s.hist.issued[k].data) == req.scope
    decreases s.hist.issued[k].seqno
  {
    assert EdgeOk(s.hist.apps, s.hist.issued, k);
    if !s.hist.issued[k].source.Requested? {
      EdgeCarries(s, k);
      LineageCarries(s, s.hist.issued[k].source.parent);
    }
  }

  /** The code a token set or refresh token goes back to. */
  ghost function RedeemedCode(s: Sys, k: Key): (c: Key)
    requires Inv(s) && WellFounded(s.hist.issued) && k in s.hist.issued && !k.StateKey?
    ensures c.CodeKey? && c in s.hist.issued && s.hist.issued[c].data.CodePayload?
    ensures s.hist.issued[c].source.FromState? && Chain(s.hist.issued, k)[0] == s.hist.issued[c].source.parent
    ensures Origin(s, c) == Origin(s, k)
  {
    ChainShape(s, k);
    ChainSteps(s.hist.issued, k);
    var ch := Chain(s.hist.issued, k);
    EdgeKinds(s, ch[1]);
    assert EdgeOk(s.hist.apps, s.hist.issued, ch[1]);
    assert IsChildOf(s.hist.issued, ch[1], ch[0]);
    ch[1]
  }

  /** The identity a chain of refresh tokens speaks for is the one its code was issued for. */
  lemma {:induction false} IdentityIsConstant(s: Sys, k: Key)
    requires Inv(s) && WellFounded(s.hist.issued) && k in s.hist.issued && k.RefreshKey?
    ensures s.hist.issued[k].data.RefreshPayload?
    ensures s.hist.issued[RedeemedCode(s, k)].data.code.claims == Some(s.hist.issued[k].data.refresh.claims)
    decreases s.hist.issued[k].seqno
  {
    EdgeKinds(s, k);
    assert EdgeOk(s.hist.apps, s.hist.issued, k);
    var parent := s.hist.issued[k].source.parent;
    ChainShape(s, k);
    ChainShape(s, parent);
    if parent.RefreshKey? {
      IdentityIsConstant(s, parent);
    }
  }

  /**
   * A provider is the one named, if any was, and one the application allows, if it restricts them; if none was named, it is
   * the first of those allowed, or what the tenant's list leaves no choice about.
   */
  predicate ProviderPermitted(app: Application, req: AuthorizationRequest, available: Option<seq<string>>, idp: string) {
    && (req.idpID != "" ==> idp == req.idpID)
    && (app.allowedIDPs != [] ==> idp in app.allowedIDPs)
    && (req.idpID == "" ==> if app.allowedIDPs != [] then idp == app.allowedIDPs[0] else available == Some([idp]))
  }

  lemma SelectionIsPermitted(app: Application, req: AuthorizationRequest, available: Option<seq<string>>, idp: string)
    requires SelectIDP(app, req, available) == Some(idp)
    ensures ProviderPermitted(app, req, available, idp)
  {
    if req.idpID == "" && app.allowedIDPs == [] {
      assert available.value == [idp];
    }
  }

  /** What an authorization request established before anything was issued for it. */
  lemma OriginWasAuthorized(s: Sys, k: Key)
    requires Inv(s) && WellFounded(s.hist.issued) && k in s.hist.issued
    ensures var o := Origin(s, k);
            && o.source.Requested? && o.data.StatePayload?
            && AppRecord(o.source.req.organizationID, o.source.req.clientID, o.source.app) in s.hist.apps
            && o.source.req.redirectURI != "" && o.source.req.redirectURI in o.source.app.redirectURIs
            && ProviderPermitted(o.source.app, o.source.req, o.source.available, o.data.state.upstreamIDP)
            && (o.source.app.isPublic || o.source.app.clientSecret == "" ==> o.source.req.codeChallenge != "")
            && (o.source.req.codeChallenge != "" ==> o.source.req.codeChallengeMethod == "S256")
  {
    var root := Chain(s.hist.issued, k)[0];
    ChainSteps(s.hist.issued, k);
    assert EdgeOk(s.hist.apps, s.hist.issued, root);
    var o := s.hist.issued[root];
    SelectionIsPermitted(o.source.app, o.source.req, o.source.available, o.data.state.upstreamIDP);
  }

  /**
   * Every token set ever sent goes back to one authorization request: same organization (whatever organization the
   * redeemer named), same client, same scope. The redirect URI was registered, and the provider permitted, in the very
   * application record that was stored when that request read it.
   */
  lemma TokensComeFromAuthorization(acts: seq<Action>, s: Sys, n: nat)
    requires Exec(Init, acts) == Some(s) && n < |s.hist.tokens|
    ensures WellFounded(s.hist.issued)
    ensures var ts := s.hist.tokens[n];
            && ts.source in s.hist.issued && Origin(s, ts.source).source.Requested?
            && var o := Origin(s, ts.source);
               && ts.organizationID == o.source.req.organizationID
               && ts.clientID == o.source.req.clientID
               && ts.scope == o.source.req.scope
               && WasLoaded(acts, o.pid, o.source.req, o.source.app)
               && o.source.req.redirectURI != "" && o.source.req.redirectURI in o.source.app.redirectURIs
               && o.data.StatePayload?
               && ProviderPermitted(o.source.app, o.source.req, o.source.available, o.data.state.upstreamIDP)
  {
    ReachableInv(s);
    var ts := s.hist.tokens[n];
    assert TokenOk(ts, s.hist.apps, s.hist.issued);
    LineageCarries(s, ts.source);
    OriginWasAuthorized(s, ts.source);
    OriginWasLoaded(acts, s, ts.source);
    TokenOwner(s, ts);
  }

  /** The request a record descends from read its application while that record was stored. */
  lemma OriginWasLoaded(acts: seq<Action>, s: Sys, k: Key)
    requires Exec(Init, acts) == Some(s) && Inv(s) && WellFounded(s.hist.issued) && k in s.hist.issued
    ensures var o := Origin(s, k); o.source.Requested? && WasLoaded(acts, o.pid, o.source.req, o.source.app)
  {
    var root := Chain(s.hist.issued, k)[0];
    ChainSteps(s.hist.issued, k);
    StatesHadTheirApplication(acts, s);
    assert root in s.hist.issued && s.hist.issued[root].source.Requested?;
  }

  /** A token set is in the name of the application's own organization and client. */
  lemma TokenOrganization(s: Sys, n: nat)
    requires Reachable(s) && n < |s.hist.tokens|
    ensures var ts := s.hist.tokens[n];
            && ts.organizationID == ts.grant.app.organizationID && ts.clientID == ts.grant.app.clientID && ts.scope == ts.grant.scope
            && ts.idTokenNonce == ts.grant.nonce
  {
    ReachableInv(s);
    assert TokenOk(s.hist.tokens[n], s.hist.apps, s.hist.issued);
  }

  lemma TokenSourceKind(s: Sys, ts: TokenSet)
    requires Inv(s) && TokenOk(ts, s.hist.apps, s.hist.issued)
    ensures ts.source.CodeKey? || ts.source.RefreshKey?
    ensures ts.source.CodeKey? ==> s.hist.issued[ts.source].data.CodePayload? && ts.grant.base == s.hist.issued[ts.source].data.code.claims
    ensures ts.source.RefreshKey? ==>
              s.hist.issued[ts.source].data.RefreshPayload? && ts.grant.base == Some(s.hist.issued[ts.source].data.refresh.claims)
  {
    assert EdgeOk(s.hist.apps, s.hist.issued, ts.source);
    EdgeKinds(s, ts.source);
  }

  lemma CodeIsItsOwnRedeemedCode(s: Sys, k: Key)
    requires Inv(s) && WellFounded(s.hist.issued) && k in s.hist.issued && k.CodeKey?
    ensures RedeemedCode(s, k) == k
  {
    ChainShape(s, k);
    ChainSteps(s.hist.issued, k);
  }

  /** The identity in a token set is the one its code was issued with, however often it was refreshed. */
  lemma TokensSpeakForCode(s: Sys, n: nat)
    requires Reachable(s) && n < |s.hist.tokens|
    ensures Inv(s) && WellFounded(s.hist.issued) && s.hist.tokens[n].source in s.hist.issued && !s.hist.tokens[n].source.StateKey?
    ensures s.hist.tokens[n].grant.base == s.hist.issued[RedeemedCode(s, s.hist.tokens[n].source)].data.code.claims
  {
    ReachableInv(s);
    var ts := s.hist.tokens[n];
    assert TokenOk(ts, s.hist.apps, s.hist.issued);
    TokenSourceKind(s, ts);
    if ts.source.RefreshKey? {
      IdentityIsConstant(s, ts.source);
    } else {
      CodeIsItsOwnRedeemedCode(s, ts.source);
    }
  }

  lemma TokenOwner(s: Sys, ts: TokenSet)
    requires Inv(s) && TokenOk(ts, s.hist.apps, s.hist.issued)
    ensures OwnerOf(s.hist.issued[ts.source].data) == (ts.organizationID, ts.clientID)
    ensures ScopeOf(s.hist.issued[ts.source].data) == ts.scope
  {
    var data := s.hist.issued[ts.source].data;
    RegisteredOwner(s.hist.apps, OwnerOf(data).0, OwnerOf(data).1, ts.grant.app);
  }

  /** One authorization request stores at most one state, yields at most one code, and starts at most one family. */
  lemma AuthorizationsYieldOneOfEach(s: Sys, j: Key, k: Key)
    requires Reachable(s) && WellFounded(s.hist.issued) && j in s.hist.issued && k in s.hist.issued
    requires Origin(s, j).pid == Origin(s, k).pid
    ensures Origin(s, j) == Origin(s, k)
    ensures j.StateKey? && k.StateKey? ==> j == k
    ensures j.CodeKey? && k.CodeKey? ==> j == k
    ensures j.RefreshKey? && k.RefreshKey? ==> FamilyOf(s.hist.issued[j].data) == FamilyOf(s.hist.issued[k].data)
  {
    ReachableInv(s);
    var issued := s.hist.issued;
    assert Chain(issued, j)[0] == Chain(issued, k)[0];
    ChainsDoNotFork(issued, j, k);
    ChainShape(s, j);
    ChainShape(s, k);
    if j.RefreshKey? && k.RefreshKey? {
      FamilyIsOneAuthorization(s, j, k);
    }
  }

  /** A code or refresh token is turned into at most one token set. */
  lemma OneTokenSetPerHandle(s: Sys, m: nat, n: nat)
    requires Reachable(s) && m < |s.hist.tokens| && n < |s.hist.tokens|
    requires s.hist.tokens[m].source == s.hist.tokens[n].source
    ensures m == n
  {
    ReachableInv(s);
  }

  /**
   * Whoever redeemed a code or refresh token named the client it was issued to and, unless that client was public, presented
   * its secret, both as that client's record stood at most a minute before; a redirect URI named at redemption is the one the
   * authorization request named.
   */
  lemma RedeemerProvedItself(acts: seq<Action>, s: Sys, n: nat)
    requires Exec(Init, acts) == Some(s) && n < |s.hist.tokens|
    ensures WellFounded(s.hist.issued) && s.hist.tokens[n].source in s.hist.issued
    ensures var ts := s.hist.tokens[n];
            var o := Origin(s, ts.source);
            && ts.grant.treq.clientID == ts.clientID
            && WasAdmitted(acts, ts.pid, ts.grant.app)
            && (ts.grant.app.isPublic || ts.grant.app.clientSecret == "" || ts.grant.treq.clientSecret == ts.grant.app.clientSecret)
            && (ts.source.CodeKey? && ts.grant.treq.redirectURI != "" ==> o.source.Requested? && ts.grant.treq.redirectURI == o.source.req.redirectURI)
  {
    ReachableInv(s);
    TokensUseRecentRecord(acts, s, n);
    RedeemerMatches(s, n);
  }

  lemma RedeemerMatches(s: Sys, n: nat)
    requires Inv(s) && WellFounded(s.hist.issued) && n < |s.hist.tokens|
    ensures s.hist.tokens[n].source in s.hist.issued
    ensures var ts := s.hist.tokens[n];
            var o := Origin(s, ts.source);
            && ts.grant.treq.clientID == ts.clientID
            && (ts.grant.app.isPublic || ts.grant.app.clientSecret == "" || ts.grant.treq.clientSecret == ts.grant.app.clientSecret)
            && (ts.source.CodeKey? && ts.grant.treq.redirectURI != "" ==> o.source.Requested? && ts.grant.treq.redirectURI == o.source.req.redirectURI)
  {
    var ts := s.hist.tokens[n];
    assert TokenOk(ts, s.hist.apps, s.hist.issued);
    TokenOwner(s, ts);
    TokenSourceKind(s, ts);
    if ts.source.CodeKey? {
      CodeRepeatsRequest(s, ts.source);
    }
  }

  // --- PKCE ---

  /** A code repeats its request's PKCE commitment, nonce and redirect URI. */
  lemma CodeRepeatsRequest(s: Sys, k: Key)
    requires Inv(s) && WellFounded(s.hist.issued) && k in s.hist.issued && k.CodeKey?
    ensures s.hist.issued[k].data.CodePayload? && Origin(s, k).source.Requested?
    ensures var c, req := s.hist.issued[k].data.code, Origin(s, k).source.req;
            && c.codeChallenge == req.codeChallenge && c.codeChallengeMethod == req.codeChallengeMethod
            && c.nonce == req.nonce && c.redirectURI == req.redirectURI
  {
    EdgeKinds(s, k);
    assert EdgeOk(s.hist.apps, s.hist.issued, k);
    var parent := s.hist.issued[k].source.parent;
    EdgeKinds(s, parent);
    assert EdgeOk(s.hist.apps, s.hist.issued, parent);
    assert Chain(s.hist.issued, k) == [parent, k];
  }

  /** No code is ever stored with a challenge in any method but S256. */
  lemma StoredCodesUseS256(s: Sys, k: Key)
    requires Reachable(s) && k in s.store && k.CodeKey?
    ensures s.store[k].data.CodePayload?
    ensures s.store[k].data.code.codeChallenge == "" || s.store[k].data.code.codeChallengeMethod == "S256"
  {
    ReachableInv(s);
    CodeRepeatsRequest(s, k);
    OriginWasAuthorized(s, k);
  }

  /**
   * A token set minted from a code whose client is public or has no secret, or whose authorization request carried a
   * challenge, was redeemed with a verifier of 43 to 128 characters hashing to that very request's challenge.
   */
  lemma PkceEndToEnd(s: Sys, n: nat)
    requires Reachable(s) && n < |s.hist.tokens| && s.hist.tokens[n].source.CodeKey?
    ensures WellFounded(s.hist.issued) && s.hist.tokens[n].source in s.hist.issued
    ensures var ts := s.hist.tokens[n];
            var o := Origin(s, ts.source);
            && o.source.Requested?
            && (ts.grant.app.isPublic || ts.grant.app.clientSecret == "" || o.source.req.codeChallenge != "" ==>
                  && o.source.req.codeChallenge != "" && 43 <= |ts.grant.treq.codeVerifier| <= 128
                  && S256Challenge(ts.grant.treq.codeVerifier) == o.source.req.codeChallenge
                  && o.source.req.codeChallengeMethod == "S256")
  {
    ReachableInv(s);
    var ts := s.hist.tokens[n];
    assert TokenOk(ts, s.hist.apps, s.hist.issued);
    CodeRepeatsRequest(s, ts.source);
  }

  // --- nonces and lifetimes ---

  /** The ID token of a code exchange carries its own request's nonce; a refreshed one carries none. */
  lemma NonceOnlyOnCodeExchange(s: Sys, n: nat)
    requires Reachable(s) && n < |s.hist.tokens|
    ensures WellFounded(s.hist.issued) && s.hist.tokens[n].source in s.hist.issued
    ensures var ts := s.hist.tokens[n];
            && Origin(s, ts.source).source.Requested?
            && ts.idTokenNonce == if ts.source.CodeKey? then Origin(s, ts.source).source.req.nonce else ""
  {
    ReachableInv(s);
    var ts := s.hist.tokens[n];
    assert TokenOk(ts, s.hist.apps, s.hist.issued);
    OriginWasAuthorized(s, ts.source);
    if ts.source.CodeKey? {
      CodeRepeatsRequest(s, ts.source);
    } else {
      EdgeKinds(s, ts.source);
      assert EdgeOk(s.hist.apps, s.hist.issued, ts.source);
    }
  }

  /** By the clocks of the nodes involved, nothing is accepted after its lifetime. */
  lemma LifetimesAreEnforced(s: Sys, k: Key, n: nat)
    requires Reachable(s)
    ensures k in s.hist.issued && k.CodeKey? ==>
              && s.hist.issued[k].source.FromState? && s.hist.issued[k].source.parent in s.hist.issued
              && s.hist.issued[s.hist.issued[k].source.parent].data.StatePayload?
              && s.hist.issued[k].source.checkedAt <= s.hist.issued[s.hist.issued[k].source.parent].data.state.createdAt + 15 * MINUTE
    ensures n < |s.hist.tokens| ==>
              var ts := s.hist.tokens[n];
              ts.source in s.hist.issued &&
              match s.hist.issued[ts.source].data
              case CodePayload(c) => ts.checkedAt <= c.createdAt + 2 * MINUTE
              case RefreshPayload(rt) => ts.checkedAt <= rt.createdAt + 14 * 24 * HOUR
              case _ => false
  {
    ReachableInv(s);
    if k in s.hist.issued && k.CodeKey? {
      EdgeKinds(s, k);
      assert EdgeOk(s.hist.apps, s.hist.issued, k);
    }
    if n < |s.hist.tokens| {
      var ts := s.hist.tokens[n];
      assert TokenOk(ts, s.hist.apps, s.hist.issued);
      assert EdgeOk(s.hist.apps, s.hist.issued, ts.source);
    }
  }
}
