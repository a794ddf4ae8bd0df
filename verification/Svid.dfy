/** Issuing JWT-SVIDs to registered workloads (pkg/idp/svid.go, pkg/spiffe/spiffe.go IssueJWTSVID). */
module Svid {
  import opened Wrappers
  import opened Text
  import opened Models
  import opened Storage
  import opened Jwt
  import opened Minting
  import opened Schedule
  import KeyRing
  import KeyService
  import Keys

  datatype SPIFFEWorkload = SPIFFEWorkload(
    id: string,
    spiffeID: string,
    certFingerprint: string,
    allowedScopes: seq<string>,
    allowedAudiences: seq<string>,
    active: bool)

  datatype SVIDRequest = SVIDRequest(
    organizationID: string,
    workloadID: string,
    certFingerprint: string,
    audience: string,
    requestedScopes: seq<string>)

  datatype SvidError =
    | MissingIdentifier
    | WorkloadNotFound
    | WorkloadInactive
    | WorkloadUnbound
    | FingerprintMismatch
    | NoSPIFFEID
    | AudienceRequired
    | AudienceNotAllowed
    | NoSigningKey

  // --- audiences ---

  /** Whether an audience may be granted: with an allow-list, only from the list, and by default only its sole entry. */
  predicate Grants(allowed: seq<string>, requested: string, audience: string) {
    if TrimSpace(requested) == "" then allowed == [audience]
    else audience == TrimSpace(requested) && (allowed == [] || audience in allowed)
  }

  /** resolveSVIDAudience: it settles on an audience exactly when there is one to grant, which is then the only one. */
  method ResolveSVIDAudience(allowed: seq<string>, requestedText: string) returns (result: Result<string, SvidError>)
    ensures result.Ok? <==> exists a :: Grants(allowed, requestedText, a)
    ensures result.Ok? ==> forall a :: Grants(allowed, requestedText, a) <==> a == result.value
    ensures result == Err(AudienceRequired) <==> TrimSpace(requestedText) == "" && |allowed| != 1
    ensures result.Err? ==> result.error == AudienceRequired || result.error == AudienceNotAllowed
  {
    var requested := TrimSpace(requestedText);
    if |allowed| == 0 {
      if requested == "" {
        return Err(AudienceRequired);
      }
      assert Grants(allowed, requestedText, requested);
      return Ok(requested);
    }
    if requested == "" {
      if |allowed| == 1 {
        assert Grants(allowed, requestedText, allowed[0]);
        return Ok(allowed[0]);
      }
      return Err(AudienceRequired);
    }
    for i := 0 to |allowed|
      invariant requested !in allowed[..i]
    {
      if allowed[i] == requested {
        assert Grants(allowed, requestedText, requested);
        return Ok(requested);
      }
    }
    return Err(AudienceNotAllowed);
  }

  // --- scopes ---

  predicate Permits(allowed: seq<string>, scope: string) {
    "*" in allowed || scope in allowed
  }

  /** The requested scopes that are permitted, in the order requested; without a request, all that is allowed. */
  function Granted(allowed: seq<string>, requested: seq<string>): seq<string> {
    if requested == [] then allowed else PermittedOf(allowed, requested)
  }

  function PermittedOf(allowed: seq<string>, requested: seq<string>): seq<string> {
    if requested == [] then []
    else
      var front, last := PermittedOf(allowed, requested[..|requested| - 1]), requested[|requested| - 1];
      if Permits(allowed, last) then front + [last] else front
  }

  method GrantScopes(allowed: seq<string>, requested: seq<string>) returns (granted: seq<string>)
    ensures granted == Granted(allowed, requested)
  {
    if |requested| == 0 {
      return allowed;
    }
    granted := [];
    for i := 0 to |requested|
      invariant granted == PermittedOf(allowed, requested[..i])
    {
      assert requested[..i + 1][..i] == requested[..i];
      var want := requested[i];
      var permitted := false;
      for j := 0 to |allowed|
        invariant !permitted ==> "*" !in allowed[..j] && want !in allowed[..j]
        invariant permitted ==> Permits(allowed, want)
      {
        if allowed[j] == "*" || allowed[j] == want {
          permitted := true;
          break;
        }
      }
      if permitted {
        granted := granted + [want];
      }
    }
    assert requested[..|requested|] == requested;
  }

  /** Nothing is granted that was not both asked for and permitted, and nothing asked for and permitted is withheld. */
  lemma {:induction false} GrantedIsIntersection(allowed: seq<string>, requested: seq<string>, scope: string)
    ensures scope in PermittedOf(allowed, requested) <==> scope in requested && Permits(allowed, scope)
  {
    if requested != [] {
      GrantedIsIntersection(allowed, requested[..|requested| - 1], scope);
      assert requested == requested[..|requested| - 1] + [requested[|requested| - 1]];
    }
  }

  /** Every word of every allowed scope is itself allowed. */
  ghost predicate WordsAllowed(allowed: seq<string>) {
    forall a, w | a in allowed && w in Split(a, ' ') :: w in allowed
  }

  /** The scope claim is one string; this is a word a verifier reads in it. */
  predicate ClaimNames(allowed: seq<string>, requested: seq<string>, word: string) {
    Granted(allowed, requested) != [] && word in Split(Join(Granted(allowed, requested), ' '), ' ')
  }

  lemma ClaimedWordsAreAllowed(allowed: seq<string>, requested: seq<string>, word: string)
    requires ("*" in allowed || WordsAllowed(allowed)) && ClaimNames(allowed, requested, word)
    ensures Permits(allowed, word)
  {
    if "*" !in allowed {
      SplitOfJoin(Granted(allowed, requested), ' ', word);
      var g :| g in Granted(allowed, requested) && word in Split(g, ' ');
      GrantedIsIntersection(allowed, requested, g);
    }
  }

  /** The family that fails: an allowed scope with a word that is not allowed puts that word into the claim. */
  lemma SpacedScopeNamesMore(allowed: seq<string>, scope: string, word: string)
    requires "*" !in allowed && scope in allowed && word in Split(scope, ' ') && word !in allowed
    ensures ClaimNames(allowed, [], word) && ClaimNames(allowed, [scope], word) && !Permits(allowed, word)
  {
    SplitOfJoin(allowed, ' ', word);
    assert Permits(allowed, scope);
    assert PermittedOf(allowed, [scope]) == [scope] by {
      assert [scope][..0] == [];
    }
  }

  /**
   * Read word by word, the scope claim names only permitted scopes, whatever is requested, exactly when everything is
   * allowed or every word of an allowed scope is allowed too.
   */
  lemma ScopeClaimIsPermitted(allowed: seq<string>)
    ensures (forall requested, word | ClaimNames(allowed, requested, word) :: Permits(allowed, word))
       <==> "*" in allowed || WordsAllowed(allowed)
  {
    if "*" in allowed || WordsAllowed(allowed) {
      forall requested, word | ClaimNames(allowed, requested, word) ensures Permits(allowed, word) {
        ClaimedWordsAreAllowed(allowed, requested, word);
      }
    } else {
      var a, w :| a in allowed && w in Split(a, ' ') && w !in allowed;
      SpacedScopeNamesMore(allowed, a, w);
    }
  }

  // --- issuing ---

  /** Registered and presented fingerprints match up to letter case and surrounding space, and neither is blank. */
  predicate FingerprintsMatch(registered: string, presented: string) {
    TrimSpace(registered) != "" && ToLower(TrimSpace(registered)) == ToLower(TrimSpace(presented))
  }

  predicate Eligible(w: SPIFFEWorkload, req: SVIDRequest) {
    w.active && FingerprintsMatch(w.certFingerprint, req.certFingerprint) && TrimSpace(w.spiffeID) != ""
  }

  function WorkloadKey(org: string, workload: string): string {
    Keys.RecordKey(org, Keys.Workloads, workload).Render()
  }

  lemma WorkloadKeyText(org: string, workload: string)
    ensures WorkloadKey(org, workload) == "organizations/" + org + "/spiffe/workloads/" + workload + ".json"
  {
    Keys.RecordText(org, Keys.Workloads, workload);
    assert "organizations/" + org + "/" + "spiffe/workloads/" == "organizations/" + org + "/spiffe/workloads/";
  }

  datatype SVIDResponse = SVIDResponse(svid: string, spiffeID: string, scope: string, organizationID: string)

  class SvidIssuer {
    const node: nat
    const store: JayDBStorage<string, Option<SPIFFEWorkload>>
    const keys: KeyService.KeyEngine
    const baseURL: string
    const issuerFor: Option<string -> string>

    constructor (node: nat, store: JayDBStorage<string, Option<SPIFFEWorkload>>, keys: KeyService.KeyEngine, baseURL: string,
                 issuerFor: Option<string -> string>)
      ensures this.node == node && this.store == store && this.keys == keys && this.baseURL == baseURL && this.issuerFor == issuerFor
    {
      this.node, this.store, this.keys, this.baseURL, this.issuerFor := node, store, keys, baseURL, issuerFor;
    }

    /** The key half of the engine is this node's, and the issuer policy is the deployment's. */
    ghost predicate CanIssue()
      reads keys, keys.world, keys.world.store`records, keys.cache
    {
      keys.Valid() && keys.node == node && baseURL == KeyRing.ISSUER_BASE_URL && issuerFor == KeyRing.ISSUER_RESOLVER
    }

    ghost predicate OnlyTenantsHaveWorkloads(org: string, id: string)
      reads store`records
    {
      WorkloadKey(org, id) in store.records ==> org in keys.world.tenants
    }

    /**
     * IssueSVID: a token over exactly the registered identity, one grantable audience and the granted scopes, signed with the
     * tenant's key, and only for an active, bound workload whose fingerprint was presented. Failures report the first check
     * that fails.
     */
    method IssueSVID(req: SVIDRequest, material: KeyRing.KeyMaterial, jti: string, ghost kpid: nat)
      returns (result: Result<SVIDResponse, SvidError>, ghost lost: Fault)
      requires CanIssue() && OnlyTenantsHaveWorkloads(TrimSpace(req.organizationID), TrimSpace(req.workloadID))
      requires kpid !in keys.world.sys.procs && keys.Unused(material)
      modifies store`faults, keys`clock, keys.world, keys.world.store, keys.cache
      ensures CanIssue() && KeyService.Grown(old(keys.world.sys), keys.world.sys)
      ensures result == Err(NoSigningKey) ==> keys.world.store.faults > old(keys.world.store.faults)
      ensures var org, id := TrimSpace(req.organizationID), TrimSpace(req.workloadID);
              var records, key := old(store.records), "organizations/" + org + "/spiffe/workloads/" + id + ".json";
              var found := lost.NoFault? && key in records && records[key].data.Some?;
              && (result == Err(MissingIdentifier) <==> org == "" || id == "")
              && (org != "" && id != "" ==> (result == Err(WorkloadNotFound) <==> !found))
              && (org != "" && id != "" && found ==>
                    var w := records[key].data.value;
                    && (result.Ok? || result == Err(NoSigningKey) <==> Eligible(w, req) && exists a :: Grants(w.allowedAudiences, req.audience, a))
                    && (result == Err(WorkloadInactive) <==> !w.active)
                    && (result == Err(WorkloadUnbound) <==> w.active && TrimSpace(w.certFingerprint) == "")
                    && (result.Ok? ==> IssuedFor(result.value, w, org, req, jti)))
    {
      lost := NoFault;
      var org, id := TrimSpace(req.organizationID), TrimSpace(req.workloadID);
      if org == "" || id == "" {
        return Err(MissingIdentifier), lost;
      }
      WorkloadKeyText(org, id);
      var rec, fault := store.Get(WorkloadKey(org, id));
      lost := fault;
      if rec.Err? || rec.value.data.None? {
        return Err(WorkloadNotFound), lost;
      }
      var w := rec.value.data.value;
      var checked := CheckWorkload(w, req);
      if checked.Err? {
        return Err(checked.error), lost;
      }
      result := SignFor(w, org, req, checked.value, material, jti, kpid);
    }

    /** The checks of IssueSVID on a loaded workload, up to the audience. */
    method CheckWorkload(w: SPIFFEWorkload, req: SVIDRequest) returns (audience: Result<string, SvidError>)
      ensures audience.Ok? <==> Eligible(w, req) && exists a :: Grants(w.allowedAudiences, req.audience, a)
      ensures audience.Ok? ==> Grants(w.allowedAudiences, req.audience, audience.value)
      ensures audience == Err(WorkloadInactive) <==> !w.active
      ensures audience == Err(WorkloadUnbound) <==> w.active && TrimSpace(w.certFingerprint) == ""
      ensures audience.Err? ==> audience.error !in {MissingIdentifier, WorkloadNotFound, NoSigningKey}
    {
      if !w.active {
        return Err(WorkloadInactive);
      }
      var registered := ToLower(TrimSpace(w.certFingerprint));
      if registered == "" {
        assert |TrimSpace(w.certFingerprint)| == 0;
        return Err(WorkloadUnbound);
      }
      var presented := ToLower(TrimSpace(req.certFingerprint));
      if presented == "" || registered != presented {
        return Err(FingerprintMismatch);
      }
      if TrimSpace(w.spiffeID) == "" {
        return Err(NoSPIFFEID);
      }
      audience := ResolveSVIDAudience(w.allowedAudiences, req.audience);
    }

    /** The signing half: the organization's own key, whatever the application, and claims from the registration. */
    method SignFor(w: SPIFFEWorkload, org: string, req: SVIDRequest, audience: string, material: KeyRing.KeyMaterial, jti: string, ghost kpid: nat)
      returns (result: Result<SVIDResponse, SvidError>)
      requires CanIssue() && org in keys.world.tenants && Grants(w.allowedAudiences, req.audience, audience)
      requires kpid !in keys.world.sys.procs && keys.Unused(material)
      modifies keys`clock, keys.world, keys.world.store, keys.cache
      ensures CanIssue() && KeyService.Grown(old(keys.world.sys), keys.world.sys)
      ensures result.Err? ==> result.error == NoSigningKey && keys.world.store.faults > old(keys.world.store.faults)
      ensures result.Ok? ==> IssuedFor(result.value, w, org, req, jti)
    {
      var key := keys.ResolveSigningKey(org, "", material, kpid);
      if key.None? {
        return Err(NoSigningKey);
      }
      var granted := GrantScopes(w.allowedScopes, req.requestedScopes);
      var response := SignWith(w, org, audience, Join(granted, ' '), key.value, jti, kpid);
      return Ok(response);
    }

    /** IssueJWTSVID; a resolved key always signs. */
    method SignWith(w: SPIFFEWorkload, org: string, audience: string, scope: string, key: SigningKey, jti: string, ghost kpid: nat)
      returns (r: SVIDResponse)
      requires CanIssue() && key.privateKey.RSAPrivate?
      requires kpid in keys.world.sys.procs && keys.world.sys.procs[kpid] == KeyRing.Resolved(KeyRing.Slot(node, org, ""), key)
      modifies keys`clock, keys.world
      ensures CanIssue() && KeyService.Grown(old(keys.world.sys), keys.world.sys)
      ensures r.spiffeID == TrimSpace(w.spiffeID) && r.organizationID == org && r.scope == scope
      ensures exists notBefore, at ::
                && notBefore <= at
                && KeyService.MintedAs(keys.world.sys, KeyRing.Minted(KeyRing.Slot(node, org, ""), key,
                                         KeyRing.Workload(r.spiffeID, audience, w.id, r.scope, notBefore, jti), at), r.svid)
    {
      var spiffeID := TrimSpace(w.spiffeID);
      var issuer := IssuerFor(baseURL, issuerFor, org);
      var notBefore := keys.Now();
      var now := keys.Now();
      var signed := SignJWT(SvidClaims(spiffeID, issuer, audience, org, w.id, scope, jti, notBefore, now), key.privateKey, key.kid);
      ghost var slot := KeyRing.Slot(node, org, "");
      keys.AccountMint(slot, key, KeyRing.Workload(spiffeID, audience, w.id, scope, notBefore, jti), kpid);
      r := SVIDResponse(signed.value.token, spiffeID, scope, org);
      assert KeyService.MintedAs(keys.world.sys, KeyRing.Minted(slot, key, KeyRing.Workload(spiffeID, audience, w.id, scope, notBefore, jti), now),
                                 signed.value.token);
    }

    /** The response says what was granted, and its token was signed over just that. */
    ghost predicate IssuedFor(r: SVIDResponse, w: SPIFFEWorkload, org: string, req: SVIDRequest, jti: string)
      reads keys, keys.world
    {
      && r.spiffeID == TrimSpace(w.spiffeID) && r.organizationID == org
      && r.scope == Join(Granted(w.allowedScopes, req.requestedScopes), ' ')
      && exists audience, key, notBefore, at ::
           && Grants(w.allowedAudiences, req.audience, audience) && notBefore <= at
           && KeyService.MintedAs(keys.world.sys, KeyRing.Minted(KeyRing.Slot(node, org, ""), key,
                                    KeyRing.Workload(r.spiffeID, audience, w.id, r.scope, notBefore, jti), at), r.svid)
    }
  }
}
