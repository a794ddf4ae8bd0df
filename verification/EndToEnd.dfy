/** From one authorization request, through an exchange at one node, to the verdict of a verifier anywhere. */
module EndToEnd {
  import opened Wrappers
  import opened Models
  import opened Jwt
  import AudienceJson
  import opened Minting
  import opened KeySets
  import opened Engine
  import opened KeyService
  import P = Protocol
  import ProtocolInvariant
  import Lineage
  import Theorems = ProtocolTheorems
  import Registration
  import K = KeyRing
  import KeyRingTheorems
  import Svid
  import opened Text

  /** The resource servers a token of the application is meant for: those registered, or by default the client itself. */
  predicate IsAudience(app: Application, audience: string) {
    audience in app.audiences || (app.audiences == [] && audience == app.clientID)
  }

  /** For this audience and use, a verifier accepts the token exactly when it should, and then reads these claims. */
  ghost predicate Verdict(signed: set<Signed>, token: string, keys: seq<SigningKey>, opts: VerifyOptions, now: int, accepts: bool, c: AuthClaims) {
    var r := Verify(signed, token, keys, opts, now);
    r.Ok? == accepts && (r.Ok? ==> r.value == c)
  }

  /** A verifier takes the access token exactly in its window and for an audience of the application, and then reads these claims. */
  ghost predicate AccessTokenPasses(signed: set<Signed>, token: string, keys: seq<SigningKey>, issuer: string, app: Application, at: int,
                                    c: AuthClaims) {
    forall audience, now | audience != "" ::
      Verdict(signed, token, keys, VerifyOptions(issuer, audience, "access", 0), now, InTokenWindow(at, now) && IsAudience(app, audience), c)
  }

  /** It takes the ID token exactly in its window and for the client, and then reads these claims; nowhere as an access token. */
  ghost predicate IdTokenPasses(signed: set<Signed>, token: string, keys: seq<SigningKey>, issuer: string, app: Application, at: int,
                                c: AuthClaims) {
    && (forall audience, now | audience != "" ::
          Verdict(signed, token, keys, VerifyOptions(issuer, audience, "id", 0), now, InTokenWindow(at, now) && audience == app.clientID, c))
    && (forall opts: VerifyOptions, now | opts.expectedTokenUse == "access" :: Verify(signed, token, keys, opts, now).Err?)
  }

  /** The keys a verifier reads, by a load that began after the state `ks` and finished by `later`, all records readable. */
  ghost predicate ReadLater(ks: K.KSys, later: K.KSys, org: string, list: seq<KeyRecord>) {
    exists acts, asOf: nat ::
      K.Run(ks, acts, later) && |ks.published| <= asOf <= |later.published| && K.ListedFrom(later.published, asOf, org, list, true)
  }

  /** A minted access token, against keys read at any later point of the run. */
  lemma AccessVerdict(ks: K.KSys, m: K.Minted, token: string, later: K.KSys, app: string, list: seq<KeyRecord>)
    requires IdealEncoding() && K.Reachable(ks) && MintedAs(ks, m, token) && m.request.Access?
    requires ReadLater(ks, later, m.slot.org, list) && (app == m.slot.app || app == "")
    ensures AccessTokenPasses(later.signed, token, PublicKeys(Selected(list, app)), K.IssuerOf(m.slot.org), m.request.application, m.at,
                              Received(m.Claims()))
  {
    var keys, issuer, c := PublicKeys(Selected(list, app)), K.IssuerOf(m.slot.org), Received(m.Claims());
    forall audience, now | audience != ""
      ensures Verdict(later.signed, token, keys, VerifyOptions(issuer, audience, "access", 0), now,
                      InTokenWindow(m.at, now) && IsAudience(m.request.application, audience), c)
    {
      AccessVerdictAt(ks, m, token, later, app, list, audience, now);
    }
  }

  lemma AccessVerdictAt(ks: K.KSys, m: K.Minted, token: string, later: K.KSys, app: string, list: seq<KeyRecord>, audience: string, now: int)
    requires IdealEncoding() && K.Reachable(ks) && MintedAs(ks, m, token) && m.request.Access? && audience != ""
    requires ReadLater(ks, later, m.slot.org, list) && (app == m.slot.app || app == "")
    ensures Verdict(later.signed, token, PublicKeys(Selected(list, app)), VerifyOptions(K.IssuerOf(m.slot.org), audience, "access", 0), now,
                    InTokenWindow(m.at, now) && IsAudience(m.request.application, audience), Received(m.Claims()))
  {
    var opts := VerifyOptions(K.IssuerOf(m.slot.org), audience, "access", 0);
    var acts, asOf: nat :|
      K.Run(ks, acts, later) && |ks.published| <= asOf <= |later.published| && K.ListedFrom(later.published, asOf, m.slot.org, list, true);
    KeyRingTheorems.IssuersAreNamed(m.slot.org);
    KeyRingTheorems.MintedThenVerified(ks, m, acts, later, asOf, app, list, opts, now);
    TimeWindowIsExact(m.Claims(), opts, m.at, now);
    assert AudienceContains(m.request.application.TokenAudiences(), audience) <==> IsAudience(m.request.application, audience);
  }

  lemma IdVerdict(ks: K.KSys, m: K.Minted, token: string, later: K.KSys, app: string, list: seq<KeyRecord>)
    requires IdealEncoding() && K.Reachable(ks) && MintedAs(ks, m, token) && m.request.Identity?
    requires ReadLater(ks, later, m.slot.org, list) && (app == m.slot.app || app == "")
    ensures IdTokenPasses(later.signed, token, PublicKeys(Selected(list, app)), K.IssuerOf(m.slot.org), m.request.application, m.at,
                          Received(m.Claims()))
  {
    var acts, asOf: nat :|
      K.Run(ks, acts, later) && |ks.published| <= asOf <= |later.published| && K.ListedFrom(later.published, asOf, m.slot.org, list, true);
    var keys, client := PublicKeys(Selected(list, app)), m.request.application.clientID;
    forall audience, now | audience != ""
      ensures Verdict(later.signed, token, keys, VerifyOptions(K.IssuerOf(m.slot.org), audience, "id", 0), now,
                      InTokenWindow(m.at, now) && audience == client, Received(m.Claims()))
    {
      var opts := VerifyOptions(K.IssuerOf(m.slot.org), audience, "id", 0);
      KeyRingTheorems.MintedThenVerified(ks, m, acts, later, asOf, app, list, opts, now);
      TimeWindowIsExact(m.Claims(), opts, m.at, now);
    }
    forall opts: VerifyOptions, now | opts.expectedTokenUse == "access" ensures Verify(later.signed, token, keys, opts, now).Err? {
      KeyRingTheorems.MintedThenVerified(ks, m, acts, later, asOf, app, list, opts, now);
    }
  }

  /**
   * The claims read from a token say whose the authorization request it goes back to was, and of whom, as the provider
   * described them, its code was issued.
   */
  ghost predicate TellsOrigin(acts: seq<P.Action>, s: P.Sys, source: P.Key, app: Application, c: AuthClaims)
    requires ProtocolInvariant.Inv(s) && Lineage.WellFounded(s.hist.issued) && source in s.hist.issued && !source.StateKey?
  {
    var o := Theorems.Origin(s, source);
    && o.source.Requested? && Registration.WasLoaded(acts, o.pid, o.source.req, o.source.app)
    && c.organizationID == o.source.req.organizationID && c.appID == app.id
    && var code := s.hist.issued[Theorems.RedeemedCode(s, source)].data.code;
       code.claims.Some? && SameIdentity(c, code.claims.value)
  }

  /** Everything claims say about the user. */
  predicate SameIdentity(c: AuthClaims, d: AuthClaims) {
    && c.subject == d.subject && c.originalIDP == d.originalIDP && c.upstreamSubject == d.upstreamSubject
    && c.email == d.email && c.name == d.name && c.preferredUser == d.preferredUser && c.roles == d.roles && c.groups == d.groups
    && c.workloadID == d.workloadID && c.spiffeID == d.spiffeID
  }

  /** An access token tells the request's scope besides, and no nonce. */
  ghost predicate TellsScope(s: P.Sys, source: P.Key, c: AuthClaims)
    requires ProtocolInvariant.Inv(s) && Lineage.WellFounded(s.hist.issued) && source in s.hist.issued
  {
    var o := Theorems.Origin(s, source);
    o.source.Requested? && c.tokenUse == "access" && c.scope == o.source.req.scope && c.nonce == ""
  }

  /** An ID token tells the request's nonce, once: refreshed ones tell none. */
  ghost predicate TellsNonce(s: P.Sys, source: P.Key, c: AuthClaims)
    requires ProtocolInvariant.Inv(s) && Lineage.WellFounded(s.hist.issued) && source in s.hist.issued
  {
    var o := Theorems.Origin(s, source);
    && o.source.Requested? && c.tokenUse == "id" && c.scope == "" && c.audience == AudienceJson.Normalized([o.source.req.clientID])
    && c.nonce == if source.CodeKey? then o.source.req.nonce else ""
  }

  /** By whom and when the token was made, for fifteen minutes, and under which id. */
  predicate Stamped(c: AuthClaims, issuer: string, at: int, jti: string) {
    && c.issuer == issuer && c.jti == jti && c.issuedAt == Unix(at) && c.notBefore == Unix(at) && c.expiresAt == Unix(at) + 900
  }

  /** Whatever is signed for the n-th token set in its organization's, application's and user's name tells their origin. */
  lemma SetTellsOrigin(acts: seq<P.Action>, s: P.Sys, n: nat, c: AuthClaims)
    requires P.Exec(P.Init, acts) == Some(s) && n < |s.hist.tokens| && s.hist.tokens[n].grant.base.Some?
    requires c.organizationID == s.hist.tokens[n].grant.app.organizationID && c.appID == s.hist.tokens[n].grant.app.id
    requires SameIdentity(c, s.hist.tokens[n].grant.base.value)
    ensures ProtocolInvariant.Inv(s) && Lineage.WellFounded(s.hist.issued)
    ensures var ts := s.hist.tokens[n];
            && ts.source in s.hist.issued && !ts.source.StateKey? && ts.organizationID == ts.grant.app.organizationID
            && TellsOrigin(acts, s, ts.source, ts.grant.app, c)
  {
    Theorems.TokensComeFromAuthorization(acts, s, n);
    Theorems.TokensSpeakForCode(s, n);
    Theorems.TokenOrganization(s, n);
  }

  /** What is read from the access token of the n-th token set. */
  lemma AccessTells(acts: seq<P.Action>, s: P.Sys, n: nat, m: K.Minted, jti: string)
    requires P.Exec(P.Init, acts) == Some(s) && n < |s.hist.tokens| && s.hist.tokens[n].grant.base.Some?
    requires var g := s.hist.tokens[n].grant;
             m.slot.org == g.app.organizationID && m.request == K.Access(g.base.value, g.app, g.scope, jti)
    ensures ProtocolInvariant.Inv(s) && Lineage.WellFounded(s.hist.issued)
    ensures var ts, c := s.hist.tokens[n], Received(m.Claims());
            && ts.source in s.hist.issued && !ts.source.StateKey? && ts.organizationID == ts.grant.app.organizationID
            && Stamped(c, K.IssuerOf(m.slot.org), m.at, jti) && TellsOrigin(acts, s, ts.source, ts.grant.app, c) && TellsScope(s, ts.source, c)
  {
    UnixShift(m.at, 900);
    SetTellsOrigin(acts, s, n, Received(m.Claims()));
    Theorems.TokensComeFromAuthorization(acts, s, n);
    Theorems.TokenOrganization(s, n);
  }

  lemma IdTells(acts: seq<P.Action>, s: P.Sys, n: nat, m: K.Minted, jti: string)
    requires P.Exec(P.Init, acts) == Some(s) && n < |s.hist.tokens| && s.hist.tokens[n].grant.base.Some?
    requires var g := s.hist.tokens[n].grant;
             m.slot.org == g.app.organizationID && m.request == K.Identity(g.base.value, g.app, g.nonce, jti)
    ensures ProtocolInvariant.Inv(s) && Lineage.WellFounded(s.hist.issued)
    ensures var ts, c := s.hist.tokens[n], Received(m.Claims());
            && ts.source in s.hist.issued && !ts.source.StateKey?
            && Stamped(c, K.IssuerOf(m.slot.org), m.at, jti) && TellsOrigin(acts, s, ts.source, ts.grant.app, c) && TellsNonce(s, ts.source, c)
  {
    UnixShift(m.at, 900);
    SetTellsOrigin(acts, s, n, Received(m.Claims()));
    Theorems.TokensComeFromAuthorization(acts, s, n);
    Theorems.TokenOrganization(s, n);
    Theorems.NonceOnlyOnCodeExchange(s, n);
  }

  /** What verifiers read in the tokens of one response, under keys and issuer of its organization. */
  ghost predicate TokensPass(acts: seq<P.Action>, s: P.Sys, source: P.Key, app: Application, drawn: Drawn, r: TokenResponse, at: int,
                             signed: set<Signed>, keys: seq<SigningKey>, issuer: string)
    requires ProtocolInvariant.Inv(s) && Lineage.WellFounded(s.hist.issued) && source in s.hist.issued && !source.StateKey?
  {
    && (exists c :: AccessTokenPasses(signed, r.accessToken, keys, issuer, app, at, c) && Stamped(c, issuer, at, drawn.accessJTI)
                    && TellsOrigin(acts, s, source, app, c) && TellsScope(s, source, c))
    && (exists c :: IdTokenPasses(signed, r.idToken, keys, issuer, app, at, c) && Stamped(c, issuer, at, drawn.idJTI)
                    && TellsOrigin(acts, s, source, app, c) && TellsNonce(s, source, c))
  }

  /**
   * From request to verdict. A response was delivered for a code or refresh token, as `Engine.IDPEngine.Delivered` says. Then
   * against the keys of its organization or application read anywhere at any later point, the access token passes for the
   * application's audiences and no others, exactly in its window, telling the organization and scope of the one authorization
   * request everything goes back to and all that its code's identity says of the user; the ID token passes for that request's
   * client alone in the same window, telling the same organization and identity and, unless it was refreshed, the request's
   * nonce, and it never passes as an access token.
   */
  lemma ExchangeToVerdict(acts: seq<P.Action>, s: P.Sys, n: nat, ks: K.KSys, key: SigningKey, at: int, node: nat, drawn: Drawn,
                          r: TokenResponse, later: K.KSys, app: string, list: seq<KeyRecord>)
    requires IdealEncoding() && P.Exec(P.Init, acts) == Some(s) && n < |s.hist.tokens| && K.Reachable(ks)
    requires var g := s.hist.tokens[n].grant;
             var slot := K.Slot(node, g.app.organizationID, g.app.id);
             && g.base.Some?
             && MintedAs(ks, K.Minted(slot, key, K.Access(g.base.value, g.app, g.scope, drawn.accessJTI), at), r.accessToken)
             && MintedAs(ks, K.Minted(slot, key, K.Identity(g.base.value, g.app, g.nonce, drawn.idJTI), at), r.idToken)
             && ReadLater(ks, later, g.app.organizationID, list) && (app == g.app.id || app == "")
    ensures var ts := s.hist.tokens[n];
            var keys, issuer := PublicKeys(Selected(list, app)), K.IssuerOf(ts.organizationID);
            && ProtocolInvariant.Inv(s) && Lineage.WellFounded(s.hist.issued) && ts.source in s.hist.issued && !ts.source.StateKey?
            && TokensPass(acts, s, ts.source, ts.grant.app, drawn, r, at, later.signed, keys, issuer)
  {
    var ts := s.hist.tokens[n];
    var g := ts.grant;
    var slot := K.Slot(node, g.app.organizationID, g.app.id);
    var access := K.Minted(slot, key, K.Access(g.base.value, g.app, g.scope, drawn.accessJTI), at);
    var id := K.Minted(slot, key, K.Identity(g.base.value, g.app, g.nonce, drawn.idJTI), at);
    AccessTells(acts, s, n, access, drawn.accessJTI);
    IdTells(acts, s, n, id, drawn.idJTI);
    AccessVerdict(ks, access, r.accessToken, later, app, list);
    IdVerdict(ks, id, r.idToken, later, app, list);
  }

  /** The token set a delivery left behind, and the key and instant its tokens were signed with. */
  lemma DeliveredSet(engine: IDPEngine, source: P.Key, req: P.TokenRequest, r: TokenResponse, drawn: Drawn, pid: nat)
    returns (key: SigningKey, at: int)
    requires engine.Delivered(source, req, r, drawn, pid)
    ensures |engine.world.sys.hist.tokens| > 0
    ensures var ts := engine.world.sys.hist.tokens[|engine.world.sys.hist.tokens| - 1];
            var g, ks := ts.grant, engine.keys.world.sys;
            var slot := K.Slot(engine.node, g.app.organizationID, g.app.id);
            && ts.source == source && g.treq == req && g.base.Some?
            && MintedAs(ks, K.Minted(slot, key, K.Access(g.base.value, g.app, g.scope, drawn.accessJTI), at), r.accessToken)
            && MintedAs(ks, K.Minted(slot, key, K.Identity(g.base.value, g.app, g.nonce, drawn.idJTI), at), r.idToken)
  {
    var g := engine.world.sys.hist.tokens[|engine.world.sys.hist.tokens| - 1].grant;
    var slot := K.Slot(engine.node, g.app.organizationID, g.app.id);
    assert CarriesTokens(engine.keys.world.sys, r, slot, g.base.value, g.app, g.scope, g.nonce, drawn);
    key, at :|
      && MintedAs(engine.keys.world.sys, K.Minted(slot, key, K.Access(g.base.value, g.app, g.scope, drawn.accessJTI), at), r.accessToken)
      && MintedAs(engine.keys.world.sys, K.Minted(slot, key, K.Identity(g.base.value, g.app, g.nonce, drawn.idJTI), at), r.idToken);
  }

  /**
   * The same of whatever the engine delivers: after a successful exchange of `source`, the tokens of its response pass as
   * above, everywhere and at any later point, for the request that `source` goes back to.
   */
  lemma DeliveredToVerdict(engine: IDPEngine, source: P.Key, req: P.TokenRequest, r: TokenResponse, drawn: Drawn, pid: nat,
                           later: K.KSys, app: string, list: seq<KeyRecord>)
    requires IdealEncoding() && engine.Valid() && engine.CanIssue() && engine.Delivered(source, req, r, drawn, pid)
    requires var g := engine.world.sys.hist.tokens[|engine.world.sys.hist.tokens| - 1].grant;
             ReadLater(engine.keys.world.sys, later, g.app.organizationID, list) && (app == g.app.id || app == "")
    ensures var s := engine.world.sys;
            var ts := s.hist.tokens[|s.hist.tokens| - 1];
            && ProtocolInvariant.Inv(s) && Lineage.WellFounded(s.hist.issued)
            && ts.source == source && source in s.hist.issued && !source.StateKey? && ts.grant.treq == req
            && exists at :: TokensPass(engine.world.trace, s, source, ts.grant.app, drawn, r, at, later.signed,
                                       PublicKeys(Selected(list, app)), K.IssuerOf(ts.organizationID))
  {
    engine.world.Ran();
    engine.keys.world.Ran();
    var key, at := DeliveredSet(engine, source, req, r, drawn, pid);
    ExchangeToVerdict(engine.world.trace, engine.world.sys, |engine.world.sys.hist.tokens| - 1, engine.keys.world.sys, key, at, engine.node,
                      drawn, r, later, app, list);
  }

  // --- workloads ---

  /** For this audience, a verifier accepts the token exactly in its window and if it is for it, and then reads the workload's claims. */
  ghost predicate SvidVerdict(signed: set<Signed>, keys: seq<SigningKey>, m: K.Minted, token: string, audience: string, now: int)
    requires m.request.Workload?
  {
    var q, issuer := m.request, K.IssuerOf(m.slot.org);
    var r := Verify(signed, token, keys, VerifyOptions(issuer, audience, "access", 0), now);
    && (r.Ok? <==> InWindow(Unix(q.notBeforeAt), Unix(m.at) + 900, Unix(now)) && audience == q.audience)
    && (r.Ok? ==> IsSvid(r.value, q.spiffeID, issuer, q.audience, m.slot.org, q.workloadID, q.scope, q.jti))
  }

  lemma SvidVerdictAt(ks: K.KSys, m: K.Minted, token: string, acts: seq<K.Action>, later: K.KSys, asOf: nat, list: seq<KeyRecord>,
                      audience: string, now: int)
    requires IdealEncoding() && K.Reachable(ks) && MintedAs(ks, m, token) && m.request.Workload? && audience != ""
    requires K.Run(ks, acts, later) && |ks.published| <= asOf <= |later.published| && K.ListedFrom(later.published, asOf, m.slot.org, list, true)
    ensures SvidVerdict(later.signed, PublicKeys(Selected(list, "")), m, token, audience, now)
  {
    var opts := VerifyOptions(K.IssuerOf(m.slot.org), audience, "access", 0);
    KeyRingTheorems.IssuersAreNamed(m.slot.org);
    KeyRingTheorems.MintedThenVerified(ks, m, acts, later, asOf, "", list, opts, now);
    UnixShift(m.at, 900);
    WindowIsExact(m.Claims(), opts, now);
  }

  /**
   * From a workload's request to a verdict: what `Svid.SvidIssuer.IssueSVID` answers is, against the organization's keys read
   * anywhere at any later point, accepted for the one granted audience alone, from its nbf until fifteen minutes after its
   * iat, and then speaks for the registered identity with the granted scopes.
   */
  lemma SvidToVerdict(issuer: Svid.SvidIssuer, r: Svid.SVIDResponse, w: Svid.SPIFFEWorkload, org: string, req: Svid.SVIDRequest, jti: string,
                      later: K.KSys, list: seq<KeyRecord>) returns (m: K.Minted)
    requires IdealEncoding() && issuer.CanIssue() && issuer.IssuedFor(r, w, org, req, jti)
    requires ReadLater(issuer.keys.world.sys, later, org, list)
    ensures m.slot.org == org && m.request.Workload? && m.request.notBeforeAt <= m.at
    ensures var q := m.request;
            && Svid.Grants(w.allowedAudiences, req.audience, q.audience) && q.spiffeID == TrimSpace(w.spiffeID) && q.workloadID == w.id
            && q.scope == Join(Svid.Granted(w.allowedScopes, req.requestedScopes), ' ') && q.jti == jti
    ensures forall audience, now | audience != "" :: SvidVerdict(later.signed, PublicKeys(Selected(list, "")), m, r.svid, audience, now)
  {
    issuer.keys.world.Ran();
    var ks := issuer.keys.world.sys;
    var granted, key, notBefore, at :|
      && Svid.Grants(w.allowedAudiences, req.audience, granted) && notBefore <= at
      && MintedAs(ks, K.Minted(K.Slot(issuer.node, org, ""), key, K.Workload(r.spiffeID, granted, w.id, r.scope, notBefore, jti), at), r.svid);
    m := K.Minted(K.Slot(issuer.node, org, ""), key, K.Workload(r.spiffeID, granted, w.id, r.scope, notBefore, jti), at);
    var acts, asOf: nat :|
      K.Run(ks, acts, later) && |ks.published| <= asOf <= |later.published| && K.ListedFrom(later.published, asOf, org, list, true);
    forall audience, now | audience != "" ensures SvidVerdict(later.signed, PublicKeys(Selected(list, "")), m, r.svid, audience, now) {
      SvidVerdictAt(ks, m, r.svid, acts, later, asOf, list, audience, now);
    }
  }
}
