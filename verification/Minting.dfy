/** The claims of issued tokens: issueTokens in pkg/idp/idp_engine.go, IssueSVID in pkg/idp/svid.go, and the issuer builders. */
module Minting {
  import opened Wrappers
  import opened Text
  import opened Models
  import opened Jwt

  const ACCESS_TOKEN_TTL: int := 15 * MINUTE
  const ID_TOKEN_TTL: int := 15 * MINUTE
  const SVID_TTL_MINUTES: int := 15

  // --- issuers ---

  function DefaultIssuerFor(baseURL: string, org: string): string {
    baseURL + "/organizations/" + org
  }

  /** IssuerFromHostPattern for a pattern with one placeholder, cut at the placeholder. */
  function HostIssuer(before: string, after: string): string -> string {
    (org: string) => if org == "" then "" else before + org + after
  }

  /** A resolver that answers "" defers to the default. */
  function IssuerFor(baseURL: string, resolver: Option<string -> string>, org: string): string {
    if resolver.Some? && resolver.value(org) != "" then resolver.value(org) else DefaultIssuerFor(baseURL, org)
  }

  lemma DefaultIssuersDiffer(baseURL: string, a: string, b: string)
    requires IssuerFor(baseURL, None, a) == IssuerFor(baseURL, None, b)
    ensures a == b
  {
    CancelPrefix(baseURL + "/organizations/", a, b);
  }

  /** Host-pattern issuers differ, unless the unnamed organization's default happens to fit the pattern. */
  lemma HostIssuersDiffer(baseURL: string, before: string, after: string, a: string, b: string)
    requires a != b
    ensures IssuerFor(baseURL, Some(HostIssuer(before, after)), a) == IssuerFor(baseURL, Some(HostIssuer(before, after)), b)
       <==> (a == "" && before + b + after == baseURL + "/organizations/") || (b == "" && before + a + after == baseURL + "/organizations/")
  {
    if a != "" && b != "" && before + a + after == before + b + after {
      CancelSuffix(before + a, before + b, after);
      CancelPrefix(before, a, b);
    }
    assert DefaultIssuerFor(baseURL, "") == baseURL + "/organizations/";
  }

  // --- claims ---

  /** The access token of a token set. */
  function AccessClaims(base: AuthClaims, app: Application, issuer: string, scope: string, now: int, jti: string): AuthClaims {
    base.(issuer := issuer,
          audience := app.TokenAudiences(),
          tokenUse := TOKEN_USE_ACCESS,
          organizationID := app.organizationID,
          appID := app.id,
          scope := scope,
          issuedAt := Unix(now),
          notBefore := Unix(now),
          expiresAt := Unix(now + ACCESS_TOKEN_TTL),
          nonce := "",
          jti := jti)
  }

  /** The ID token of a token set. */
  function IdClaims(base: AuthClaims, app: Application, issuer: string, nonce: string, now: int, jti: string): AuthClaims {
    base.(issuer := issuer,
          audience := [app.clientID],
          tokenUse := TOKEN_USE_ID,
          organizationID := app.organizationID,
          appID := app.id,
          scope := "",
          issuedAt := Unix(now),
          notBefore := Unix(now),
          expiresAt := Unix(now + ID_TOKEN_TTL),
          nonce := nonce,
          jti := jti)
  }

  /** A JWT-SVID: its nbf is read before its iat and exp, which IssueJWTSVID stamps. */
  function SvidClaims(spiffeID: string, issuer: string, audience: string, org: string, workloadID: string, scope: string,
                      jti: string, notBeforeAt: int, issuedAt: int): AuthClaims {
    AuthClaims(spiffeID, issuer, [audience], TOKEN_USE_ACCESS, jti, org, "", workloadID, spiffeID, scope, "", "", "", "", "",
               [], [], Unix(issuedAt), Unix(notBeforeAt), Unix(issuedAt + SVID_TTL_MINUTES * MINUTE), "")
  }

  // --- the time window ---

  /** The clock part of validateClaims. */
  predicate InTime(c: AuthClaims, opts: VerifyOptions, now: int) {
    && (c.expiresAt > 0 ==> Unix(now - Leeway(opts)) <= c.expiresAt)
    && (c.notBefore > 0 ==> Unix(now + Leeway(opts)) >= c.notBefore)
  }

  /** The rest of validateClaims. */
  predicate Expected(c: AuthClaims, opts: VerifyOptions) {
    && (opts.expectedIssuer != "" ==> c.issuer == opts.expectedIssuer)
    && (opts.expectedAudience != "" ==> AudienceContains(c.audience, opts.expectedAudience))
    && (opts.expectedTokenUse != "" ==> c.tokenUse == opts.expectedTokenUse)
  }

  /** The audience check does not care about the wire form, and the order of the checks only chooses the error. */
  lemma ValidIffInTimeAndExpected(c: AuthClaims, opts: VerifyOptions, now: int)
    ensures ValidateClaims(Received(c), opts, now).None? <==> InTime(c, opts, now) && Expected(c, opts)
  {
    assert AudienceContains(Received(c).audience, opts.expectedAudience) <==> AudienceContains(c.audience, opts.expectedAudience);
  }

  lemma UnixShift(t: int, seconds: int)
    ensures Unix(t + seconds * SECOND) == Unix(t) + seconds
  {
  }

  /**
   * The verifier seconds at which a token with these bounds is in time under the default leeway of a minute. A bound that
   * is not positive counts as absent, which matters only for instants around the epoch.
   */
  predicate InWindow(notBefore: int, expiresAt: int, second: int) {
    (notBefore > 0 ==> notBefore - 60 <= second) && (expiresAt > 0 ==> second <= expiresAt + 60)
  }

  /** Whole-second truncation and the leeway together: exact for every claim and every verifier instant. */
  lemma WindowIsExact(c: AuthClaims, opts: VerifyOptions, v: int)
    requires opts.leeway == 0
    ensures InTime(c, opts, v) <==> InWindow(c.notBefore, c.expiresAt, Unix(v))
  {
    UnixShift(v, 60);
    UnixShift(v, -60);
  }

  /** The same for any other leeway of whole seconds. */
  lemma LeewayIsExact(c: AuthClaims, opts: VerifyOptions, seconds: int, v: int)
    requires opts.leeway == seconds * SECOND && seconds != 0
    ensures InTime(c, opts, v) <==>
              (c.notBefore > 0 ==> c.notBefore - seconds <= Unix(v)) && (c.expiresAt > 0 ==> Unix(v) <= c.expiresAt + seconds)
  {
    UnixShift(v, seconds);
    UnixShift(v, -seconds);
  }

  /** The seconds in which a fifteen-minute token issued at instant i is in time. */
  predicate InTokenWindow(i: int, v: int) {
    InWindow(Unix(i), Unix(i) + 900, Unix(v))
  }

  /**
   * A token valid from instant i for fifteen minutes is in time at verifier instant v exactly when v's second is no more than
   * 60 before and no more than 960 after i's, for every i after the first second of the epoch.
   */
  lemma TimeWindowIsExact(c: AuthClaims, opts: VerifyOptions, i: int, v: int)
    requires opts.leeway == 0 && c.notBefore == Unix(i) && c.expiresAt == Unix(i + 15 * MINUTE)
    ensures InTime(c, opts, v) <==> InTokenWindow(i, v)
    ensures i >= SECOND ==> (InTime(c, opts, v) <==> Unix(i) - 60 <= Unix(v) <= Unix(i) + 960)
  {
    UnixShift(i, 900);
    WindowIsExact(c, opts, v);
  }

  /** In instants: always in time within [i - 60s, i + 960s], and never at or before i - 61s nor at or after i + 961s. */
  lemma TimeWindowInInstants(c: AuthClaims, opts: VerifyOptions, i: int, v: int)
    requires opts.leeway == 0 && c.notBefore == Unix(i) && c.expiresAt == Unix(i + 15 * MINUTE)
    ensures i - 60 * SECOND <= v <= i + 960 * SECOND ==> InTime(c, opts, v)
    ensures i >= SECOND && v <= i - 61 * SECOND ==> !InTime(c, opts, v)
    ensures i > -899 * SECOND && v >= i + 961 * SECOND ==> !InTime(c, opts, v)
  {
    TimeWindowIsExact(c, opts, i, v);
    UnixShift(i, -60);
    UnixShift(i, -61);
    UnixShift(i, 960);
    UnixShift(i, 961);
  }

  // --- minted tokens and verifiers ---

  /** The key pair of a signing key belongs together, as GenerateRSAKeyPair makes it. */
  predicate KeyPair(k: SigningKey) {
    k.privateKey.RSAPrivate? && k.publicKey == RSAPublic(k.privateKey.modulus)
  }

  /**
   * A minted token presented to a verifier that has its key: accepted exactly when the clock and the expectations fit,
   * and then yielding the claims it was minted with, the audience up to membership.
   */
  lemma MintedTokenVerdict(signed: set<Signed>, claims: AuthClaims, key: SigningKey, keys: seq<SigningKey>, opts: VerifyOptions, now: int)
    requires IdealEncoding() && KeyPair(key) && key.active && key.kid != ""
    requires key.Public() in keys && UniqueNames(keys)
    requires SignJWT(claims, key.privateKey, key.kid).value.signed in signed
    ensures var r := Verify(signed, SignJWT(claims, key.privateKey, key.kid).value.token, keys, opts, now);
            && (r.Ok? <==> InTime(claims, opts, now) && Expected(claims, opts))
            && (r.Ok? ==> r.value == Received(claims)
                          && forall a :: AudienceContains(r.value.audience, a) <==> AudienceContains(claims.audience, a))
  {
    SignedTokenVerdict(signed, claims, key, keys, opts, now);
    ValidIffInTimeAndExpected(claims, opts, now);
  }

  /** What any verifier, with any keys, can make of a token that was signed over the given claims. */
  lemma AcceptedMeansExpected(signed: set<Signed>, claims: AuthClaims, key: PrivateKey, kid: string, keys: seq<SigningKey>, opts: VerifyOptions, now: int)
    requires IdealEncoding() && SignJWT(claims, key, kid).Some?
    requires Verify(signed, SignJWT(claims, key, kid).value.token, keys, opts, now).Ok?
    ensures InTime(claims, opts, now) && Expected(claims, opts)
  {
    var token := SignJWT(claims, key, kid).value.token;
    SignedTokenParts(claims, key, kid);
    AcceptedWasSigned(signed, token, keys, opts, now);
    ValidIffInTimeAndExpected(claims, opts, now);
  }

  /** An ID token is refused wherever an access token is demanded, whatever the keys. */
  lemma IdTokenIsNoAccessToken(signed: set<Signed>, base: AuthClaims, app: Application, issuer: string, nonce: string, at: int, jti: string,
                               key: PrivateKey, kid: string, keys: seq<SigningKey>, opts: VerifyOptions, now: int)
    requires IdealEncoding() && opts.expectedTokenUse == TOKEN_USE_ACCESS
    requires SignJWT(IdClaims(base, app, issuer, nonce, at, jti), key, kid).Some?
    ensures Verify(signed, SignJWT(IdClaims(base, app, issuer, nonce, at, jti), key, kid).value.token, keys, opts, now).Err?
  {
    var claims := IdClaims(base, app, issuer, nonce, at, jti);
    if Verify(signed, SignJWT(claims, key, kid).value.token, keys, opts, now).Ok? {
      AcceptedMeansExpected(signed, claims, key, kid, keys, opts, now);
    }
  }

  /** A token minted under one issuer is refused under any other, even by a verifier holding its key. */
  lemma OtherIssuerRefuses(signed: set<Signed>, claims: AuthClaims, key: PrivateKey, kid: string, keys: seq<SigningKey>, opts: VerifyOptions, now: int)
    requires IdealEncoding() && SignJWT(claims, key, kid).Some?
    requires opts.expectedIssuer != "" && opts.expectedIssuer != claims.issuer
    ensures Verify(signed, SignJWT(claims, key, kid).value.token, keys, opts, now).Err?
  {
    if Verify(signed, SignJWT(claims, key, kid).value.token, keys, opts, now).Ok? {
      AcceptedMeansExpected(signed, claims, key, kid, keys, opts, now);
    }
  }

  /** Tenants do not accept each other's tokens under default issuers, even when they share every key. */
  lemma OtherTenantRefuses(signed: set<Signed>, baseURL: string, mine: string, other: string, claims: AuthClaims,
                           key: PrivateKey, kid: string, keys: seq<SigningKey>, opts: VerifyOptions, now: int)
    requires IdealEncoding() && SignJWT(claims, key, kid).Some? && mine != other
    requires claims.issuer == IssuerFor(baseURL, None, mine) && opts.expectedIssuer == IssuerFor(baseURL, None, other)
    ensures Verify(signed, SignJWT(claims, key, kid).value.token, keys, opts, now).Err?
  {
    if claims.issuer == opts.expectedIssuer {
      DefaultIssuersDiffer(baseURL, mine, other);
    }
    OtherIssuerRefuses(signed, claims, key, kid, keys, opts, now);
  }

  /** Claims that speak for a workload of an organization, to one audience, and for no user. */
  predicate IsSvid(c: AuthClaims, spiffeID: string, issuer: string, audience: string, org: string, workloadID: string, scope: string, jti: string) {
    && c.subject == spiffeID && c.spiffeID == spiffeID && c.workloadID == workloadID && c.organizationID == org && c.issuer == issuer
    && c.audience == [audience] && c.tokenUse == "access" && c.scope == scope && c.jti == jti && c.appID == "" && c.nonce == ""
    && c.originalIDP == "" && c.upstreamSubject == "" && c.email == "" && c.name == "" && c.preferredUser == "" && c.roles == [] && c.groups == []
  }

  /** An SVID: its window opens with its own nbf and closes fifteen minutes after its iat. */
  lemma SvidAccepted(signed: set<Signed>, spiffeID: string, issuer: string, audience: string, org: string, workloadID: string, scope: string,
                     jti: string, notBeforeAt: int, at: int, key: SigningKey, keys: seq<SigningKey>, now: int)
    requires IdealEncoding() && KeyPair(key) && key.active && key.kid != "" && key.Public() in keys && UniqueNames(keys)
    requires SignJWT(SvidClaims(spiffeID, issuer, audience, org, workloadID, scope, jti, notBeforeAt, at), key.privateKey, key.kid).value.signed in signed
    requires audience != ""
    ensures var r := Verify(signed, SignJWT(SvidClaims(spiffeID, issuer, audience, org, workloadID, scope, jti, notBeforeAt, at), key.privateKey, key.kid).value.token,
                            keys, VerifyOptions(issuer, audience, TOKEN_USE_ACCESS, 0), now);
            && (r.Ok? <==> InWindow(Unix(notBeforeAt), Unix(at) + 900, Unix(now)))
            && (r.Ok? ==> IsSvid(r.value, spiffeID, issuer, audience, org, workloadID, scope, jti))
  {
    var claims := SvidClaims(spiffeID, issuer, audience, org, workloadID, scope, jti, notBeforeAt, at);
    var opts := VerifyOptions(issuer, audience, TOKEN_USE_ACCESS, 0);
    MintedTokenVerdict(signed, claims, key, keys, opts, now);
    UnixShift(at, 900);
    WindowIsExact(claims, opts, now);
  }
}
