/** The stored entities and the claims of an issued token (pkg/models/models.go). */
module Models {
  import opened Wrappers

  /** Instants are nanoseconds since the Unix epoch. */
  const SECOND: int := 1_000_000_000
  const MINUTE: int := 60 * SECOND
  const HOUR: int := 60 * MINUTE

  /** time.Time.Unix(): whole seconds, rounding towards minus infinity. */
  function Unix(instant: int): (second: int)
    ensures second * 1_000_000_000 <= instant < second * 1_000_000_000 + 1_000_000_000
  {
    instant / SECOND
  }

  const TOKEN_USE_ACCESS := "access"
  const TOKEN_USE_ID := "id"

  type Audience = seq<string>

  /** An empty query never matches. */
  predicate AudienceContains(aud: Audience, want: string) {
    want != "" && want in aud
  }

  datatype Application = Application(
    id: string,
    organizationID: string,
    clientID: string,
    clientSecret: string,
    redirectURIs: seq<string>,
    allowedIDPs: seq<string>,
    isPublic: bool,
    audiences: seq<string>)
  {
    /** A client without a secret is treated as public even when the flag is unset. */
    predicate IsPublicClient() {
      isPublic || clientSecret == ""
    }

    function TokenAudiences(): Audience {
      if |audiences| > 0 then audiences
      else if clientID != "" then [clientID]
      else []
    }
  }

  /** pkg/models/models.go HasRedirectURI: exact match only; the empty URI is never registered. */
  method HasRedirectURI(app: Application, uri: string) returns (registered: bool)
    ensures registered <==> uri != "" && uri in app.redirectURIs
  {
    if uri == "" {
      return false;
    }
    for i := 0 to |app.redirectURIs|
      invariant uri !in app.redirectURIs[..i]
    {
      if app.redirectURIs[i] == uri {
        return true;
      }
    }
    return false;
  }

  datatype AuthClaims = AuthClaims(
    subject: string,
    issuer: string,
    audience: Audience,
    tokenUse: string,
    jti: string,
    organizationID: string,
    appID: string,
    workloadID: string,
    spiffeID: string,
    scope: string,
    originalIDP: string,
    upstreamSubject: string,
    email: string,
    name: string,
    preferredUser: string,
    roles: seq<string>,
    groups: seq<string>,
    issuedAt: int,
    notBefore: int,
    expiresAt: int,
    nonce: string)

  datatype ClaimMapping = ClaimMapping(
    subject: string,
    email: string,
    emailVerified: string,
    name: string,
    username: string,
    groups: string,
    roles: string)

  /** An upstream provider a tenant's users may log in with. */
  datatype IdentityProvider = IdentityProvider(
    id: string,
    kind: string,
    clientID: string,
    clientSecret: string,
    authorizeURL: string,
    tokenURL: string,
    userInfoURL: string,
    emailsURL: string,
    preset: string,
    mapping: ClaimMapping,
    extraAuthParams: map<string, string>,
    scopes: seq<string>,
    enabled: bool)

  /** RSA key pairs are named by a modulus; PEM text that does not parse is kept apart. */
  datatype PrivateKey = NoPrivateKey | BadPrivatePEM | RSAPrivate(modulus: nat)
  datatype PublicKey = BadPublicPEM | NotRSA | RSAPublic(modulus: nat)

  datatype SigningKey = SigningKey(
    id: string,
    appID: string,
    algorithm: string,
    privateKey: PrivateKey,
    publicKey: PublicKey,
    kid: string,
    active: bool,
    createdAt: int)
  {
    /** The copy a verifier is handed. */
    function Public(): SigningKey {
      this.(privateKey := NoPrivateKey)
    }

    predicate CanSign() {
      active && privateKey != NoPrivateKey
    }
  }

  /** The first of the newest keys that can sign. */
  function NewestSigner(keys: seq<SigningKey>): Option<SigningKey> {
    if keys == [] then None
    else
      var chosen := NewestSigner(keys[..|keys| - 1]);
      var k := keys[|keys| - 1];
      if k.CanSign() && (chosen.None? || k.createdAt > chosen.value.createdAt) then Some(k) else chosen
  }

  /** pkg/models/models.go ActiveSigningKey. */
  method ActiveSigningKey(keys: seq<SigningKey>) returns (chosen: Option<SigningKey>)
    ensures chosen == NewestSigner(keys)
  {
    chosen := None;
    for i := 0 to |keys|
      invariant chosen == NewestSigner(keys[..i])
    {
      assert keys[..i + 1][..i] == keys[..i];
      var k := keys[i];
      if !k.active || k.privateKey == NoPrivateKey {
        continue;
      }
      if chosen.None? || k.createdAt > chosen.value.createdAt {
        chosen := Some(k);
      }
    }
    assert keys[..|keys|] == keys;
  }

  /** There is a choice exactly when some key is active and has a private half, and no such key is newer than it. */
  lemma {:induction false} NewestSignerIsNewest(keys: seq<SigningKey>)
    ensures NewestSigner(keys).Some? <==> exists k :: k in keys && k.active && k.privateKey != NoPrivateKey
    ensures NewestSigner(keys).Some? ==>
              var c := NewestSigner(keys).value;
              && c in keys
              && c.active && c.privateKey != NoPrivateKey
              && forall k | k in keys && k.active && k.privateKey != NoPrivateKey :: k.createdAt <= c.createdAt
  {
    if keys != [] {
      var init, last := keys[..|keys| - 1], keys[|keys| - 1];
      NewestSignerIsNewest(init);
      assert keys == init + [last];
      assert forall k :: k in keys <==> k in init || k == last;
    }
  }

  /** Two nodes reading the same keys in any order and multiplicity sign with the same key. */
  lemma NewestSignerIgnoresOrder(a: seq<SigningKey>, b: seq<SigningKey>)
    requires forall k :: k in a <==> k in b
    requires forall j, k | j in a && k in a && j.CanSign() && k.CanSign() && j.createdAt == k.createdAt :: j == k
    ensures NewestSigner(a) == NewestSigner(b)
  {
    NewestSignerIsNewest(a);
    NewestSignerIsNewest(b);
    if exists k :: k in a && k.CanSign() {
      var k :| k in a && k.CanSign();
      assert k in b;
      var ca, cb := NewestSigner(a).value, NewestSigner(b).value;
      assert ca in b && cb in a;
    }
  }
}
