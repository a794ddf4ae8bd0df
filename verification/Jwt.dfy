/** Signing and verifying compact JWTs (pkg/crypto/crypto.go). */
module Jwt {
  import opened Wrappers
  import opened Text
  import opened Models
  import AudienceJson

  datatype JWTHeader = JWTHeader(alg: string, typ: string, kid: string)

  /** A decoded claims object: everything but `aud`, and `aud` as it stood in the JSON, if it did. */
  datatype ClaimsDocument = ClaimsDocument(rest: AuthClaims, aud: Option<AudienceJson.Json>)

  // JSON composed with unpadded base64url, and the RSA signature function: library primitives.
  const EncodeHeader: JWTHeader -> string
  const DecodeHeader: string -> Option<JWTHeader>
  const EncodeClaims: ClaimsDocument -> string
  const DecodeClaims: string -> Option<ClaimsDocument>
  const EncodeSignature: string -> string
  const DecodeSignature: string -> Option<string>
  const SignPKCS1v15: (nat, string) -> string

  /** What the encoders are taken to be: dot-free text that decodes to what was encoded. */
  ghost predicate IdealEncoding() {
    && (forall h :: '.' !in EncodeHeader(h) && DecodeHeader(EncodeHeader(h)) == Some(h))
    && (forall d :: '.' !in EncodeClaims(d) && DecodeClaims(EncodeClaims(d)) == Some(d))
    && (forall b :: '.' !in EncodeSignature(b) && DecodeSignature(EncodeSignature(b)) == Some(b))
  }

  function MarshalClaims(c: AuthClaims): ClaimsDocument {
    ClaimsDocument(c.(audience := []), Some(AudienceJson.Marshal(c.audience)))
  }

  function UnmarshalClaims(d: ClaimsDocument): Option<AuthClaims> {
    match d.aud
    case None => Some(d.rest.(audience := []))
    case Some(j) =>
      match AudienceJson.Unmarshal(j)
      case None => None
      case Some(a) => Some(d.rest.(audience := a))
  }

  /** The claims a verifier reads back. */
  function Received(c: AuthClaims): AuthClaims {
    c.(audience := AudienceJson.Normalized(c.audience))
  }

  /** A signature some holder of a private key has made: the only ones that exist. */
  datatype Signed = Signed(modulus: nat, input: string, signature: string)

  datatype SignedToken = SignedToken(token: string, signed: Signed)

  function SigningInput(claims: AuthClaims, kid: string): string {
    EncodeHeader(JWTHeader("RS256", "JWT", kid)) + "." + EncodeClaims(MarshalClaims(claims))
  }

  /** None when the private key cannot be parsed. */
  function SignJWT(claims: AuthClaims, key: PrivateKey, kid: string): Option<SignedToken> {
    if !key.RSAPrivate? then None
    else
      var input := SigningInput(claims, kid);
      var signature := SignPKCS1v15(key.modulus, input);
      Some(SignedToken(input + "." + EncodeSignature(signature), Signed(key.modulus, input, signature)))
  }

  datatype VerifyError =
    | InvalidToken
    | UnsupportedAlgo
    | KeyNotFound
    | UnusableKey
    | TokenExpired
    | TokenNotYetValid
    | IssuerMismatch
    | AudienceMismatch
    | TokenUseMismatch

  type Verdict = Result<AuthClaims, VerifyError>

  datatype VerifyOptions = VerifyOptions(expectedIssuer: string, expectedAudience: string, expectedTokenUse: string, leeway: int)

  const DEFAULT_LEEWAY: int := 60 * SECOND

  function Leeway(opts: VerifyOptions): int {
    if opts.leeway == 0 then DEFAULT_LEEWAY else opts.leeway
  }

  function ValidateClaims(c: AuthClaims, opts: VerifyOptions, now: int): Option<VerifyError> {
    if c.expiresAt > 0 && Unix(now - Leeway(opts)) > c.expiresAt then Some(TokenExpired)
    else if c.notBefore > 0 && Unix(now + Leeway(opts)) < c.notBefore then Some(TokenNotYetValid)
    else if opts.expectedIssuer != "" && c.issuer != opts.expectedIssuer then Some(IssuerMismatch)
    else if opts.expectedAudience != "" && !AudienceContains(c.audience, opts.expectedAudience) then Some(AudienceMismatch)
    else if opts.expectedTokenUse != "" && c.tokenUse != opts.expectedTokenUse then Some(TokenUseMismatch)
    else None
  }

  function VerifyAgainstKey(signed: set<Signed>, parts: seq<string>, key: SigningKey, opts: VerifyOptions, now: int): Verdict
    requires |parts| == 3
  {
    if !key.publicKey.RSAPublic? then Err(UnusableKey)
    else
      match DecodeSignature(parts[2])
      case None => Err(InvalidToken)
      case Some(signature) =>
        if Signed(key.publicKey.modulus, parts[0] + "." + parts[1], signature) !in signed then Err(InvalidToken)
        else
          match DecodeClaims(parts[1])
          case None => Err(InvalidToken)
          case Some(doc) =>
            match UnmarshalClaims(doc)
            case None => Err(InvalidToken)
            case Some(claims) =>
              match ValidateClaims(claims, opts, now)
              case Some(e) => Err(e)
              case None => Ok(claims)
  }

  predicate Names(k: SigningKey, kid: string) {
    k.active && (k.kid == kid || k.id == kid)
  }

  function FirstNamed(keys: seq<SigningKey>, kid: string): Option<SigningKey> {
    if keys == [] then None
    else if Names(keys[0], kid) then Some(keys[0])
    else FirstNamed(keys[1..], kid)
  }

  /** The verdict of the first active key that accepts. */
  function FirstAccepting(signed: set<Signed>, parts: seq<string>, keys: seq<SigningKey>, opts: VerifyOptions, now: int): Verdict
    requires |parts| == 3
  {
    if keys == [] then Err(KeyNotFound)
    else
      var first := VerifyAgainstKey(signed, parts, keys[0], opts, now);
      if keys[0].active && first.Ok? then first else FirstAccepting(signed, parts, keys[1..], opts, now)
  }

  /** The verdict on a token; `signed` is every signature made so far. */
  function Verify(signed: set<Signed>, token: string, keys: seq<SigningKey>, opts: VerifyOptions, now: int): Verdict {
    var parts := Split(token, '.');
    if |parts| != 3 then Err(InvalidToken)
    else
      match DecodeHeader(parts[0])
      case None => Err(InvalidToken)
      case Some(header) =>
        if header.alg != "RS256" then Err(UnsupportedAlgo)
        else if header.kid == "" then FirstAccepting(signed, parts, keys, opts, now)
        else
          match FirstNamed(keys, header.kid)
          case None => Err(KeyNotFound)
          case Some(k) => VerifyAgainstKey(signed, parts, k, opts, now)
  }

  /** pkg/crypto/crypto.go VerifyJWTWithOptions. */
  method VerifyJWTWithOptions(signed: set<Signed>, token: string, keys: seq<SigningKey>, opts: VerifyOptions, now: int)
    returns (verdict: Verdict)
    ensures verdict == Verify(signed, token, keys, opts, now)
  {
    var parts := Split(token, '.');
    if |parts| != 3 {
      return Err(InvalidToken);
    }
    var decoded := DecodeHeader(parts[0]);
    if decoded.None? {
      return Err(InvalidToken);
    }
    var header := decoded.value;
    if header.alg != "RS256" {
      return Err(UnsupportedAlgo);
    }

    var matchingKey: Option<SigningKey> := None;
    var i := 0;
    while i < |keys|
      invariant 0 <= i <= |keys|
      invariant matchingKey == None
      invariant header.kid != "" ==> FirstNamed(keys, header.kid) == FirstNamed(keys[i..], header.kid)
    {
      assert keys[i..][0] == keys[i] && keys[i..][1..] == keys[i + 1..];
      var k := keys[i];
      if k.active && header.kid != "" && (k.kid == header.kid || k.id == header.kid) {
        matchingKey := Some(k);
        break;
      }
      i := i + 1;
    }

    if matchingKey.None? && header.kid == "" {
      i := 0;
      while i < |keys|
        invariant 0 <= i <= |keys|
        invariant FirstAccepting(signed, parts, keys, opts, now) == FirstAccepting(signed, parts, keys[i..], opts, now)
      {
        assert keys[i..][0] == keys[i] && keys[i..][1..] == keys[i + 1..];
        if keys[i].active {
          var r := VerifyAgainstKey(signed, parts, keys[i], opts, now);
          if r.Ok? {
            return r;
          }
        }
        i := i + 1;
      }
      return Err(KeyNotFound);
    }
    if matchingKey.None? {
      return Err(KeyNotFound);
    }
    verdict := VerifyAgainstKey(signed, parts, matchingKey.value, opts, now);
  }

  // --- the compact form ---

  /** A signed token splits into exactly three parts, which decode to the header and the claims that were signed. */
  lemma SignedTokenParts(claims: AuthClaims, key: PrivateKey, kid: string)
    requires IdealEncoding() && SignJWT(claims, key, kid).Some?
    ensures var t := SignJWT(claims, key, kid).value;
            var parts := Split(t.token, '.');
            && |parts| == 3
            && parts[0] + "." + parts[1] == t.signed.input
            && DecodeHeader(parts[0]) == Some(JWTHeader("RS256", "JWT", kid))
            && DecodeClaims(parts[1]) == Some(MarshalClaims(claims))
            && UnmarshalClaims(MarshalClaims(claims)) == Some(Received(claims))
            && DecodeSignature(parts[2]) == Some(t.signed.signature)
  {
    var t := SignJWT(claims, key, kid).value;
    var h, c, s := EncodeHeader(JWTHeader("RS256", "JWT", kid)), EncodeClaims(MarshalClaims(claims)), EncodeSignature(t.signed.signature);
    assert '.' !in h && '.' !in c && '.' !in s;
    assert t.token == h + "." + (c + "." + s);
    SplitHead(h, c + "." + s, '.');
    SplitHead(c, s, '.');
    SplitSingle(s, '.');
    AudienceJson.AudienceRoundTrip(claims.audience);
  }

  /** The signed text determines the claims: there is one way to cut it. */
  lemma SignedInputIsClaims(claims: AuthClaims, kid: string, head: string, body: string)
    requires IdealEncoding() && '.' !in head && SigningInput(claims, kid) == head + "." + body
    ensures DecodeClaims(body) == Some(MarshalClaims(claims)) && UnmarshalClaims(MarshalClaims(claims)) == Some(Received(claims))
  {
    var h, c := EncodeHeader(JWTHeader("RS256", "JWT", kid)), EncodeClaims(MarshalClaims(claims));
    assert '.' !in h;
    FirstCut(head, body, h, c, '.');
    AudienceJson.AudienceRoundTrip(claims.audience);
  }

  // --- choosing the key ---

  /** No two different active keys of the set answer to the same name. */
  ghost predicate UniqueNames(keys: seq<SigningKey>) {
    forall j, k, name | j in keys && k in keys && Names(j, name) && Names(k, name) :: j == k
  }

  lemma {:induction false} FirstNamedIsNamed(keys: seq<SigningKey>, kid: string)
    ensures FirstNamed(keys, kid).Some? <==> exists k :: k in keys && Names(k, kid)
    ensures FirstNamed(keys, kid).Some? ==> FirstNamed(keys, kid).value in keys && Names(FirstNamed(keys, kid).value, kid)
  {
    if keys != [] {
      FirstNamedIsNamed(keys[1..], kid);
      assert keys == [keys[0]] + keys[1..];
    }
  }

  lemma {:induction false} FirstAcceptingAccepts(signed: set<Signed>, parts: seq<string>, keys: seq<SigningKey>, opts: VerifyOptions, now: int)
    requires |parts| == 3
    ensures var r := FirstAccepting(signed, parts, keys, opts, now);
            && (r.Ok? <==> exists k :: k in keys && k.active && VerifyAgainstKey(signed, parts, k, opts, now).Ok?)
            && (r.Ok? ==> exists k :: k in keys && k.active && VerifyAgainstKey(signed, parts, k, opts, now) == r)
            && (r.Err? ==> r == Err(KeyNotFound))
  {
    if keys != [] {
      FirstAcceptingAccepts(signed, parts, keys[1..], opts, now);
      assert keys == [keys[0]] + keys[1..];
      if keys[0].active && VerifyAgainstKey(signed, parts, keys[0], opts, now).Ok? {
        assert keys[0] in keys;
      }
    }
  }

  /** The claims a token yields are the token's own: every key that accepts it yields the same. */
  lemma AcceptingKeysAgree(signed: set<Signed>, parts: seq<string>, j: SigningKey, k: SigningKey, opts: VerifyOptions, now: int)
    requires |parts| == 3
    requires VerifyAgainstKey(signed, parts, j, opts, now).Ok? && VerifyAgainstKey(signed, parts, k, opts, now).Ok?
    ensures VerifyAgainstKey(signed, parts, j, opts, now) == VerifyAgainstKey(signed, parts, k, opts, now)
  {
  }

  function KidOf(token: string): Option<string> {
    var parts := Split(token, '.');
    if |parts| != 3 || DecodeHeader(parts[0]).None? then None else Some(DecodeHeader(parts[0]).value.kid)
  }

  /**
   * Rotation, for a token naming its key: the verdict depends only on which active keys bear that name, not on the
   * order of the list, on repetitions, or on any other key in it.
   */
  lemma VerdictIgnoresOtherKeys(signed: set<Signed>, token: string, a: seq<SigningKey>, b: seq<SigningKey>, opts: VerifyOptions, now: int)
    requires UniqueNames(a) && UniqueNames(b)
    requires KidOf(token).Some? && KidOf(token).value != ""
    requires forall k | Names(k, KidOf(token).value) :: k in a <==> k in b
    ensures Verify(signed, token, a, opts, now) == Verify(signed, token, b, opts, now)
  {
    var kid := KidOf(token).value;
    FirstNamedIsNamed(a, kid);
    FirstNamedIsNamed(b, kid);
  }

  /** Rotation, for a token naming no key: once accepted it stays accepted, with the same claims, as keys are added or reordered. */
  lemma KidlessStaysAccepted(signed: set<Signed>, token: string, a: seq<SigningKey>, b: seq<SigningKey>, opts: VerifyOptions, now: int)
    requires KidOf(token) == Some("")
    requires forall k | k in a && k.active :: k in b
    requires Verify(signed, token, a, opts, now).Ok?
    ensures Verify(signed, token, b, opts, now) == Verify(signed, token, a, opts, now)
  {
    var parts := Split(token, '.');
    FirstAcceptingAccepts(signed, parts, a, opts, now);
    FirstAcceptingAccepts(signed, parts, b, opts, now);
    var j :| j in a && j.active && VerifyAgainstKey(signed, parts, j, opts, now) == FirstAccepting(signed, parts, a, opts, now);
    assert j in b;
    var k :| k in b && k.active && VerifyAgainstKey(signed, parts, k, opts, now) == FirstAccepting(signed, parts, b, opts, now);
    AcceptingKeysAgree(signed, parts, j, k, opts, now);
  }

  /** Either way, a token once accepted is accepted by any set that has the same keys and more, names staying unique. */
  lemma MoreKeysStillAccept(signed: set<Signed>, token: string, a: seq<SigningKey>, b: seq<SigningKey>, opts: VerifyOptions, now: int)
    requires UniqueNames(b) && forall k | k in a && k.active :: k in b
    requires Verify(signed, token, a, opts, now).Ok?
    ensures Verify(signed, token, b, opts, now) == Verify(signed, token, a, opts, now)
  {
    var kid := KidOf(token).value;
    if kid == "" {
      KidlessStaysAccepted(signed, token, a, b, opts, now);
    } else {
      FirstNamedIsNamed(a, kid);
      FirstNamedIsNamed(b, kid);
    }
  }

  /** Private halves play no part in verification. */
  function PublicKeys(keys: seq<SigningKey>): (r: seq<SigningKey>)
    ensures |r| == |keys|
    ensures forall i | 0 <= i < |keys| :: r[i] == keys[i].(privateKey := NoPrivateKey)
  {
    seq(|keys|, i requires 0 <= i < |keys| => keys[i].Public())
  }

  lemma {:induction false} PublicHalvesSuffice(signed: set<Signed>, token: string, keys: seq<SigningKey>, opts: VerifyOptions, now: int)
    ensures Verify(signed, token, PublicKeys(keys), opts, now) == Verify(signed, token, keys, opts, now)
  {
    var parts := Split(token, '.');
    if |parts| == 3 && DecodeHeader(parts[0]).Some? {
      FirstNamedPublic(keys, DecodeHeader(parts[0]).value.kid);
      FirstAcceptingPublic(signed, parts, keys, opts, now);
    }
  }

  lemma {:induction false} FirstNamedPublic(keys: seq<SigningKey>, kid: string)
    ensures FirstNamed(PublicKeys(keys), kid) == match FirstNamed(keys, kid) { case None => None case Some(k) => Some(k.Public()) }
  {
    if keys != [] {
      FirstNamedPublic(keys[1..], kid);
      assert PublicKeys(keys)[1..] == PublicKeys(keys[1..]);
    }
  }

  lemma {:induction false} FirstAcceptingPublic(signed: set<Signed>, parts: seq<string>, keys: seq<SigningKey>, opts: VerifyOptions, now: int)
    requires |parts| == 3
    ensures FirstAccepting(signed, parts, PublicKeys(keys), opts, now) == FirstAccepting(signed, parts, keys, opts, now)
  {
    if keys != [] {
      FirstAcceptingPublic(signed, parts, keys[1..], opts, now);
      assert PublicKeys(keys)[1..] == PublicKeys(keys[1..]);
      assert VerifyAgainstKey(signed, parts, keys[0].Public(), opts, now) == VerifyAgainstKey(signed, parts, keys[0], opts, now);
    }
  }

  // --- minting and verifying ---

  /** A signed token is accepted by any key set in which its kid names its own key, exactly when its claims pass the checks. */
  lemma SignedTokenVerdict(signed: set<Signed>, claims: AuthClaims, key: SigningKey, keys: seq<SigningKey>, opts: VerifyOptions, now: int)
    requires IdealEncoding()
    requires key.privateKey.RSAPrivate? && key.publicKey == RSAPublic(key.privateKey.modulus)
    requires key.active && key.kid != "" && key.Public() in keys && UniqueNames(keys)
    requires SignJWT(claims, key.privateKey, key.kid).value.signed in signed
    ensures Verify(signed, SignJWT(claims, key.privateKey, key.kid).value.token, keys, opts, now)
         == match ValidateClaims(Received(claims), opts, now) { case None => Ok(Received(claims)) case Some(e) => Err(e) }
  {
    SignedTokenParts(claims, key.privateKey, key.kid);
    FirstNamedIsNamed(keys, key.kid);
    assert Names(key.Public(), key.kid);
  }

  /** Nothing is accepted that was not signed: an accepted token carries exactly the claims some holder of a listed key signed. */
  lemma AcceptedWasSigned(signed: set<Signed>, token: string, keys: seq<SigningKey>, opts: VerifyOptions, now: int)
    requires Verify(signed, token, keys, opts, now).Ok?
    ensures exists k, s :: && k in keys && k.active && s in signed && k.publicKey == RSAPublic(s.modulus)
                           && |Split(token, '.')| == 3 && s.input == Split(token, '.')[0] + "." + Split(token, '.')[1]
    ensures var c := Verify(signed, token, keys, opts, now).value;
            ValidateClaims(c, opts, now).None? && exists d :: DecodeClaims(Split(token, '.')[1]) == Some(d) && UnmarshalClaims(d) == Some(c)
  {
    var parts := Split(token, '.');
    var header := DecodeHeader(parts[0]).value;
    var k: SigningKey;
    if header.kid == "" {
      FirstAcceptingAccepts(signed, parts, keys, opts, now);
      k :| k in keys && k.active && VerifyAgainstKey(signed, parts, k, opts, now) == FirstAccepting(signed, parts, keys, opts, now);
    } else {
      FirstNamedIsNamed(keys, header.kid);
      k := FirstNamed(keys, header.kid).value;
    }
    assert VerifyAgainstKey(signed, parts, k, opts, now).Ok?;
    assert Signed(k.publicKey.modulus, parts[0] + "." + parts[1], DecodeSignature(parts[2]).value) in signed;
  }
}
