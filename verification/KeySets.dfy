/**
 * The key sets read from a tenant's key records: loadSigningKeys and SigningKeys in pkg/idp/idp_engine.go, the JWKS
 * endpoint in pkg/api/oidc_handlers.go, and BuildJWKS in pkg/crypto/crypto.go.
 */
module KeySets {
  import opened Wrappers
  import opened Models
  import opened Jwt

  /** One listed key record; None when its JSON does not parse. */
  type KeyRecord = Option<SigningKey>

  /** Active, and of this application or of none; every active key when no application is named. */
  predicate ServesApp(k: SigningKey, app: string) {
    k.active && (app == "" || k.appID == "" || k.appID == app)
  }

  predicate Selects(r: KeyRecord, app: string) {
    r.Some? && ServesApp(r.value, app)
  }

  /** The keys of a listing that serve an application, in listing order. */
  function Selected(list: seq<KeyRecord>, app: string): seq<SigningKey> {
    if list == [] then []
    else
      var front, r := Selected(list[..|list| - 1], app), list[|list| - 1];
      if Selects(r, app) then front + [r.value] else front
  }

  lemma {:induction false} SelectedMembers(list: seq<KeyRecord>, app: string, k: SigningKey)
    ensures k in Selected(list, app) <==> Some(k) in list && k.active && (app == "" || k.appID == "" || k.appID == app)
  {
    if list != [] {
      var front, r := list[..|list| - 1], list[|list| - 1];
      SelectedMembers(front, app, k);
      assert list == front + [r];
    }
  }

  /** pkg/idp/idp_engine.go loadSigningKeys, after its List. */
  method LoadSigningKeys(list: seq<KeyRecord>, appID: string) returns (keys: seq<SigningKey>)
    ensures keys == Selected(list, appID)
  {
    keys := [];
    for i := 0 to |list|
      invariant keys == Selected(list[..i], appID)
    {
      assert list[..i + 1][..i] == list[..i];
      if list[i].None? {
        continue;
      }
      var k := list[i].value;
      if !k.active {
        continue;
      }
      if k.appID != "" && appID != "" && k.appID != appID {
        continue;
      }
      keys := keys + [k];
    }
    assert list[..|list|] == list;
  }

  /** The loop of the JWKS endpoint, written differently, selects the same keys. */
  method KeysForJWKS(list: seq<KeyRecord>, appID: string) returns (keys: seq<SigningKey>)
    ensures keys == Selected(list, appID)
  {
    keys := [];
    for i := 0 to |list|
      invariant keys == Selected(list[..i], appID)
    {
      assert list[..i + 1][..i] == list[..i];
      if list[i].Some? && list[i].value.active {
        var k := list[i].value;
        if appID == "" || k.appID == "" || k.appID == appID {
          keys := keys + [k];
        }
      }
    }
    assert list[..|list|] == list;
  }

  /** pkg/idp/idp_engine.go SigningKeys: the copies a verifier is handed. */
  method StripPrivateHalves(keys: seq<SigningKey>) returns (public: seq<SigningKey>)
    ensures public == PublicKeys(keys)
    ensures forall k | k in public :: k.privateKey == NoPrivateKey
  {
    public := [];
    for i := 0 to |keys|
      invariant |public| == i
      invariant forall j | 0 <= j < i :: public[j] == keys[j].Public()
    {
      var copy := keys[i].(privateKey := NoPrivateKey);
      public := public + [copy];
    }
  }

  datatype JWK = JWK(kid: string, modulus: nat)

  predicate IsPublishable(k: SigningKey) {
    k.active && k.algorithm == "RS256" && k.publicKey.RSAPublic?
  }

  /** pkg/crypto/crypto.go BuildJWKS: an entry for each publishable key and for nothing else. */
  method BuildJWKS(keys: seq<SigningKey>) returns (jwks: seq<JWK>)
    ensures forall j :: j in jwks <==> exists k :: k in keys && IsPublishable(k) && j == JWK(k.kid, k.publicKey.modulus)
  {
    jwks := [];
    for i := 0 to |keys|
      invariant forall j :: j in jwks <==> exists k :: k in keys[..i] && IsPublishable(k) && j == JWK(k.kid, k.publicKey.modulus)
    {
      assert keys[..i + 1] == keys[..i] + [keys[i]];
      var k := keys[i];
      if !k.active || k.algorithm != "RS256" {
        continue;
      }
      if !k.publicKey.RSAPublic? {
        continue;
      }
      jwks := jwks + [JWK(k.kid, k.publicKey.modulus)];
    }
    assert keys[..|keys|] == keys;
  }
}
