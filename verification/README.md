# Auth Pole: the authorization engine, its keys and its tokens

Auth Pole is a multi-tenant OpenID provider that brokers upstream logins. Any number of nodes share one versioned store;
a login runs authorize, state, upstream completion, code, token set, and then a chain of rotating refresh tokens. This
project models that engine and proves what it is for.

Three layers of the model build on each other.

* **The authorization exchange.** `Protocol` is a state machine in which every storage access is a step of its own, so
  that other requests run between a handle's `Get` and its versioned `Delete`, and every access may fail before or after
  it took effect. `ProtocolInvariant`, `Lineage`, `ProtocolTheorems` and `Racing` prove what holds in every reachable
  state and over every run, and `Registration` what was stored when; `AtomicServer` and `Refinement` show that the machine
  behaves like a server that spends a handle in one step, and that the nodes' private maps never matter. `Engine` is the
  engine itself, a class whose methods work in place on a `Storage.JayDBStorage`, a cache and two maps. It keeps a ghost
  account (`Schedule.World`) of its steps on the machine: its contracts say that what it did is a run of the machine,
  without giving up except where the code does, and what the request ended with. A body that went on where the machine
  stops, or stored or sent anything else, would not be a run. Every failure has its cause in the contract, in the records,
  the clock readings or the client's own request, unless an access of this very request failed, which the store counts; so
  a body that failed without cause would not meet it either.
* **Keys and tokens.** `Jwt`, `AudienceJson` and `Minting` are the token format, verification, and the claims of issued
  tokens. `KeyRing` is a second state machine over key records, per-node caches with clocks, and everything signed;
  `KeyRingTheorems` proves what holds of every run, and `KeyService` and `Validator` are the corresponding classes, again
  accounted for on the machine. The engine and the SVID issuer resolve their signing keys there and account for every
  token they sign. `EndToEnd` composes the two machines: from one authorization request to a verifier's verdict.
* **The pieces around them.** `Providers`, `Presets` and `Subject` choose an upstream provider, ask it who the user is, and
  turn its answers into an identity; `Cache`, `Keys`, `Tenant` and `Svid`, with `Text` and `Sorting` below them.

What the code promises is stated in the records' own fields and in literal text. Where a method and its specification share a
function, a contract or lemma of that kind says what the function computes.

`OthersRun` in `Engine.IDPEngine` and `KeyService.KeyEngine` stands for everything other requests may do between two
accesses of one request. Its body does nothing, but callers know of it only its contract, which allows any run of the
machine on any node, so the methods are proved under arbitrary interleaving.

Storage faults and new versions are arbitrary values, the readings of a node's clock are parameters or, where they date key
caches, arbitrary. What upstream endpoints answer is a parameter, a function of what they are sent. Tokens drawn from
`SecureToken` and newly generated keys are parameters that nobody else holds.

The tenants of a deployment (`tenants` in `Schedule.World` and `KeyService.KeyWorld`) are all organization ids that occur in
records or requests. They may be any in which no two share a cache key, an application record's name or a key listing, and
`Keys` says exactly which pairs do: one id runs on from the other as a separator, a kind and the separator again.

## Model

| member | source | states |
|---|---|---|
| ProtocolInvariant.StepKeepsInv | pkg/idp/idp_engine.go:209-865 | every step any request can take, under any storage fault, keeps the whole protocol invariant: provenance of every record, one child per record, spent handles gone from the store, family ids unique |
| ProtocolInvariant.RunKeepsInv | pkg/idp/idp_engine.go:209-865 | so does every schedule of any number of requests on any number of nodes |
| ProtocolTheorems.SingleUse | pkg/idp/idp_engine.go:369-400 | at most one request is ever handed the payload of a handle, it is the payload that was stored, and the handle is gone |
| Racing.ExactlyOneWinner | pkg/idp/idp_engine.go:369-400 | however many requests race for a persisted handle, when storage does not fail, as soon as one attempt has ended exactly one has received the payload (section 4.1.2 of RFC 6749) |
| Racing.EndedMeansWon | pkg/idp/idp_engine.go:382-400 | over any undisturbed run a handle with an ended attempt has been won, and stays won |
| Refinement.StepRefines | pkg/idp/idp_engine.go:382-439 | each step is one step of a server on which a handle goes from pending to spent at once, or no step at all |
| Refinement.RunRefines | pkg/idp/idp_engine.go:382-439 | every interleaved, faulty run of any number of nodes is a run of that atomic server |
| AtomicServer.HandlesAreSpentOnce | pkg/idp/idp_engine.go:369-400 | on that atomic server a handle is handed to at most one request, with what was stored under it, and a spent one stays spent |
| Refinement.RunIgnoresNodes | pkg/idp/idp_engine.go:402-439 | whatever the nodes' private maps hold, every schedule has the same outcome |
| Lineage.ChainsDoNotFork | pkg/idp/idp_engine.go:702-865 | two records descending from one root lie on one chain |
| ProtocolTheorems.OneCarrierPerAuthorization | pkg/idp/idp_engine.go:382-865 | of everything descending from one authorization request, either one handle is stored or one request is working on one, never both, never two |
| ProtocolTheorems.OneCarrierPerFamily | pkg/idp/idp_engine.go:702-865 | a refresh family has at most one of a live stored handle and an exchange that has claimed but not minted |
| ProtocolTheorems.DeadFamilyStaysDead | pkg/idp/idp_engine.go:702-865 | a family that has neither stays dead under every further schedule |
| ProtocolTheorems.FamilyIsOneChain | pkg/idp/idp_engine.go:702-865 | a family's handles form one chain that goes back to one code redemption |
| ProtocolTheorems.ReplayRevokesNothing | pkg/idp/idp_engine.go:707-713 | replaying a spent refresh token fails and leaves the store and every live handle, its own family's included, as they were |
| ProtocolTheorems.FamilyIsOneAuthorization | pkg/idp/idp_engine.go:824-865 | two refresh tokens share a family exactly when they descend from the same authorization request |
| ProtocolTheorems.TokensComeFromAuthorization | pkg/idp/idp_engine.go:209-333 | every token set goes back to one authorization request of the same organization (whatever organization the redeemer named), client and scope; in the application record that was stored when that request read it, its redirect URI is non-empty and listed, a client that is public or has no secret sent a challenge, and the provider was the one named, if the record allows it, the first one allowed, or the tenant's only one |
| Registration.StatesHadTheirApplication | pkg/idp/idp_engine.go:210-233 | in every schedule, each state was stored for a request that had read exactly the application record stored at that step |
| ProtocolTheorems.TokensSpeakForCode | pkg/idp/idp_engine.go:519-561 | the identity in a token set is the one its code was issued with, however often it was refreshed |
| ProtocolTheorems.IdentityIsConstant | pkg/idp/idp_engine.go:702-865 | along a refresh chain the claims are those of the code the chain started from |
| ProtocolTheorems.AuthorizationsYieldOneOfEach | pkg/idp/idp_engine.go:209-865 | one authorization request yields at most one state, one code and one refresh family |
| ProtocolTheorems.OneTokenSetPerHandle | pkg/idp/idp_engine.go:625-739 | a code or refresh token is exchanged for at most one token set |
| ProtocolTheorems.RedeemerProvedItself | pkg/idp/idp_engine.go:635-673 | whoever got tokens named the client the code or refresh token was issued to and presented its secret unless the client is public, both as the client's record was stored at most a minute before, and named no other redirect URI than the request's (section 4.1.3 of RFC 6749) |
| Registration.TokensUseRecentRecord | pkg/idp/idp_engine.go:868-888 | the record a client was authenticated against was the stored one when its node read it, at most a minute earlier by that node's clock |
| ProtocolTheorems.PkceEndToEnd | pkg/idp/idp_engine.go:656-699 | a code redeemed by a client that is public or has no secret, or whose authorization request carried a challenge, was redeemed with a 43 to 128 character verifier hashing to that request's own challenge (sections 4.1, 4.3 and 4.6 of RFC 7636) |
| ProtocolTheorems.StoredCodesUseS256 | pkg/idp/idp_engine.go:235-249 | every stored code has no challenge or an S256 one |
| ProtocolTheorems.NonceOnlyOnCodeExchange | pkg/idp/idp_engine.go:763-801 | the ID token of a code exchange carries its own request's nonce, a refreshed one none |
| ProtocolTheorems.LifetimesAreEnforced | pkg/idp/idp_engine.go:38-59 | nothing is accepted more than 15 minutes (state), 2 minutes (code) or 14 days (refresh token) after its creation, by the clocks of the nodes involved |
| Storage.JayDBStorage.Get | pkg/storage/jaydb_storage.go:81-96 | the stored record, not found, or unavailable |
| Storage.JayDBStorage.Put | pkg/storage/jaydb_storage.go:98-113 | unconditional, create-only or compare-and-swap by the expected version; conflicts are version mismatches; a failed write may or may not have taken effect |
| Storage.JayDBStorage.Delete | pkg/storage/jaydb_storage.go:115-133 | removes the record only at the expected version, distinguishing absence from a mismatch |
| Storage.JayDBStorage.Names | pkg/storage/jaydb_storage.go:136-139 | the names under a prefix, exactly |
| KeyService.KeyEngine.ListRecords | pkg/storage/jaydb_storage.go:135-151 | list, then get one by one while others publish: only the organization's own records, and, unless a read fails, every one that was there when the listing began |
| Schedule.OthersDoNotInterfere | pkg/idp/idp_engine.go:118-132 | however others proceed, a request finds itself exactly where it was |
| Engine.IDPEngine.SelectProvider | pkg/idp/idp_engine.go:252-294 | the provider is the one named if the application may use it, else the application's first, else the tenant's only one, the tenant's providers being listed only then; there is none only for want of a choice or of a readable listing |
| Engine.IDPEngine.PrepareAuthorization | pkg/idp/idp_engine.go:209-367 | a run of the machine; on success the redirect URI is non-empty and listed in the application record stored when the request read it, a client that is public or has no secret sent a challenge, and any challenge is S256; a state repeating the request and naming the selected provider is stored, and the redirect leads to that very provider, as resolved, and carries the state's handle; it is refused only for failing one of these, for what the provider records say, or for a storage fault of its own |
| Engine.IDPEngine.ClaimSingleUse | pkg/idp/idp_engine.go:382-400 | under arbitrary interleaving between Get and Delete, returns the payload exactly when this request removed the record it read; unless storage failed, it is refused only when there is nothing left to claim |
| Engine.IDPEngine.DeleteAtVersion | pkg/idp/idp_engine.go:394-399 | only the request whose Delete removed the record receives it, and then the record is gone; unless storage failed, it was gone before if the Delete did not remove it |
| Engine.IDPEngine.FetchAndConsumeAuthState | pkg/idp/idp_engine.go:402-422 | a claimed state within its lifetime; otherwise there was nothing to claim, the state claimed is out of time, or storage failed |
| Engine.IDPEngine.CompleteUpstreamAuthenticationWithState | pkg/idp/idp_engine.go:519-570 | exactly the code that repeats the state and carries the identity given is stored under the state it came from, and the redirect names it; only storage can prevent it |
| Engine.IDPEngine.ProcessUpstreamCallback | pkg/idp/idp_engine.go:442-516 | a code exactly when the state is claimed in time and the provider resolved for it gives an identity for the upstream code, which the code then carries; every refusal has its cause in the state, the provider records, the provider's answers or a storage fault |
| Providers.ProviderSource.EnabledIDPIDs | pkg/idp/idp_engine.go:1098-1117 | the ids of a tenant's enabled provider records, in order, but for as many records as reads failed |
| Providers.SingleChoiceIff | pkg/idp/idp_engine.go:1093-1096 | when reads fail, a tenant can appear to have just one provider, which is then chosen unnamed, exactly when it offers any at all |
| Providers.EnabledIgnoresOrder | pkg/idp/idp_engine.go:1091-1117 | that list does not depend on the order storage lists the records in |
| Providers.ProviderSource.ResolveUpstreamIDP | pkg/idp/idp_engine.go:992-1081 | the admin console's providers come from the environment alone; any other client's is the record stored for the organization, or else for the default one, under that id, and it is enabled and has a client id that is no placeholder; the organization's own such record is always used, unless its reading fails |
| Providers.PlatformProviderIff | pkg/idp/idp_engine.go:995-1032 | the environment gives a provider exactly for the two known ids and with a client id set, Auth Pole's own variables before the generic ones, and kind, endpoints and scopes are those of the preset |
| Providers.OwnProviderStaysIff | pkg/idp/idp_engine.go:1060-1076 | whichever reads fail, an organization's own usable provider is never replaced exactly when the default organization has no other one under its id |
| Providers.AuthorizeParameters | pkg/idp/idp_engine.go:346-366 | the redirect carries our client, callback, response type and state whatever extra parameters the provider record holds, and all the other extra ones |
| Providers.FetchIdentity | pkg/idp/idp_engine.go:453-508 | the code, our client's credentials and our callback go to the provider's own token endpoint, and the identity comes from its profile endpoint under the token granted; there is one exactly when all the answers amount to one |
| Presets.RecordSufficesIff | pkg/idp/claims.go:91-155 | a login can use a provider record exactly when it goes by a preset or says everything itself; merging twice changes nothing |
| Presets.RecordComesFirst | pkg/idp/claims.go:100-155 | field by field: what the record says itself stands, what it leaves empty is its preset's, and identity, credentials and extra parameters stay its own |
| Presets.PresetByName | pkg/idp/claims.go:93-110 | the preset is the one the record names, or else the one its id names, up to letter case and surrounding space |
| Presets.PresetSubjects | pkg/idp/claims.go:17-89 | OpenID presets identify users by `sub` and the others by `id`, and Google's alone says which addresses are verified |
| Engine.CachedAppIsKnown | pkg/idp/idp_engine.go:868-871 | among tenants no two of which share a cache key, a cached application is one read for that organization and client at most a minute ago |
| Engine.IDPEngine.LoadApplication | pkg/idp/idp_engine.go:868-888 | cache first; what is returned was read from the store for this organization and client at most a minute ago, and is served from the cache for a minute after it was read and no longer; nothing is returned only if nothing is stored or storage fails |
| Engine.IDPEngine.ExchangeAuthorizationCode | pkg/idp/idp_engine.go:625-673 | a run of both machines; success means the last token set sent was minted from this code for this request, and the response carries it, correctly signed; without storage faults it fails only if there is nothing to claim, the code claimed is out of time, another client's or for another redirect URI, its application is gone, a confidential client's secret is wrong, a client without one has no challenge, the verifier does not fit the challenge, or the code has no identity |
| Engine.IDPEngine.ExchangeRefreshToken | pkg/idp/idp_engine.go:702-739 | the same for a refresh token; an empty one is turned away without a trace |
| Engine.IDPEngine.IssueTokens | pkg/idp/idp_engine.go:742-821 | resolves the tenant's key and signs access and ID tokens at one instant over exactly the claims each must carry, on the key machine, and stores a refresh token; with an identity, only a storage fault prevents it, and without one nothing is issued |
| Engine.IDPEngine.SignTokens | pkg/idp/idp_engine.go:757-805 | both tokens are entries of the key machine's log: same key, same instant, the claims of an access and of an ID token; only a fault in the key records prevents it |
| Engine.IDPEngine.MintRefreshToken | pkg/idp/idp_engine.go:824-865 | the new handle is stored for fourteen days with the client, claims and scope given, in the family given or, for a first one, in a new family |
| Engine.IDPEngine.ExchangeCodeForToken | pkg/idp/idp_engine.go:614-623 | the grant type decides which handle is exchanged; unsupported ones leave no trace |
| Engine.IDPEngine.IssuerFor | pkg/idp/idp_engine.go:159-170 | the resolver's answer, or the default where there is no resolver or it answers with nothing |
| EndToEnd.ExchangeToVerdict | pkg/idp/idp_engine.go:625-821 | a token set sent, against the organization's or application's keys read anywhere later: the access token passes for the audiences registered for the application, or else its client id, and for no other, exactly in its time window, and tells the organization and scope of the one authorization request it goes back to, the application, and every field of the identity its code was issued with; the ID token passes for that request's client alone in the same window, telling the same and the request's nonce on a code exchange, none on a refresh, and never as an access token |
| EndToEnd.DeliveredToVerdict | pkg/idp/idp_engine.go:625-821 | so do the tokens of every response the engine delivers: from the code or refresh token exchanged at one node to the verdict of a verifier anywhere, at any later point |
| EndToEnd.SvidToVerdict | pkg/idp/svid.go:78-162 | an SVID, against the organization's keys read anywhere later, passes for the one granted audience alone, from a minute before its nbf to sixteen minutes after its iat, and speaks for the registered identity, with the granted scopes, and for no user |
| Jwt.SignedTokenParts | pkg/crypto/crypto.go:177-246 | a signed token splits into exactly three parts that decode to the header and claims signed (section 7.1 of RFC 7515) |
| Jwt.SignedInputIsClaims | pkg/crypto/crypto.go:193-196 | the signed text determines the claims |
| Jwt.VerifyJWTWithOptions | pkg/crypto/crypto.go:232-295 | the two loops compute the verdict of the first named key, or of the first accepting key for a token without a kid |
| Jwt.VerdictIgnoresOtherKeys | pkg/crypto/crypto.go:256-278 | with unique names, the verdict on a token with a kid is unchanged by permuting the keys or adding others |
| Jwt.KidlessStaysAccepted | pkg/crypto/crypto.go:280-290 | a token without a kid, once accepted, stays accepted with the same claims as keys are added or reordered |
| Jwt.MoreKeysStillAccept | pkg/crypto/crypto.go:256-295 | the same for any token, names staying unique |
| Jwt.SignedTokenVerdict | pkg/crypto/crypto.go:232-370 | a signed token is accepted by every key set holding its key exactly when its claims pass the checks |
| Jwt.AcceptedWasSigned | pkg/crypto/crypto.go:299-341 | nothing is accepted that no holder of a listed, active key signed |
| AudienceJson.AudienceVar.UnmarshalJSON | pkg/models/models.go:40-57 | overwrites its receiver with the decoded audience, or leaves it alone and fails |
| AudienceJson.AudienceRoundTrip | pkg/models/models.go:28-57 | decoding an encoded audience always works and is the identity exactly when it is not a lone empty string (section 4.1.3 of RFC 7519) |
| AudienceJson.ContainsSurvivesRoundTrip | pkg/models/models.go:62-72 | membership survives the round trip for every audience and query |
| Models.HasRedirectURI | pkg/models/models.go:126-136 | a redirect URI is registered exactly when it is non-empty and listed, character by character |
| Models.ActiveSigningKey | pkg/models/models.go:245-256 | the loop computes the specification below |
| Models.NewestSignerIsNewest | pkg/models/models.go:245-256 | there is a choice exactly when some key is active and has a private half, and no such key is newer |
| Models.NewestSignerIgnoresOrder | pkg/models/models.go:245-256 | when creation times differ, nodes reading the keys in any order choose the same one |
| Minting.HostIssuersDiffer | authpole.go:262-271 | exactly when two organizations share a host-pattern issuer |
| Minting.DefaultIssuersDiffer | pkg/idp/idp_engine.go:185-187 | default issuers are injective in the organization |
| Minting.WindowIsExact | pkg/crypto/crypto.go:345-357 | under the default leeway a token is in time exactly within 60 seconds of its bounds, a bound that is not positive being no bound |
| Minting.LeewayIsExact | pkg/crypto/crypto.go:345-357 | under any other leeway of whole seconds, within that many seconds of its bounds |
| Minting.TimeWindowIsExact | pkg/crypto/crypto.go:345-357 | a fifteen-minute token is in time exactly from 60 seconds before to 960 after its second of issue, for every instant after the epoch's first second, and what holds before that (sections 4.1.4 and 4.1.5 of RFC 7519) |
| Minting.TimeWindowInInstants | pkg/crypto/crypto.go:345-357 | in instants: always within [i-60s, i+960s], never at or before i-61s nor at or after i+961s |
| Minting.MintedTokenVerdict | pkg/idp/idp_engine.go:761-805 | a minted token is accepted exactly when clock and expectations fit, with the claims it was minted with, the audience up to membership |
| Minting.OtherTenantRefuses | pkg/crypto/crypto.go:359-361 | a token minted for one organization is refused under another's issuer, even with all keys shared |
| Minting.IdTokenIsNoAccessToken | pkg/crypto/crypto.go:365-367 | an ID token is refused wherever an access token is demanded, whatever the keys |
| Minting.SvidAccepted | pkg/idp/svid.go:125-152 | an SVID is accepted exactly from a minute before its nbf to sixteen minutes after its iat, and every claim read from it is the workload's, or empty |
| KeySets.LoadSigningKeys | pkg/idp/idp_engine.go:972-989 | selects the active keys of this application or of none |
| KeySets.KeysForJWKS | pkg/api/oidc_handlers.go:113-125 | the JWKS endpoint's differently written filter selects the same keys |
| KeySets.SelectedMembers | pkg/idp/idp_engine.go:972-989 | a key is selected exactly when it is listed, active, and of this application, of none, or no application is named |
| KeySets.BuildJWKS | pkg/crypto/crypto.go:129-167 | an entry for each active RS256 key with an RSA public half, and for nothing else (section 5 of RFC 7517) |
| KeyRing.StepKeepsInv | pkg/idp/idp_engine.go:899-940 | loading, caching, creating, re-reading after a failed write, signing and invalidating all keep: cached keys are stored ones, complete loads miss nothing, signing keys are stored and active |
| KeyRing.CoveredMeansSignable | pkg/idp/idp_engine.go:907-916 | a load that missed nothing and still found no key to sign with proves there was none |
| KeyRing.NewKeyTakesOver | pkg/models/models.go:237-256 | a newly made key takes over signing from the keys read with it exactly when every one of them that can sign is older |
| KeyRingTheorems.ServedKeysAreRecent | pkg/auth/jwt.go:111-134 | a served key set was filled at most an hour before, is stored and in scope, and absent read faults has every in-scope key published before the load that filled it |
| KeyRingTheorems.StoreAcceptsWhatCacheAccepts | pkg/auth/jwt.go:88-134 | whatever a node accepts from cached keys, the keys read from the store by any load that begins then or later accept with equal claims |
| KeyRingTheorems.SignedWithStoredKey | pkg/idp/idp_engine.go:899-940 | the key a token is signed with is stored, active and in scope, then and ever after |
| KeyRingTheorems.MintedThenVerified | pkg/idp/idp_engine.go:742-821 | every token minted in any run is accepted by the keys read for its application or organization, in any load that begins later, exactly when clock and expectations fit, and yields its claims |
| KeyRingTheorems.CacheVerifiesOlderKeys | pkg/auth/jwt.go:111-134 | a completely loaded cached set verifies every token whose key was published before that load |
| KeyRingTheorems.JWKSNamesSigner | pkg/api/oidc_handlers.go:113-138 | the token's kid is in every later JWKS for its application and for its organization, with its own modulus only |
| KeyRingTheorems.AcceptedWasMinted | pkg/crypto/crypto.go:299-341 | whatever is accepted in any run, with whatever keys, is a token this system minted, with its claims |
| KeyRingTheorems.VerifyAccessTokenSeparates | authpole.go:186-198 | only access tokens and SVIDs for that audience and for an organization of the same issuer are ever accepted; with distinct issuers, that very organization's |
| KeyRingTheorems.TwoKeysIff | pkg/idp/idp_engine.go:899-940 | from any reachable state, two requests that can read every record may both create a key for one organization and application, and both go on to sign with their own, exactly when no active key of the organization serves that application: the create-only write does not arbitrate |
| KeyRingTheorems.CreatesOnlyWithoutKey | pkg/idp/idp_engine.go:907-925 | a request that read every record goes on to create a key only if none in scope was stored when its read began |
| KeyRingTheorems.StoredKeyIsNotDoubled | pkg/idp/idp_engine.go:907-925 | over every run: with a key in scope stored, no request that reads all records from then on creates another |
| KeyRingTheorems.UnreadableRecordsDoubleTheKey | pkg/storage/jaydb_storage.go:141-149 | records that cannot be read are passed over, and then one request alone creates another key and signs with it, whatever is stored |
| KeyService.KeyEngine.ResolveSigningKey | pkg/idp/idp_engine.go:899-940 | under arbitrary interleaving, the key returned is stored and active under the tenant's prefix at that moment and can sign; only a storage fault leaves a tenant without one |
| KeyService.KeyEngine.StoreNewKey | pkg/idp/idp_engine.go:925-935 | a write of the new key that either published it and says so, or was let down by storage and leaves the request to re-read |
| KeyService.KeyEngine.PutNewKey | pkg/idp/idp_engine.go:925 | that write is create-only: it never replaces a record that is there |
| KeyService.KeyEngine.SigningKeys | pkg/idp/idp_engine.go:947-963 | copies of the tenant's keys that hold no private half; complete unless storage failed |
| KeyService.ReadAnswers | pkg/storage/storage.go:59-61 | among tenants no two of which share a listing, a record under an organization's prefix is the key published under that name |
| Validator.TokenValidator.KeysFor | pkg/auth/jwt.go:111-134 | non-empty cached keys are returned as they are; otherwise keys come from the source and are then what the cache serves for an hour and no longer; there are none only without a source, after a storage fault, or when nothing in scope was stored |
| Validator.TokenValidator.Validate | pkg/auth/jwt.go:88-102 | the verifier's verdict on the keys served |
| Validator.TokenValidator.VerifyAccessToken | authpole.go:186-198 | demands organization and audience; accepts only what this system minted for that audience and an organization of the same issuer |
| Cache.MemoryCache.Get | pkg/cache/cache.go:30-44 | the value unless absent or past its expiry |
| Cache.MemoryCache.Set | pkg/cache/cache.go:46-59 | a positive lifetime sets an expiry, any other none |
| Cache.MemoryCache.InvalidateOrganization | pkg/cache/cache.go:68-78 | drops exactly the entries under the organization's prefix |
| Cache.MemoryCache.InvalidateApp | pkg/cache/cache.go:81-94 | drops exactly the application's three entries, which are those the typed setters write |
| Cache.MemoryCache.Sweep | pkg/cache/cache.go:96-108 | one janitor tick drops exactly the expired entries |
| Cache.JanitorIsInvisible | pkg/cache/cache.go:30-108 | for every interleaving under a non-decreasing clock, Get answers as if there were no janitor |
| Cache.InvalidationIsExact | pkg/cache/cache.go:68-78 | for colon-free ids, an organization's invalidation drops its entries and nobody else's |
| Keys.SessionKeysPartition | pkg/storage/storage.go:79-94 | state, code and refresh keys are injective and pairwise disjoint for arbitrary handles |
| Keys.SessionKeysApart | pkg/storage/storage.go:47-94 | no organization-owned key is ever a session key |
| Keys.OrgKeysInjective | pkg/storage/storage.go:47-77 | for slash-free organization ids no two records share a key |
| Keys.AppRecordsCollideIff | pkg/storage/storage.go:51-53 | for arbitrary ids, two organizations can have application records of one name exactly when one id runs on from the other as "/apps/" |
| Keys.KeyPairNamesInjective | pkg/storage/storage.go:59-61 | signing key records never share a name, whatever the organizations, as generated ids have no slash |
| Schedule.NamesDetermine | pkg/storage/storage.go:51-94 | no two records of the exchange share a name, among tenants without such a pair, whatever the handles and clients |
| Keys.KeyListingIsExact | pkg/idp/idp_engine.go:967 | for slash-free ids a key listing returns exactly the organization's signing keys |
| Keys.KeyListingReturnsIff | pkg/idp/idp_engine.go:967 | for arbitrary ids, exactly which keys the listing returns |
| Keys.KeyListedIff | pkg/idp/idp_engine.go:967 | an organization's key is in another's listing exactly when its id runs on from the other's as "/keys/" |
| Keys.SlashedOrganizationLeaks | pkg/idp/idp_engine.go:967 | an organization id with a slash can put its key into another's listing |
| Keys.CacheKeysInjective | pkg/cache/cache.go:112-130 | for colon-free ids cache keys never collide |
| Keys.CacheKeysCollideIff | pkg/cache/cache.go:112-130 | for arbitrary ids, two organizations can share a cache key of one kind exactly when one id runs on from the other as ":app:", ":idp:", ":keys:" or ":jwks:" |
| Keys.CacheCollisionExample | pkg/cache/cache.go:112-130 | the input: client "x:app:y" of "a" and client "y" of "a:app:x" |
| Keys.PlainTenantsAreApart | pkg/cache/cache.go:112-130 | ids without colons and slashes form no such pair, in the cache or in storage |
| Keys.InvalidationDropsIff | pkg/cache/cache.go:68-78 | for arbitrary ids, exactly which entries an invalidation drops |
| Svid.ResolveSVIDAudience | pkg/idp/svid.go:169-196 | settles on an audience exactly when there is one to grant, which is then the only one |
| Svid.GrantScopes | pkg/idp/svid.go:200-215 | the nested loops compute the specification of the next row |
| Svid.GrantedIsIntersection | pkg/idp/svid.go:200-215 | a scope is granted exactly when it was asked for and is permitted |
| Svid.ScopeClaimIsPermitted | pkg/idp/svid.go:122-134 | the scope claim, read back word by word, names only permitted scopes for every request exactly when everything is allowed or every word of an allowed scope is allowed |
| Svid.SpacedScopeNamesMore | pkg/idp/svid.go:122-134 | any allowed scope with a word that is not allowed puts that word into the claim, asked for or by default |
| Svid.SvidIssuer.IssueSVID | pkg/idp/svid.go:78-162 | comes down to the signing key exactly for an active workload bound to the presented fingerprint with an identity and a grantable audience; the token is signed with the organization's key, on the key machine, over the registered identity and granted scopes; the error names the first check that fails |
| Svid.SvidIssuer.CheckWorkload | pkg/idp/svid.go:94-119 | the checks on a loaded workload pass exactly when it is active, presents the registered fingerprint, has an identity and an audience can be granted |
| Tenant.Request.WithResolvedTenant | authpole.go:127-164 | replaces the caller's selectors by the resolver's tenant, or refuses, and changes nothing else |
| Tenant.HandlersServeResolvedTenant | authpole.go:127-164 | whatever selectors were sent, every query- or header-reading handler serves the resolver's tenant or the default, and the token endpoint, which reads the POST body (pkg/api/oidc_handlers.go:221-227), does exactly when the body agrees; all other parameters stay as they were |
| Tenant.UnresolvedOriginFollowsBody | pkg/api/server.go:225-238 | without a resolved tenant a body selector decides whose origins are consulted |
| Tenant.EitherNameSelects | pkg/api/admin_handlers.go:370-380 | without the pinning, a selector is the first value under either of its names, headers before the query and a form before the query |
| Tenant.TenantFromHost | authpole.go:233-260 | computes the label directly under the base domain |
| Tenant.SplitHostPortIff | authpole.go:244-247 | host and port are told apart exactly in "host:port" without further colons or in "[host]:port", without further brackets |
| Tenant.HostTenantIsLabel | authpole.go:233-260 | a host is a tenant's exactly when it is that one unreserved, dot-free label, a dot and the base domain |
| Tenant.HostRoundTrip | authpole.go:262-271 | inverts the issuer's host, with or without a port, for exactly the lower-case, dot-free, unreserved tenants |
| Subject.LookupField | pkg/idp/claims.go:158-175 | the loop follows a dotted path |
| Subject.LookupFollowsPath | pkg/idp/claims.go:158-175 | on every profile, a dotted path of dot-free names follows those names |
| Subject.PathExistsIff | pkg/idp/claims.go:158-175 | some path leads along given field names on every profile exactly when none has a dot and they are not the empty name alone |
| Subject.StringsField | pkg/idp/claims.go:223-245 | the texts of a list without the empty ones, or the words of a text |
| Subject.SecondaryAddressIsVerified | pkg/idp/claims.go:375-406 | a secondary address is a verified one, and the primary one unless that is unverified |
| Subject.NumericIdsDistinctIff | pkg/idp/claims.go:183-203 | numeric account ids up to a bound, decoded to 64-bit floats, format to distinct text exactly when the bound is at most 2^53 |
| Subject.NearestIsNearest | pkg/idp/claims.go:194-198 | a number decodes to a multiple of the float spacing no further away than half of it |
| Subject.ProvidersCollideIff | pkg/idp/claims.go:312-317 | two providers' subjects collide exactly when one id starts with the other and "_" |
| Subject.SubjectsIdentifyAccounts | pkg/idp/claims.go:312-317 | on a set of provider ids without such a pair, a subject identifies provider and account |
| Subject.TextIsCarriedOver | pkg/idp/claims.go:183-190 | a subject that is text is carried over as it is, behind the provider's id, and so are user name, name and address; two users of one provider are one exactly when their texts are equal |
| Text.TrimSpaceCuts | pkg/idp/claims.go:94 | what trimming cuts off at either end is white space, and what it leaves has none there |
| Subject.FetchUpstreamClaims | pkg/idp/claims.go:255-329 | an identity exactly when the provider, its preset merged in, is configured, its profile came and names a subject, and the address is not called unverified; subject keyed by provider, address from the profile or else the secondary one, name, groups and roles with their fallbacks |

## Left out

What is assumed:

* `SecureToken` never repeats a value, and generated keys have ids, kids and moduli of their own, under which nothing is filed. jti values are parameters.
* JSON with unpadded base64url is an injective, dot-free encoding (`Jwt.IdealEncoding`); RSA signatures are ideal, so a signature verifies exactly when it was made; S256 is an uninterpreted function. PEM and x509 appear only as "does not parse".
* Application records are filed under their own client id and organization (`Protocol.WellFiled`). pkg/api/admin_handlers.go:451 files them under the application's id instead; where the two differ the engine does not find the record.
* Key records are only ever added. A key that is deactivated or deleted later is not modelled.
* Provider records stay as they are while one request reads them.
* Every node has the same issuer policy, installed at construction, where the source expects it (`Engine.IDPEngine.SetIssuerResolver`).
* The store never assigns the version `"*"`; `Delete` treats it like any other version.
* Time is an integer count of nanoseconds. A node's clock does not run backwards where key caches depend on it.
* Trimming and case folding are modelled for ASCII.
* Stores and caches are modelled one kind of record at a time. Records of two kinds can share a name only if an organization id has a slash (`Keys.OrgKeysInjective`); cache entries of two kinds only if one has a colon (`Keys.CacheKeysInjective`), and since the typed getters check what they find, that costs a miss.

Contracts narrower than the code:

- Engine.CachedAppIsKnown: only among tenants no two of which share a cache key of an application; `Keys.CacheKeysCollideIff` says exactly which pairs do, and `Keys.CacheCollisionExample` is one. With such a pair the code can serve one organization's cached application for another's.
- Engine.IDPEngine.LoadApplication: the same, and no two may share an application record's name (`Keys.AppRecordsCollideIff`).
- Engine.IDPEngine.IssueTokens: only among tenants no two of which share a cache key of signing keys (`Keys.CacheKeysCollideIff`) or a key listing (`Keys.KeyListedIff`); with such a pair an organization's cached or listed keys can be another's. The lines below marked "as above" are for the same reason.
- Engine.IDPEngine.SignTokens: as above.
- Svid.SvidIssuer.IssueSVID: as above.
- KeyService.KeyEngine.ResolveSigningKey: as above.
- KeyService.KeyEngine.StoreNewKey: as above, for listings.
- KeyService.KeyEngine.SigningKeys: as above, for listings.
- KeyService.KeyEngine.ListRecords: as above, for listings.
- KeyService.ReadAnswers: as above, for listings.
- Validator.TokenValidator.KeysFor: as above.
- Validator.TokenValidator.Validate: as above.
- Validator.TokenValidator.VerifyAccessToken: as above.
- Providers.AuthorizeParameters: the parameters before they are URL-encoded.
- Providers.FetchIdentity: the HTTP calls themselves (headers, the ten-second timeout, the bound on a body's size) are not modelled; a call answers or does not.
- Subject.NumericIdsDistinctIff: floats of 2^63 and more, which the code formats differently, are some text or other.

What else the model does not show:

* The fields `AppID`, `StateID`, `Code` and `Token` that records repeat for information are omitted. Nil entries in key lists are not modelled.
* The one-minute JWKS response cache, and the key the JWKS endpoint creates when it finds none, which appears only as one more key published.
* pkg/api/spiffe_handlers.go has its own copy of SVID issuance. It ignores a failed Put of a fresh key (lines 120-139) and caches that unstored key on the shared cache for an hour, so through that path a node can sign with a key that is not stored. "The signing key is stored" is proved of the engine's own paths.
* cmd/server/main.go seeds the same caches at start-up. It caches two clients of the default organization for an hour (lines 139 and 163), so on that node the one-minute bound of `ProtocolTheorems.RedeemerProvedItself`, `Registration.TokensUseRecentRecord`, `Engine.CachedAppIsKnown` and `Engine.IDPEngine.LoadApplication` fails for those two clients: a record changed or deleted elsewhere may still be honoured for up to an hour. It caches a signing key for an hour too (line 206), whether or not the Put before it worked, so there "the signing key is stored" is not promised for the default organization either.

What the code does not promise, although its comments suggest it:

* One signing key per tenant. `KeyRingTheorems.TwoKeysIff`: two requests may both create one exactly when no active key of the organization serves the application, even if it has keys of other applications. `KeyRingTheorems.UnreadableRecordsDoubleTheKey`: one request alone may when the stored key's record cannot be read. What holds is that nobody who reads every record doubles a key stored before (`KeyRingTheorems.StoredKeyIsNotDoubled`), and that whatever the engine signs with is stored.
* Revocation of a refresh family when a token is replayed: `ProtocolTheorems.ReplayRevokesNothing`.
* That a tenant's own provider is used: a failed read counts as no record, and then the default organization's provider of the same id takes its place. `Providers.OwnProviderStaysIff` says when that cannot happen.
* That a choice among several providers is never made silently: a listing of which only one record could be read looks like no choice (`Providers.SingleChoiceIff`).
* That numeric account ids are never corrupted: above 2^53 two of them become one (`Subject.NumericIdsDistinctIff`).

Not modelled: HTTP plumbing, CORS headers, the admin handlers, certificate checks of pkg/spiffe, the S3 driver and the JayDB engine behind the storage contract, seeding and configuration, and pkg/cache/shard.go.
