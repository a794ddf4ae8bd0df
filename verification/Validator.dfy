/** TokenValidator (pkg/auth/jwt.go) and Provider.VerifyAccessToken (authpole.go). */
module Validator {
  import opened Wrappers
  import opened Models
  import opened Jwt
  import opened Minting
  import opened KeySets
  import opened KeyRing
  import opened KeyRingTheorems
  import opened KeyService
  import Cache

  datatype Options = Options(issuer: string, audience: string, tokenUse: string)
  {
    function ForVerifier(): VerifyOptions {
      VerifyOptions(issuer, audience, tokenUse, 0)
    }
  }

  datatype Refusal =
    | NoKeysAvailable          // an outage, not a bad token
    | BadToken(error: VerifyError)
    | MissingExpectation       // the caller named no organization or no audience

  lemma NothingWasInScope(before: seq<Published>, published: seq<Published>, list: seq<KeyRecord>, org: string, app: string)
    requires before <= published && ListedFrom(published, |before|, org, list, true) && PublicKeys(Selected(list, app)) == []
    ensures forall p | p in before :: !InScope(p, org, app)
  {
    forall p | p in before ensures !InScope(p, org, app) {
      var i :| 0 <= i < |before| && before[i] == p;
      assert published[i] == p;
      SelectedMembers(list, app, p.key);
    }
  }

  /** A validator shares its node's cache with the engine, which may also be its key source. */
  class TokenValidator {
    const engine: KeyEngine
    const hasSource: bool

    constructor (engine: KeyEngine, hasSource: bool)
      ensures this.engine == engine && this.hasSource == hasSource
    {
      this.engine, this.hasSource := engine, hasSource;
    }

    /** Why there may be no keys for an organization and application, seen from a state before. */
    ghost predicate NothingToServe(before: KSys, org: string, app: string, faults: nat)
      reads engine.world.store`faults
    {
      !hasSource || engine.world.store.faults > faults || forall p | p in before.published :: !InScope(p, org, app)
    }

    /** What the cache holds from now on for an hour, and no longer. */
    ghost predicate ServedForAnHour(org: string, app: string, keys: seq<SigningKey>)
      reads engine`clock, engine.cache
    {
      var name := CacheName(Slot(engine.node, org, app));
      forall t :: Cache.Lookup(engine.cache.items, name, t) == if t <= engine.clock + HOUR then Some(keys) else None
    }

    /**
     * Cache first, then the source, whose answer is cached for an hour. Whatever is returned is what the cache serves at
     * that moment, so it is no more than an hour old and, unless a read failed, complete as of its load. There is no answer
     * only if there is no source, storage failed, or nothing in scope was stored.
     */
    method KeysFor(org: string, app: string, ghost pid: nat) returns (keys: Result<seq<SigningKey>, Refusal>, ghost asked: int)
      requires engine.Valid() && org in engine.world.tenants && pid !in engine.world.sys.procs
      modifies engine`clock, engine.world, engine.world.store, engine.cache
      ensures engine.Valid() && Grown(old(engine.world.sys), engine.world.sys) && asked >= old(engine.clock)
      ensures var cached := Cache.Lookup(old(engine.cache.items), CacheName(Slot(engine.node, org, app)), asked);
              if cached.Some? && cached.value != [] then keys == Ok(cached.value)
              else keys.Ok? ==> hasSource && ServedForAnHour(org, app, keys.value)
      ensures match keys
              case Ok(ks) => ks != [] && Serve(engine.world.sys, Slot(engine.node, org, app)) == Some(ks)
              case Err(e) => e == NoKeysAvailable && NothingToServe(old(engine.world.sys), org, app, old(engine.world.store.faults))
    {
      var slot := Slot(engine.node, org, app);
      var now := engine.Now();
      asked := now;
      var cached := engine.cache.Get(CacheName(slot), now);
      CachedIsServed(engine.cache.items, engine.world.sys, engine.world.tenants, slot, now);
      if cached.Some? && |cached.value| > 0 {
        return Ok(cached.value), asked;
      }
      if !hasSource {
        return Err(NoKeysAvailable), asked;
      }
      var loaded := LoadAndCache(slot, pid);
      return if loaded.Some? then Ok(loaded.value) else Err(NoKeysAvailable), asked;
    }

    method LoadAndCache(slot: Slot, ghost pid: nat) returns (keys: Option<seq<SigningKey>>)
      requires engine.Valid() && slot.node == engine.node && slot.org in engine.world.tenants && pid !in engine.world.sys.procs
      modifies engine`clock, engine.world, engine.world.store, engine.cache
      ensures engine.Valid() && Grown(old(engine.world.sys), engine.world.sys)
      ensures keys.Some? ==> keys.value != [] && Serve(engine.world.sys, slot) == keys && ServedForAnHour(slot.org, slot.app, keys.value)
      ensures keys.None? ==> NothingToServe(old(engine.world.sys), slot.org, slot.app, old(engine.world.store.faults))
    {
      ghost var list, load;
      keys, list, load := engine.SigningKeys(slot.org, slot.app, pid);
      if keys.None? || |keys.value| == 0 {
        if keys.Some? && load.complete {
          NothingWasInScope(old(engine.world.sys.published), engine.world.sys.published, list, slot.org, slot.app);
        }
        return None;
      }
      engine.BeginLoad(pid, slot, false, list, load);
      engine.Yield(pid, None);
      var now := engine.Now();
      ghost var s := engine.world.sys;
      engine.world.Step(Adopt(pid));
      engine.Adopted(slot, keys.value, s, s.procs[pid].load);
    }

    /** Every verdict is the verifier's on the keys served; `made` is every signature made so far. */
    method Validate(org: string, app: string, token: string, opts: Options, made: set<Signed>, ghost pid: nat)
      returns (verdict: Result<AuthClaims, Refusal>, now: int)
      requires engine.Valid() && org in engine.world.tenants && pid !in engine.world.sys.procs
      modifies engine`clock, engine.world, engine.world.store, engine.cache
      ensures engine.Valid() && Grown(old(engine.world.sys), engine.world.sys)
      ensures now == engine.clock
      ensures match verdict
              case Err(NoKeysAvailable) => NothingToServe(old(engine.world.sys), org, app, old(engine.world.store.faults))
              case Err(MissingExpectation) => false
              case Err(BadToken(e)) =>
                var served := Serve(engine.world.sys, Slot(engine.node, org, app));
                served.Some? && Verify(made, token, served.value, VerifyOptions(opts.issuer, opts.audience, opts.tokenUse, 0), now) == Result.Err(e)
              case Ok(claims) =>
                var served := Serve(engine.world.sys, Slot(engine.node, org, app));
                served.Some? && Verify(made, token, served.value, VerifyOptions(opts.issuer, opts.audience, opts.tokenUse, 0), now) == Result.Ok(claims)
    {
      var keys, asked := KeysFor(org, app, pid);
      now := engine.clock;
      if keys.Err? {
        return Err(keys.error), now;
      }
      var r := VerifyJWTWithOptions(made, token, keys.value, opts.ForVerifier(), now);
      return if r.Ok? then Ok(r.value) else Err(BadToken(r.error)), now;
    }

    /**
     * The host's entry point. Everything it accepts for an organization is an access token or SVID this system minted for
     * that audience and for an organization of the same issuer.
     */
    method VerifyAccessToken(org: string, audience: string, token: string, made: set<Signed>, ghost pid: nat)
      returns (verdict: Result<AuthClaims, Refusal>)
      requires engine.Valid() && (org == "" || org in engine.world.tenants) && pid !in engine.world.sys.procs
      requires IdealEncoding() && made <= engine.world.sys.signed
      modifies engine`clock, engine.world, engine.world.store, engine.cache
      ensures engine.Valid()
      ensures verdict == Err(MissingExpectation) <==> org == "" || audience == ""
      ensures verdict == Err(NoKeysAvailable) ==> NothingToServe(old(engine.world.sys), org, "", old(engine.world.store.faults))
      ensures verdict.Ok? ==>
                exists m :: && m in engine.world.sys.minted && IssuerOf(m.slot.org) == IssuerOf(org) && !m.request.Identity?
                            && verdict.value == Received(m.Claims()) && verdict.value.organizationID == m.slot.org
                            && AudienceContains(verdict.value.audience, audience)
    {
      if org == "" || audience == "" {
        return Err(MissingExpectation);
      }
      var now: int;
      var opts := Options(IssuerOf(org), audience, TOKEN_USE_ACCESS);
      verdict, now := Validate(org, "", token, opts, made, pid);
      if verdict.Ok? {
        engine.world.Ran();
        ghost var keys := Serve(engine.world.sys, Slot(engine.node, org, "")).value;
        VerifyAccessTokenSeparates(engine.world.sys, made, org, audience, token, keys, now);
      }
    }
  }
}
