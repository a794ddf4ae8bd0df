/**
 * Signing keys, the caches in front of them, and the tokens signed with them, as a state machine over any number of
 * nodes: resolveSigningKey and SigningKeys in pkg/idp/idp_engine.go, keysFor in pkg/auth/jwt.go.
 */
module KeyRing {
  import opened Wrappers
  import opened Text
  import opened Models
  import opened Jwt
  import opened KeySets
  import opened Storage
  import opened Minting

  const KEY_TTL: int := HOUR

  // The deployment's issuer policy, installed at construction: a base URL and perhaps a resolver of its own.
  const ISSUER_BASE_URL: string
  const ISSUER_RESOLVER: Option<string -> string>

  /** Each organization's fixed issuer. */
  function IssuerOf(org: string): string {
    IssuerFor(ISSUER_BASE_URL, ISSUER_RESOLVER, org)
  }

  /** A stored key record and the organization whose prefix it is stored under. */
  datatype Published = Published(org: string, key: SigningKey)

  datatype Slot = Slot(node: nat, org: string, app: string)

  /** A cached key set; what it was loaded from is remembered for the proofs only. */
  datatype Entry = Entry(keys: seq<SigningKey>, filledAt: int, loaded: Load)

  /** A read of the key records: how many existed when it began, and whether every record could be read. */
  datatype Load = Load(asOf: nat, complete: bool)

  datatype KProc =
    | Loaded(slot: Slot, forSigning: bool, keys: seq<SigningKey>, load: Load)
    | Created(slot: Slot, key: SigningKey, load: Load)
    | Retrying(slot: Slot)
    | Resolved(slot: Slot, key: SigningKey)
    | Ended

  /** What is to be signed. */
  datatype Request =
    | Access(base: AuthClaims, application: Application, scope: string, jti: string)
    | Identity(base: AuthClaims, application: Application, nonce: string, jti: string)
    | Workload(spiffeID: string, audience: string, workloadID: string, scope: string, notBeforeAt: int, jti: string)

  function ClaimsOf(org: string, r: Request, at: int): AuthClaims {
    match r
    case Access(base, application, scope, jti) => AccessClaims(base, application, IssuerOf(org), scope, at, jti)
    case Identity(base, application, nonce, jti) => IdClaims(base, application, IssuerOf(org), nonce, at, jti)
    case Workload(spiffeID, audience, workloadID, scope, notBeforeAt, jti) =>
      SvidClaims(spiffeID, IssuerOf(org), audience, org, workloadID, scope, jti, notBeforeAt, at)
  }

  datatype Minted = Minted(slot: Slot, key: SigningKey, request: Request, at: int)
  {
    function Claims(): AuthClaims {
      ClaimsOf(slot.org, request, at)
    }

    function Signed(): Option<SignedToken> {
      SignJWT(Claims(), key.privateKey, key.kid)
    }
  }

  datatype KSys = KSys(
    published: seq<Published>,
    caches: map<Slot, Entry>,
    clocks: map<nat, int>,
    procs: map<nat, KProc>,
    signed: set<Signed>,
    minted: seq<Minted>)

  const Init := KSys([], map[], map[], map[], {}, [])

  function ClockOf(s: KSys, node: nat): int {
    if node in s.clocks then s.clocks[node] else 0
  }

  // --- what a load returns ---

  predicate InScope(p: Published, org: string, app: string) {
    p.org == org && ServesApp(p.key, app)
  }

  ghost predicate IsStored(published: seq<Published>, org: string, app: string, k: SigningKey) {
    exists p :: p in published && InScope(p, org, app) && p.key == k
  }

  /** Every in-scope key among the first n published is in the list, or its public half is. */
  ghost predicate Covers(keys: seq<SigningKey>, published: seq<Published>, n: nat, org: string, app: string) {
    forall i | 0 <= i < n && i < |published| && InScope(published[i], org, app) ::
      published[i].key in keys || published[i].key.Public() in keys
  }

  /**
   * A List of an organization's key records, read one by one while others go on publishing: in any order, only its own, and
   * all of them that were among the first n published, those there were when it began, unless one could not be read.
   */
  ghost predicate ListedFrom(published: seq<Published>, n: nat, org: string, list: seq<KeyRecord>, complete: bool) {
    && (forall r | r in list && r.Some? :: exists p :: p in published && p.org == org && p.key == r.value)
    && (complete ==> forall i | 0 <= i < n && i < |published| && published[i].org == org :: Some(published[i].key) in list)
  }

  lemma LoadedKeys(published: seq<Published>, n: nat, org: string, app: string, list: seq<KeyRecord>, complete: bool)
    requires ListedFrom(published, n, org, list, complete)
    ensures forall k | k in Selected(list, app) :: IsStored(published, org, app, k)
    ensures complete ==> Covers(Selected(list, app), published, n, org, app)
  {
    forall k | k in Selected(list, app) ensures IsStored(published, org, app, k) {
      SelectedMembers(list, app, k);
      assert Some(k) in list;
    }
    if complete {
      forall i | 0 <= i < n && i < |published| && InScope(published[i], org, app) ensures published[i].key in Selected(list, app) {
        SelectedMembers(list, app, published[i].key);
      }
    }
  }

  /** What GenerateRSAKeyPair makes. */
  predicate Generated(k: SigningKey) {
    KeyPair(k) && k.kid != "" && k.algorithm == "RS256" && '/' !in k.id
  }

  /** What GenerateRSAKeyPair draws at random, and the key it makes of it for an application. */
  datatype KeyMaterial = KeyMaterial(id: string, kid: string, modulus: nat, createdAt: int)

  function Generate(m: KeyMaterial, appID: string): SigningKey {
    SigningKey(m.id, appID, "RS256", RSAPrivate(m.modulus), RSAPublic(m.modulus), m.kid, true, m.createdAt)
  }

  /** A new key takes over signing from the keys read with it exactly when every one of them that can sign is older. */
  lemma NewKeyTakesOver(keys: seq<SigningKey>, m: KeyMaterial, appID: string)
    requires forall k | k in keys :: k.id != m.id
    ensures NewestSigner(keys + [Generate(m, appID)]) == Some(Generate(m, appID)) <==>
              forall k | k in keys && k.active && k.privateKey != NoPrivateKey :: k.createdAt < m.createdAt
  {
    var k := Generate(m, appID);
    assert (keys + [k])[..|keys|] == keys;
    NewestSignerIsNewest(keys);
  }

  /** Nobody has stored a key under the names drawn. */
  predicate FreshMaterial(published: seq<Published>, m: KeyMaterial) {
    m.kid != "" && '/' !in m.id && FreshNames(published, Generate(m, ""))
  }

  /** A new key's names belong to no key stored before. */
  predicate FreshNames(published: seq<Published>, k: SigningKey) {
    forall i | 0 <= i < |published| ::
      && published[i].key.id != k.id && published[i].key.id != k.kid
      && published[i].key.kid != k.id && published[i].key.kid != k.kid
  }

  datatype Action =
    | Tick(node: nat, now: int)
    | Publish(org: string, key: SigningKey)
    | LoadKeys(pid: nat, slot: Slot, forSigning: bool, list: seq<KeyRecord>, load: Load)
    | Adopt(pid: nat)                              // cache what was loaded and, to sign, use its newest key
    | Create(pid: nat, key: SigningKey, fault: Fault)
    | Reload(pid: nat, list: seq<KeyRecord>, load: Load)
    | FillCreated(pid: nat)
    | UseCached(pid: nat, slot: Slot)
    | Mint(pid: nat, request: Request)
    | Invalidate(slot: Slot)

  function Serve(s: KSys, slot: Slot): Option<seq<SigningKey>> {
    if slot in s.caches && ClockOf(s, slot.node) <= s.caches[slot].filledAt + KEY_TTL then Some(s.caches[slot].keys) else None
  }

  predicate Mintable(slot: Slot, r: Request) {
    match r
    case Access(_, application, _, _) => application.organizationID == slot.org && application.id == slot.app
    case Identity(_, application, _, _) => application.organizationID == slot.org && application.id == slot.app
    case Workload(_, _, _, _, _, _) => slot.app == ""
  }

  ghost predicate Enabled(s: KSys, a: Action) {
    match a
    case Tick(node, now) => ClockOf(s, node) <= now
    case Publish(_, key) => Generated(key) && FreshNames(s.published, key)
    case LoadKeys(pid, slot, _, list, load) =>
      pid !in s.procs && load.asOf <= |s.published| && ListedFrom(s.published, load.asOf, slot.org, list, load.complete)
    case Adopt(pid) => pid in s.procs && s.procs[pid].Loaded?
    case Create(pid, key, _) =>
      && pid in s.procs && s.procs[pid].Loaded? && s.procs[pid].forSigning && NewestSigner(s.procs[pid].keys).None?
      && Generated(key) && key.active && key.appID == s.procs[pid].slot.app && FreshNames(s.published, key)
    case Reload(pid, list, load) =>
      && pid in s.procs && s.procs[pid].Retrying?
      && load.asOf <= |s.published| && ListedFrom(s.published, load.asOf, s.procs[pid].slot.org, list, load.complete)
    case FillCreated(pid) => pid in s.procs && s.procs[pid].Created?
    case UseCached(pid, slot) => pid !in s.procs
    case Mint(pid, r) => pid in s.procs && s.procs[pid].Resolved? && Mintable(s.procs[pid].slot, r)
    case Invalidate(_) => true
  }

  function Fill(s: KSys, slot: Slot, keys: seq<SigningKey>, load: Load): KSys {
    s.(caches := s.caches[slot := Entry(keys, ClockOf(s, slot.node), load)])
  }

  function DoAdopt(s: KSys, pid: nat, slot: Slot, forSigning: bool, keys: seq<SigningKey>, load: Load): KSys {
    if forSigning then
      if NewestSigner(keys).None? then s
      else Fill(s, slot, keys, load).(procs := s.procs[pid := Resolved(slot, NewestSigner(keys).value)])
    else if keys == [] then s.(procs := s.procs[pid := Ended])
    else Fill(s, slot, PublicKeys(keys), load).(procs := s.procs[pid := Ended])
  }

  ghost function Apply(s: KSys, a: Action): KSys
    requires Enabled(s, a)
  {
    match a
    case Tick(node, now) => s.(clocks := s.clocks[node := now])
    case Publish(org, key) => s.(published := s.published + [Published(org, key)])
    case LoadKeys(pid, slot, forSigning, list, load) =>
      s.(procs := s.procs[pid := Loaded(slot, forSigning, Selected(list, slot.app), load)])
    case Adopt(pid) =>
      var p := s.procs[pid];
      DoAdopt(s, pid, p.slot, p.forSigning, p.keys, p.load)
    case Create(pid, key, fault) =>
      var p := s.procs[pid];
      var s' := if fault.LostRequest? then s else s.(published := s.published + [Published(p.slot.org, key)]);
      s'.(procs := s.procs[pid := if fault.NoFault? then Created(p.slot, key, p.load) else Retrying(p.slot)])
    case Reload(pid, list, load) =>
      var keys := Selected(list, s.procs[pid].slot.app);
      if NewestSigner(keys).Some? then DoAdopt(s, pid, s.procs[pid].slot, true, keys, load)
      else s.(procs := s.procs[pid := Ended])
    case FillCreated(pid) =>
      var p := s.procs[pid];
      Fill(s, p.slot, [p.key], p.load).(procs := s.procs[pid := Resolved(p.slot, p.key)])
    case UseCached(pid, slot) =>
      var served := Serve(s, slot);
      if served.Some? && NewestSigner(served.value).Some? then s.(procs := s.procs[pid := Resolved(slot, NewestSigner(served.value).value)])
      else s.(procs := s.procs[pid := Ended])
    case Mint(pid, r) =>
      var p := s.procs[pid];
      var m := Minted(p.slot, p.key, r, ClockOf(s, p.slot.node));
      if m.Signed().None? then s else s.(signed := s.signed + {m.Signed().value.signed}, minted := s.minted + [m])
    case Invalidate(slot) => s.(caches := s.caches - {slot})
  }

  ghost predicate Run(s: KSys, acts: seq<Action>, s': KSys)
    decreases |acts|
  {
    if acts == [] then s == s' else Enabled(s, acts[0]) && Run(Apply(s, acts[0]), acts[1..], s')
  }

  // --- invariant ---

  ghost predicate PublishedOk(published: seq<Published>) {
    && (forall p | p in published :: Generated(p.key))
    && (forall i, j, name | 0 <= i < j < |published| && Named(published[i].key, name) && Named(published[j].key, name) :: false)
  }

  predicate Named(k: SigningKey, name: string) {
    k.kid == name || k.id == name
  }

  /** A cached key is a stored one, whole or without its private half. */
  ghost predicate CachedFrom(published: seq<Published>, org: string, app: string, k: SigningKey) {
    exists p :: p in published && InScope(p, org, app) && (k == p.key || k == p.key.Public())
  }

  ghost predicate EntryOk(published: seq<Published>, clock: int, slot: Slot, e: Entry) {
    && (forall k | k in e.keys :: CachedFrom(published, slot.org, slot.app, k))
    && e.loaded.asOf <= |published|
    && (e.loaded.complete ==> Covers(e.keys, published, e.loaded.asOf, slot.org, slot.app))
    && e.filledAt <= clock
  }

  ghost predicate CachesOk(s: KSys) {
    forall slot {:trigger s.caches[slot]} | slot in s.caches :: EntryOk(s.published, ClockOf(s, slot.node), slot, s.caches[slot])
  }

  ghost predicate KProcOk(published: seq<Published>, p: KProc) {
    match p
    case Loaded(slot, _, keys, load) =>
      && (forall k | k in keys :: IsStored(published, slot.org, slot.app, k))
      && load.asOf <= |published|
      && (load.complete ==> Covers(keys, published, load.asOf, slot.org, slot.app))
    case Created(slot, key, load) =>
      && IsStored(published, slot.org, slot.app, key)
      && load.asOf <= |published|
      && (load.complete ==> Covers([key], published, load.asOf, slot.org, slot.app))
    case Resolved(slot, key) => IsStored(published, slot.org, slot.app, key)
    case _ => true
  }

  ghost predicate KProcsOk(s: KSys) {
    forall pid {:trigger KProcOk(s.published, s.procs[pid])} | pid in s.procs :: KProcOk(s.published, s.procs[pid])
  }

  ghost predicate MintedOk(published: seq<Published>, signed: set<Signed>, m: Minted) {
    && IsStored(published, m.slot.org, m.slot.app, m.key)
    && Mintable(m.slot, m.request)
    && m.Signed().Some? && m.Signed().value.signed in signed
  }

  ghost predicate AllMintedOk(s: KSys) {
    && (forall m {:trigger MintedOk(s.published, s.signed, m)} | m in s.minted :: MintedOk(s.published, s.signed, m))
    && (forall g | g in s.signed :: exists m :: m in s.minted && m.Signed().Some? && m.Signed().value.signed == g)
  }

  ghost predicate Inv(s: KSys) {
    PublishedOk(s.published) && CachesOk(s) && KProcsOk(s) && AllMintedOk(s)
  }

  lemma InitInv()
    ensures Inv(Init)
  {
  }

  // --- publishing only adds ---

  lemma StoredStaysStored(published: seq<Published>, p: Published, org: string, app: string, k: SigningKey)
    requires IsStored(published, org, app, k)
    ensures IsStored(published + [p], org, app, k)
  {
    var q :| q in published && InScope(q, org, app) && q.key == k;
    assert q in published + [p];
  }

  lemma CachedStaysCached(published: seq<Published>, p: Published, org: string, app: string, k: SigningKey)
    requires CachedFrom(published, org, app, k)
    ensures CachedFrom(published + [p], org, app, k)
  {
    var q :| q in published && InScope(q, org, app) && (k == q.key || k == q.key.Public());
    assert q in published + [p];
  }

  lemma PublishKeepsEntries(s: KSys, p: Published)
    requires CachesOk(s)
    ensures CachesOk(s.(published := s.published + [p]))
  {
    forall slot | slot in s.caches ensures EntryOk(s.published + [p], ClockOf(s, slot.node), slot, s.caches[slot]) {
      forall k | k in s.caches[slot].keys ensures CachedFrom(s.published + [p], slot.org, slot.app, k) {
        CachedStaysCached(s.published, p, slot.org, slot.app, k);
      }
    }
  }

  lemma PublishKeepsProc(published: seq<Published>, p: Published, q: KProc)
    requires KProcOk(published, q)
    ensures KProcOk(published + [p], q)
  {
    match q
    case Loaded(slot, _, keys, _) =>
      forall k | k in keys ensures IsStored(published + [p], slot.org, slot.app, k) {
        StoredStaysStored(published, p, slot.org, slot.app, k);
      }
    case Created(slot, key, _) => StoredStaysStored(published, p, slot.org, slot.app, key);
    case Resolved(slot, key) => StoredStaysStored(published, p, slot.org, slot.app, key);
    case _ =>
  }

  lemma PublishKeepsNames(published: seq<Published>, p: Published)
    requires PublishedOk(published) && Generated(p.key) && FreshNames(published, p.key)
    ensures PublishedOk(published + [p])
  {
  }

  lemma PublishKeepsInv(s: KSys, p: Published)
    requires Inv(s) && Generated(p.key) && FreshNames(s.published, p.key)
    ensures Inv(s.(published := s.published + [p]))
  {
    var s' := s.(published := s.published + [p]);
    PublishKeepsNames(s.published, p);
    PublishKeepsEntries(s, p);
    forall pid | pid in s.procs ensures KProcOk(s'.published, s.procs[pid]) {
      PublishKeepsProc(s.published, p, s.procs[pid]);
    }
    forall m | m in s.minted ensures MintedOk(s'.published, s.signed, m) {
      assert MintedOk(s.published, s.signed, m);
      StoredStaysStored(s.published, p, m.slot.org, m.slot.app, m.key);
    }
  }

  // --- moving requests and filling caches ---

  lemma MoveKeepsInv(s: KSys, pid: nat, q: KProc)
    requires Inv(s) && KProcOk(s.published, q)
    ensures Inv(s.(procs := s.procs[pid := q]))
  {
    var s' := s.(procs := s.procs[pid := q]);
    forall x | x in s'.procs ensures KProcOk(s'.published, s'.procs[x]) {
      if x != pid {
        assert KProcOk(s.published, s.procs[x]);
      }
    }
  }

  lemma FillKeepsInv(s: KSys, slot: Slot, keys: seq<SigningKey>, load: Load)
    requires Inv(s) && EntryOk(s.published, ClockOf(s, slot.node), slot, Entry(keys, ClockOf(s, slot.node), load))
    ensures Inv(Fill(s, slot, keys, load))
  {
  }

  lemma LoadedEntry(published: seq<Published>, slot: Slot, keys: seq<SigningKey>, load: Load, clock: int)
    requires forall k | k in keys :: IsStored(published, slot.org, slot.app, k)
    requires load.asOf <= |published| && (load.complete ==> Covers(keys, published, load.asOf, slot.org, slot.app))
    ensures EntryOk(published, clock, slot, Entry(keys, clock, load))
    ensures EntryOk(published, clock, slot, Entry(PublicKeys(keys), clock, load))
  {
    forall k | k in keys ensures CachedFrom(published, slot.org, slot.app, k) && CachedFrom(published, slot.org, slot.app, k.Public()) {
      assert IsStored(published, slot.org, slot.app, k);
    }
    forall k | k in PublicKeys(keys) ensures CachedFrom(published, slot.org, slot.app, k) {
      var i :| 0 <= i < |keys| && PublicKeys(keys)[i] == k;
      assert keys[i] in keys;
    }
    if load.complete {
      forall i | 0 <= i < load.asOf && i < |published| && InScope(published[i], slot.org, slot.app)
        ensures published[i].key.Public() in PublicKeys(keys)
      {
        var k := if published[i].key in keys then published[i].key else published[i].key.Public();
        var j :| 0 <= j < |keys| && keys[j] == k;
        assert PublicKeys(keys)[j] == published[i].key.Public();
      }
    }
  }

  lemma AdoptKeepsInv(s: KSys, pid: nat, slot: Slot, forSigning: bool, keys: seq<SigningKey>, load: Load)
    requires Inv(s) && KProcOk(s.published, Loaded(slot, forSigning, keys, load))
    ensures Inv(DoAdopt(s, pid, slot, forSigning, keys, load))
  {
    LoadedEntry(s.published, slot, keys, load, ClockOf(s, slot.node));
    NewestSignerIsNewest(keys);
    if forSigning {
      if NewestSigner(keys).Some? {
        FillKeepsInv(s, slot, keys, load);
        MoveKeepsInv(Fill(s, slot, keys, load), pid, Resolved(slot, NewestSigner(keys).value));
      }
    } else if keys == [] {
      MoveKeepsInv(s, pid, Ended);
    } else {
      FillKeepsInv(s, slot, PublicKeys(keys), load);
      MoveKeepsInv(Fill(s, slot, PublicKeys(keys), load), pid, Ended);
    }
  }

  /** A list of stored keys that covers an in-scope key has a key to sign with. */
  lemma CoveredMeansSignable(published: seq<Published>, slot: Slot, keys: seq<SigningKey>, n: nat, i: nat)
    requires PublishedOk(published) && Covers(keys, published, n, slot.org, slot.app)
    requires forall k | k in keys :: IsStored(published, slot.org, slot.app, k)
    requires i < n && i < |published| && InScope(published[i], slot.org, slot.app)
    ensures NewestSigner(keys).Some?
  {
    NewestSignerIsNewest(keys);
    var k := if published[i].key in keys then published[i].key else published[i].key.Public();
    assert IsStored(published, slot.org, slot.app, k);
    assert k in keys && k.CanSign();
  }

  lemma CreateKeepsInv(s: KSys, a: Action)
    requires Inv(s) && a.Create? && Enabled(s, a)
    ensures Inv(Apply(s, a))
  {
    var p := s.procs[a.pid];
    assert KProcOk(s.published, p);
    if a.fault.LostRequest? {
      MoveKeepsInv(s, a.pid, Retrying(p.slot));
    } else {
      var rec := Published(p.slot.org, a.key);
      var s1 := s.(published := s.published + [rec]);
      PublishKeepsInv(s, rec);
      if p.load.complete {
        forall i | 0 <= i < p.load.asOf ensures !InScope(s1.published[i], p.slot.org, p.slot.app) {
          if InScope(s.published[i], p.slot.org, p.slot.app) {
            CoveredMeansSignable(s.published, p.slot, p.keys, p.load.asOf, i);
          }
        }
      }
      assert rec in s1.published;
      MoveKeepsInv(s1, a.pid, if a.fault.NoFault? then Created(p.slot, a.key, p.load) else Retrying(p.slot));
    }
  }

  lemma CachedSignerIsStored(s: KSys, slot: Slot)
    requires Inv(s) && slot in s.caches && NewestSigner(s.caches[slot].keys).Some?
    ensures IsStored(s.published, slot.org, slot.app, NewestSigner(s.caches[slot].keys).value)
  {
    NewestSignerIsNewest(s.caches[slot].keys);
    var k := NewestSigner(s.caches[slot].keys).value;
    assert EntryOk(s.published, ClockOf(s, slot.node), slot, s.caches[slot]);
    assert CachedFrom(s.published, slot.org, slot.app, k);
  }

  lemma MintKeepsInv(s: KSys, a: Action)
    requires Inv(s) && a.Mint? && Enabled(s, a)
    ensures Inv(Apply(s, a))
  {
    var s' := Apply(s, a);
    var p := s.procs[a.pid];
    var m := Minted(p.slot, p.key, a.request, ClockOf(s, p.slot.node));
    assert KProcOk(s.published, p);
    if m.Signed().Some? {
      forall x | x in s'.minted ensures MintedOk(s'.published, s'.signed, x) {
        if x != m {
          assert MintedOk(s.published, s.signed, x);
        }
      }
      forall g | g in s'.signed ensures exists x :: x in s'.minted && x.Signed().Some? && x.Signed().value.signed == g {
        if g in s.signed {
          var x :| x in s.minted && x.Signed().Some? && x.Signed().value.signed == g;
          assert x in s'.minted;
        } else {
          assert m in s'.minted;
        }
      }
    }
  }

  lemma TickKeepsInv(s: KSys, node: nat, now: int)
    requires Inv(s) && ClockOf(s, node) <= now
    ensures Inv(s.(clocks := s.clocks[node := now]))
  {
    var s' := s.(clocks := s.clocks[node := now]);
    forall slot | slot in s'.caches ensures EntryOk(s'.published, ClockOf(s', slot.node), slot, s'.caches[slot]) {
      assert EntryOk(s.published, ClockOf(s, slot.node), slot, s.caches[slot]);
    }
  }

  lemma InvalidateKeepsInv(s: KSys, slot: Slot)
    requires Inv(s)
    ensures Inv(s.(caches := s.caches - {slot}))
  {
    var s' := s.(caches := s.caches - {slot});
    forall x | x in s'.caches ensures EntryOk(s'.published, ClockOf(s', x.node), x, s'.caches[x]) {
      assert EntryOk(s.published, ClockOf(s, x.node), x, s.caches[x]);
    }
  }

  lemma FillCreatedKeepsInv(s: KSys, pid: nat)
    requires Inv(s) && Enabled(s, FillCreated(pid))
    ensures Inv(Apply(s, FillCreated(pid)))
  {
    var p := s.procs[pid];
    assert KProcOk(s.published, p);
    LoadedEntry(s.published, p.slot, [p.key], p.load, ClockOf(s, p.slot.node));
    FillKeepsInv(s, p.slot, [p.key], p.load);
    MoveKeepsInv(Fill(s, p.slot, [p.key], p.load), pid, Resolved(p.slot, p.key));
  }

  lemma StepKeepsInv(s: KSys, a: Action)
    requires Inv(s) && Enabled(s, a)
    ensures Inv(Apply(s, a))
  {
    match a
    case Tick(node, now) => TickKeepsInv(s, node, now);
    case Publish(org, key) => PublishKeepsInv(s, Published(org, key));
    case LoadKeys(pid, slot, forSigning, list, load) =>
      LoadedKeys(s.published, load.asOf, slot.org, slot.app, list, load.complete);
      MoveKeepsInv(s, pid, Loaded(slot, forSigning, Selected(list, slot.app), load));
    case Adopt(pid) =>
      assert KProcOk(s.published, s.procs[pid]);
      AdoptKeepsInv(s, pid, s.procs[pid].slot, s.procs[pid].forSigning, s.procs[pid].keys, s.procs[pid].load);
    case Create(_, _, _) => CreateKeepsInv(s, a);
    case Reload(pid, list, load) =>
      LoadedKeys(s.published, load.asOf, s.procs[pid].slot.org, s.procs[pid].slot.app, list, load.complete);
      MoveKeepsInv(s, pid, Ended);
      AdoptKeepsInv(s, pid, s.procs[pid].slot, true, Selected(list, s.procs[pid].slot.app), load);
    case FillCreated(pid) => FillCreatedKeepsInv(s, pid);
    case UseCached(pid, slot) =>
      MoveKeepsInv(s, pid, Ended);
      if slot in s.caches && NewestSigner(s.caches[slot].keys).Some? {
        CachedSignerIsStored(s, slot);
        MoveKeepsInv(s, pid, Resolved(slot, NewestSigner(s.caches[slot].keys).value));
      }
    case Mint(_, _) => MintKeepsInv(s, a);
    case Invalidate(slot) => InvalidateKeepsInv(s, slot);
  }

  lemma {:induction false} RunKeepsInv(s: KSys, acts: seq<Action>, s': KSys)
    requires Inv(s) && Run(s, acts, s')
    ensures Inv(s')
    decreases |acts|
  {
    if acts != [] {
      StepKeepsInv(s, acts[0]);
      RunKeepsInv(Apply(s, acts[0]), acts[1..], s');
    }
  }

  ghost predicate Reachable(s: KSys) {
    exists acts :: Run(Init, acts, s)
  }

  lemma ReachableInv(s: KSys)
    requires Reachable(s)
    ensures Inv(s)
  {
    var acts :| Run(Init, acts, s);
    InitInv();
    RunKeepsInv(Init, acts, s);
  }
}
