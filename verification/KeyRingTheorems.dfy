/** What the signing keys, their caches and the tokens signed with them guarantee in every reachable state and run. */
module KeyRingTheorems {
  import opened Wrappers
  import opened Text
  import opened Models
  import opened Jwt
  import opened Minting
  import opened KeySets
  import opened Storage
  import opened KeyRing

  // --- key sets drawn from the store ---

  /** Keys a verifier may hold: stored ones, whole or without their private halves. */
  ghost predicate DrawnFrom(published: seq<Published>, org: string, app: string, keys: seq<SigningKey>) {
    forall k | k in keys :: CachedFrom(published, org, app, k)
  }

  lemma NamesIdentify(published: seq<Published>, p: Published, q: Published, name: string)
    requires PublishedOk(published) && p in published && q in published && Named(p.key, name) && Named(q.key, name)
    ensures p == q
  {
    var i :| 0 <= i < |published| && published[i] == p;
    var j :| 0 <= j < |published| && published[j] == q;
  }

  lemma DrawnPublicly(published: seq<Published>, org: string, app: string, keys: seq<SigningKey>)
    requires DrawnFrom(published, org, app, keys)
    ensures forall k | k in PublicKeys(keys) :: exists p :: p in published && InScope(p, org, app) && k == p.key.Public()
  {
    forall k | k in PublicKeys(keys) ensures exists p :: p in published && InScope(p, org, app) && k == p.key.Public() {
      var i :| 0 <= i < |keys| && PublicKeys(keys)[i] == k;
      assert CachedFrom(published, org, app, keys[i]);
    }
  }

  lemma DrawnNamesAreUnique(published: seq<Published>, org: string, app: string, keys: seq<SigningKey>)
    requires PublishedOk(published) && DrawnFrom(published, org, app, keys)
    ensures UniqueNames(PublicKeys(keys))
  {
    DrawnPublicly(published, org, app, keys);
    forall j, k, name | j in PublicKeys(keys) && k in PublicKeys(keys) && Names(j, name) && Names(k, name) ensures j == k {
      var p :| p in published && j == p.key.Public();
      var q :| q in published && k == q.key.Public();
      assert Named(p.key.Public(), name) && Named(q.key.Public(), name);
      NamesIdentify(published, p, q, name);
    }
  }

  lemma CoveredPublicly(keys: seq<SigningKey>, p: Published)
    requires p.key in keys || p.key.Public() in keys
    ensures p.key.Public() in PublicKeys(keys)
  {
    var k := if p.key in keys then p.key else p.key.Public();
    var i :| 0 <= i < |keys| && keys[i] == k;
    assert PublicKeys(keys)[i] == p.key.Public();
  }

  /** Keys that cover everything in scope up to some point include, in their public halves, every key drawn before it. */
  lemma CoversDrawn(published: seq<Published>, later: seq<Published>, n: nat, org: string, app: string, some: seq<SigningKey>, all: seq<SigningKey>)
    requires DrawnFrom(published, org, app, some) && published <= later && |published| <= n && Covers(all, later, n, org, app)
    ensures forall k | k in PublicKeys(some) :: k in PublicKeys(all)
  {
    DrawnPublicly(published, org, app, some);
    forall k | k in PublicKeys(some) ensures k in PublicKeys(all) {
      var p :| p in published && InScope(p, org, app) && k == p.key.Public();
      var i :| 0 <= i < |published| && published[i] == p;
      assert later[i] == p;
      CoveredPublicly(all, p);
    }
  }

  // --- the validator's cache ---

  /**
   * What a node serves from its cache was filled at most one hour before by its own clock, is stored and in scope, and,
   * if every record could be read when it was loaded, lacks no in-scope key published before that load began.
   */
  lemma ServedKeysAreRecent(s: KSys, slot: Slot)
    requires Reachable(s) && Serve(s, slot).Some?
    ensures slot in s.caches && Serve(s, slot) == Some(s.caches[slot].keys)
    ensures var e := s.caches[slot];
            && e.filledAt <= ClockOf(s, slot.node) <= e.filledAt + HOUR
            && DrawnFrom(s.published, slot.org, slot.app, e.keys)
            && e.loaded.asOf <= |s.published|
            && (e.loaded.complete ==> Covers(e.keys, s.published, e.loaded.asOf, slot.org, slot.app))
  {
    ReachableInv(s);
    assert EntryOk(s.published, ClockOf(s, slot.node), slot, s.caches[slot]);
  }

  /**
   * The cache is one-sidedly sound: whatever a node accepts from cached keys, the keys read from the store by any load that
   * begins now or later accept too, with the same claims, whatever is published meanwhile.
   */
  lemma StoreAcceptsWhatCacheAccepts(s: KSys, slot: Slot, acts: seq<Action>, s': KSys, n: nat, list: seq<KeyRecord>, token: string,
                                     opts: VerifyOptions, now: int, made: set<Signed>)
    requires Reachable(s) && Serve(s, slot).Some? && Run(s, acts, s')
    requires |s.published| <= n <= |s'.published| && ListedFrom(s'.published, n, slot.org, list, true)
    requires Verify(made, token, Serve(s, slot).value, opts, now).Ok?
    ensures Verify(made, token, PublicKeys(Selected(list, slot.app)), opts, now) == Verify(made, token, Serve(s, slot).value, opts, now)
  {
    ServedKeysAreRecent(s, slot);
    var cached, stored := Serve(s, slot).value, Selected(list, slot.app);
    ReachableInv(s);
    RunKeepsInv(s, acts, s');
    RunOnlyAdds(s, acts, s');
    LoadedKeys(s'.published, n, slot.org, slot.app, list, true);
    CoversDrawn(s.published, s'.published, n, slot.org, slot.app, cached, stored);
    StoredIsDrawn(s'.published, slot.org, slot.app, stored);
    DrawnNamesAreUnique(s'.published, slot.org, slot.app, stored);
    PublicHalvesSuffice(made, token, cached, opts, now);
    MoreKeysStillAccept(made, token, PublicKeys(cached), PublicKeys(stored), opts, now);
  }

  lemma StoredIsDrawn(published: seq<Published>, org: string, app: string, keys: seq<SigningKey>)
    requires forall k | k in keys :: IsStored(published, org, app, k)
    ensures DrawnFrom(published, org, app, keys)
  {
    forall k | k in keys ensures CachedFrom(published, org, app, k) {
      assert IsStored(published, org, app, k);
    }
  }

  lemma StepOnlyAdds(s: KSys, a: Action)
    requires Enabled(s, a)
    ensures var s' := Apply(s, a); s.published <= s'.published && s.signed <= s'.signed && s.minted <= s'.minted
  {
  }

  /** Over any run, key records are only added, and signatures and tokens once made stay made. */
  lemma {:induction false} RunOnlyAdds(s: KSys, acts: seq<Action>, s': KSys)
    requires Run(s, acts, s')
    ensures s.published <= s'.published && s.signed <= s'.signed && s.minted <= s'.minted
    decreases |acts|
  {
    if acts != [] {
      StepOnlyAdds(s, acts[0]);
      RunOnlyAdds(Apply(s, acts[0]), acts[1..], s');
    }
  }

  // --- mint, then verify ---

  /** The key a token was signed with was stored, active and in scope of the token's application when it was signed, and ever after. */
  lemma SignedWithStoredKey(s: KSys, m: Minted, acts: seq<Action>, s': KSys)
    requires Reachable(s) && m in s.minted && Run(s, acts, s')
    ensures IsStored(s'.published, m.slot.org, m.slot.app, m.key) && Generated(m.key) && m.key.active
    ensures m in s'.minted && m.Signed().Some? && m.Signed().value.signed in s'.signed
  {
    ReachableInv(s);
    RunKeepsInv(s, acts, s');
    RunOnlyAdds(s, acts, s');
    assert m in s'.minted;
    assert MintedOk(s'.published, s'.signed, m);
  }

  /** The verdict on a minted token, given keys that include its own. */
  lemma VerdictWithKey(s: KSys, m: Minted, app: string, keys: seq<SigningKey>, opts: VerifyOptions, now: int)
    requires IdealEncoding() && Inv(s) && m in s.minted && DrawnFrom(s.published, m.slot.org, app, keys)
    requires m.key in keys || m.key.Public() in keys
    ensures m.Signed().Some?
    ensures var r := Verify(s.signed, m.Signed().value.token, keys, opts, now);
            && (r.Ok? <==> InTime(m.Claims(), opts, now) && Expected(m.Claims(), opts))
            && (r.Ok? ==> r.value == Received(m.Claims()))
  {
    assert MintedOk(s.published, s.signed, m);
    CoveredPublicly(keys, Published(m.slot.org, m.key));
    DrawnNamesAreUnique(s.published, m.slot.org, app, keys);
    PublicHalvesSuffice(s.signed, m.Signed().value.token, keys, opts, now);
    MintedTokenVerdict(s.signed, m.Claims(), m.key, PublicKeys(keys), opts, now);
  }

  /**
   * Mint, then verify: against the keys SigningKeys reads for the token's application or for its whole organization, in any
   * load that begins at any later point, the token is accepted exactly when the verifier's clock and expectations fit its
   * claims, and then yields the claims it was minted with.
   */
  lemma MintedThenVerified(s: KSys, m: Minted, acts: seq<Action>, s': KSys, n: nat, app: string, list: seq<KeyRecord>, opts: VerifyOptions, now: int)
    requires IdealEncoding() && Reachable(s) && m in s.minted && Run(s, acts, s') && |s.published| <= n <= |s'.published|
    requires (app == m.slot.app || app == "") && ListedFrom(s'.published, n, m.slot.org, list, true)
    ensures m.Signed().Some?
    ensures var r := Verify(s'.signed, m.Signed().value.token, PublicKeys(Selected(list, app)), opts, now);
            && (r.Ok? <==> InTime(m.Claims(), opts, now) && Expected(m.Claims(), opts))
            && (r.Ok? ==> r.value == Received(m.Claims()))
  {
    SignedWithStoredKey(s, m, acts, s');
    ReachableInv(s);
    RunKeepsInv(s, acts, s');
    var keys := Selected(list, app);
    LoadedKeys(s'.published, n, m.slot.org, app, list, true);
    StoredIsDrawn(s'.published, m.slot.org, app, keys);
    SignedWithStoredKey(s, m, [], s);
    RunOnlyAdds(s, acts, s');
    StoredKeyIsCovered(s.published, s'.published, n, m, app, keys);
    VerdictWithKey(s', m, app, keys, opts, now);
    PublicHalvesSuffice(s'.signed, m.Signed().value.token, keys, opts, now);
  }

  lemma StoredKeyIsCovered(published: seq<Published>, later: seq<Published>, n: nat, m: Minted, app: string, keys: seq<SigningKey>)
    requires IsStored(published, m.slot.org, m.slot.app, m.key) && (app == m.slot.app || app == "")
    requires published <= later && |published| <= n && Covers(keys, later, n, m.slot.org, app)
    ensures m.key in keys || m.key.Public() in keys
  {
    var p :| p in published && InScope(p, m.slot.org, m.slot.app) && p.key == m.key;
    var i :| 0 <= i < |published| && published[i] == p;
    assert InScope(later[i], m.slot.org, app);
  }

  /** A cached set loaded without read faults already verifies every token whose key was published before that load. */
  lemma CacheVerifiesOlderKeys(s: KSys, slot: Slot, m: Minted, i: nat, opts: VerifyOptions, now: int)
    requires IdealEncoding() && Reachable(s) && m in s.minted && Serve(s, slot).Some?
    requires slot.org == m.slot.org && (slot.app == m.slot.app || slot.app == "")
    requires s.caches[slot].loaded.complete && i < s.caches[slot].loaded.asOf && i < |s.published|
    requires s.published[i] == Published(m.slot.org, m.key)
    ensures m.Signed().Some?
    ensures Verify(s.signed, m.Signed().value.token, Serve(s, slot).value, opts, now).Ok?
       <==> InTime(m.Claims(), opts, now) && Expected(m.Claims(), opts)
  {
    ServedKeysAreRecent(s, slot);
    ReachableInv(s);
    assert MintedOk(s.published, s.signed, m);
    assert InScope(s.published[i], slot.org, slot.app);
    VerdictWithKey(s, m, slot.app, Serve(s, slot).value, opts, now);
  }

  /**
   * A JWKS built from the records of a later listing, for the token's application or for its whole organization, has an
   * entry under the token's kid with the modulus it was signed with.
   */
  lemma JWKSNamesSigner(s: KSys, m: Minted, acts: seq<Action>, s': KSys, n: nat, app: string, list: seq<KeyRecord>, jwks: seq<JWK>)
    requires Reachable(s) && m in s.minted && Run(s, acts, s') && |s.published| <= n <= |s'.published|
    requires (app == m.slot.app || app == "") && ListedFrom(s'.published, n, m.slot.org, list, true)
    requires forall j :: j in jwks <==> exists k :: k in Selected(list, app) && IsPublishable(k) && j == JWK(k.kid, k.publicKey.modulus)
    ensures m.key.privateKey.RSAPrivate? && JWK(m.key.kid, m.key.privateKey.modulus) in jwks
    ensures forall j | j in jwks && j.kid == m.key.kid :: j.modulus == m.key.privateKey.modulus
  {
    SignedWithStoredKey(s, m, acts, s');
    ReachableInv(s);
    RunKeepsInv(s, acts, s');
    var keys := Selected(list, app);
    LoadedKeys(s'.published, n, m.slot.org, app, list, true);
    SignedWithStoredKey(s, m, [], s);
    RunOnlyAdds(s, acts, s');
    StoredKeyIsCovered(s.published, s'.published, n, m, app, keys);
    var p :| p in s'.published && p.key == m.key;
    PublicCopiesAreNotStored(s'.published, m.slot.org, app, keys, m.key);
    assert IsPublishable(m.key);
    forall j | j in jwks && j.kid == m.key.kid ensures j.modulus == m.key.privateKey.modulus {
      var k :| k in keys && IsPublishable(k) && j == JWK(k.kid, k.publicKey.modulus);
      assert IsStored(s'.published, m.slot.org, app, k);
      var q :| q in s'.published && q.key == k;
      NamesIdentify(s'.published, p, q, m.key.kid);
    }
  }

  lemma PublicCopiesAreNotStored(published: seq<Published>, org: string, app: string, keys: seq<SigningKey>, key: SigningKey)
    requires PublishedOk(published) && (key in keys || key.Public() in keys)
    requires forall k | k in keys :: IsStored(published, org, app, k)
    ensures key in keys
  {
    var k := if key in keys then key else key.Public();
    assert IsStored(published, org, app, k);
    assert Generated(k);
  }

  // --- how many keys an organization gets ---

  /** A request that read every record goes on to create a key only if none in scope was stored when its read began. */
  lemma CreatesOnlyWithoutKey(s: KSys, pid: nat, key: SigningKey, fault: Fault, i: nat)
    requires Reachable(s) && Enabled(s, Create(pid, key, fault)) && s.procs[pid].load.complete
    requires i < s.procs[pid].load.asOf && i < |s.published|
    ensures !InScope(s.published[i], s.procs[pid].slot.org, s.procs[pid].slot.app)
  {
    ReachableInv(s);
    var p := s.procs[pid];
    assert KProcOk(s.published, p);
    if InScope(s.published[i], p.slot.org, p.slot.app) {
      CoveredMeansSignable(s.published, p.slot, p.keys, p.load.asOf, i);
    }
  }

  /** Whenever the request reads keys, it is for this slot, no earlier than when n were stored, and it can read every record. */
  predicate ReadsAll(acts: seq<Action>, pid: nat, slot: Slot, n: nat) {
    forall i | 0 <= i < |acts| && acts[i].LoadKeys? && acts[i].pid == pid ::
      acts[i].slot == slot && acts[i].load.complete && n <= acts[i].load.asOf
  }

  predicate HasReadAll(s: KSys, pid: nat, slot: Slot, n: nat) {
    pid in s.procs && s.procs[pid].Loaded? ==> s.procs[pid].slot == slot && s.procs[pid].load.complete && n <= s.procs[pid].load.asOf
  }

  predicate Creates(acts: seq<Action>, pid: nat, key: SigningKey) {
    Create(pid, key, NoFault) in acts
  }

  lemma StepHasReadAll(s: KSys, a: Action, pid: nat, slot: Slot, n: nat)
    requires Enabled(s, a) && HasReadAll(s, pid, slot, n) && ReadsAll([a], pid, slot, n)
    ensures HasReadAll(Apply(s, a), pid, slot, n)
  {
    assert [a][0] == a;
  }

  /** Over any run: with a key in scope stored, nobody who reads all records from then on creates another. */
  lemma {:induction false} StoredKeyIsNotDoubled(s: KSys, acts: seq<Action>, s': KSys, pid: nat, slot: Slot, key: SigningKey, n: nat, i: nat)
    requires Reachable(s) && Run(s, acts, s') && HasReadAll(s, pid, slot, n) && ReadsAll(acts, pid, slot, n)
    requires i < n && i < |s.published| && InScope(s.published[i], slot.org, slot.app)
    ensures !Creates(acts, pid, key)
    decreases |acts|
  {
    if acts != [] {
      var t := Apply(s, acts[0]);
      if acts[0] == Create(pid, key, NoFault) {
        CreatesOnlyWithoutKey(s, pid, key, NoFault, i);
      }
      assert acts == [acts[0]] + acts[1..];
      StepHasReadAll(s, acts[0], pid, slot, n);
      StepOnlyAdds(s, acts[0]);
      StepReachable(s, acts[0]);
      StoredKeyIsNotDoubled(t, acts[1..], s', pid, slot, key, n, i);
    }
  }

  lemma StepReachable(s: KSys, a: Action)
    requires Reachable(s) && Enabled(s, a)
    ensures Reachable(Apply(s, a))
  {
    var acts :| Run(Init, acts, s);
    assert [a][1..] == [];
    assert Run(s, [a], Apply(s, a));
    RunsJoin(Init, acts, s, [a], Apply(s, a));
  }

  /** A run in which both requests, reading every record, create a key of their own, keep it stored, and go on to sign with it. */
  ghost predicate BothGetOwnKey(s: KSys, acts: seq<Action>, s': KSys, p: nat, q: nat, slot: Slot, rival: Slot, mine: SigningKey, theirs: SigningKey) {
    && Run(s, acts, s') && ReadsAll(acts, p, slot, |s.published|) && ReadsAll(acts, q, rival, |s.published|)
    && Creates(acts, p, mine) && Creates(acts, q, theirs)
    && p in s'.procs && s'.procs[p] == Resolved(slot, mine) && IsStored(s'.published, slot.org, slot.app, mine)
    && q in s'.procs && s'.procs[q] == Resolved(rival, theirs) && IsStored(s'.published, rival.org, rival.app, theirs)
  }

  /**
   * The create-only write does not arbitrate between nodes, since each writes under its own new key's name. Two requests
   * that can read every record may both create a signing key for the same organization and application exactly when no
   * active key of the organization serves that application yet.
   */
  lemma TwoKeysIff(s: KSys, p: nat, q: nat, org: string, app: string, node: nat, other: nat, j: KeyMaterial, k: KeyMaterial)
    requires Reachable(s) && p !in s.procs && q !in s.procs && p != q
    requires FreshMaterial(s.published, j) && FreshMaterial(s.published, k)
    requires j.id != k.id && j.id != k.kid && j.kid != k.id && j.kid != k.kid
    ensures (exists acts, s' :: BothGetOwnKey(s, acts, s', p, q, Slot(node, org, app), Slot(other, org, app), Generate(j, app), Generate(k, app)))
       <==> forall x | x in s.published :: !InScope(x, org, app)
  {
    var slot, rival, mine, theirs := Slot(node, org, app), Slot(other, org, app), Generate(j, app), Generate(k, app);
    if forall x | x in s.published :: !InScope(x, org, app) {
      var acts, filled := Race(s, p, q, slot, rival, mine, theirs);
    } else {
      var x :| x in s.published && InScope(x, org, app);
      var i :| 0 <= i < |s.published| && s.published[i] == x;
      forall acts, s' ensures !BothGetOwnKey(s, acts, s', p, q, slot, rival, mine, theirs) {
        if BothGetOwnKey(s, acts, s', p, q, slot, rival, mine, theirs) {
          StoredKeyIsNotDoubled(s, acts, s', p, slot, mine, |s.published|, i);
        }
      }
    }
  }

  /**
   * Nor does it help that a key is stored already, when the records cannot be read: they are left out without an error, and
   * then one request alone creates another key and signs with it, whatever is stored.
   */
  lemma UnreadableRecordsDoubleTheKey(s: KSys, p: nat, slot: Slot, j: KeyMaterial)
    requires p !in s.procs && FreshMaterial(s.published, j)
    ensures exists acts, s' ::
              && Run(s, acts, s') && Creates(acts, p, Generate(j, slot.app))
              && p in s'.procs && s'.procs[p] == Resolved(slot, Generate(j, slot.app))
              && s'.published == s.published + [Published(slot.org, Generate(j, slot.app))]
  {
    var load, key := Load(|s.published|, false), Generate(j, slot.app);
    var loading, creating, filling := LoadKeys(p, slot, true, [], load), Create(p, key, NoFault), FillCreated(p);
    TwoSteps(s, loading, creating);
    var stored := Apply(Apply(s, loading), creating);
    assert [filling][1..] == [];
    assert Run(stored, [filling], Apply(stored, filling));
    RunsJoin(s, [loading, creating], stored, [filling], Apply(stored, filling));
    assert ([loading, creating] + [filling])[1] == creating;
  }

  /** The records of an organization, all of them read. */
  function OwnRecords(published: seq<Published>, org: string): seq<KeyRecord> {
    if published == [] then []
    else
      var front, last := OwnRecords(published[..|published| - 1], org), published[|published| - 1];
      if last.org == org then front + [Some(last.key)] else front
  }

  lemma {:induction false} OwnRecordsMembers(published: seq<Published>, org: string, r: KeyRecord)
    ensures r in OwnRecords(published, org) <==> r.Some? && Published(org, r.value) in published
  {
    if published != [] {
      var front, last := published[..|published| - 1], published[|published| - 1];
      OwnRecordsMembers(front, org, r);
      assert published == front + [last];
    }
  }

  lemma NothingToSelect(published: seq<Published>, org: string, app: string)
    requires forall x | x in published :: !InScope(x, org, app)
    ensures Selected(OwnRecords(published, org), app) == []
    ensures ListedFrom(published, |published|, org, OwnRecords(published, org), true)
  {
    var list := OwnRecords(published, org);
    forall r ensures r in list <==> r.Some? && Published(org, r.value) in published {
      OwnRecordsMembers(published, org, r);
    }
    if Selected(list, app) != [] {
      var k := Selected(list, app)[0];
      SelectedMembers(list, app, k);
      assert Some(k) in list;
      assert InScope(Published(org, k), org, app);
      assert false;
    }
    forall r | r in list && r.Some? ensures exists p :: p in published && p.org == org && p.key == r.value {
      assert Published(org, r.value) in published;
    }
    forall i | 0 <= i < |published| && published[i].org == org ensures Some(published[i].key) in list {
      assert Published(org, Some(published[i].key).value) == published[i];
    }
  }

  lemma Race(s: KSys, p: nat, q: nat, slot: Slot, rival: Slot, mine: SigningKey, theirs: SigningKey) returns (acts: seq<Action>, filled: KSys)
    requires p !in s.procs && q !in s.procs && p != q && slot.org == rival.org && slot.app == rival.app
    requires forall x | x in s.published :: !InScope(x, slot.org, slot.app)
    requires Generated(mine) && mine.active && mine.appID == slot.app && FreshNames(s.published, mine)
    requires Generated(theirs) && theirs.active && theirs.appID == rival.app && FreshNames(s.published + [Published(slot.org, mine)], theirs)
    ensures BothGetOwnKey(s, acts, filled, p, q, slot, rival, mine, theirs)
  {
    var load, list := Load(|s.published|, true), OwnRecords(s.published, slot.org);
    NothingToSelect(s.published, slot.org, slot.app);
    filled := RaceRuns(s, p, q, slot, rival, list, load, mine, theirs);
    acts := RaceActions(p, q, slot, rival, list, load, mine, theirs);
    RaceReadsAll(p, q, slot, rival, list, load, mine, theirs);
    LastTwoStored(s.published, slot.org, slot.app, mine, theirs);
  }

  function RaceActions(p: nat, q: nat, slot: Slot, rival: Slot, list: seq<KeyRecord>, load: Load, mine: SigningKey, theirs: SigningKey): seq<Action> {
    [LoadKeys(p, slot, true, list, load), LoadKeys(q, rival, true, list, load)] +
    ([Create(p, mine, NoFault), Create(q, theirs, NoFault)] + [FillCreated(p), FillCreated(q)])
  }

  lemma RaceReadsAll(p: nat, q: nat, slot: Slot, rival: Slot, list: seq<KeyRecord>, load: Load, mine: SigningKey, theirs: SigningKey)
    requires p != q && load.complete
    ensures var acts := RaceActions(p, q, slot, rival, list, load, mine, theirs);
            && ReadsAll(acts, p, slot, load.asOf) && ReadsAll(acts, q, rival, load.asOf) && Creates(acts, p, mine) && Creates(acts, q, theirs)
  {
    var acts := RaceActions(p, q, slot, rival, list, load, mine, theirs);
    assert |acts| == 6 && acts[0] == LoadKeys(p, slot, true, list, load) && acts[1] == LoadKeys(q, rival, true, list, load);
    assert acts[2] == Create(p, mine, NoFault) && acts[3] == Create(q, theirs, NoFault) && acts[4] == FillCreated(p) && acts[5] == FillCreated(q);
  }

  lemma RaceRuns(s: KSys, p: nat, q: nat, slot: Slot, rival: Slot, list: seq<KeyRecord>, load: Load, mine: SigningKey, theirs: SigningKey)
    returns (filled: KSys)
    requires p !in s.procs && q !in s.procs && p != q && slot.org == rival.org && slot.app == rival.app && load == Load(|s.published|, true)
    requires ListedFrom(s.published, |s.published|, slot.org, list, true) && Selected(list, slot.app) == []
    requires Generated(mine) && mine.active && mine.appID == slot.app && FreshNames(s.published, mine)
    requires Generated(theirs) && theirs.active && theirs.appID == rival.app && FreshNames(s.published + [Published(slot.org, mine)], theirs)
    ensures Run(s, RaceActions(p, q, slot, rival, list, load, mine, theirs), filled)
    ensures filled.published == s.published + [Published(slot.org, mine)] + [Published(rival.org, theirs)]
    ensures p in filled.procs && filled.procs[p] == Resolved(slot, mine) && q in filled.procs && filled.procs[q] == Resolved(rival, theirs)
  {
    var both := BothLoad(s, p, q, slot, rival, list, load);
    var stored := BothCreate(s, both, p, q, slot, rival, load, mine, theirs);
    filled := BothFill(stored, p, q, slot, rival, load, mine, theirs);
    var loads := [LoadKeys(p, slot, true, list, load), LoadKeys(q, rival, true, list, load)];
    var creates, fills := [Create(p, mine, NoFault), Create(q, theirs, NoFault)], [FillCreated(p), FillCreated(q)];
    RunsJoin(both, creates, stored, fills, filled);
    RunsJoin(s, loads, both, creates + fills, filled);
  }

  lemma LastTwoStored(published: seq<Published>, org: string, app: string, mine: SigningKey, theirs: SigningKey)
    requires ServesApp(mine, app) && ServesApp(theirs, app)
    ensures IsStored(published + [Published(org, mine)] + [Published(org, theirs)], org, app, mine)
    ensures IsStored(published + [Published(org, mine)] + [Published(org, theirs)], org, app, theirs)
  {
    var all := published + [Published(org, mine)] + [Published(org, theirs)];
    assert all[|published|] == Published(org, mine) && all[|published| + 1] == Published(org, theirs);
  }

  lemma BothFill(stored: KSys, p: nat, q: nat, slot: Slot, rival: Slot, load: Load, mine: SigningKey, theirs: SigningKey) returns (filled: KSys)
    requires p != q && p in stored.procs && stored.procs[p] == Created(slot, mine, load)
    requires q in stored.procs && stored.procs[q] == Created(rival, theirs, load)
    ensures Run(stored, [FillCreated(p), FillCreated(q)], filled) && filled.published == stored.published
    ensures filled.procs == stored.procs[p := Resolved(slot, mine)][q := Resolved(rival, theirs)]
  {
    TwoSteps(stored, FillCreated(p), FillCreated(q));
    filled := Apply(Apply(stored, FillCreated(p)), FillCreated(q));
  }

  lemma BothLoad(s: KSys, p: nat, q: nat, slot: Slot, rival: Slot, list: seq<KeyRecord>, load: Load) returns (both: KSys)
    requires p !in s.procs && q !in s.procs && p != q && slot.org == rival.org && slot.app == rival.app && load == Load(|s.published|, true)
    requires ListedFrom(s.published, |s.published|, slot.org, list, true) && Selected(list, slot.app) == []
    ensures Run(s, [LoadKeys(p, slot, true, list, load), LoadKeys(q, rival, true, list, load)], both)
    ensures both == s.(procs := s.procs[p := Loaded(slot, true, [], load)][q := Loaded(rival, true, [], load)])
  {
    TwoSteps(s, LoadKeys(p, slot, true, list, load), LoadKeys(q, rival, true, list, load));
    both := Apply(Apply(s, LoadKeys(p, slot, true, list, load)), LoadKeys(q, rival, true, list, load));
  }

  lemma BothCreate(s: KSys, both: KSys, p: nat, q: nat, slot: Slot, rival: Slot, load: Load, mine: SigningKey, theirs: SigningKey) returns (stored: KSys)
    requires p != q && both == s.(procs := s.procs[p := Loaded(slot, true, [], load)][q := Loaded(rival, true, [], load)])
    requires Generated(mine) && mine.active && mine.appID == slot.app && FreshNames(s.published, mine)
    requires Generated(theirs) && theirs.active && theirs.appID == rival.app && FreshNames(s.published + [Published(slot.org, mine)], theirs)
    ensures Run(both, [Create(p, mine, NoFault), Create(q, theirs, NoFault)], stored)
    ensures stored == both.(published := s.published + [Published(slot.org, mine)] + [Published(rival.org, theirs)],
                            procs := both.procs[p := Created(slot, mine, load)][q := Created(rival, theirs, load)])
  {
    TwoSteps(both, Create(p, mine, NoFault), Create(q, theirs, NoFault));
    stored := Apply(Apply(both, Create(p, mine, NoFault)), Create(q, theirs, NoFault));
  }

  lemma TwoSteps(s: KSys, a: Action, b: Action)
    requires Enabled(s, a) && Enabled(Apply(s, a), b)
    ensures Run(s, [a, b], Apply(Apply(s, a), b))
  {
    assert [a, b][1..] == [b];
    assert Run(Apply(s, a), [b], Apply(Apply(s, a), b));
  }

  lemma {:induction false} RunsJoin(s: KSys, a: seq<Action>, t: KSys, b: seq<Action>, u: KSys)
    requires Run(s, a, t) && Run(t, b, u)
    ensures Run(s, a + b, u)
    decreases |a|
  {
    if a == [] {
      assert a + b == b;
    } else {
      RunsJoin(Apply(s, a[0]), a[1..], t, b, u);
      assert (a + b)[1..] == a[1..] + b;
    }
  }

  // --- nothing else is accepted ---

  /** Whatever a verifier accepts, with whatever keys, is a token's claims exactly as this system minted them. */
  lemma AcceptedWasMinted(s: KSys, made: set<Signed>, token: string, keys: seq<SigningKey>, opts: VerifyOptions, now: int)
    requires IdealEncoding() && Reachable(s) && made <= s.signed && Verify(made, token, keys, opts, now).Ok?
    ensures exists m :: m in s.minted && Verify(made, token, keys, opts, now).value == Received(m.Claims())
                        && InTime(m.Claims(), opts, now) && Expected(m.Claims(), opts)
  {
    ReachableInv(s);
    AcceptedWasSigned(made, token, keys, opts, now);
    var parts := Split(token, '.');
    var g :| g in made && g.input == parts[0] + "." + parts[1];
    var m :| m in s.minted && m.Signed().Some? && m.Signed().value.signed == g;
    assert parts[0] in parts;
    var d :| DecodeClaims(parts[1]) == Some(d) && UnmarshalClaims(d) == Some(Verify(made, token, keys, opts, now).value);
    SignedInputIsClaims(m.Claims(), m.key.kid, parts[0], parts[1]);
    ValidIffInTimeAndExpected(m.Claims(), opts, now);
  }

  /** No organization's issuer is blank, whatever the resolver. */
  lemma IssuersAreNamed(org: string)
    ensures IssuerOf(org) != ""
  {
    assert |DefaultIssuerFor(ISSUER_BASE_URL, org)| >= |"/organizations/"|;
  }

  /**
   * VerifyAccessToken: all it ever accepts for an organization are access tokens and SVIDs minted for that audience and for
   * an organization of the same issuer, which is that very organization when issuers differ; never an ID token, whatever
   * keys tenants share.
   */
  lemma VerifyAccessTokenSeparates(s: KSys, made: set<Signed>, org: string, audience: string, token: string, keys: seq<SigningKey>, now: int)
    requires IdealEncoding() && Reachable(s) && made <= s.signed && audience != ""
    requires Verify(made, token, keys, VerifyOptions(IssuerOf(org), audience, TOKEN_USE_ACCESS, 0), now).Ok?
    ensures var c := Verify(made, token, keys, VerifyOptions(IssuerOf(org), audience, TOKEN_USE_ACCESS, 0), now).value;
            exists m :: && m in s.minted && IssuerOf(m.slot.org) == IssuerOf(org) && !m.request.Identity?
                        && c == Received(m.Claims()) && c.organizationID == m.slot.org && AudienceContains(c.audience, audience)
  {
    var opts := VerifyOptions(IssuerOf(org), audience, TOKEN_USE_ACCESS, 0);
    ReachableInv(s);
    IssuersAreNamed(org);
    AcceptedWasMinted(s, made, token, keys, opts, now);
    var m :| m in s.minted && Verify(made, token, keys, opts, now).value == Received(m.Claims()) && Expected(m.Claims(), opts);
    assert MintedOk(s.published, s.signed, m);
    assert m.Claims().issuer == IssuerOf(m.slot.org);
    assert AudienceContains(m.Claims().audience, audience) <==> AudienceContains(Received(m.Claims()).audience, audience);
  }
}
