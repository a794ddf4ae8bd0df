/**
 * The key half of IDPEngine (resolveSigningKey, SigningKeys in pkg/idp/idp_engine.go) on a shared store and a node's
 * cache, every access accounted for as a step of the key machine.
 */
module KeyService {
  import opened Wrappers
  import opened Text
  import opened Models
  import opened Storage
  import opened Jwt
  import opened KeySets
  import opened KeyRing
  import opened KeyRingTheorems
  import Cache
  import Keys

  function RecordName(org: string, id: string): string {
    Keys.KeyPairKey(org, id).Render()
  }

  function CacheName(slot: Slot): string {
    Keys.CacheKey(slot.org, Keys.KeysArea, slot.app).Render()
  }

  // --- store and machine ---

  /** The stored key records are the published keys, filed by organization and id; some may not parse. */
  ghost predicate Backed(records: map<string, Versioned<KeyRecord>>, published: seq<Published>, tenants: set<string>) {
    && (forall p | p in published ::
          p.org in tenants && RecordName(p.org, p.key.id) in records && records[RecordName(p.org, p.key.id)].data == Some(p.key))
    && (forall n | n in records :: exists org, id :: Files(records[n].data, n, org, id, published, tenants))
  }

  ghost predicate Files(r: KeyRecord, name: string, org: string, id: string, published: seq<Published>, tenants: set<string>) {
    && org in tenants && '/' !in id && name == RecordName(org, id)
    && (r.Some? ==> r.value.id == id && Published(org, r.value) in published)
  }

  lemma PublishBacks(records: map<string, Versioned<KeyRecord>>, published: seq<Published>, tenants: set<string>, org: string, key: SigningKey,
                     version: string)
    requires Backed(records, published, tenants) && org in tenants && '/' !in key.id && RecordName(org, key.id) !in records
    ensures Backed(records[RecordName(org, key.id) := Versioned(version, Some(key))], published + [Published(org, key)], tenants)
  {
    var more, all := records[RecordName(org, key.id) := Versioned(version, Some(key))], published + [Published(org, key)];
    assert Published(org, key) in all;
    forall n | n in more ensures exists o, id :: Files(more[n].data, n, o, id, all, tenants) {
      if n == RecordName(org, key.id) {
        assert Files(more[n].data, n, org, key.id, all, tenants);
      } else {
        var o, id :| Files(records[n].data, n, o, id, published, tenants);
        assert Files(more[n].data, n, o, id, all, tenants);
      }
    }
  }

  /** A record under an organization's prefix is one of its own published keys, if it parses. */
  lemma ListedRecord(records: map<string, Versioned<KeyRecord>>, published: seq<Published>, tenants: set<string>, org: string, name: string)
    requires Keys.KeysApart(tenants) && Backed(records, published, tenants) && org in tenants
    requires name in records && HasPrefix(name, Keys.SigningKeyPrefix(org))
    ensures records[name].data.Some? ==> Published(org, records[name].data.value) in published
  {
    var o, id :| Files(records[name].data, name, o, id, published, tenants);
    assert Keys.KeysApartFrom(org, o);
    Keys.KeyListedIff(org, o, id);
  }

  /** Every key an organization has published is under its prefix, and stays there. */
  lemma PublishedIsListed(records: map<string, Versioned<KeyRecord>>, published: seq<Published>, tenants: set<string>, p: Published)
    requires Backed(records, published, tenants) && p in published
    ensures var name := RecordName(p.org, p.key.id);
            name in records && HasPrefix(name, Keys.SigningKeyPrefix(p.org)) && records[name].data == Some(p.key)
  {
    Keys.KeyPairIsListed(p.org, p.key.id);
  }

  // --- reading an organization's records one by one ---

  ghost predicate OnlyPublished(published: seq<Published>, org: string, found: seq<KeyRecord>) {
    forall r | r in found && r.Some? :: Published(org, r.value) in published
  }

  /** Every key the organization had published before is found already or is still to be read. */
  ghost predicate Pending(published: seq<Published>, org: string, found: seq<KeyRecord>, todo: set<string>) {
    forall p | p in published && p.org == org :: Some(p.key) in found || RecordName(org, p.key.id) in todo
  }

  lemma ListingStarts(records: map<string, Versioned<KeyRecord>>, published: seq<Published>, tenants: set<string>, org: string, names: set<string>)
    requires Backed(records, published, tenants)
    requires forall n :: n in names <==> n in records && HasPrefix(n, Keys.SigningKeyPrefix(org))
    ensures Pending(published, org, [], names)
  {
    forall p | p in published && p.org == org ensures RecordName(org, p.key.id) in names {
      PublishedIsListed(records, published, tenants, p);
    }
  }

  /** What a record read under a name may say: nothing, or the key published under it. */
  ghost predicate Answers(published: seq<Published>, org: string, name: string, r: KeyRecord) {
    && (r.Some? ==> Published(org, r.value) in published)
    && (forall p | p in published && p.org == org && RecordName(org, p.key.id) == name :: r == Some(p.key))
  }

  lemma ReadAnswers(records: map<string, Versioned<KeyRecord>>, published: seq<Published>, tenants: set<string>, org: string, name: string)
    requires Keys.KeysApart(tenants) && Backed(records, published, tenants) && org in tenants
    requires name in records && HasPrefix(name, Keys.SigningKeyPrefix(org))
    ensures Answers(published, org, name, records[name].data)
  {
    ListedRecord(records, published, tenants, org, name);
    forall p | p in published && p.org == org && RecordName(org, p.key.id) == name ensures records[name].data == Some(p.key) {
    }
  }

  ghost predicate NobodyPublished(published: seq<Published>, org: string, name: string) {
    forall p | p in published && p.org == org :: RecordName(org, p.key.id) != name
  }

  lemma UnfiledIsUnpublished(records: map<string, Versioned<KeyRecord>>, published: seq<Published>, tenants: set<string>, org: string, name: string)
    requires Backed(records, published, tenants) && name !in records
    ensures NobodyPublished(published, org, name)
  {
  }

  lemma ReadOne(before: seq<Published>, published: seq<Published>, org: string, found: seq<KeyRecord>, todo: set<string>, name: string, r: KeyRecord)
    requires before <= published && Pending(before, org, found, todo)
    requires forall p | p in published && p.org == org && RecordName(org, p.key.id) == name :: r == Some(p.key)
    ensures Pending(before, org, found + [r], todo - {name})
  {
    forall p | p in before && p.org == org ensures Some(p.key) in found + [r] || RecordName(org, p.key.id) in todo - {name} {
      assert p in published;
      assert (found + [r])[|found|] == r;
    }
  }

  /** Nothing published, signed or minted is ever taken back. */
  predicate Grown(s: KSys, t: KSys) {
    s.published <= t.published && s.signed <= t.signed && s.minted <= t.minted
  }

  /** The token was signed, as this entry of the machine's log says. */
  ghost predicate MintedAs(s: KSys, m: Minted, token: string) {
    m in s.minted && m.Signed().Some? && m.Signed().value.token == token
  }

  ghost predicate LinkAt(trace: seq<KeyRing.Action>, states: seq<KSys>, i: nat)
    requires i < |trace| && i + 1 < |states|
  {
    Run(states[i], [trace[i]], states[i + 1])
  }

  /** The states a schedule leads through, from the initial one on. */
  ghost predicate Linked(trace: seq<KeyRing.Action>, states: seq<KSys>) {
    |states| == |trace| + 1 && states[0] == Init && forall i {:trigger LinkAt(trace, states, i)} | 0 <= i < |trace| :: LinkAt(trace, states, i)
  }

  /** The store and, as ghosts, the tenants there may ever be, the key machine's state, its schedule and the states that led through. */
  class KeyWorld {
    const store: JayDBStorage<string, KeyRecord>
    ghost const tenants: set<string>
    ghost var sys: KSys
    ghost var trace: seq<KeyRing.Action>
    ghost var states: seq<KSys>

    constructor (ghost tenants: set<string>)
      requires Keys.KeysApart(tenants)
      ensures Valid() && fresh(store) && sys == Init && this.tenants == tenants
    {
      store := new JayDBStorage();
      this.tenants := tenants;
      sys, trace, states := Init, [], [Init];
    }

    ghost predicate Scheduled()
      reads this
    {
      Linked(trace, states) && sys == states[|trace|]
    }

    ghost predicate Valid()
      reads this, store`records
    {
      Scheduled() && Keys.KeysApart(tenants) && Backed(store.records, sys.published, tenants)
    }

    ghost method Step(a: KeyRing.Action)
      requires Scheduled() && Enabled(sys, a)
      modifies this
      ensures Scheduled() && sys == Apply(old(sys), a) && trace == old(trace) + [a]
      ensures Grown(old(sys), sys)
    {
      StepOnlyAdds(sys, a);
      LinksOn(trace, states, a);
      sys, trace, states := Apply(sys, a), trace + [a], states + [Apply(sys, a)];
    }

    /** The account is a run of the machine. */
    lemma Ran()
      requires Scheduled()
      ensures Run(Init, trace, sys)
    {
      LinkedRuns(trace, states);
    }
  }

  lemma {:induction false} LinkedRuns(trace: seq<KeyRing.Action>, states: seq<KSys>)
    requires Linked(trace, states)
    ensures Run(Init, trace, states[|trace|])
    decreases |trace|
  {
    if trace != [] {
      var n := |trace| - 1;
      var front, before := trace[..n], states[..n + 1];
      forall i | 0 <= i < n ensures LinkAt(front, before, i) {
        assert LinkAt(trace, states, i);
      }
      LinkedRuns(front, before);
      assert LinkAt(trace, states, n);
      RunsJoin(Init, front, states[n], [trace[n]], states[n + 1]);
      assert front + [trace[n]] == trace;
    }
  }

  lemma LinksOn(trace: seq<KeyRing.Action>, states: seq<KSys>, a: KeyRing.Action)
    requires Linked(trace, states) && Enabled(states[|trace|], a)
    ensures Linked(trace + [a], states + [Apply(states[|trace|], a)])
  {
    var more, on := trace + [a], states + [Apply(states[|trace|], a)];
    forall i | 0 <= i < |more| ensures LinkAt(more, on, i) {
      if i < |trace| {
        assert LinkAt(trace, states, i);
      } else {
        assert [a][1..] == [];
        assert Run(states[i], [a], on[i + 1]);
      }
    }
  }

  // --- the node ---

  /** Every cached key set is the machine's, expiring an hour after it was filled; the machine may remember more. */
  ghost predicate Mirrored(items: map<string, Cache.Item<seq<SigningKey>>>, s: KSys, node: nat, tenants: set<string>) {
    forall n | n in items :: exists slot :: Mirrors(items[n], n, s, node, slot) && slot.org in tenants
  }

  ghost predicate Mirrors(item: Cache.Item<seq<SigningKey>>, name: string, s: KSys, node: nat, slot: Slot) {
    && slot.node == node && name == CacheName(slot) && slot in s.caches
    && item.value == s.caches[slot].keys && item.expiresAt == Some(s.caches[slot].filledAt + KEY_TTL)
  }

  lemma MirroredSlot(items: map<string, Cache.Item<seq<SigningKey>>>, s: KSys, tenants: set<string>, slot: Slot)
    requires Keys.KeysApart(tenants) && Mirrored(items, s, slot.node, tenants) && slot.org in tenants && CacheName(slot) in items
    ensures Mirrors(items[CacheName(slot)], CacheName(slot), s, slot.node, slot)
  {
    var other :| Mirrors(items[CacheName(slot)], CacheName(slot), s, slot.node, other) && other.org in tenants;
    assert Keys.KeysApartFrom(slot.org, other.org);
    Keys.CacheKeysDetermine(slot.org, slot.app, other.org, other.app, Keys.KeysArea);
  }

  /** What the cache answers is what the machine serves. */
  lemma CachedIsServed(items: map<string, Cache.Item<seq<SigningKey>>>, s: KSys, tenants: set<string>, slot: Slot, now: int)
    requires Keys.KeysApart(tenants) && Mirrored(items, s, slot.node, tenants) && slot.org in tenants && ClockOf(s, slot.node) == now
    ensures Cache.Lookup(items, CacheName(slot), now).Some? ==> Serve(s, slot) == Cache.Lookup(items, CacheName(slot), now)
  {
    if CacheName(slot) in items {
      MirroredSlot(items, s, tenants, slot);
    }
  }

  lemma FillMirrors(items: map<string, Cache.Item<seq<SigningKey>>>, s: KSys, tenants: set<string>, slot: Slot, keys: seq<SigningKey>, load: Load,
                    procs: map<nat, KProc>)
    requires Mirrored(items, s, slot.node, tenants) && slot.org in tenants
    ensures Mirrored(Cache.WithItem(items, CacheName(slot), keys, KEY_TTL, ClockOf(s, slot.node)),
                     Fill(s, slot, keys, load).(procs := procs), slot.node, tenants)
  {
    var more := Cache.WithItem(items, CacheName(slot), keys, KEY_TTL, ClockOf(s, slot.node));
    var s' := Fill(s, slot, keys, load).(procs := procs);
    forall n | n in more ensures exists x :: Mirrors(more[n], n, s', slot.node, x) && x.org in tenants {
      if n == CacheName(slot) {
        assert Mirrors(more[n], n, s', slot.node, slot);
      } else {
        var x :| Mirrors(items[n], n, s, slot.node, x) && x.org in tenants;
        assert Mirrors(more[n], n, s', slot.node, x);
      }
    }
  }

  lemma SameCachesMirror(items: map<string, Cache.Item<seq<SigningKey>>>, s: KSys, s': KSys, node: nat, tenants: set<string>)
    requires Mirrored(items, s, node, tenants) && s'.caches == s.caches
    ensures Mirrored(items, s', node, tenants)
  {
    forall n | n in items ensures exists slot :: Mirrors(items[n], n, s', node, slot) && slot.org in tenants {
      var slot :| Mirrors(items[n], n, s, node, slot) && slot.org in tenants;
      assert Mirrors(items[n], n, s', node, slot);
    }
  }

  predicate SameRequest(s: KSys, t: KSys, pid: nat) {
    (pid in s.procs <==> pid in t.procs) && (pid in s.procs ==> s.procs[pid] == t.procs[pid])
  }

  class KeyEngine {
    const node: nat
    const world: KeyWorld
    const cache: Cache.MemoryCache<seq<SigningKey>>
    var clock: int

    ghost predicate Valid()
      reads this, world, world.store`records, cache
    {
      world.Valid() && clock == ClockOf(world.sys, node) && Mirrored(cache.items, world.sys, node, world.tenants)
    }

    constructor (node: nat, world: KeyWorld, cache: Cache.MemoryCache<seq<SigningKey>>, clock: int)
      requires world.Valid() && ClockOf(world.sys, node) == clock && cache.items == map[]
      ensures Valid() && this.node == node && this.world == world && this.cache == cache
    {
      this.node, this.world, this.cache, this.clock := node, world, cache, clock;
    }

    /** A node's clock does not run backwards. */
    method Now() returns (now: int)
      requires Valid()
      modifies this`clock, world
      ensures Valid() && now == clock >= old(clock)
      ensures world.sys == old(world.sys).(clocks := world.sys.clocks) && Grown(old(world.sys), world.sys)
    {
      var reading: int := *;
      if reading > clock {
        clock := reading;
      }
      ghost var s := world.sys;
      world.Step(Tick(node, clock));
      SameCachesMirror(cache.items, s, world.sys, node, world.tenants);
      return clock;
    }

    /**
     * What other requests may do between two accesses of this one: any run of the machine, on any node, that leaves this
     * request alone and does not use the key material this request still has in hand. Faults are counted per request.
     */
    method OthersRun(ghost pid: nat, ghost spare: Option<KeyMaterial>)
      requires Valid() && Spare(spare)
      modifies this`clock, world, world.store, cache
      ensures Valid() && Spare(spare) && SameRequest(old(world.sys), world.sys, pid) && world.store.faults == old(world.store.faults)
      ensures exists acts :: Run(old(world.sys), acts, world.sys)
    {
      assert Run(world.sys, [], world.sys);
    }

    ghost predicate Spare(spare: Option<KeyMaterial>)
      reads this, world, world.store`records
    {
      spare.Some? ==> Unused(spare.value)
    }

    /** No key published so far shares a name with what would be made of this, and no record is filed under it. */
    ghost predicate Unused(material: KeyMaterial)
      reads this, world, world.store`records
    {
      FreshMaterial(world.sys.published, material) && forall org :: RecordName(org, material.id) !in world.store.records
    }

    method Yield(ghost pid: nat, ghost spare: Option<KeyMaterial>)
      requires Valid() && Spare(spare)
      modifies this`clock, world, world.store, cache
      ensures Valid() && Spare(spare) && SameRequest(old(world.sys), world.sys, pid) && Grown(old(world.sys), world.sys)
      ensures world.store.faults == old(world.store.faults)
    {
      ghost var s := world.sys;
      OthersRun(pid, spare);
      ghost var acts :| Run(s, acts, world.sys);
      RunOnlyAdds(s, acts, world.sys);
    }

    /** One Get of that loop; a record may be gone by then, but no published one is. */
    method ReadRecord(org: string, name: string, ghost pid: nat, ghost spare: Option<KeyMaterial>) returns (rec: Option<KeyRecord>)
      requires Valid() && Spare(spare) && org in world.tenants && HasPrefix(name, Keys.SigningKeyPrefix(org))
      modifies this`clock, world, world.store, cache
      ensures Valid() && Spare(spare) && SameRequest(old(world.sys), world.sys, pid) && Grown(old(world.sys), world.sys)
      ensures world.store.faults >= old(world.store.faults)
      ensures match rec
              case Some(r) => Answers(world.sys.published, org, name, r)
              case None => world.store.faults > old(world.store.faults) || NobodyPublished(world.sys.published, org, name)
    {
      Yield(pid, spare);
      var got, fault := world.store.Get(name);
      if got.Err? {
        if fault.NoFault? {
          UnfiledIsUnpublished(world.store.records, world.sys.published, world.tenants, org, name);
        }
        return None;
      }
      ReadAnswers(world.store.records, world.sys.published, world.tenants, org, name);
      return Some(got.value.data);
    }

    /** One turn of that loop. */
    method ReadNext(org: string, name: string, found: seq<KeyRecord>, ghost todo: set<string>, ghost complete: bool,
                    ghost published: seq<Published>, ghost pid: nat, ghost spare: Option<KeyMaterial>)
      returns (more: seq<KeyRecord>, ghost still: bool)
      requires Valid() && Spare(spare) && org in world.tenants && HasPrefix(name, Keys.SigningKeyPrefix(org))
      requires published <= world.sys.published && OnlyPublished(world.sys.published, org, found)
      requires complete ==> Pending(published, org, found, todo)
      modifies this`clock, world, world.store, cache
      ensures Valid() && Spare(spare) && SameRequest(old(world.sys), world.sys, pid) && Grown(old(world.sys), world.sys)
      ensures OnlyPublished(world.sys.published, org, more) && (still ==> Pending(published, org, more, todo - {name}))
      ensures world.store.faults >= old(world.store.faults) && (complete && !still ==> world.store.faults > old(world.store.faults))
    {
      var rec := ReadRecord(org, name, pid, spare);
      if rec.None? {
        still := complete && world.store.faults == old(world.store.faults);
        return found, still;
      }
      if complete {
        ReadOne(published, world.sys.published, org, found, todo, name, rec.value);
      }
      return found + [rec.value], complete;
    }

    /**
     * List, then Get one by one, while others go on publishing; a record that cannot be read is left out without an error.
     * Only storage can keep the listing from working or from being complete.
     */
    method ListRecords(org: string, ghost pid: nat, ghost spare: Option<KeyMaterial>)
      returns (list: Option<seq<KeyRecord>>, ghost load: KeyRing.Load)
      requires Valid() && Spare(spare) && org in world.tenants
      modifies this`clock, world, world.store, cache
      ensures Valid() && Spare(spare) && SameRequest(old(world.sys), world.sys, pid) && Grown(old(world.sys), world.sys)
      ensures load.asOf == |old(world.sys.published)|
      ensures list.Some? ==> ListedFrom(world.sys.published, load.asOf, org, list.value, load.complete)
      ensures world.store.faults >= old(world.store.faults)
      ensures list.None? || !load.complete ==> world.store.faults > old(world.store.faults)
    {
      ghost var before := world.sys;
      ghost var complete := true;
      load := KeyRing.Load(|before.published|, false);
      var prefix := Keys.SigningKeyPrefix(org);
      var names := world.store.Names(n => HasPrefix(n, prefix));
      if names.Err? {
        return None, load;
      }
      ListingStarts(world.store.records, before.published, world.tenants, org, names.value);
      var found: seq<KeyRecord> := [];
      var todo := names.value;
      while todo != {}
        invariant Valid() && Spare(spare) && SameRequest(before, world.sys, pid) && Grown(before, world.sys)
        invariant forall n | n in todo :: HasPrefix(n, prefix)
        invariant OnlyPublished(world.sys.published, org, found)
        invariant complete ==> Pending(before.published, org, found, todo)
        invariant world.store.faults >= old(world.store.faults) && (!complete ==> world.store.faults > old(world.store.faults))
        decreases |todo|
      {
        var name :| name in todo;
        found, complete := ReadNext(org, name, found, todo, complete, before.published, pid, spare);
        todo := todo - {name};
      }
      load := KeyRing.Load(|before.published|, complete);
      list := Some(found);
    }

    /** loadSigningKeys. */
    method Load(org: string, app: string, ghost pid: nat, ghost spare: Option<KeyMaterial>)
      returns (keys: Option<seq<SigningKey>>, ghost list: seq<KeyRecord>, ghost load: KeyRing.Load)
      requires Valid() && Spare(spare) && org in world.tenants
      modifies this`clock, world, world.store, cache
      ensures Valid() && Spare(spare) && SameRequest(old(world.sys), world.sys, pid) && Grown(old(world.sys), world.sys)
      ensures load.asOf == |old(world.sys.published)|
      ensures keys.Some? ==> keys.value == Selected(list, app) && ListedFrom(world.sys.published, load.asOf, org, list, load.complete)
      ensures world.store.faults >= old(world.store.faults)
      ensures keys.None? || !load.complete ==> world.store.faults > old(world.store.faults)
    {
      var listed;
      listed, load := ListRecords(org, pid, spare);
      list := [];
      if listed.None? {
        return None, list, load;
      }
      list := listed.value;
      var selected := LoadSigningKeys(listed.value, app);
      keys := Some(selected);
    }

    /** SigningKeys: the keys of a tenant as verifiers get them. */
    method SigningKeys(org: string, app: string, ghost pid: nat)
      returns (keys: Option<seq<SigningKey>>, ghost list: seq<KeyRecord>, ghost load: KeyRing.Load)
      requires Valid() && org in world.tenants
      modifies this`clock, world, world.store, cache
      ensures Valid() && SameRequest(old(world.sys), world.sys, pid) && Grown(old(world.sys), world.sys)
      ensures load.asOf == |old(world.sys.published)|
      ensures keys.Some? ==> keys.value == PublicKeys(Selected(list, app)) && ListedFrom(world.sys.published, load.asOf, org, list, load.complete)
      ensures keys.Some? ==> forall k | k in keys.value :: k.privateKey == NoPrivateKey
      ensures world.store.faults >= old(world.store.faults)
      ensures keys.None? || !load.complete ==> world.store.faults > old(world.store.faults)
    {
      var loaded;
      loaded, list, load := Load(org, app, pid, None);
      if loaded.None? {
        return None, list, load;
      }
      var public := StripPrivateHalves(loaded.value);
      keys := Some(public);
    }

    /** Caches loaded keys, the machine having adopted them. */
    method Adopted(slot: Slot, keys: seq<SigningKey>, ghost before: KSys, ghost load: KeyRing.Load)
      requires world.Valid() && clock == ClockOf(world.sys, node) && slot.node == node && slot.org in world.tenants
      requires Mirrored(cache.items, before, node, world.tenants) && ClockOf(before, node) == clock
      requires world.sys == Fill(before, slot, keys, load).(procs := world.sys.procs)
      modifies cache
      ensures Valid()
      ensures forall t :: Cache.Lookup(cache.items, CacheName(slot), t) == if t <= clock + HOUR then Some(keys) else None
    {
      cache.Set(CacheName(slot), keys, KEY_TTL, clock);
      FillMirrors(old(cache.items), before, world.tenants, slot, keys, load, world.sys.procs);
    }

    /**
     * The key a tenant's tokens are signed with: cached, else stored, else made of `material`, which is stored first.
     * Whichever it is, it is stored and active under the tenant's prefix at that moment. Only storage can keep a tenant from
     * having a key.
     */
    method ResolveSigningKey(org: string, app: string, material: KeyMaterial, ghost pid: nat) returns (key: Option<SigningKey>)
      requires Valid() && org in world.tenants && pid !in world.sys.procs && Unused(material)
      modifies this`clock, world, world.store, cache
      ensures Valid() && Grown(old(world.sys), world.sys) && world.store.faults >= old(world.store.faults)
      ensures key.None? ==> world.store.faults > old(world.store.faults)
      ensures key.Some? ==>
                && pid in world.sys.procs && world.sys.procs[pid] == Resolved(Slot(node, org, app), key.value)
                && IsStored(world.sys.published, org, app, key.value) && key.value.active && key.value.privateKey.RSAPrivate?
    {
      var slot := Slot(node, org, app);
      key := FromCache(slot, pid);
      if key.Some? {
        ResolvedIsStored(world, pid);
        return;
      }
      key := LoadOrCreate(slot, material, pid);
      if key.Some? {
        ResolvedIsStored(world, pid);
      }
    }

    /** The rest of resolveSigningKey, once the cache had nothing to sign with. */
    method LoadOrCreate(slot: Slot, material: KeyMaterial, ghost pid: nat) returns (key: Option<SigningKey>)
      requires Valid() && slot.node == node && slot.org in world.tenants
      requires pid !in world.sys.procs && Unused(material)
      modifies this`clock, world, world.store, cache
      ensures Valid() && Grown(old(world.sys), world.sys) && world.store.faults >= old(world.store.faults)
      ensures key.None? ==> world.store.faults > old(world.store.faults)
      ensures key.Some? ==> pid in world.sys.procs && world.sys.procs[pid] == Resolved(slot, key.value)
    {
      ghost var list, load;
      var keys: Option<seq<SigningKey>>;
      keys, list, load := Load(slot.org, slot.app, pid, Some(material));
      if keys.None? {
        return None;
      }
      BeginLoad(pid, slot, true, list, load);
      var signer := ActiveSigningKey(keys.value);
      Yield(pid, Some(material));
      if signer.Some? {
        Adopt(slot, keys.value, signer.value, pid);
        return signer;
      }
      key := CreateKey(slot, Generate(material, slot.app), pid);
    }

    ghost method BeginLoad(pid: nat, slot: Slot, forSigning: bool, list: seq<KeyRecord>, load: KeyRing.Load)
      requires Valid() && pid !in world.sys.procs && load.asOf <= |world.sys.published|
      requires ListedFrom(world.sys.published, load.asOf, slot.org, list, load.complete)
      modifies world
      ensures Valid() && world.sys.published == old(world.sys.published) && Grown(old(world.sys), world.sys)
      ensures pid in world.sys.procs && world.sys.procs[pid] == Loaded(slot, forSigning, Selected(list, slot.app), load)
    {
      var s := world.sys;
      world.Step(LoadKeys(pid, slot, forSigning, list, load));
      SameCachesMirror(cache.items, s, world.sys, node, world.tenants);
    }

    method FromCache(slot: Slot, ghost pid: nat) returns (key: Option<SigningKey>)
      requires Valid() && slot.node == node && slot.org in world.tenants && pid !in world.sys.procs
      modifies this`clock, world
      ensures Valid() && world.sys.published == old(world.sys.published) && Grown(old(world.sys), world.sys)
      ensures match key
              case None => pid !in world.sys.procs
              case Some(k) => pid in world.sys.procs && world.sys.procs[pid] == Resolved(slot, k)
    {
      var now := Now();
      var cached := cache.Get(CacheName(slot), now);
      if cached.None? {
        return None;
      }
      key := ActiveSigningKey(cached.value);
      if key.None? {
        return;
      }
      CachedIsServed(cache.items, world.sys, world.tenants, slot, now);
      ghost var s := world.sys;
      world.Step(UseCached(pid, slot));
      SameCachesMirror(cache.items, s, world.sys, node, world.tenants);
    }

    method Adopt(slot: Slot, keys: seq<SigningKey>, signer: SigningKey, ghost pid: nat)
      requires Valid() && slot.node == node && slot.org in world.tenants && pid in world.sys.procs && world.sys.procs[pid].Loaded?
      requires world.sys.procs[pid].forSigning && world.sys.procs[pid].keys == keys && world.sys.procs[pid].slot == slot
      requires NewestSigner(keys) == Some(signer)
      modifies this`clock, world, cache
      ensures Valid() && Grown(old(world.sys), world.sys) && pid in world.sys.procs && world.sys.procs[pid] == Resolved(slot, signer)
    {
      var now := Now();
      ghost var s := world.sys;
      world.Step(KeyRing.Adopt(pid));
      Adopted(slot, keys, s, s.procs[pid].load);
    }

    /** Stores a new key create-only; if that fails, whatever is stored by then is used instead. */
    method CreateKey(slot: Slot, generated: SigningKey, ghost pid: nat) returns (key: Option<SigningKey>)
      requires Valid() && slot.node == node && slot.org in world.tenants
      requires pid in world.sys.procs && world.sys.procs[pid].Loaded? && world.sys.procs[pid].forSigning
      requires world.sys.procs[pid].slot == slot && NewestSigner(world.sys.procs[pid].keys).None?
      requires Generated(generated) && generated.active && generated.appID == slot.app && FreshNames(world.sys.published, generated)
      requires RecordName(slot.org, generated.id) !in world.store.records
      modifies this`clock, world, world.store, cache
      ensures Valid() && Grown(old(world.sys), world.sys) && world.store.faults >= old(world.store.faults)
      ensures key.None? ==> world.store.faults > old(world.store.faults)
      ensures key.Some? ==> pid in world.sys.procs && world.sys.procs[pid] == Resolved(slot, key.value)
    {
      var stored := StoreNewKey(slot, generated, pid);
      Yield(pid, None);
      if stored {
        var now := Now();
        ghost var s := world.sys;
        world.Step(FillCreated(pid));
        Adopted(slot, [generated], s, s.procs[pid].load);
        return Some(generated);
      }
      key := Reread(slot, pid);
    }

    /** After a failed write: whatever is authoritative now. */
    method Reread(slot: Slot, ghost pid: nat) returns (key: Option<SigningKey>)
      requires Valid() && slot.node == node && slot.org in world.tenants
      requires pid in world.sys.procs && world.sys.procs[pid] == Retrying(slot)
      modifies this`clock, world, world.store, cache
      ensures Valid() && Grown(old(world.sys), world.sys) && world.store.faults >= old(world.store.faults)
      ensures key.Some? ==> pid in world.sys.procs && world.sys.procs[pid] == Resolved(slot, key.value)
    {
      ghost var list, load;
      var keys: Option<seq<SigningKey>>;
      keys, list, load := Load(slot.org, slot.app, pid, None);
      if keys.None? {
        return None;
      }
      key := ActiveSigningKey(keys.value);
      var now := Now();
      ghost var s := world.sys;
      world.Step(Reload(pid, list, load));
      if key.None? {
        SameCachesMirror(cache.items, s, world.sys, node, world.tenants);
        return;
      }
      Adopted(slot, keys.value, s, load);
    }

    /** Accounts for a token signed now with a resolved key. */
    ghost method AccountMint(slot: Slot, key: SigningKey, request: Request, pid: nat)
      requires Valid() && slot.node == node && pid in world.sys.procs && world.sys.procs[pid] == Resolved(slot, key) && Mintable(slot, request)
      modifies world
      ensures Valid() && Grown(old(world.sys), world.sys) && pid in world.sys.procs && world.sys.procs[pid] == Resolved(slot, key)
      ensures var m := Minted(slot, key, request, clock); m.Signed().Some? ==> m in world.sys.minted
    {
      var s := world.sys;
      world.Step(Mint(pid, request));
      SameCachesMirror(cache.items, s, world.sys, node, world.tenants);
    }

    /** The write of a new key never replaces a record that is there. */
    method PutNewKey(org: string, generated: SigningKey) returns (put: Result<string, StorageError>, ghost version: string, ghost fault: Fault)
      modifies world.store
      ensures world.store.faults == old(world.store.faults) + if fault.NoFault? then 0 else 1
      ensures var name := RecordName(org, generated.id);
              if name in old(world.store.records) then put.Err? && world.store.records == old(world.store.records)
              else
                && (put.Ok? <==> fault.NoFault?)
                && world.store.records == if fault.LostRequest? then old(world.store.records)
                                          else old(world.store.records)[name := Versioned(version, Some(generated))]
    {
      put, version, fault := world.store.Put(RecordName(org, generated.id), Some(generated), MATCH_ANY_VERSION);
    }

    method StoreNewKey(slot: Slot, generated: SigningKey, ghost pid: nat) returns (stored: bool)
      requires Valid() && slot.node == node && slot.org in world.tenants
      requires pid in world.sys.procs && world.sys.procs[pid].Loaded? && world.sys.procs[pid].forSigning
      requires world.sys.procs[pid].slot == slot && NewestSigner(world.sys.procs[pid].keys).None?
      requires Generated(generated) && generated.active && generated.appID == slot.app && FreshNames(world.sys.published, generated)
      requires RecordName(slot.org, generated.id) !in world.store.records
      modifies world, world.store
      ensures Valid() && Grown(old(world.sys), world.sys) && pid in world.sys.procs && world.sys.clocks == old(world.sys.clocks)
      ensures world.store.faults >= old(world.store.faults) && (!stored ==> world.store.faults > old(world.store.faults))
      ensures if stored then world.sys.procs[pid].Created? && world.sys.procs[pid].slot == slot && world.sys.procs[pid].key == generated
              else world.sys.procs[pid] == Retrying(slot)
    {
      var put, version, fault := PutNewKey(slot.org, generated);
      ghost var s := world.sys;
      PublishBacks(old(world.store.records), s.published, world.tenants, slot.org, generated, version);
      world.Step(Create(pid, generated, fault));
      SameCachesMirror(cache.items, s, world.sys, node, world.tenants);
      return put.Ok?;
    }
  }

  lemma ResolvedIsStored(world: KeyWorld, pid: nat)
    requires world.Scheduled() && pid in world.sys.procs && world.sys.procs[pid].Resolved?
    ensures var p := world.sys.procs[pid]; IsStored(world.sys.published, p.slot.org, p.slot.app, p.key)
    ensures world.sys.procs[pid].key.active && world.sys.procs[pid].key.privateKey.RSAPrivate?
  {
    var s := world.sys;
    world.Ran();
    ReachableInv(s);
    assert KProcOk(s.published, s.procs[pid]);
    var p :| p in s.published && p.key == s.procs[pid].key && p.key.active;
    assert Generated(p.key);
  }
}
