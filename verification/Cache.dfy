/** The in-memory cache and its janitor (pkg/cache/cache.go). */
module Cache {
  import opened Wrappers
  import opened Text
  import Keys

  datatype Item<+V> = Item(value: V, expiresAt: Option<int>)

  /** An item without an expiry never lapses; one with an expiry is still served at that very instant. */
  predicate Expired<V>(item: Item<V>, now: int) {
    item.expiresAt.Some? && now > item.expiresAt.value
  }

  function Lookup<V>(items: map<string, Item<V>>, key: string, now: int): Option<V> {
    if key !in items || Expired(items[key], now) then None else Some(items[key].value)
  }

  function WithItem<V>(items: map<string, Item<V>>, key: string, value: V, ttl: int, now: int): map<string, Item<V>> {
    items[key := Item(value, if ttl > 0 then Some(now + ttl) else None)]
  }

  function WithoutOrganization<V>(items: map<string, Item<V>>, org: string): map<string, Item<V>> {
    map k | k in items && !HasPrefix(k, Keys.OrganizationPrefix(org)) :: items[k]
  }

  function AppKeys(org: string, app: string): set<string> {
    {Keys.CacheKey(org, Keys.AppArea, app).Render(),
     Keys.CacheKey(org, Keys.KeysArea, app).Render(),
     Keys.CacheKey(org, Keys.JWKSArea, app).Render()}
  }

  lemma AppKeyTexts(org: string, app: string)
    ensures AppKeys(org, app) == {"o:" + org + ":app:" + app, "o:" + org + ":keys:" + app, "o:" + org + ":jwks:" + app}
  {
    Keys.CacheKeyText(org, Keys.AppArea, ":app:", app);
    Keys.CacheKeyText(org, Keys.KeysArea, ":keys:", app);
    Keys.CacheKeyText(org, Keys.JWKSArea, ":jwks:", app);
  }

  function WithoutExpired<V>(items: map<string, Item<V>>, now: int): map<string, Item<V>> {
    map k | k in items && !Expired(items[k], now) :: items[k]
  }

  /** MemoryCache; the clock is passed in, the janitor's tick is a method of its own. */
  class MemoryCache<V> {
    var items: map<string, Item<V>>

    constructor ()
      ensures items == map[]
    {
      items := map[];
    }

    method Get(key: string, now: int) returns (value: Option<V>)
      ensures value == Lookup(items, key, now)
    {
      if key !in items {
        return None;
      }
      var item := items[key];
      if item.expiresAt.Some? && now > item.expiresAt.value {
        return None;
      }
      return Some(item.value);
    }

    method Set(key: string, value: V, ttl: int, now: int)
      modifies this
      ensures items == WithItem(old(items), key, value, ttl, now)
    {
      var expiresAt: Option<int> := None;
      if ttl > 0 {
        expiresAt := Some(now + ttl);
      }
      items := items[key := Item(value, expiresAt)];
    }

    method Delete(key: string)
      modifies this
      ensures items == old(items) - {key}
    {
      items := items - {key};
    }

    method InvalidateOrganization(org: string)
      modifies this
      ensures items == WithoutOrganization(old(items), org)
    {
      var prefix := Keys.OrganizationPrefix(org);
      var todo := items.Keys;
      while todo != {}
        invariant todo <= old(items).Keys
        invariant items == map k | k in old(items) && (k in todo || !HasPrefix(k, prefix)) :: old(items)[k]
        decreases |todo|
      {
        var k :| k in todo;
        if HasPrefix(k, prefix) {
          items := items - {k};
        }
        todo := todo - {k};
      }
    }

    method InvalidateApp(org: string, app: string)
      modifies this
      ensures items == old(items) - AppKeys(org, app)
    {
      var appKey, signingKeys, jwks := "o:" + org + ":app:" + app, "o:" + org + ":keys:" + app, "o:" + org + ":jwks:" + app;
      AppKeyTexts(org, app);
      var todo := items.Keys;
      while todo != {}
        invariant todo <= old(items).Keys
        invariant items == map k | k in old(items) && (k in todo || k !in {appKey, signingKeys, jwks}) :: old(items)[k]
        decreases |todo|
      {
        var k :| k in todo;
        if k == appKey || k == signingKeys || k == jwks {
          items := items - {k};
        }
        todo := todo - {k};
      }
    }

    /** One tick of the janitor. */
    method Sweep(now: int)
      modifies this
      ensures items == WithoutExpired(old(items), now)
    {
      var todo := items.Keys;
      while todo != {}
        invariant todo <= old(items).Keys
        invariant items == map k | k in old(items) && (k in todo || !Expired(old(items)[k], now)) :: old(items)[k]
        decreases |todo|
      {
        var k :| k in todo;
        var item := items[k];
        if item.expiresAt.Some? && now > item.expiresAt.value {
          items := items - {k};
        }
        todo := todo - {k};
      }
    }
  }

  // --- the janitor is invisible ---

  datatype Op<+V> =
    | Set(key: string, value: V, ttl: int)
    | Delete(key: string)
    | InvalidateOrganization(org: string)
    | InvalidateApp(org: string, app: string)
    | Sweep

  datatype Timed<+V> = Timed(at: int, op: Op<V>)

  function Perform<V>(items: map<string, Item<V>>, t: Timed<V>): map<string, Item<V>> {
    match t.op
    case Set(key, value, ttl) => WithItem(items, key, value, ttl, t.at)
    case Delete(key) => items - {key}
    case InvalidateOrganization(org) => WithoutOrganization(items, org)
    case InvalidateApp(org, app) => items - AppKeys(org, app)
    case Sweep => WithoutExpired(items, t.at)
  }

  function Run<V>(items: map<string, Item<V>>, ops: seq<Timed<V>>): map<string, Item<V>>
    decreases |ops|
  {
    if ops == [] then items else Run(Perform(items, ops[0]), ops[1..])
  }

  function SweepFree<V>(ops: seq<Timed<V>>): seq<Timed<V>> {
    if ops == [] then []
    else if ops[0].op.Sweep? then SweepFree(ops[1..])
    else [ops[0]] + SweepFree(ops[1..])
  }

  /** The process clock never runs backwards. */
  predicate ClockOrdered<V>(ops: seq<Timed<V>>, start: int) {
    ops == [] || (start <= ops[0].at && ClockOrdered(ops[1..], ops[0].at))
  }

  /** Two caches no reader can tell apart from `start` on. */
  ghost predicate Indistinguishable<V(!new)>(a: map<string, Item<V>>, b: map<string, Item<V>>, start: int) {
    forall key, now | start <= now :: Lookup(a, key, now) == Lookup(b, key, now)
  }

  lemma SweepIsInvisible<V(!new)>(a: map<string, Item<V>>, b: map<string, Item<V>>, start: int, at: int)
    requires Indistinguishable(a, b, start) && start <= at
    ensures Indistinguishable(WithoutExpired(a, at), b, at)
  {
    forall key, now | at <= now ensures Lookup(WithoutExpired(a, at), key, now) == Lookup(b, key, now) {
      assert Lookup(a, key, now) == Lookup(b, key, now);
      assert key in a && Expired(a[key], at) ==> Expired(a[key], now);
    }
  }

  lemma OpsPreserveIndistinguishable<V(!new)>(a: map<string, Item<V>>, b: map<string, Item<V>>, start: int, t: Timed<V>)
    requires Indistinguishable(a, b, start) && start <= t.at && !t.op.Sweep?
    ensures Indistinguishable(Perform(a, t), Perform(b, t), t.at)
  {
    forall key, now | t.at <= now ensures Lookup(Perform(a, t), key, now) == Lookup(Perform(b, t), key, now) {
      assert Lookup(a, key, now) == Lookup(b, key, now);
    }
  }

  lemma {:induction false} RunsIndistinguishable<V(!new)>(a: map<string, Item<V>>, b: map<string, Item<V>>, start: int, ops: seq<Timed<V>>, now: int)
    requires Indistinguishable(a, b, start) && ClockOrdered(ops, start)
    requires if ops == [] then start <= now else ops[|ops| - 1].at <= now
    ensures forall key :: Lookup(Run(a, ops), key, now) == Lookup(Run(b, SweepFree(ops)), key, now)
    decreases |ops|
  {
    if ops != [] {
      var t := ops[0];
      if t.op.Sweep? {
        SweepIsInvisible(a, b, start, t.at);
        RunsIndistinguishable(Perform(a, t), b, t.at, ops[1..], now);
      } else {
        OpsPreserveIndistinguishable(a, b, start, t);
        RunsIndistinguishable(Perform(a, t), Perform(b, t), t.at, ops[1..], now);
        assert ([t] + SweepFree(ops[1..]))[1..] == SweepFree(ops[1..]);
      }
    }
  }

  /**
   * However sweeps are interleaved with sets, deletes and invalidations under a clock that does not run backwards,
   * every later Get answers as if there were no janitor.
   */
  lemma JanitorIsInvisible<V(!new)>(items: map<string, Item<V>>, ops: seq<Timed<V>>, start: int, key: string, now: int)
    requires ClockOrdered(ops, start)
    requires if ops == [] then start <= now else ops[|ops| - 1].at <= now
    ensures Lookup(Run(items, ops), key, now) == Lookup(Run(items, SweepFree(ops)), key, now)
  {
    RunsIndistinguishable(items, items, start, ops, now);
  }

  /** For colon-free organization ids, an organization's invalidation drops its entries and nobody else's. */
  lemma InvalidationIsExact<V>(items: map<string, Item<V>>, org: string, k: Keys.CacheKey)
    requires ':' !in org && ':' !in k.org && k.Render() in items
    ensures k.Render() in WithoutOrganization(items, org) <==> k.org != org
    ensures k.org != org ==> WithoutOrganization(items, org)[k.Render()] == items[k.Render()]
  {
    Keys.OrganizationPrefixIsExact(org, k);
  }
}
