/**
 * The store of the running system together with a ghost account of everything done to it: the tenants there may ever be,
 * no two of which share a cache key, the schedule of protocol steps so far, and the machine state they lead to.
 */
module Schedule {
  import opened Wrappers
  import opened Models
  import opened Storage
  import opened Protocol
  import opened Effects
  import opened ProtocolInvariant
  import opened ProtocolTheorems
  import Keys

  ghost predicate OfTenants(apps: set<AppRecord>, tenants: set<string>) {
    forall r | r in apps :: r.org in tenants
  }

  /** The name a record is stored under. */
  function NameOf(k: Key): string {
    match k
    case StateKey(h) => Keys.StateKey(h).Render()
    case CodeKey(h) => Keys.CodeKey(h).Render()
    case RefreshKey(h) => Keys.RefreshKey(h).Render()
    case AppKey(org, client) => Keys.RecordKey(org, Keys.Apps, client).Render()
  }

  /** No two records of the exchange share a name, whatever the handles and clients, so a store of typed keys is the store of names. */
  lemma NamesDetermine(tenants: set<string>, j: Key, k: Key)
    requires Keys.AppsApart(tenants) && (j.AppKey? ==> j.org in tenants) && (k.AppKey? ==> k.org in tenants)
    requires NameOf(j) == NameOf(k)
    ensures j == k
  {
    if j.AppKey? && k.AppKey? {
      assert Keys.AppsApartFrom(j.org, k.org);
      Keys.AppRecordsDetermine(j.org, j.client, k.org, k.client);
    } else if j.AppKey? {
      Keys.SessionKeysApart(SessionOf(k), Keys.RecordKey(j.org, Keys.Apps, j.client));
    } else if k.AppKey? {
      Keys.SessionKeysApart(SessionOf(j), Keys.RecordKey(k.org, Keys.Apps, k.client));
    } else {
      Keys.SessionKeysPartition(SessionOf(j), SessionOf(k));
    }
  }

  function SessionOf(k: Key): Keys.SessionKey
    requires !k.AppKey?
  {
    match k
    case StateKey(h) => Keys.StateKey(h)
    case CodeKey(h) => Keys.CodeKey(h)
    case RefreshKey(h) => Keys.RefreshKey(h)
  }

  /** From position n on, no step of the schedule is the request's own. */
  predicate OthersOnly(trace: seq<Action>, n: nat, pid: nat) {
    forall i | n <= i < |trace| :: Actor(trace[i]) != Some(pid)
  }

  /** From position n on, the request never gives up. */
  predicate NeverAbandons(trace: seq<Action>, n: nat, pid: nat) {
    forall i | n <= i < |trace| :: trace[i] != Abandon(pid)
  }

  /** The schedule went on, and the request did not give up on the way. */
  predicate Continues(before: seq<Action>, after: seq<Action>, pid: nat) {
    before <= after && NeverAbandons(after, |before|, pid)
  }

  predicate SameProc(s: Sys, t: Sys, pid: nat) {
    (pid in s.procs <==> pid in t.procs) && (pid in s.procs ==> s.procs[pid] == t.procs[pid])
  }

  /** The i-th step leads from one state to the next. */
  predicate LinkAt(trace: seq<Action>, states: seq<Sys>, i: nat)
    requires i < |trace| && i + 1 < |states|
  {
    Enabled(states[i], trace[i]) && states[i + 1] == Apply(states[i], trace[i])
  }

  /** The states a schedule leads through, from the initial one on. */
  ghost predicate Linked(trace: seq<Action>, states: seq<Sys>) {
    |states| == |trace| + 1 && states[0] == Init && forall i {:trigger LinkAt(trace, states, i)} | 0 <= i < |trace| :: LinkAt(trace, states, i)
  }

  lemma {:induction false} LinkedRuns(trace: seq<Action>, states: seq<Sys>)
    requires Linked(trace, states)
    ensures Exec(Init, trace) == Some(states[|trace|])
    decreases |trace|
  {
    if trace != [] {
      var n := |trace| - 1;
      var front, before := trace[..n], states[..n + 1];
      forall i | 0 <= i < n ensures LinkAt(front, before, i) {
        assert LinkAt(trace, states, i);
      }
      LinkedRuns(front, before);
      assert LinkAt(trace, states, n);
      ExecAppend(Init, front, [trace[n]]);
      assert front + [trace[n]] == trace;
    }
  }

  lemma LinksOn(trace: seq<Action>, states: seq<Sys>, a: Action)
    requires Linked(trace, states) && Enabled(states[|trace|], a)
    ensures Linked(trace + [a], states + [Apply(states[|trace|], a)])
  {
    var more, on := trace + [a], states + [Apply(states[|trace|], a)];
    forall i | 0 <= i < |more| ensures LinkAt(more, on, i) {
      if i < |trace| {
        assert LinkAt(trace, states, i);
      }
    }
  }

  class World {
    const store: JayDBStorage<Key, Payload>
    ghost const tenants: set<string>
    ghost var sys: Sys
    ghost var trace: seq<Action>
    ghost var states: seq<Sys>   // the states the schedule so far led through, the present one last

    constructor (ghost tenants: set<string>)
      requires Keys.AppsApart(tenants)
      ensures Valid() && fresh(store) && trace == [] && this.tenants == tenants
    {
      store := new JayDBStorage();
      this.tenants := tenants;
      sys, trace, states := Init, [], [Init];
    }

    ghost predicate Scheduled()
      reads this
    {
      Linked(trace, states) && sys == states[|trace|] && Keys.AppsApart(tenants) && OfTenants(sys.hist.apps, tenants)
    }

    ghost predicate Valid()
      reads this, store`records
    {
      Scheduled() && store.records == sys.store
    }

    /** Accounts for one step of a request. */
    ghost method Step(a: Action)
      requires Scheduled() && Enabled(sys, a) && (Actor(a).Some? || a.CacheApp?)
      modifies this
      ensures Scheduled() && sys == Apply(old(sys), a) && trace == old(trace) + [a]
    {
      LinksOn(trace, states, a);
      RequestsKeepApps(sys, a);
      sys, trace, states := Apply(sys, a), trace + [a], states + [Apply(sys, a)];
    }

    /** The account is a run of the machine. */
    lemma Ran()
      requires Scheduled()
      ensures Exec(Init, trace) == Some(sys)
    {
      LinkedRuns(trace, states);
    }

    // The same, one kind of step at a time.

    ghost method Load(pid: nat, node: nat, req: AuthorizationRequest, fault: Fault)
      requires Scheduled() && pid !in sys.procs
      modifies this
      ensures Scheduled() && sys == DoLoadForAuthorize(old(sys), pid, node, req, fault)
      ensures Continues(old(trace), trace, pid)
    {
      Step(LoadForAuthorize(pid, node, req, fault));
    }

    ghost method SaveState(pid: nat, available: Option<seq<string>>, resolves: bool, hasURL: bool, handle: string, now: int, version: string, fault: Fault)
      requires Scheduled() && pid in sys.procs && sys.procs[pid].Loaded? && FreshToken(sys, handle)
      modifies this
      ensures Scheduled() && sys == DoStoreState(old(sys), old(sys.procs[pid]), pid, available, resolves, hasURL, handle, now, version, fault)
      ensures Continues(old(trace), trace, pid)
    {
      Step(StoreState(pid, available, resolves, hasURL, handle, now, version, fault));
    }

    ghost method Start(pid: nat, node: nat, purpose: Purpose)
      requires Scheduled() && pid !in sys.procs
      modifies this
      ensures Scheduled() && sys == DoBegin(old(sys), pid, node, purpose) && Continues(old(trace), trace, pid)
    {
      Step(Begin(pid, node, purpose));
    }

    ghost method ReadRecord(pid: nat, fault: Fault)
      requires Scheduled() && pid in sys.procs && sys.procs[pid].Claiming?
      modifies this
      ensures Scheduled() && sys == DoGet(old(sys), old(sys.procs[pid]), pid, fault) && Continues(old(trace), trace, pid)
    {
      Step(Get(pid, fault));
    }

    ghost method DeleteRecord(pid: nat, fault: Fault)
      requires Scheduled() && pid in sys.procs && sys.procs[pid].Read?
      modifies this
      ensures Scheduled() && sys == DoDelete(old(sys), old(sys.procs[pid]), pid, fault) && Continues(old(trace), trace, pid)
    {
      Step(Delete(pid, fault));
    }

    ghost method Examine(pid: nat, now: int)
      requires Scheduled() && pid in sys.procs && sys.procs[pid].Holding? && sys.procs[pid].stage.Claimed?
      modifies this
      ensures Scheduled() && sys == DoCheck(old(sys), old(sys.procs[pid]), pid, now) && Continues(old(trace), trace, pid)
    {
      Step(Check(pid, now));
    }

    ghost method SaveCode(pid: nat, claims: Option<AuthClaims>, handle: string, now: int, version: string, fault: Fault)
      requires Scheduled() && pid in sys.procs && sys.procs[pid].Holding? && sys.procs[pid].stage.Accepted? && sys.procs[pid].purpose.ToComplete?
      requires FreshToken(sys, handle)
      modifies this
      ensures Scheduled() && sys == DoStoreCode(old(sys), old(sys.procs[pid]), pid, claims, handle, now, version, fault)
      ensures Continues(old(trace), trace, pid)
    {
      Step(StoreCode(pid, claims, handle, now, version, fault));
    }

    ghost method ReadApplication(slot: AppSlot, now: int, pid: nat)
      requires Scheduled() && Enabled(sys, CacheApp(slot, now))
      modifies this
      ensures Scheduled() && Continues(old(trace), trace, pid)
      ensures sys == old(sys).(appCaches := old(sys.appCaches)[slot := CachedApp(Resolved(slot.org, old(sys).store[AppKey(slot.org, slot.client)].data.app), now)])
    {
      Step(CacheApp(slot, now));
    }

    ghost method Admit(pid: nat, app: Application, now: int)
      requires Scheduled() && pid in sys.procs && sys.procs[pid].Holding? && sys.procs[pid].stage.Accepted? && !sys.procs[pid].purpose.ToComplete?
      requires AppKnown(sys, AppSlot(sys.procs[pid].node, OwnerOf(sys.procs[pid].data).0, OwnerOf(sys.procs[pid].data).1), app, now)
      modifies this
      ensures Scheduled() && sys == DoAuthenticate(old(sys), old(sys.procs[pid]), pid, app) && Continues(old(trace), trace, pid)
    {
      Step(Authenticate(pid, app, now));
    }

    /** The Put of a new refresh token and the end of the request; on success the token set is sent. */
    ghost method SaveTokens(pid: nat, handle: string, family: string, now: int, version: string, fault: Fault)
      requires Scheduled() && pid in sys.procs && sys.procs[pid].Holding? && sys.procs[pid].stage.Authenticated?
      requires sys.procs[pid].stage.grant.base.Some? && FreshToken(sys, handle) && FreshToken(sys, family) && handle != family
      modifies this
      ensures Scheduled() && Continues(old(trace), trace, pid)
      ensures sys.nodes == old(sys.nodes) && sys.appCaches == old(sys.appCaches)
      ensures var p := old(sys.procs[pid]);
              var g := p.stage.grant;
              var record := NewRefresh(g.app, g.base.value, g.scope, if g.family == "" then family else g.family, now);
              && sys.store == (if fault.LostRequest? then old(sys.store) else old(sys.store)[RefreshKey(handle) := Versioned(version, RefreshPayload(record))])
              && pid in sys.procs && sys.procs[pid] == Done(if fault.NoFault? then TokensSent(handle) else Failed)
              && (fault.NoFault? ==> sys.hist.tokens == old(sys.hist.tokens) + [TokensFrom(p, g, handle, pid)])
    {
      Step(Mint(pid, handle, family, now, version, fault));
    }

    /** Nothing to speak for: the request ends without a token. */
    ghost method RefuseTokens(pid: nat, handle: string, family: string)
      requires Scheduled() && pid in sys.procs && sys.procs[pid].Holding? && sys.procs[pid].stage.Authenticated?
      requires sys.procs[pid].stage.grant.base.None? && FreshToken(sys, handle) && FreshToken(sys, family) && handle != family
      modifies this
      ensures Scheduled() && sys == Finish(old(sys), pid, Failed) && Continues(old(trace), trace, pid)
    {
      Step(Mint(pid, handle, family, 0, "", NoFault));
    }

    ghost method GiveUp(pid: nat)
      requires Scheduled() && pid in sys.procs && !sys.procs[pid].Done?
      modifies this
      ensures Scheduled() && sys == Finish(old(sys), pid, Failed) && old(trace) <= trace
    {
      Step(Abandon(pid));
    }
  }

  lemma RequestsKeepApps(s: Sys, a: Action)
    requires Enabled(s, a) && (Actor(a).Some? || a.CacheApp?)
    ensures Apply(s, a).hist.apps == s.hist.apps
  {
    if IsStoring(a) {
      StoringEnds(s, a);
    } else if Actor(a).Some? {
      OthersMove(s, a);
    }
  }

  lemma StepLeavesOthers(s: Sys, a: Action, pid: nat)
    requires Enabled(s, a) && Actor(a) != Some(pid)
    ensures SameProc(s, Apply(s, a), pid) && s.hist.apps <= Apply(s, a).hist.apps
  {
    if IsStoring(a) {
      StoringEnds(s, a);
    } else if Actor(a).Some? {
      OthersMove(s, a);
    }
  }

  lemma {:induction false} RunLeavesOthers(s: Sys, acts: seq<Action>, pid: nat)
    requires Exec(s, acts).Some? && OthersOnly(acts, 0, pid)
    ensures SameProc(s, Exec(s, acts).value, pid) && s.hist.apps <= Exec(s, acts).value.hist.apps
    decreases |acts|
  {
    if acts != [] {
      StepLeavesOthers(s, acts[0], pid);
      RunLeavesOthers(Apply(s, acts[0]), acts[1..], pid);
    }
  }

  /** However others proceed, a request finds itself where it was, and no application record ever seen is unseen. */
  lemma OthersDoNotInterfere(before: seq<Action>, s: Sys, after: seq<Action>, t: Sys, pid: nat)
    requires Exec(Init, before) == Some(s) && Exec(Init, after) == Some(t)
    requires before <= after && OthersOnly(after, |before|, pid)
    ensures SameProc(s, t, pid) && s.hist.apps <= t.hist.apps
  {
    var rest := after[|before|..];
    assert after == before + rest;
    ExecAppend(Init, before, rest);
    forall i | 0 <= i < |rest| ensures Actor(rest[i]) != Some(pid) {
      assert rest[i] == after[|before| + i];
    }
    RunLeavesOthers(s, rest, pid);
  }
}
