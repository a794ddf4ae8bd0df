/** Every interleaved, faulty, many-node run of the protocol is a run of the atomic server. */
module Refinement {
  import opened Wrappers
  import opened Models
  import opened Storage
  import opened Protocol
  import opened ProtocolInvariant
  import opened ProtocolTheorems
  import Atomic = AtomicServer

  /** A request as the atomic server sees it: served by nobody in particular, and never half-way through a claim. */
  function Anonymous(p: Proc): Proc {
    match p
    case Loaded(_, req, app) => Loaded(0, req, app)
    case Claiming(_, purpose) => Claiming(0, purpose)
    case Read(_, purpose, _) => Claiming(0, purpose)
    case Holding(_, purpose, data, stage) => Holding(0, purpose, data, stage)
    case Done(outcome) => Done(outcome)
  }

  /** A handle is pending exactly while it is stored. */
  function Records(issued: map<Key, Issue>, store: map<Key, Record>): map<Key, Atomic.Status> {
    map k | k in issued :: if k in store then Atomic.Pending(issued[k].data) else Atomic.Spent(issued[k].data)
  }

  function Apps(store: map<Key, Record>): map<Key, Payload> {
    map k | k in store && k.AppKey? :: store[k].data
  }

  function Procs(procs: map<nat, Proc>): map<nat, Proc> {
    map pid | pid in procs :: Anonymous(procs[pid])
  }

  function Abstract(s: Sys): Atomic.Server {
    Atomic.Server(Records(s.hist.issued, s.store), Apps(s.store), s.hist.apps, Procs(s.procs), s.used, s.hist.received, s.hist.tokens)
  }

  /** The atomic event each protocol step amounts to: a claim takes effect at its versioned Delete. */
  function Meaning(s: Sys, a: Action): Atomic.Event
    requires Enabled(s, a)
  {
    match a
    case PutApp(org, client, app, _) => Atomic.SetApp(org, client, app)
    case DeleteApp(org, client) => Atomic.RemoveApp(org, client)
    case LoadForAuthorize(pid, _, req, fault) => Atomic.Load(pid, req, fault.NoFault?)
    case StoreState(pid, available, resolves, hasURL, handle, now, _, fault) =>
      Atomic.IssueState(pid, available, resolves, hasURL, handle, now, fault)
    case Begin(pid, _, purpose) => Atomic.Start(pid, purpose)
    case Get(pid, _) => if Apply(s, a).procs[pid].Read? then Atomic.Stutter else Atomic.Miss(pid)
    case Delete(pid, fault) =>
      var p := s.procs[pid];
      var matches := p.purpose.Key() in s.store && s.store[p.purpose.Key()].version == p.record.version;
      if !matches || fault.LostRequest? then Atomic.Miss(pid)
      else if fault.LostReply? then Atomic.Drop(pid)
      else Atomic.Consume(pid)
    case Check(pid, now) => Atomic.Examine(pid, now)
    case StoreCode(pid, claims, handle, now, _, fault) => Atomic.IssueCode(pid, claims, handle, now, fault)
    case CacheApp(_, _) => Atomic.Stutter
    case Authenticate(pid, app, _) => Atomic.Admit(pid, app)
    case Mint(pid, handle, family, now, _, fault) => Atomic.IssueTokens(pid, handle, family, now, fault)
    case Abandon(pid) => Atomic.GiveUp(pid)
  }

  lemma MovedProc(procs: map<nat, Proc>, pid: nat, q: Proc)
    ensures Procs(procs[pid := q]) == Procs(procs)[pid := Anonymous(q)]
  {
  }

  lemma SameDecisions(p: Proc)
    requires p.Holding?
    ensures forall now :: CheckPasses(Anonymous(p), now) == CheckPasses(p, now)
    ensures forall app :: GrantOf(Anonymous(p), app) == GrantOf(p, app)
  {
  }

  lemma RefinesArrival(s: Sys, a: Action)
    requires Enabled(s, a) && (a.LoadForAuthorize? || a.Begin? || a.Abandon?)
    ensures Atomic.Next(Abstract(s), Meaning(s, a)) == Some(Abstract(Apply(s, a)))
  {
    var s' := Apply(s, a);
    MovedProc(s.procs, a.pid, s'.procs[a.pid]);
    assert s'.procs == s.procs[a.pid := s'.procs[a.pid]];
  }

  lemma RefinesCheck(s: Sys, a: Action)
    requires Enabled(s, a) && a.Check?
    ensures Atomic.Next(Abstract(s), Meaning(s, a)) == Some(Abstract(Apply(s, a)))
  {
    MovedProc(s.procs, a.pid, DoCheck(s, s.procs[a.pid], a.pid, a.now).procs[a.pid]);
    SameDecisions(s.procs[a.pid]);
  }

  lemma RefinesAuthenticate(s: Sys, a: Action)
    requires Enabled(s, a) && a.Authenticate? && AppCachesOk(s.appCaches, s.hist.apps)
    ensures Atomic.Next(Abstract(s), Meaning(s, a)) == Some(Abstract(Apply(s, a)))
  {
    var p := s.procs[a.pid];
    KnownIsRegistered(s, AppSlot(p.node, OwnerOf(p.data).0, OwnerOf(p.data).1), a.app, a.now);
    MovedProc(s.procs, a.pid, DoAuthenticate(s, p, a.pid, a.app).procs[a.pid]);
    SameDecisions(p);
  }

  lemma RefinesAdmin(s: Sys, a: Action)
    requires Enabled(s, a) && (a.PutApp? || a.DeleteApp? || a.CacheApp?)
    requires forall k | k in s.hist.issued :: IsSession(k)
    ensures Atomic.Next(Abstract(s), Meaning(s, a)) == Some(Abstract(Apply(s, a)))
  {
    var s' := Apply(s, a);
    assert Records(s'.hist.issued, s'.store) == Records(s.hist.issued, s.store);
    if a.PutApp? {
      assert Apps(s'.store) == Apps(s.store)[AppKey(a.org, a.client) := AppPayload(a.app)];
    } else if a.DeleteApp? {
      assert Apps(s'.store) == Apps(s.store) - {AppKey(a.org, a.client)};
    }
  }

  lemma RefinesGet(s: Sys, a: Action)
    requires Enabled(s, a) && a.Get?
    ensures Atomic.Next(Abstract(s), Meaning(s, a)) == Some(Abstract(Apply(s, a)))
  {
    var s' := Apply(s, a);
    MovedProc(s.procs, a.pid, s'.procs[a.pid]);
    assert Procs(s.procs)[a.pid := Anonymous(s.procs[a.pid])] == Procs(s.procs);
  }

  lemma RemovedRecord(issued: map<Key, Issue>, store: map<Key, Record>, k: Key)
    requires k in issued && !k.AppKey?
    ensures Records(issued, store - {k}) == Records(issued, store)[k := Atomic.Spent(issued[k].data)]
    ensures Apps(store - {k}) == Apps(store)
  {
  }

  predicate DeleteMatches(s: Sys, p: Proc)
    requires p.Read?
  {
    p.purpose.Key() in s.store && s.store[p.purpose.Key()].version == p.record.version
  }

  lemma RefinesTakenDelete(s: Sys, a: Action)
    requires Enabled(s, a) && a.Delete?
    requires var p := s.procs[a.pid]; p.purpose.Key() in s.hist.issued && p.record.data == s.hist.issued[p.purpose.Key()].data
    requires DeleteMatches(s, s.procs[a.pid]) && a.fault.NoFault?
    ensures Atomic.Next(Abstract(s), Meaning(s, a)) == Some(Abstract(Apply(s, a)))
  {
    var p := s.procs[a.pid];
    MovedProc(s.procs, a.pid, DoDelete(s, p, a.pid, a.fault).procs[a.pid]);
    RemovedRecord(s.hist.issued, s.store, p.purpose.Key());
  }

  lemma RefinesOtherDelete(s: Sys, a: Action)
    requires Enabled(s, a) && a.Delete?
    requires var p := s.procs[a.pid]; p.purpose.Key() in s.hist.issued && p.record.data == s.hist.issued[p.purpose.Key()].data
    requires !DeleteMatches(s, s.procs[a.pid]) || !a.fault.NoFault?
    ensures Atomic.Next(Abstract(s), Meaning(s, a)) == Some(Abstract(Apply(s, a)))
  {
    var p := s.procs[a.pid];
    MovedProc(s.procs, a.pid, DoDelete(s, p, a.pid, a.fault).procs[a.pid]);
    RemovedRecord(s.hist.issued, s.store, p.purpose.Key());
  }

  lemma RefinesDelete(s: Sys, a: Action)
    requires Enabled(s, a) && a.Delete?
    requires var p := s.procs[a.pid]; p.purpose.Key() in s.hist.issued && p.record.data == s.hist.issued[p.purpose.Key()].data
    ensures Atomic.Next(Abstract(s), Meaning(s, a)) == Some(Abstract(Apply(s, a)))
  {
    if DeleteMatches(s, s.procs[a.pid]) && a.fault.NoFault? {
      RefinesTakenDelete(s, a);
    } else {
      RefinesOtherDelete(s, a);
    }
  }

  lemma AddedRecord(issued: map<Key, Issue>, store: map<Key, Record>, k: Key, i: Issue, version: string)
    requires !k.AppKey?
    ensures Records(issued[k := i], store[k := Versioned(version, i.data)]) == Records(issued, store)[k := Atomic.Pending(i.data)]
    ensures Apps(store[k := Versioned(version, i.data)]) == Apps(store)
  {
  }

  /** Storing a record and finishing is one atomic Put. */
  lemma RefinesStore(s: Sys, key: Key, i: Issue, version: string, tokens: set<string>, fault: Fault, success: Outcome)
    requires !key.AppKey?
    ensures Abstract(StoreAndFinish(s, key, i, version, tokens, fault, success))
         == Atomic.Put(Abstract(s), i.pid, key, i.data, tokens, fault, success)
  {
    AddedRecord(s.hist.issued, s.store, key, i, version);
    MovedProc(s.procs, i.pid, Done(if fault.NoFault? then success else Failed));
  }

  lemma RefinesFailure(s: Sys, pid: nat)
    ensures Abstract(Finish(s, pid, Failed)) == Atomic.End(Abstract(s), pid, Failed)
  {
    MovedProc(s.procs, pid, Done(Failed));
  }

  lemma RefinesStoreState(s: Sys, a: Action)
    requires Enabled(s, a) && a.StoreState?
    ensures Atomic.Next(Abstract(s), Meaning(s, a)) == Some(Abstract(Apply(s, a)))
  {
    var p := s.procs[a.pid];
    var idp := SelectIDP(p.app, p.req, a.available);
    RefinesFailure(s, a.pid);
    if RequestAcceptable(p.app, p.req) && idp.Some? && a.resolves {
      var success := if a.hasURL then Redirected(a.handle) else Failed;
      RefinesStore(s, StateKey(a.handle), StateIssue(s, p, a.pid, idp.value, a.available, a.now), a.version, {a.handle}, a.fault, success);
    }
  }

  lemma RefinesStoreCode(s: Sys, a: Action)
    requires Enabled(s, a) && a.StoreCode?
    ensures Atomic.Next(Abstract(s), Meaning(s, a)) == Some(Abstract(Apply(s, a)))
  {
    var p := s.procs[a.pid];
    RefinesFailure(s, a.pid);
    if p.data.StatePayload? {
      RefinesStore(s, CodeKey(a.handle), CodeIssue(s, p, a.pid, a.claims, a.now), a.version, {a.handle}, a.fault, CodeSent(a.handle));
    }
  }

  lemma RefinesMint(s: Sys, a: Action)
    requires Enabled(s, a) && a.Mint?
    ensures Atomic.Next(Abstract(s), Meaning(s, a)) == Some(Abstract(Apply(s, a)))
  {
    var p := s.procs[a.pid];
    RefinesFailure(s, a.pid);
    if p.stage.grant.base.Some? {
      var fam := if p.stage.grant.family == "" then a.family else p.stage.grant.family;
      RefinesStore(s, RefreshKey(a.handle), MintIssue(s, p, a.pid, fam, a.now), a.version, {a.handle, fam}, a.fault, TokensSent(a.handle));
    }
  }

  lemma StepRefines(s: Sys, a: Action)
    requires Inv(s) && Enabled(s, a)
    ensures Atomic.Next(Abstract(s), Meaning(s, a)) == Some(Abstract(Apply(s, a)))
  {
    if a.PutApp? || a.DeleteApp? || a.CacheApp? {
      RefinesAdmin(s, a);
    } else if a.Get? {
      RefinesGet(s, a);
    } else if a.Delete? {
      ReadFacts(s, a.pid);
      RefinesDelete(s, a);
    } else if a.StoreState? {
      RefinesStoreState(s, a);
    } else if a.StoreCode? {
      RefinesStoreCode(s, a);
    } else if a.Mint? {
      RefinesMint(s, a);
    } else if a.Check? {
      RefinesCheck(s, a);
    } else if a.Authenticate? {
      RefinesAuthenticate(s, a);
    } else {
      RefinesArrival(s, a);
    }
  }

  function Meanings(s: Sys, acts: seq<Action>): seq<Atomic.Event>
    requires Exec(s, acts).Some?
    decreases |acts|
  {
    if acts == [] then [] else [Meaning(s, acts[0])] + Meanings(Apply(s, acts[0]), acts[1..])
  }

  /** Forward simulation, over whole runs: same outcomes, same token sets, same receipts. */
  lemma {:induction false} RunRefines(s: Sys, acts: seq<Action>)
    requires Inv(s) && Exec(s, acts).Some?
    ensures Atomic.Serve(Abstract(s), Meanings(s, acts)) == Some(Abstract(Exec(s, acts).value))
    decreases |acts|
  {
    if acts != [] {
      StepRefines(s, acts[0]);
      StepKeepsInv(s, acts[0]);
      RunRefines(Apply(s, acts[0]), acts[1..]);
      assert Meanings(s, acts)[1..] == Meanings(Apply(s, acts[0]), acts[1..]);
    }
  }

  // --- the node-local maps ---

  predicate SameButForNodes(s: Sys, t: Sys) {
    s.store == t.store && s.appCaches == t.appCaches && s.procs == t.procs && s.used == t.used && s.hist == t.hist
  }

  lemma StoresTheSameState(s: Sys, t: Sys, p: Proc, pid: nat, available: Option<seq<string>>, resolves: bool, hasURL: bool,
                           handle: string, now: int, version: string, fault: Fault)
    requires SameButForNodes(s, t) && p.Loaded?
    ensures SameButForNodes(DoStoreState(s, p, pid, available, resolves, hasURL, handle, now, version, fault),
                            DoStoreState(t, p, pid, available, resolves, hasURL, handle, now, version, fault))
  {
  }

  lemma StoringStateIgnoresNodes(s: Sys, t: Sys, a: Action)
    requires SameButForNodes(s, t) && Enabled(s, a) && a.StoreState?
    ensures SameButForNodes(Apply(s, a), Apply(t, a))
  {
    StoresTheSameState(s, t, s.procs[a.pid], a.pid, a.available, a.resolves, a.hasURL, a.handle, a.now, a.version, a.fault);
  }

  lemma StoresTheSameCode(s: Sys, t: Sys, p: Proc, pid: nat, claims: Option<AuthClaims>, handle: string, now: int, version: string, fault: Fault)
    requires SameButForNodes(s, t) && p.Holding? && p.stage.Accepted?
    ensures SameButForNodes(DoStoreCode(s, p, pid, claims, handle, now, version, fault),
                            DoStoreCode(t, p, pid, claims, handle, now, version, fault))
  {
  }

  lemma StoringCodeIgnoresNodes(s: Sys, t: Sys, a: Action)
    requires SameButForNodes(s, t) && Enabled(s, a) && a.StoreCode?
    ensures SameButForNodes(Apply(s, a), Apply(t, a))
  {
    StoresTheSameCode(s, t, s.procs[a.pid], a.pid, a.claims, a.handle, a.now, a.version, a.fault);
  }

  lemma MintsTheSame(s: Sys, t: Sys, p: Proc, pid: nat, handle: string, family: string, now: int, version: string, fault: Fault)
    requires SameButForNodes(s, t) && p.Holding? && p.stage.Authenticated?
    ensures SameButForNodes(DoMint(s, p, pid, handle, family, now, version, fault), DoMint(t, p, pid, handle, family, now, version, fault))
  {
  }

  lemma MintingIgnoresNodes(s: Sys, t: Sys, a: Action)
    requires SameButForNodes(s, t) && Enabled(s, a) && a.Mint?
    ensures SameButForNodes(Apply(s, a), Apply(t, a))
  {
    MintsTheSame(s, t, s.procs[a.pid], a.pid, a.handle, a.family, a.now, a.version, a.fault);
  }

  lemma StartingIgnoresNodes(s: Sys, t: Sys, a: Action)
    requires SameButForNodes(s, t) && Enabled(s, a) && (a.Begin? || a.Get?)
    ensures SameButForNodes(Apply(s, a), Apply(t, a))
  {
  }

  lemma DeletingIgnoresNodes(s: Sys, t: Sys, a: Action)
    requires SameButForNodes(s, t) && Enabled(s, a) && a.Delete?
    ensures SameButForNodes(Apply(s, a), Apply(t, a))
  {
  }

  lemma AdminIgnoresNodes(s: Sys, t: Sys, a: Action)
    requires SameButForNodes(s, t) && Enabled(s, a) && (a.PutApp? || a.DeleteApp? || a.CacheApp?)
    ensures SameButForNodes(Apply(s, a), Apply(t, a))
  {
  }

  lemma DecidingIgnoresNodes(s: Sys, t: Sys, a: Action)
    requires SameButForNodes(s, t) && Enabled(s, a) && (a.LoadForAuthorize? || a.Check? || a.Authenticate? || a.Abandon?)
    ensures SameButForNodes(Apply(s, a), Apply(t, a))
  {
  }

  lemma StepIgnoresNodes(s: Sys, t: Sys, a: Action)
    requires SameButForNodes(s, t) && Enabled(s, a)
    ensures Enabled(t, a) && SameButForNodes(Apply(s, a), Apply(t, a))
  {
    if a.StoreState? {
      StoringStateIgnoresNodes(s, t, a);
    } else if a.StoreCode? {
      StoringCodeIgnoresNodes(s, t, a);
    } else if a.Mint? {
      MintingIgnoresNodes(s, t, a);
    } else if a.Begin? || a.Get? {
      StartingIgnoresNodes(s, t, a);
    } else if a.Delete? {
      DeletingIgnoresNodes(s, t, a);
    } else if a.PutApp? || a.DeleteApp? || a.CacheApp? {
      AdminIgnoresNodes(s, t, a);
    } else {
      DecidingIgnoresNodes(s, t, a);
    }
  }

  /**
   * Whatever the nodes remember locally - stale entries, entries of spent handles, nothing at all - every schedule has
   * the same outcome.
   */
  lemma {:induction false} RunIgnoresNodes(s: Sys, t: Sys, acts: seq<Action>)
    requires SameButForNodes(s, t) && Exec(s, acts).Some?
    ensures Exec(t, acts).Some? && SameButForNodes(Exec(s, acts).value, Exec(t, acts).value)
    decreases |acts|
  {
    if acts != [] {
      StepIgnoresNodes(s, t, acts[0]);
      RunIgnoresNodes(Apply(s, acts[0]), Apply(t, acts[0]), acts[1..]);
    }
  }
}
