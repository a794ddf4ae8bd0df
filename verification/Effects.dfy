/** What the steps of the protocol machine leave alone, established one kind of step at a time. */
module Effects {
  import opened Wrappers
  import opened Models
  import opened Storage
  import opened Protocol

  /** The step ends its request and touches neither application records nor caches nor any other request. */
  predicate EndsRequest(s: Sys, s': Sys, pid: nat) {
    && s'.appCaches == s.appCaches && s'.hist.apps == s.hist.apps
    && pid in s'.procs && s'.procs[pid].Done? && s'.procs == s.procs[pid := s'.procs[pid]]
  }

  lemma StoreStateEnds(s: Sys, p: Proc, pid: nat, available: Option<seq<string>>, resolves: bool, hasURL: bool, handle: string, now: int,
                       version: string, fault: Fault)
    requires p.Loaded?
    ensures EndsRequest(s, DoStoreState(s, p, pid, available, resolves, hasURL, handle, now, version, fault), pid)
  {
  }

  lemma StoreCodeEnds(s: Sys, p: Proc, pid: nat, claims: Option<AuthClaims>, handle: string, now: int, version: string, fault: Fault)
    requires p.Holding? && p.stage.Accepted?
    ensures EndsRequest(s, DoStoreCode(s, p, pid, claims, handle, now, version, fault), pid)
  {
  }

  lemma MintEnds(s: Sys, p: Proc, pid: nat, handle: string, family: string, now: int, version: string, fault: Fault)
    requires p.Holding? && p.stage.Authenticated?
    ensures EndsRequest(s, DoMint(s, p, pid, handle, family, now, version, fault), pid)
  {
  }

  predicate IsStoring(a: Action) {
    a.StoreState? || a.StoreCode? || a.Mint?
  }

  lemma StoringEnds(s: Sys, a: Action)
    requires Enabled(s, a) && IsStoring(a)
    ensures EndsRequest(s, Apply(s, a), a.pid)
  {
    var p := s.procs[a.pid];
    if a.StoreState? {
      StoreStateEnds(s, p, a.pid, a.available, a.resolves, a.hasURL, a.handle, a.now, a.version, a.fault);
    } else if a.StoreCode? {
      StoreCodeEnds(s, p, a.pid, a.claims, a.handle, a.now, a.version, a.fault);
    } else {
      MintEnds(s, p, a.pid, a.handle, a.family, a.now, a.version, a.fault);
    }
  }

  /** The step moves its request along and touches neither the store's applications nor caches nor any other request. */
  predicate MovesRequest(s: Sys, s': Sys, pid: nat) {
    && s'.appCaches == s.appCaches && s'.hist.apps == s.hist.apps && s'.hist.tokens == s.hist.tokens && s'.hist.issued == s.hist.issued
    && pid in s'.procs && s'.procs == s.procs[pid := s'.procs[pid]]
  }

  lemma DeleteMoves(s: Sys, p: Proc, pid: nat, fault: Fault)
    requires p.Read?
    ensures MovesRequest(s, DoDelete(s, p, pid, fault), pid)
  {
  }

  lemma DecisionMoves(s: Sys, a: Action)
    requires Enabled(s, a) && (a.Check? || a.Authenticate? || a.Abandon?)
    ensures MovesRequest(s, Apply(s, a), a.pid)
  {
  }

  lemma ArrivalMoves(s: Sys, a: Action)
    requires Enabled(s, a) && (a.LoadForAuthorize? || a.Begin? || a.Get?)
    ensures MovesRequest(s, Apply(s, a), a.pid)
  {
  }

  lemma OthersMove(s: Sys, a: Action)
    requires Enabled(s, a) && Actor(a).Some? && !IsStoring(a)
    ensures MovesRequest(s, Apply(s, a), a.pid)
  {
    if a.Delete? {
      DeleteMoves(s, s.procs[a.pid], a.pid, a.fault);
    } else if a.Check? || a.Authenticate? || a.Abandon? {
      DecisionMoves(s, a);
    } else {
      ArrivalMoves(s, a);
    }
  }
}
