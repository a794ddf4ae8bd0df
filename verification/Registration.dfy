/** What was registered when: the application record behind a request is the one that was stored when the request read it. */
module Registration {
  import opened Wrappers
  import opened Models
  import opened Storage
  import opened Protocol
  import opened Effects
  import opened ProtocolInvariant

  /** The application record a schedule's first m steps leave stored. */
  function StoredApp(acts: seq<Action>, m: nat, org: string, client: string): Option<Application>
    requires m <= |acts|
  {
    match Exec(Init, acts[..m])
    case None => None
    case Some(s) =>
      if AppKey(org, client) in s.store && s.store[AppKey(org, client)].data.AppPayload? then Some(s.store[AppKey(org, client)].data.app)
      else None
  }

  /** The request `pid` read its application at step m, and this is the record that was stored just then. */
  predicate LoadedAt(acts: seq<Action>, m: nat, pid: nat, req: AuthorizationRequest, app: Application) {
    && m < |acts| && acts[m].LoadForAuthorize? && acts[m].pid == pid && acts[m].req == req && acts[m].fault.NoFault?
    && StoredApp(acts, m, req.organizationID, req.clientID) == Some(app)
  }

  ghost predicate WasLoaded(acts: seq<Action>, pid: nat, req: AuthorizationRequest, app: Application) {
    exists m: nat :: LoadedAt(acts, m, pid, req, app)
  }

  lemma WasLoadedStays(acts: seq<Action>, more: seq<Action>, pid: nat, req: AuthorizationRequest, app: Application)
    requires WasLoaded(acts, pid, req, app) && acts <= more
    ensures WasLoaded(more, pid, req, app)
  {
    var m: nat :| LoadedAt(acts, m, pid, req, app);
    assert acts[..m] == more[..m];
    assert LoadedAt(more, m, pid, req, app);
  }

  /** Requests that have read their application, and states stored for requests, all have such a step behind them. */
  ghost predicate AllLoaded(acts: seq<Action>, s: Sys) {
    && (forall pid | pid in s.procs && s.procs[pid].Loaded? :: WasLoaded(acts, pid, s.procs[pid].req, s.procs[pid].app))
    && (forall k | k in s.hist.issued && s.hist.issued[k].source.Requested? ::
          WasLoaded(acts, s.hist.issued[k].pid, s.hist.issued[k].source.req, s.hist.issued[k].source.app))
  }

  /** A step makes a request read its application only by loading it. */
  ghost predicate LoadFrame(s: Sys, s': Sys, a: Action) {
    forall pid | pid in s'.procs && s'.procs[pid].Loaded? ::
      || (pid in s.procs && s.procs[pid] == s'.procs[pid])
      || (&& a.LoadForAuthorize? && a.pid == pid && a.req == s'.procs[pid].req && a.fault.NoFault?
          && var key := AppKey(a.req.organizationID, a.req.clientID);
             key in s.store && s.store[key].data == AppPayload(s'.procs[pid].app))
  }

  /** A step adds a state only for a request that has read its application, and then for that one. */
  ghost predicate StateFrame(s: Sys, s': Sys) {
    forall k | k in s'.hist.issued && s'.hist.issued[k].source.Requested? ::
      var i := s'.hist.issued[k];
      || (k in s.hist.issued && s.hist.issued[k] == i)
      || (i.pid in s.procs && s.procs[i.pid].Loaded? && s.procs[i.pid].req == i.source.req && s.procs[i.pid].app == i.source.app)
  }

  lemma ArrivalLoads(s: Sys, a: Action)
    requires Enabled(s, a) && (a.LoadForAuthorize? || a.Begin? || a.Get?)
    ensures LoadFrame(s, Apply(s, a), a)
  {
  }

  lemma DeleteLoads(s: Sys, p: Proc, pid: nat, fault: Fault)
    requires p.Read?
    ensures !DoDelete(s, p, pid, fault).procs[pid].Loaded?
  {
  }

  lemma DecisionLoads(s: Sys, a: Action)
    requires Enabled(s, a) && (a.Check? || a.Authenticate? || a.Abandon?)
    ensures !Apply(s, a).procs[a.pid].Loaded?
  {
  }

  lemma StepLoadFrame(s: Sys, a: Action)
    requires Enabled(s, a)
    ensures LoadFrame(s, Apply(s, a), a)
  {
    if IsStoring(a) {
      StoringEnds(s, a);
    } else if a.LoadForAuthorize? || a.Begin? || a.Get? {
      ArrivalLoads(s, a);
    } else if Actor(a).Some? {
      OthersMove(s, a);
      if a.Delete? {
        DeleteLoads(s, s.procs[a.pid], a.pid, a.fault);
      } else {
        DecisionLoads(s, a);
      }
    }
  }

  lemma StoresRequestedState(s: Sys, p: Proc, pid: nat, available: Option<seq<string>>, resolves: bool, hasURL: bool, handle: string, now: int,
                             version: string, fault: Fault)
    requires pid in s.procs && s.procs[pid] == p && p.Loaded?
    ensures StateFrame(s, DoStoreState(s, p, pid, available, resolves, hasURL, handle, now, version, fault))
  {
  }

  lemma StoresOtherRecords(s: Sys, key: Key, i: Issue, version: string, tokens: set<string>, fault: Fault, success: Outcome)
    requires !i.source.Requested?
    ensures StateFrame(s, StoreAndFinish(s, key, i, version, tokens, fault, success))
  {
  }

  lemma StepStateFrame(s: Sys, a: Action)
    requires Enabled(s, a)
    ensures StateFrame(s, Apply(s, a))
  {
    if a.StoreState? {
      StoresRequestedState(s, s.procs[a.pid], a.pid, a.available, a.resolves, a.hasURL, a.handle, a.now, a.version, a.fault);
    } else if a.StoreCode? {
      CodeStateFrame(s, s.procs[a.pid], a.pid, a.claims, a.handle, a.now, a.version, a.fault);
    } else if a.Mint? {
      TokenStateFrame(s, s.procs[a.pid], a.pid, a.handle, a.family, a.now, a.version, a.fault);
    } else if Actor(a).Some? {
      OthersMove(s, a);
    }
  }

  lemma CodeStateFrame(s: Sys, p: Proc, pid: nat, claims: Option<AuthClaims>, handle: string, now: int, version: string, fault: Fault)
    requires p.Holding? && p.stage.Accepted?
    ensures StateFrame(s, DoStoreCode(s, p, pid, claims, handle, now, version, fault))
  {
    if p.data.StatePayload? {
      StoresOtherRecords(s, CodeKey(handle), CodeIssue(s, p, pid, claims, now), version, {handle}, fault, CodeSent(handle));
    }
  }

  lemma TokenStateFrame(s: Sys, p: Proc, pid: nat, handle: string, family: string, now: int, version: string, fault: Fault)
    requires p.Holding? && p.stage.Authenticated?
    ensures StateFrame(s, DoMint(s, p, pid, handle, family, now, version, fault))
  {
    if p.stage.grant.base.Some? {
      var fam := if p.stage.grant.family == "" then family else p.stage.grant.family;
      StoresOtherRecords(s, RefreshKey(handle), MintIssue(s, p, pid, fam, now), version, {handle, fam}, fault, TokensSent(handle));
    }
  }

  lemma StepKeepsLoaded(acts: seq<Action>, s: Sys, a: Action)
    requires Exec(Init, acts) == Some(s) && AllLoaded(acts, s) && Enabled(s, a)
    ensures AllLoaded(acts + [a], Apply(s, a))
  {
    var more, s' := acts + [a], Apply(s, a);
    StepLoadFrame(s, a);
    StepStateFrame(s, a);
    forall pid | pid in s'.procs && s'.procs[pid].Loaded? ensures WasLoaded(more, pid, s'.procs[pid].req, s'.procs[pid].app) {
      if pid in s.procs && s.procs[pid] == s'.procs[pid] {
        WasLoadedStays(acts, more, pid, s'.procs[pid].req, s'.procs[pid].app);
      } else {
        assert more[..|acts|] == acts;
        assert LoadedAt(more, |acts|, pid, s'.procs[pid].req, s'.procs[pid].app);
      }
    }
    forall k | k in s'.hist.issued && s'.hist.issued[k].source.Requested?
      ensures WasLoaded(more, s'.hist.issued[k].pid, s'.hist.issued[k].source.req, s'.hist.issued[k].source.app)
    {
      var i := s'.hist.issued[k];
      WasLoadedStays(acts, more, i.pid, i.source.req, i.source.app);
    }
  }

  /** A prefix of a possible schedule is possible. */
  lemma {:induction false} ExecPrefix(s: Sys, acts: seq<Action>, m: nat)
    requires Exec(s, acts).Some? && m <= |acts|
    ensures Exec(s, acts[..m]).Some?
    decreases |acts|
  {
    if m > 0 {
      ExecPrefix(Apply(s, acts[0]), acts[1..], m - 1);
      assert acts[..m][1..] == acts[1..][..m - 1];
    }
  }

  lemma LastStep(acts: seq<Action>)
    requires acts != [] && Exec(Init, acts).Some?
    ensures var front := acts[..|acts| - 1];
            && Exec(Init, front).Some? && Enabled(Exec(Init, front).value, acts[|acts| - 1])
            && Exec(Init, acts) == Some(Apply(Exec(Init, front).value, acts[|acts| - 1]))
  {
    var front, last := acts[..|acts| - 1], acts[|acts| - 1];
    ExecPrefix(Init, acts, |acts| - 1);
    ExecAppend(Init, front, [last]);
    assert acts == front + [last];
    assert [last][1..] == [];
  }

  /** Whatever the schedule, every stored state's application record was the one stored when its request read it. */
  lemma {:induction false} StatesHadTheirApplication(acts: seq<Action>, s: Sys)
    requires Exec(Init, acts) == Some(s)
    ensures AllLoaded(acts, s)
    decreases |acts|
  {
    if acts != [] {
      LastStep(acts);
      var front, last := acts[..|acts| - 1], acts[|acts| - 1];
      StatesHadTheirApplication(front, Exec(Init, front).value);
      StepKeepsLoaded(front, Exec(Init, front).value, last);
      assert acts == front + [last];
    }
  }

  // --- the application a client authenticates against ---

  /** At step m a node read an application record into its cache, and this is what was stored just then. */
  predicate ReadAt(acts: seq<Action>, m: nat, slot: AppSlot, app: Application, at: int) {
    && m < |acts| && acts[m] == CacheApp(slot, at)
    && StoredApp(acts, m, slot.org, slot.client).Some? && app == Resolved(slot.org, StoredApp(acts, m, slot.org, slot.client).value)
  }

  /** At step j a request authenticated its client against what its node had read at step m, at most a minute earlier. */
  predicate AdmittedAt(acts: seq<Action>, m: nat, j: nat, slot: AppSlot, pid: nat, app: Application) {
    && m < j < |acts| && acts[j].Authenticate? && acts[j].pid == pid && acts[j].app == app
    && acts[m].CacheApp? && ReadAt(acts, m, slot, app, acts[m].now) && acts[j].now <= acts[m].now + MINUTE
  }

  /** A request was let in under the application's record as stored at most a minute before, by its node's clock. */
  ghost predicate WasAdmitted(acts: seq<Action>, pid: nat, app: Application) {
    exists m: nat, j: nat, slot ::
      AdmittedAt(acts, m, j, slot, pid, app) && slot.org == app.organizationID && slot.client == app.clientID
  }

  ghost predicate WasRead(acts: seq<Action>, slot: AppSlot, app: Application, at: int) {
    exists m: nat :: ReadAt(acts, m, slot, app, at)
  }

  lemma WasReadStays(acts: seq<Action>, more: seq<Action>, slot: AppSlot, app: Application, at: int)
    requires WasRead(acts, slot, app, at) && acts <= more
    ensures WasRead(more, slot, app, at)
  {
    var m: nat :| ReadAt(acts, m, slot, app, at);
    assert acts[..m] == more[..m];
    assert ReadAt(more, m, slot, app, at);
  }

  lemma WasAdmittedStays(acts: seq<Action>, more: seq<Action>, pid: nat, app: Application)
    requires WasAdmitted(acts, pid, app) && acts <= more
    ensures WasAdmitted(more, pid, app)
  {
    var m: nat, j: nat, slot :|
      AdmittedAt(acts, m, j, slot, pid, app) && slot.org == app.organizationID && slot.client == app.clientID;
    assert acts[..m] == more[..m];
    assert AdmittedAt(more, m, j, slot, pid, app);
  }

  ghost predicate AllRead(acts: seq<Action>, s: Sys) {
    forall slot {:trigger s.appCaches[slot]} | slot in s.appCaches :: WasRead(acts, slot, s.appCaches[slot].app, s.appCaches[slot].at)
  }

  ghost predicate AllAdmitted(acts: seq<Action>, s: Sys) {
    && (forall pid | pid in s.procs && s.procs[pid].Holding? && s.procs[pid].stage.Authenticated? ::
          WasAdmitted(acts, pid, s.procs[pid].stage.grant.app))
    && (forall n | 0 <= n < |s.hist.tokens| :: WasAdmitted(acts, s.hist.tokens[n].pid, s.hist.tokens[n].grant.app))
  }

  /** A step authenticates a request only by `Authenticate`, and sends tokens only for an authenticated request. */
  ghost predicate AdmitFrame(s: Sys, s': Sys, a: Action) {
    && (forall pid | pid in s'.procs && s'.procs[pid].Holding? && s'.procs[pid].stage.Authenticated? ::
          || (pid in s.procs && s.procs[pid] == s'.procs[pid])
          || (a.Authenticate? && a.pid == pid && s'.procs[pid].stage.grant.app == a.app))
    && (forall n | 0 <= n < |s'.hist.tokens| ::
          var ts := s'.hist.tokens[n];
          || (n < |s.hist.tokens| && s.hist.tokens[n] == ts)
          || (&& ts.pid in s.procs && s.procs[ts.pid].Holding? && s.procs[ts.pid].stage.Authenticated?
              && s.procs[ts.pid].stage.grant == ts.grant))
  }

  lemma MintSends(s: Sys, p: Proc, pid: nat, handle: string, family: string, now: int, version: string, fault: Fault)
    requires p.Holding? && p.stage.Authenticated?
    ensures var tokens := DoMint(s, p, pid, handle, family, now, version, fault).hist.tokens;
            tokens == s.hist.tokens || tokens == s.hist.tokens + [TokensFrom(p, p.stage.grant, handle, pid)]
  {
  }

  lemma StoreStateSendsNothing(s: Sys, p: Proc, a: Action)
    requires a.StoreState? && p.Loaded?
    ensures DoStoreState(s, p, a.pid, a.available, a.resolves, a.hasURL, a.handle, a.now, a.version, a.fault).hist.tokens == s.hist.tokens
  {
  }

  lemma StoreCodeSendsNothing(s: Sys, p: Proc, a: Action)
    requires a.StoreCode? && p.Holding? && p.stage.Accepted?
    ensures DoStoreCode(s, p, a.pid, a.claims, a.handle, a.now, a.version, a.fault).hist.tokens == s.hist.tokens
  {
  }

  lemma StoringAdmitFrame(s: Sys, a: Action)
    requires Enabled(s, a) && IsStoring(a)
    ensures AdmitFrame(s, Apply(s, a), a)
  {
    var p := s.procs[a.pid];
    StoringEnds(s, a);
    if a.StoreState? {
      StoreStateSendsNothing(s, p, a);
    } else if a.StoreCode? {
      StoreCodeSendsNothing(s, p, a);
    } else {
      MintSends(s, p, a.pid, a.handle, a.family, a.now, a.version, a.fault);
    }
  }

  lemma MovedUnauthenticated(s: Sys, a: Action)
    requires Enabled(s, a) && Actor(a).Some? && !IsStoring(a) && !a.Authenticate? && a.pid in Apply(s, a).procs
    ensures var q := Apply(s, a).procs[a.pid]; q.Holding? ==> !q.stage.Authenticated?
  {
  }

  lemma StepAdmitFrame(s: Sys, a: Action)
    requires Enabled(s, a)
    ensures AdmitFrame(s, Apply(s, a), a)
  {
    if IsStoring(a) {
      StoringAdmitFrame(s, a);
    } else if Actor(a).Some? {
      OthersMove(s, a);
      if !a.Authenticate? {
        MovedUnauthenticated(s, a);
      }
    }
  }

  lemma OnlyCachingCaches(s: Sys, a: Action)
    requires Enabled(s, a) && !a.CacheApp?
    ensures Apply(s, a).appCaches == s.appCaches
  {
    if IsStoring(a) {
      StoringEnds(s, a);
    } else if Actor(a).Some? {
      OthersMove(s, a);
    }
  }

  lemma StepKeepsRead(acts: seq<Action>, s: Sys, a: Action)
    requires Exec(Init, acts) == Some(s) && AllRead(acts, s) && Enabled(s, a)
    ensures AllRead(acts + [a], Apply(s, a))
  {
    var more, s' := acts + [a], Apply(s, a);
    if !a.CacheApp? {
      OnlyCachingCaches(s, a);
    }
    forall slot | slot in s'.appCaches ensures WasRead(more, slot, s'.appCaches[slot].app, s'.appCaches[slot].at) {
      if a.CacheApp? && slot == a.slot {
        assert more[..|acts|] == acts;
        assert ReadAt(more, |acts|, slot, s'.appCaches[slot].app, a.now);
      } else {
        WasReadStays(acts, more, slot, s.appCaches[slot].app, s.appCaches[slot].at);
      }
    }
  }

  lemma KnownHasOwner(s: Sys, slot: AppSlot, app: Application, now: int)
    requires Inv(s) && AppKnown(s, slot, app, now)
    ensures app.organizationID == slot.org && app.clientID == slot.client
  {
    KnownIsRegistered(s, slot, app, now);
  }

  lemma ReadThenAdmitted(acts: seq<Action>, a: Action, m: nat, slot: AppSlot, at: int)
    requires a.Authenticate? && ReadAt(acts, m, slot, a.app, at) && a.now <= at + MINUTE
    ensures AdmittedAt(acts + [a], m, |acts|, slot, a.pid, a.app)
  {
    var more := acts + [a];
    assert acts[..m] == more[..m] && acts[m] == more[m];
  }

  /** The step that authenticates a request does so under a record read at most a minute before. */
  lemma AuthenticateAdmits(acts: seq<Action>, s: Sys, a: Action)
    requires Inv(s) && AllRead(acts, s) && Enabled(s, a) && a.Authenticate?
    ensures WasAdmitted(acts + [a], a.pid, a.app)
  {
    var p := s.procs[a.pid];
    var slot := AppSlot(p.node, OwnerOf(p.data).0, OwnerOf(p.data).1);
    KnownHasOwner(s, slot, a.app, a.now);
    assert WasRead(acts, slot, a.app, s.appCaches[slot].at);
    var m: nat :| ReadAt(acts, m, slot, a.app, s.appCaches[slot].at);
    ReadThenAdmitted(acts, a, m, slot, s.appCaches[slot].at);
  }

  lemma StepKeepsAdmitted(acts: seq<Action>, s: Sys, a: Action)
    requires Exec(Init, acts) == Some(s) && Inv(s) && AllRead(acts, s) && AllAdmitted(acts, s) && Enabled(s, a)
    ensures AllAdmitted(acts + [a], Apply(s, a))
  {
    var more, s' := acts + [a], Apply(s, a);
    StepAdmitFrame(s, a);
    forall pid | pid in s'.procs && s'.procs[pid].Holding? && s'.procs[pid].stage.Authenticated?
      ensures WasAdmitted(more, pid, s'.procs[pid].stage.grant.app)
    {
      if pid in s.procs && s.procs[pid] == s'.procs[pid] {
        WasAdmittedStays(acts, more, pid, s'.procs[pid].stage.grant.app);
      } else {
        AuthenticateAdmits(acts, s, a);
      }
    }
    forall n | 0 <= n < |s'.hist.tokens| ensures WasAdmitted(more, s'.hist.tokens[n].pid, s'.hist.tokens[n].grant.app) {
      WasAdmittedStays(acts, more, s'.hist.tokens[n].pid, s'.hist.tokens[n].grant.app);
    }
  }

  lemma {:induction false} RunsRead(acts: seq<Action>, s: Sys)
    requires Exec(Init, acts) == Some(s)
    ensures AllRead(acts, s)
    decreases |acts|
  {
    if acts != [] {
      LastStep(acts);
      var front, last := acts[..|acts| - 1], acts[|acts| - 1];
      RunsRead(front, Exec(Init, front).value);
      StepKeepsRead(front, Exec(Init, front).value, last);
      assert acts == front + [last];
    }
  }

  lemma ScheduledInv(acts: seq<Action>, s: Sys)
    requires Exec(Init, acts) == Some(s)
    ensures Inv(s)
  {
    InitInv();
    RunKeepsInv(Init, acts);
  }

  lemma NextStepAdmits(acts: seq<Action>, s: Sys, a: Action)
    requires Exec(Init, acts) == Some(s) && AllAdmitted(acts, s) && Enabled(s, a)
    ensures AllAdmitted(acts + [a], Apply(s, a))
  {
    RunsRead(acts, s);
    ScheduledInv(acts, s);
    StepKeepsAdmitted(acts, s, a);
  }

  lemma {:induction false} RunsAdmit(acts: seq<Action>, s: Sys)
    requires Exec(Init, acts) == Some(s)
    ensures AllAdmitted(acts, s)
    decreases |acts|
  {
    if acts != [] {
      LastStep(acts);
      var front, last := acts[..|acts| - 1], acts[|acts| - 1];
      var before := Exec(Init, front).value;
      RunsAdmit(front, before);
      NextStepAdmits(front, before, last);
      assert acts == front + [last];
    }
  }

  /**
   * Whoever was sent tokens had been let in under the client's application record as it was stored at most a minute before,
   * by the clock of the node that let them in.
   */
  lemma TokensUseRecentRecord(acts: seq<Action>, s: Sys, n: nat)
    requires Exec(Init, acts) == Some(s) && n < |s.hist.tokens|
    ensures WasAdmitted(acts, s.hist.tokens[n].pid, s.hist.tokens[n].grant.app)
  {
    RunsAdmit(acts, s);
  }
}
