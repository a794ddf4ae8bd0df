/** The invariant every run of the authorization protocol keeps, proved one group and one step at a time. */
module ProtocolInvariant {
  import opened Wrappers
  import opened Models
  import opened Storage
  import opened Protocol

  predicate IsSession(k: Key) {
    !k.AppKey?
  }

  function FamilyOf(data: Payload): string {
    if data.RefreshPayload? then data.refresh.familyID else ""
  }

  // --- what the log of issued records satisfies by itself ---

  /** The application record behind `app` was stored for this organization and client at some moment of the run. */
  ghost predicate Registered(apps: set<AppRecord>, org: string, client: string, app: Application) {
    exists r :: r in apps && r.org == org && r.client == client && app == Resolved(org, r.app)
  }

  /** A state record repeats the request that asked for it, and that request passed every check. */
  ghost predicate RootOk(apps: set<AppRecord>, st: AuthState, src: Source)
    requires src.Requested?
  {
    && AppRecord(src.req.organizationID, src.req.clientID, src.app) in apps
    && RequestAcceptable(src.app, src.req)
    && SelectIDP(src.app, src.req, src.available) == Some(st.upstreamIDP)
    && st == NewState(src.req, st.upstreamIDP, st.createdAt)
  }

  predicate CodeFrom(st: AuthState, code: AuthCode, checkedAt: int) {
    && StateFresh(st, checkedAt)
    && code == NewCode(st, code.claims, code.createdAt)
  }

  /** A grant obtained from a record: the checks it passed and what it carries over. */
  ghost predicate GrantFrom(apps: set<AppRecord>, data: Payload, g: Grant, checkedAt: int) {
    match data
    case CodePayload(c) =>
      && CodeRedeemable(c, g.treq, checkedAt)
      && CodeClientAuthenticated(g.app, c, g.treq)
      && Registered(apps, c.organizationID, c.clientID, g.app)
      && g == Grant(g.treq, g.app, c.claims, c.scope, c.nonce, "")
    case RefreshPayload(rt) =>
      && RefreshRedeemable(rt, g.treq, checkedAt)
      && RefreshClientAuthenticated(g.app, g.treq)
      && Registered(apps, rt.organizationID, rt.clientID, g.app)
      && g == Grant(g.treq, g.app, Some(rt.claims), rt.scope, "", rt.familyID)
    case _ => false
  }

  ghost predicate RefreshFrom(apps: set<AppRecord>, data: Payload, rt: RefreshToken, src: Source)
    requires src.FromGrant?
  {
    && GrantFrom(apps, data, src.grant, src.checkedAt)
    && src.grant.base.Some?
    && rt.familyID != ""
    && (src.grant.family != "" ==> rt.familyID == src.grant.family)
    && rt == NewRefresh(src.grant.app, src.grant.base.value, src.grant.scope, rt.familyID, rt.createdAt)
  }

  /** One record of the log is what its parent record and its source say it is. */
  ghost predicate EdgeOk(apps: set<AppRecord>, issued: map<Key, Issue>, k: Key)
    requires k in issued
  {
    var i := issued[k];
    match i.source
    case Requested(_, _, _) => k.StateKey? && i.data.StatePayload? && RootOk(apps, i.data.state, i.source)
    case FromState(parent, at) =>
      && k.CodeKey? && i.data.CodePayload? && parent in issued
      && issued[parent].seqno < i.seqno
      && issued[parent].data.StatePayload?
      && CodeFrom(issued[parent].data.state, i.data.code, at)
    case FromGrant(parent, _, _) =>
      && k.RefreshKey? && i.data.RefreshPayload? && parent in issued
      && issued[parent].seqno < i.seqno
      && RefreshFrom(apps, issued[parent].data, i.data.refresh, i.source)
  }

  predicate IsChildOf(issued: map<Key, Issue>, child: Key, parent: Key) {
    child in issued && !issued[child].source.Requested? && issued[child].source.parent == parent
  }

  ghost predicate Childless(issued: map<Key, Issue>, parent: Key) {
    forall k | k in issued :: !IsChildOf(issued, k, parent)
  }

  /** The first refresh token of a family: the one a code redemption minted. */
  predicate IsFamilyRoot(issued: map<Key, Issue>, k: Key) {
    k in issued && issued[k].source.FromGrant? && issued[k].source.parent.CodeKey?
  }

  // --- the invariant, one group per aspect and over just the components it speaks of ---

  ghost predicate AppsOk(store: map<Key, Record>, apps: set<AppRecord>) {
    && (forall r | r in apps :: WellFiled(r.org, r.client, r.app))
    && (forall k | k in store && k.AppKey? ::
          store[k].data.AppPayload? && AppRecord(k.org, k.client, store[k].data.app) in apps)
  }

  ghost predicate StoreOk(store: map<Key, Record>, issued: map<Key, Issue>) {
    forall k | k in store && IsSession(k) :: k in issued && store[k].data == issued[k].data
  }

  ghost predicate LogOk(apps: set<AppRecord>, issued: map<Key, Issue>) {
    && (forall k {:trigger EdgeOk(apps, issued, k)} | k in issued :: EdgeOk(apps, issued, k))
    && (forall k | k in issued :: issued[k].seqno < |issued|)
  }

  ghost predicate UsedOk(issued: map<Key, Issue>, used: set<string>) {
    forall k | k in issued ::
      && IsSession(k) && k.handle in used
      && (k.RefreshKey? ==> FamilyOf(issued[k].data) in used)
  }

  /** Every record has at most one child, and none while it is still stored. */
  ghost predicate LinearOk(store: map<Key, Record>, issued: map<Key, Issue>) {
    && (forall j, k, p | IsChildOf(issued, j, p) && IsChildOf(issued, k, p) :: j == k)
    && (forall k, p | IsChildOf(issued, k, p) :: p !in store)
  }

  ghost predicate FamilyOk(issued: map<Key, Issue>) {
    forall j, k | IsFamilyRoot(issued, j) && IsFamilyRoot(issued, k)
                  && FamilyOf(issued[j].data) == FamilyOf(issued[k].data) :: j == k
  }

  /** A request stores at most one session record, as its last step. */
  ghost predicate RequestOk(issued: map<Key, Issue>, procs: map<nat, Proc>) {
    && (forall k | k in issued :: issued[k].pid in procs && procs[issued[k].pid].Done?)
    && (forall j, k | j in issued && k in issued && issued[j].pid == issued[k].pid :: j == k)
  }

  ghost predicate ReceiptOk(received: set<Receipt>, issued: map<Key, Issue>, store: map<Key, Record>, procs: map<nat, Proc>) {
    && (forall r | r in received ::
          && r.key in issued && r.key !in store && r.data == issued[r.key].data
          && r.pid in procs && (procs[r.pid].Holding? || procs[r.pid].Done?))
    && (forall q, r | q in received && r in received && q.key == r.key :: q == r)
  }

  ghost predicate StageOk(apps: set<AppRecord>, p: Proc)
    requires p.Holding?
  {
    match p.stage
    case Claimed => true
    case Accepted(at) => CheckPasses(p, at)
    case Authenticated(at, g) => !p.purpose.ToComplete? && CheckPasses(p, at) && GrantFrom(apps, p.data, g, at)
  }

  ghost predicate ProcOk(pid: nat, p: Proc, apps: set<AppRecord>, issued: map<Key, Issue>, received: set<Receipt>) {
    match p
    case Loaded(_, req, app) => AppRecord(req.organizationID, req.clientID, app) in apps
    case Read(_, purpose, record) =>
      purpose.Key() in issued && record.data == issued[purpose.Key()].data && record.version != ""
    case Holding(_, purpose, data, _) =>
      && purpose.Key() in issued
      && Receipt(pid, purpose.Key(), data) in received
      && Childless(issued, purpose.Key())
      && StageOk(apps, p)
    case _ => true
  }

  ghost predicate ProcsOk(procs: map<nat, Proc>, apps: set<AppRecord>, issued: map<Key, Issue>, received: set<Receipt>) {
    forall pid {:trigger ProcOk(pid, procs[pid], apps, issued, received)} | pid in procs :: ProcOk(pid, procs[pid], apps, issued, received)
  }

  ghost predicate TokenOk(ts: TokenSet, apps: set<AppRecord>, issued: map<Key, Issue>) {
    && ts.source in issued
    && GrantFrom(apps, issued[ts.source].data, ts.grant, ts.checkedAt)
    && ts.organizationID == ts.grant.app.organizationID
    && ts.clientID == ts.grant.app.clientID
    && ts.scope == ts.grant.scope
    && ts.idTokenNonce == ts.grant.nonce
    && IsChildOf(issued, RefreshKey(ts.refreshHandle), ts.source)
  }

  ghost predicate TokensOk(tokens: seq<TokenSet>, apps: set<AppRecord>, issued: map<Key, Issue>) {
    && (forall i {:trigger TokenOk(tokens[i], apps, issued)} | 0 <= i < |tokens| :: TokenOk(tokens[i], apps, issued))
    && (forall i, j | 0 <= i < j < |tokens| :: tokens[i].source != tokens[j].source)
  }

  /** Every cached application was once stored under the organization and client it is cached for. */
  ghost predicate AppCachesOk(appCaches: map<AppSlot, CachedApp>, apps: set<AppRecord>) {
    forall slot {:trigger appCaches[slot]} | slot in appCaches :: Registered(apps, slot.org, slot.client, appCaches[slot].app)
  }

  ghost predicate Inv(s: Sys) {
    var h := s.hist;
    && AppsOk(s.store, h.apps) && AppCachesOk(s.appCaches, h.apps) && StoreOk(s.store, h.issued) && LogOk(h.apps, h.issued) && UsedOk(h.issued, s.used)
    && LinearOk(s.store, h.issued) && FamilyOk(h.issued) && RequestOk(h.issued, s.procs)
    && ReceiptOk(h.received, h.issued, s.store, s.procs) && ProcsOk(s.procs, h.apps, h.issued, h.received)
    && TokensOk(h.tokens, h.apps, h.issued)
  }

  lemma InitInv()
    ensures Inv(Init)
  {
  }

  // --- steps that only move one unfinished request along ---

  ghost predicate QuietStep(s: Sys, s': Sys, pid: nat, q: Proc) {
    && s'.store == s.store && s'.appCaches == s.appCaches && s.used <= s'.used
    && s'.hist == s.hist.(ended := s'.hist.ended)
    && s'.procs == s.procs[pid := q]
    && (pid in s.procs ==> !s.procs[pid].Done? && (s.procs[pid].Holding? ==> q.Holding? || q.Done?))
  }

  lemma RequestMove(issued: map<Key, Issue>, procs: map<nat, Proc>, pid: nat, q: Proc)
    requires RequestOk(issued, procs) && (pid in procs ==> !procs[pid].Done?)
    ensures RequestOk(issued, procs[pid := q])
  {
  }

  lemma ReceiptMove(received: set<Receipt>, issued: map<Key, Issue>, store: map<Key, Record>, procs: map<nat, Proc>, pid: nat, q: Proc)
    requires ReceiptOk(received, issued, store, procs)
    requires pid in procs && (procs[pid].Holding? || procs[pid].Done?) ==> q.Holding? || q.Done?
    ensures ReceiptOk(received, issued, store, procs[pid := q])
  {
  }

  lemma ProcsMove(procs: map<nat, Proc>, apps: set<AppRecord>, issued: map<Key, Issue>, received: set<Receipt>, pid: nat, q: Proc)
    requires ProcsOk(procs, apps, issued, received) && ProcOk(pid, q, apps, issued, received)
    ensures ProcsOk(procs[pid := q], apps, issued, received)
  {
  }

  lemma QuietKeepsInv(s: Sys, s': Sys, pid: nat, q: Proc)
    requires Inv(s) && QuietStep(s, s', pid, q) && ProcOk(pid, q, s.hist.apps, s.hist.issued, s.hist.received)
    ensures Inv(s')
  {
    RequestMove(s.hist.issued, s.procs, pid, q);
    ReceiptMove(s.hist.received, s.hist.issued, s.store, s.procs, pid, q);
    ProcsMove(s.procs, s.hist.apps, s.hist.issued, s.hist.received, pid, q);
  }

  lemma FinishKeepsInv(s: Sys, pid: nat, o: Outcome)
    requires Inv(s) && (pid in s.procs ==> !s.procs[pid].Done?)
    ensures Inv(Finish(s, pid, o))
  {
    QuietKeepsInv(s, Finish(s, pid, o), pid, Done(o));
  }

  lemma FailedClaimKeepsInv(s: Sys, pid: nat, k: Key)
    requires Inv(s) && (pid in s.procs ==> !s.procs[pid].Done?)
    ensures Inv(Ended(Finish(s, pid, Failed), pid, k))
  {
    QuietKeepsInv(s, Ended(Finish(s, pid, Failed), pid, k), pid, Done(Failed));
  }

  lemma GrantOfIsGrantFrom(apps: set<AppRecord>, p: Proc, app: Application, at: int)
    requires p.Holding? && CheckPasses(p, at)
    requires Registered(apps, OwnerOf(p.data).0, OwnerOf(p.data).1, app)
    requires GrantOf(p, app).Some?
    ensures GrantFrom(apps, p.data, GrantOf(p, app).value, at)
  {
  }

  lemma LoadKeepsInv(s: Sys, a: Action)
    requires Inv(s) && Enabled(s, a) && (a.LoadForAuthorize? || a.Begin? || a.Abandon?)
    ensures Inv(Apply(s, a))
  {
    var s' := Apply(s, a);
    FinishKeepsInv(s, a.pid, Failed);
    if s' != Finish(s, a.pid, Failed) {
      QuietKeepsInv(s, s', a.pid, s'.procs[a.pid]);
    }
  }

  lemma GetKeepsInv(s: Sys, pid: nat, fault: Fault)
    requires Inv(s) && Enabled(s, Get(pid, fault))
    ensures Inv(Apply(s, Get(pid, fault)))
  {
    var key := s.procs[pid].purpose.Key();
    if fault.NoFault? && key in s.store && s.store[key].version != "" {
      QuietKeepsInv(s, Apply(s, Get(pid, fault)), pid, Read(s.procs[pid].node, s.procs[pid].purpose, s.store[key]));
    } else {
      FailedClaimKeepsInv(s, pid, key);
    }
  }

  lemma CheckKeepsInv(s: Sys, pid: nat, now: int)
    requires Inv(s) && Enabled(s, Check(pid, now))
    ensures Inv(Apply(s, Check(pid, now)))
  {
    var s' := Apply(s, Check(pid, now));
    var p := s.procs[pid];
    FinishKeepsInv(s, pid, Failed);
    if CheckPasses(p, now) {
      assert ProcOk(pid, p, s.hist.apps, s.hist.issued, s.hist.received);
      QuietKeepsInv(s, s', pid, p.(stage := Accepted(now)));
    }
  }

  // --- the versioned Delete ---

  /** Removing a session record leaves every aspect of the store in order. */
  lemma RemoveKeepsStore(store: map<Key, Record>, s: Sys, k: Key)
    requires Inv(s) && IsSession(k) && store == s.store - {k}
    ensures AppsOk(store, s.hist.apps) && StoreOk(store, s.hist.issued) && LinearOk(store, s.hist.issued)
    ensures ReceiptOk(s.hist.received, s.hist.issued, store, s.procs)
  {
  }

  lemma ReceiveKeepsReceipts(s: Sys, store: map<Key, Record>, procs: map<nat, Proc>, r: Receipt)
    requires ReceiptOk(s.hist.received, s.hist.issued, s.store, s.procs)
    requires r.key in s.store && r.key in s.hist.issued && r.data == s.hist.issued[r.key].data
    requires store == s.store - {r.key}
    requires r.pid in s.procs && r.pid in procs && procs == s.procs[r.pid := procs[r.pid]] && procs[r.pid].Holding?
    ensures ReceiptOk(s.hist.received + {r}, s.hist.issued, store, procs)
  {
  }

  lemma ReceiveKeepsProcs(s: Sys, procs: map<nat, Proc>, r: Receipt)
    requires Inv(s) && r.pid in s.procs && r.pid in procs && procs == s.procs[r.pid := procs[r.pid]]
    requires ProcOk(r.pid, procs[r.pid], s.hist.apps, s.hist.issued, s.hist.received + {r})
    ensures ProcsOk(procs, s.hist.apps, s.hist.issued, s.hist.received + {r})
  {
    forall x | x in procs && x != r.pid ensures ProcOk(x, procs[x], s.hist.apps, s.hist.issued, s.hist.received + {r}) {
      assert ProcOk(x, s.procs[x], s.hist.apps, s.hist.issued, s.hist.received);
    }
  }

  lemma DropKeepsInv(s: Sys, k: Key)
    requires Inv(s) && IsSession(k)
    ensures Inv(s.(store := s.store - {k}))
  {
    RemoveKeepsStore(s.store - {k}, s, k);
  }

  /** The winning Delete: the record leaves the store and its payload reaches one request. */
  lemma ClaimKeepsInv(s: Sys, s': Sys, pid: nat, key: Key, q: Proc, data: Payload)
    requires Inv(s) && pid in s.procs && s.procs[pid].Read? && IsSession(key) && key in s.store
    requires data == s.hist.issued[key].data
    requires q.Holding? && q.stage.Claimed? && q.purpose.Key() == key && q.data == data
    requires s'.store == s.store - {key} && s'.appCaches == s.appCaches && s'.used == s.used && s'.procs == s.procs[pid := q]
    requires s'.hist == s.hist.(received := s.hist.received + {Receipt(pid, key, data)}, ended := s'.hist.ended)
    ensures Inv(s')
  {
    RemoveKeepsStore(s'.store, s, key);
    RequestMove(s.hist.issued, s.procs, pid, q);
    ReceiveKeepsReceipts(s, s'.store, s'.procs, Receipt(pid, key, data));
    assert Childless(s.hist.issued, key);
    ReceiveKeepsProcs(s, s'.procs, Receipt(pid, key, data));
  }

  lemma ReadFacts(s: Sys, pid: nat)
    requires Inv(s) && pid in s.procs && s.procs[pid].Read?
    ensures var p := s.procs[pid]; p.purpose.Key() in s.hist.issued && p.record.data == s.hist.issued[p.purpose.Key()].data
  {
    assert ProcOk(pid, s.procs[pid], s.hist.apps, s.hist.issued, s.hist.received);
  }

  lemma DeleteKeepsInv(s: Sys, pid: nat, fault: Fault)
    requires Inv(s) && Enabled(s, Delete(pid, fault))
    ensures Inv(Apply(s, Delete(pid, fault)))
  {
    var p := s.procs[pid];
    var key := p.purpose.Key();
    if key !in s.store || s.store[key].version != p.record.version || fault.LostRequest? {
      FailedClaimKeepsInv(s, pid, key);
    } else if fault.LostReply? {
      UnansweredDelete(s, pid, key);
    } else {
      ReadFacts(s, pid);
      ClaimKeepsInv(s, DoDelete(s, p, pid, NoFault), pid, key, Holding(p.node, p.purpose, p.record.data, Claimed), p.record.data);
    }
  }

  lemma UnansweredDelete(s: Sys, pid: nat, key: Key)
    requires Inv(s) && IsSession(key) && (pid in s.procs ==> !s.procs[pid].Done?)
    ensures Inv(Ended(Finish(s.(store := s.store - {key}), pid, Failed), pid, key))
  {
    DropKeepsInv(s, key);
    FailedClaimKeepsInv(s.(store := s.store - {key}), pid, key);
  }

  // --- administrators ---

  lemma KnownIsRegistered(s: Sys, slot: AppSlot, app: Application, now: int)
    requires AppCachesOk(s.appCaches, s.hist.apps) && AppKnown(s, slot, app, now)
    ensures Registered(s.hist.apps, slot.org, slot.client, app)
  {
  }

  lemma GrantFromMonotone(apps: set<AppRecord>, apps': set<AppRecord>, data: Payload, g: Grant, at: int)
    requires apps <= apps' && GrantFrom(apps, data, g, at)
    ensures GrantFrom(apps', data, g, at)
  {
  }

  lemma LogMonotone(apps: set<AppRecord>, apps': set<AppRecord>, issued: map<Key, Issue>)
    requires apps <= apps' && LogOk(apps, issued)
    ensures LogOk(apps', issued)
  {
    forall k | k in issued ensures EdgeOk(apps', issued, k) {
      assert EdgeOk(apps, issued, k);
      var src := issued[k].source;
      if src.FromGrant? {
        GrantFromMonotone(apps, apps', issued[src.parent].data, src.grant, src.checkedAt);
      }
    }
  }

  lemma ProcsMonotone(s: Sys, apps': set<AppRecord>)
    requires s.hist.apps <= apps' && ProcsOk(s.procs, s.hist.apps, s.hist.issued, s.hist.received)
    ensures ProcsOk(s.procs, apps', s.hist.issued, s.hist.received)
  {
    forall pid | pid in s.procs ensures ProcOk(pid, s.procs[pid], apps', s.hist.issued, s.hist.received) {
      var p := s.procs[pid];
      assert ProcOk(pid, p, s.hist.apps, s.hist.issued, s.hist.received);
      if p.Holding? && p.stage.Authenticated? {
        GrantFromMonotone(s.hist.apps, apps', p.data, p.stage.grant, p.stage.checkedAt);
      }
    }
  }

  lemma TokensMonotone(s: Sys, apps': set<AppRecord>)
    requires s.hist.apps <= apps' && TokensOk(s.hist.tokens, s.hist.apps, s.hist.issued)
    ensures TokensOk(s.hist.tokens, apps', s.hist.issued)
  {
    forall i | 0 <= i < |s.hist.tokens| ensures TokenOk(s.hist.tokens[i], apps', s.hist.issued) {
      var ts := s.hist.tokens[i];
      assert TokenOk(ts, s.hist.apps, s.hist.issued);
      GrantFromMonotone(s.hist.apps, apps', s.hist.issued[ts.source].data, ts.grant, ts.checkedAt);
    }
  }

  lemma AppCachesMonotone(appCaches: map<AppSlot, CachedApp>, apps: set<AppRecord>, apps': set<AppRecord>)
    requires apps <= apps' && AppCachesOk(appCaches, apps)
    ensures AppCachesOk(appCaches, apps')
  {
    forall slot | slot in appCaches ensures Registered(apps', slot.org, slot.client, appCaches[slot].app) {
      assert Registered(apps, slot.org, slot.client, appCaches[slot].app);
    }
  }

  lemma CachingKeepsInv(s: Sys, a: Action)
    requires Inv(s) && a.CacheApp? && Enabled(s, a)
    ensures Inv(Apply(s, a))
  {
    var app := s.store[AppKey(a.slot.org, a.slot.client)].data.app;
    assert AppRecord(a.slot.org, a.slot.client, app) in s.hist.apps;
    assert Registered(s.hist.apps, a.slot.org, a.slot.client, Resolved(a.slot.org, app));
  }

  lemma AdminKeepsInv(s: Sys, a: Action)
    requires Inv(s) && Enabled(s, a) && (a.PutApp? || a.DeleteApp?)
    ensures Inv(Apply(s, a))
  {
    var s' := Apply(s, a);
    assert AppsOk(s'.store, s'.hist.apps);
    assert StoreOk(s'.store, s'.hist.issued);
    assert forall k | IsSession(k) :: k in s'.store <==> k in s.store;
    AdminKeepsSessions(s, s');
    AppCachesMonotone(s.appCaches, s.hist.apps, s'.hist.apps);
    LogMonotone(s.hist.apps, s'.hist.apps, s.hist.issued);
    ProcsMonotone(s, s'.hist.apps);
    TokensMonotone(s, s'.hist.apps);
  }

  lemma AdminKeepsSessions(s: Sys, s': Sys)
    requires Inv(s) && s'.hist.issued == s.hist.issued && s'.hist.received == s.hist.received && s'.procs == s.procs
    requires forall k | IsSession(k) :: k in s'.store <==> k in s.store
    ensures LinearOk(s'.store, s.hist.issued)
    ensures ReceiptOk(s.hist.received, s.hist.issued, s'.store, s.procs)
  {
    forall k, p | IsChildOf(s.hist.issued, k, p) ensures p !in s'.store {
      assert EdgeOk(s.hist.apps, s.hist.issued, k);
      assert IsSession(p);
    }
    forall r | r in s.hist.received ensures r.key !in s'.store {
      assert IsSession(r.key);
    }
  }

  // --- storing a new session record ---

  /** What every storing step guarantees about the record it adds. */
  ghost predicate NewIssue(s: Sys, key: Key, i: Issue) {
    && IsSession(key) && key !in s.hist.issued
    && i.pid in s.procs && !s.procs[i.pid].Done?
    && i.seqno == |s.hist.issued|
    && (i.source.Requested? || (i.source.parent in s.hist.issued && i.source.parent !in s.store && Childless(s.hist.issued, i.source.parent)))
    && EdgeOk(s.hist.apps, s.hist.issued[key := i], key)
    && (IsFamilyRoot(s.hist.issued[key := i], key) ==> FamilyOf(i.data) !in s.used)
  }

  lemma OldEdgeStays(apps: set<AppRecord>, issued: map<Key, Issue>, key: Key, i: Issue, k: Key)
    requires k in issued && key !in issued && EdgeOk(apps, issued, k)
    ensures EdgeOk(apps, issued[key := i], k)
  {
  }

  lemma IssueKeepsOrder(issued: map<Key, Issue>, key: Key, i: Issue)
    requires key !in issued && i.seqno == |issued| && forall k | k in issued :: issued[k].seqno < |issued|
    ensures var more := issued[key := i]; forall k | k in more :: more[k].seqno < |more|
  {
    assert issued[key := i].Keys == issued.Keys + {key};
    assert |issued[key := i]| == |issued| + 1;
  }

  lemma IssueKeepsLog(s: Sys, key: Key, i: Issue)
    requires LogOk(s.hist.apps, s.hist.issued) && NewIssue(s, key, i)
    ensures LogOk(s.hist.apps, s.hist.issued[key := i])
  {
    IssueKeepsOrder(s.hist.issued, key, i);
    var issued' := s.hist.issued[key := i];
    forall k | k in issued' ensures EdgeOk(s.hist.apps, issued', k) {
      if k != key {
        assert EdgeOk(s.hist.apps, s.hist.issued, k);
        OldEdgeStays(s.hist.apps, s.hist.issued, key, i, k);
      }
    }
  }

  lemma FamilyRootsOld(s: Sys, key: Key, i: Issue, k: Key)
    requires UsedOk(s.hist.issued, s.used) && LogOk(s.hist.apps, s.hist.issued) && key !in s.hist.issued && k != key
    requires IsFamilyRoot(s.hist.issued[key := i], k)
    ensures IsFamilyRoot(s.hist.issued, k) && FamilyOf(s.hist.issued[k].data) in s.used
  {
    assert EdgeOk(s.hist.apps, s.hist.issued, k);
  }

  lemma IssueKeepsFamilies(s: Sys, key: Key, i: Issue)
    requires UsedOk(s.hist.issued, s.used) && LogOk(s.hist.apps, s.hist.issued) && FamilyOk(s.hist.issued) && NewIssue(s, key, i)
    ensures FamilyOk(s.hist.issued[key := i])
  {
    var issued' := s.hist.issued[key := i];
    forall j, k | IsFamilyRoot(issued', j) && IsFamilyRoot(issued', k) && FamilyOf(issued'[j].data) == FamilyOf(issued'[k].data)
      ensures j == k
    {
      if j != key {
        FamilyRootsOld(s, key, i, j);
      }
      if k != key {
        FamilyRootsOld(s, key, i, k);
      }
    }
  }

  lemma IssueKeepsRequests(s: Sys, key: Key, i: Issue, o: Outcome)
    requires RequestOk(s.hist.issued, s.procs) && NewIssue(s, key, i)
    ensures RequestOk(s.hist.issued[key := i], s.procs[i.pid := Done(o)])
  {
  }

  lemma IssueKeepsStore(s: Sys, key: Key, i: Issue, version: string)
    requires Inv(s) && NewIssue(s, key, i)
    ensures AppsOk(s.store[key := Versioned(version, i.data)], s.hist.apps)
    ensures StoreOk(s.store[key := Versioned(version, i.data)], s.hist.issued[key := i])
  {
  }

  lemma IssueKeepsReceipts(s: Sys, key: Key, i: Issue, version: string, o: Outcome)
    requires ReceiptOk(s.hist.received, s.hist.issued, s.store, s.procs) && NewIssue(s, key, i)
    ensures ReceiptOk(s.hist.received, s.hist.issued[key := i], s.store[key := Versioned(version, i.data)], s.procs[i.pid := Done(o)])
  {
  }

  lemma IssueKeepsLinear(s: Sys, key: Key, i: Issue, r: Record)
    requires Inv(s) && NewIssue(s, key, i)
    ensures LinearOk(s.store[key := r], s.hist.issued[key := i])
  {
    var issued' := s.hist.issued[key := i];
    forall k, p | IsChildOf(issued', k, p)
      ensures p in s.hist.issued && p !in s.store[key := r]
      ensures k != key ==> IsChildOf(s.hist.issued, k, p)
    {
      if k != key {
        assert EdgeOk(s.hist.apps, s.hist.issued, k);
        assert IsChildOf(s.hist.issued, k, p);
      }
    }
  }

  lemma IssueKeepsProcs(s: Sys, key: Key, i: Issue, o: Outcome)
    requires Inv(s) && NewIssue(s, key, i)
    requires !i.source.Requested? ==> exists d :: Receipt(i.pid, i.source.parent, d) in s.hist.received
    ensures ProcsOk(s.procs[i.pid := Done(o)], s.hist.apps, s.hist.issued[key := i], s.hist.received)
  {
    var issued' := s.hist.issued[key := i];
    forall x | x in s.procs && x != i.pid ensures ProcOk(x, s.procs[x], s.hist.apps, issued', s.hist.received) {
      var p := s.procs[x];
      assert ProcOk(x, p, s.hist.apps, s.hist.issued, s.hist.received);
      if p.Holding? {
        forall k | k in issued' ensures !IsChildOf(issued', k, p.purpose.Key()) {
          assert k != key ==> !IsChildOf(s.hist.issued, k, p.purpose.Key());
        }
      }
    }
  }

  lemma IssueKeepsTokens(s: Sys, key: Key, i: Issue)
    requires Inv(s) && key !in s.hist.issued
    ensures TokensOk(s.hist.tokens, s.hist.apps, s.hist.issued[key := i])
  {
    forall n | 0 <= n < |s.hist.tokens| ensures TokenOk(s.hist.tokens[n], s.hist.apps, s.hist.issued[key := i]) {
      assert TokenOk(s.hist.tokens[n], s.hist.apps, s.hist.issued);
    }
  }

  lemma IssueKeepsUsed(issued: map<Key, Issue>, used: set<string>, used': set<string>, key: Key, i: Issue)
    requires UsedOk(issued, used) && used <= used' && IsSession(key)
    requires key.handle in used' && (key.RefreshKey? ==> FamilyOf(i.data) in used')
    ensures UsedOk(issued[key := i], used')
  {
  }

  /** Storing a record and finishing the request that stored it keeps the invariant. */
  lemma IssueKeepsInv(s: Sys, s': Sys, key: Key, i: Issue, version: string, o: Outcome)
    requires Inv(s) && NewIssue(s, key, i)
    requires !i.source.Requested? ==> exists d :: Receipt(i.pid, i.source.parent, d) in s.hist.received
    requires s'.store == s.store[key := Versioned(version, i.data)] && s'.appCaches == s.appCaches
    requires s'.hist == s.hist.(issued := s.hist.issued[key := i])
    requires s'.procs == s.procs[i.pid := Done(o)]
    requires s.used <= s'.used && key.handle in s'.used && (key.RefreshKey? ==> FamilyOf(i.data) in s'.used)
    ensures Inv(s')
  {
    IssueKeepsLog(s, key, i);
    IssueKeepsFamilies(s, key, i);
    IssueKeepsRequests(s, key, i, o);
    IssueKeepsStore(s, key, i, version);
    IssueKeepsReceipts(s, key, i, version, o);
    IssueKeepsLinear(s, key, i, Versioned(version, i.data));
    IssueKeepsProcs(s, key, i, o);
    IssueKeepsTokens(s, key, i);
    IssueKeepsUsed(s.hist.issued, s.used, s'.used, key, i);
  }

  lemma StoringKeepsInv(s: Sys, key: Key, i: Issue, version: string, tokens: set<string>, fault: Fault, success: Outcome)
    requires Inv(s) && NewIssue(s, key, i)
    requires !i.source.Requested? ==> exists d :: Receipt(i.pid, i.source.parent, d) in s.hist.received
    requires key.handle in tokens && (key.RefreshKey? ==> FamilyOf(i.data) in tokens)
    ensures Inv(StoreAndFinish(s, key, i, version, tokens, fault, success))
  {
    var s' := StoreAndFinish(s, key, i, version, tokens, fault, success);
    if fault.LostRequest? {
      QuietKeepsInv(s, s', i.pid, Done(Failed));
    } else {
      IssueKeepsInv(s, s', key, i, version, s'.procs[i.pid].outcome);
    }
  }

  lemma NodesDoNotMatter(s: Sys, nodes: map<nat, Locals>)
    requires Inv(s)
    ensures Inv(s.(nodes := nodes))
  {
  }

  lemma FreshKey(s: Sys, key: Key)
    requires Inv(s) && IsSession(key) && key.handle !in s.used
    ensures key !in s.hist.issued
  {
  }

  /** What is known of a request that holds a claimed record. */
  lemma HolderFacts(s: Sys, pid: nat)
    requires Inv(s) && pid in s.procs && s.procs[pid].Holding?
    ensures var p := s.procs[pid];
            var key := p.purpose.Key();
            && key in s.hist.issued && key !in s.store && p.data == s.hist.issued[key].data
            && EdgeOk(s.hist.apps, s.hist.issued, key)
            && Receipt(pid, key, p.data) in s.hist.received
            && Childless(s.hist.issued, key) && StageOk(s.hist.apps, p)
  {
    assert ProcOk(pid, s.procs[pid], s.hist.apps, s.hist.issued, s.hist.received);
  }

  lemma AuthenticatedOk(s: Sys, pid: nat, app: Application, now: int)
    requires Inv(s) && Enabled(s, Authenticate(pid, app, now)) && GrantOf(s.procs[pid], app).Some?
    ensures var p := s.procs[pid];
            ProcOk(pid, p.(stage := Authenticated(p.stage.checkedAt, GrantOf(p, app).value)), s.hist.apps, s.hist.issued, s.hist.received)
  {
    HolderFacts(s, pid);
    assert Registered(s.hist.apps, OwnerOf(s.procs[pid].data).0, OwnerOf(s.procs[pid].data).1, app);
    GrantOfIsGrantFrom(s.hist.apps, s.procs[pid], app, s.procs[pid].stage.checkedAt);
  }

  lemma AuthenticateKeepsInv(s: Sys, pid: nat, app: Application, now: int)
    requires Inv(s) && Enabled(s, Authenticate(pid, app, now))
    ensures Inv(Apply(s, Authenticate(pid, app, now)))
  {
    var p := s.procs[pid];
    var g := GrantOf(p, app);
    if g.Some? {
      AuthenticatedOk(s, pid, app, now);
      QuietKeepsInv(s, DoAuthenticate(s, p, pid, app), pid, p.(stage := Authenticated(p.stage.checkedAt, g.value)));
    } else {
      FinishKeepsInv(s, pid, Failed);
    }
  }

  lemma StateEdge(s: Sys, key: Key, p: Proc, pid: nat, idp: string, available: Option<seq<string>>, now: int)
    requires key.StateKey? && key !in s.hist.issued
    requires pid in s.procs && s.procs[pid] == p && p.Loaded? && RequestAcceptable(p.app, p.req)
    requires AppRecord(p.req.organizationID, p.req.clientID, p.app) in s.hist.apps
    requires SelectIDP(p.app, p.req, available) == Some(idp)
    ensures NewIssue(s, key, StateIssue(s, p, pid, idp, available, now))
  {
    var i := StateIssue(s, p, pid, idp, available, now);
    assert RootOk(s.hist.apps, i.data.state, i.source);
    assert EdgeOk(s.hist.apps, s.hist.issued[key := i], key);
  }

  lemma LoadedFacts(s: Sys, pid: nat)
    requires Inv(s) && pid in s.procs && s.procs[pid].Loaded?
    ensures AppRecord(s.procs[pid].req.organizationID, s.procs[pid].req.clientID, s.procs[pid].app) in s.hist.apps
  {
    assert ProcOk(pid, s.procs[pid], s.hist.apps, s.hist.issued, s.hist.received);
  }

  lemma StoreStateKeepsInv(s: Sys, a: Action)
    requires Inv(s) && a.StoreState? && Enabled(s, a)
    ensures Inv(Apply(s, a))
  {
    var p := s.procs[a.pid];
    var idp := SelectIDP(p.app, p.req, a.available);
    if !RequestAcceptable(p.app, p.req) || idp.None? || !a.resolves {
      FinishKeepsInv(s, a.pid, Failed);
    } else {
      var key := StateKey(a.handle);
      LoadedFacts(s, a.pid);
      FreshKey(s, key);
      StateEdge(s, key, p, a.pid, idp.value, a.available, a.now);
      var i := StateIssue(s, p, a.pid, idp.value, a.available, a.now);
      var success := if a.hasURL then Redirected(a.handle) else Failed;
      StoringKeepsInv(s, key, i, a.version, {a.handle}, a.fault, success);
      NodesDoNotMatter(StoreAndFinish(s, key, i, a.version, {a.handle}, a.fault, success), Apply(s, a).nodes);
    }
  }

  lemma CodeEdge(s: Sys, key: Key, p: Proc, pid: nat, claims: Option<AuthClaims>, now: int)
    requires key.CodeKey? && key !in s.hist.issued
    requires pid in s.procs && s.procs[pid] == p && p.Holding? && p.stage.Accepted? && p.data.StatePayload?
    requires p.purpose.Key() in s.hist.issued && p.purpose.Key() !in s.store && p.data == s.hist.issued[p.purpose.Key()].data
    requires s.hist.issued[p.purpose.Key()].seqno < |s.hist.issued| && Childless(s.hist.issued, p.purpose.Key())
    requires CheckPasses(p, p.stage.checkedAt)
    ensures NewIssue(s, key, CodeIssue(s, p, pid, claims, now))
  {
    var i := CodeIssue(s, p, pid, claims, now);
    assert CodeFrom(p.data.state, i.data.code, p.stage.checkedAt);
    assert EdgeOk(s.hist.apps, s.hist.issued[key := i], key);
  }

  lemma StoreCodeKeepsInv(s: Sys, a: Action)
    requires Inv(s) && a.StoreCode? && Enabled(s, a)
    ensures Inv(Apply(s, a))
  {
    var p := s.procs[a.pid];
    if !p.data.StatePayload? {
      FinishKeepsInv(s, a.pid, Failed);
    } else {
      StoredCode(s, a);
      var i := CodeIssue(s, p, a.pid, a.claims, a.now);
      NodesDoNotMatter(StoreAndFinish(s, CodeKey(a.handle), i, a.version, {a.handle}, a.fault, CodeSent(a.handle)), Apply(s, a).nodes);
    }
  }

  lemma StoredCode(s: Sys, a: Action)
    requires Inv(s) && a.StoreCode? && Enabled(s, a) && s.procs[a.pid].data.StatePayload?
    ensures Inv(StoreAndFinish(s, CodeKey(a.handle), CodeIssue(s, s.procs[a.pid], a.pid, a.claims, a.now), a.version, {a.handle}, a.fault, CodeSent(a.handle)))
  {
    var key := CodeKey(a.handle);
    HolderFacts(s, a.pid);
    FreshKey(s, key);
    CodeEdge(s, key, s.procs[a.pid], a.pid, a.claims, a.now);
    StoringKeepsInv(s, key, CodeIssue(s, s.procs[a.pid], a.pid, a.claims, a.now), a.version, {a.handle}, a.fault, CodeSent(a.handle));
  }

  /** Logging the token set a finished mint produced. */
  lemma TokenSentKeepsInv(s: Sys, ts: TokenSet)
    requires Inv(s) && TokenOk(ts, s.hist.apps, s.hist.issued)
    requires forall i | 0 <= i < |s.hist.tokens| :: s.hist.tokens[i].source != ts.source
    ensures Inv(s.(hist := s.hist.(tokens := s.hist.tokens + [ts])))
  {
  }

  /** A source that has produced a token set has a child. */
  lemma TokensHaveChildren(s: Sys, source: Key)
    requires Inv(s) && Childless(s.hist.issued, source)
    ensures forall i | 0 <= i < |s.hist.tokens| :: s.hist.tokens[i].source != source
  {
    forall i | 0 <= i < |s.hist.tokens| ensures s.hist.tokens[i].source != source {
      assert TokenOk(s.hist.tokens[i], s.hist.apps, s.hist.issued);
    }
  }

  lemma MintedEdge(s: Sys, key: Key, p: Proc, pid: nat, fam: string, now: int)
    requires key.RefreshKey? && key !in s.hist.issued
    requires pid in s.procs && s.procs[pid] == p && p.Holding? && p.stage.Authenticated? && p.stage.grant.base.Some?
    requires p.purpose.Key() in s.hist.issued && p.purpose.Key() !in s.store && p.data == s.hist.issued[p.purpose.Key()].data
    requires s.hist.issued[p.purpose.Key()].seqno < |s.hist.issued| && Childless(s.hist.issued, p.purpose.Key())
    requires EdgeOk(s.hist.apps, s.hist.issued, p.purpose.Key())
    requires GrantFrom(s.hist.apps, p.data, p.stage.grant, p.stage.checkedAt)
    requires fam != "" && (if p.stage.grant.family != "" then fam == p.stage.grant.family else fam !in s.used)
    ensures NewIssue(s, key, MintIssue(s, p, pid, fam, now))
  {
    var i := MintIssue(s, p, pid, fam, now);
    assert RefreshFrom(s.hist.apps, p.data, i.data.refresh, i.source);
    assert EdgeOk(s.hist.apps, s.hist.issued[key := i], key);
  }

  lemma MintedTokenOk(s: Sys, pid: nat, key: Key, i: Issue, ts: TokenSet)
    requires Inv(s) && pid in s.procs
    requires s.procs[pid].Holding? && s.procs[pid].stage.Authenticated?
    requires i.source == FromGrant(s.procs[pid].purpose.Key(), s.procs[pid].stage.checkedAt, s.procs[pid].stage.grant)
    requires ts == TokensFrom(s.procs[pid], s.procs[pid].stage.grant, ts.refreshHandle, pid)
    requires key == RefreshKey(ts.refreshHandle) && key !in s.hist.issued
    ensures TokenOk(ts, s.hist.apps, s.hist.issued[key := i])
    ensures forall n | 0 <= n < |s.hist.tokens| :: s.hist.tokens[n].source != ts.source
  {
    HolderFacts(s, pid);
    TokensHaveChildren(s, ts.source);
  }

  lemma MintedRecord(s: Sys, a: Action, fam: string)
    requires Inv(s) && a.Mint? && Enabled(s, a) && s.procs[a.pid].stage.grant.base.Some?
    requires fam == if s.procs[a.pid].stage.grant.family == "" then a.family else s.procs[a.pid].stage.grant.family
    ensures RefreshKey(a.handle) !in s.hist.issued
    ensures Inv(StoreAndFinish(s, RefreshKey(a.handle), MintIssue(s, s.procs[a.pid], a.pid, fam, a.now), a.version, {a.handle, fam}, a.fault, TokensSent(a.handle)))
  {
    var i := MintIssue(s, s.procs[a.pid], a.pid, fam, a.now);
    HolderFacts(s, a.pid);
    FreshKey(s, RefreshKey(a.handle));
    MintedEdge(s, RefreshKey(a.handle), s.procs[a.pid], a.pid, fam, a.now);
    StoringKeepsInv(s, RefreshKey(a.handle), i, a.version, {a.handle, fam}, a.fault, TokensSent(a.handle));
  }

  lemma MintedTokens(s: Sys, mid: Sys, a: Action, i: Issue, ts: TokenSet)
    requires Inv(s) && a.Mint? && Enabled(s, a) && Inv(mid) && RefreshKey(a.handle) !in s.hist.issued
    requires ts == TokensFrom(s.procs[a.pid], s.procs[a.pid].stage.grant, a.handle, a.pid)
    requires i.source == FromGrant(s.procs[a.pid].purpose.Key(), s.procs[a.pid].stage.checkedAt, s.procs[a.pid].stage.grant)
    requires mid.hist == s.hist.(issued := s.hist.issued[RefreshKey(a.handle) := i])
    ensures Inv(mid.(hist := mid.hist.(tokens := mid.hist.tokens + [ts])))
  {
    MintedTokenOk(s, a.pid, RefreshKey(a.handle), i, ts);
    TokenSentKeepsInv(mid, ts);
  }

  lemma MintKeepsInv(s: Sys, a: Action)
    requires Inv(s) && a.Mint? && Enabled(s, a)
    ensures Inv(Apply(s, a))
  {
    var p := s.procs[a.pid];
    if p.stage.grant.base.None? {
      FinishKeepsInv(s, a.pid, Failed);
    } else {
      var fam := if p.stage.grant.family == "" then a.family else p.stage.grant.family;
      MintedRecord(s, a, fam);
      var i := MintIssue(s, p, a.pid, fam, a.now);
      if a.fault.NoFault? {
        var mid := StoreAndFinish(s, RefreshKey(a.handle), i, a.version, {a.handle, fam}, a.fault, TokensSent(a.handle));
        MintedTokens(s, mid, a, i, TokensFrom(p, p.stage.grant, a.handle, a.pid));
      }
    }
  }

  // --- every run ---

  lemma StepKeepsInv(s: Sys, a: Action)
    requires Inv(s) && Enabled(s, a)
    ensures Inv(Apply(s, a))
  {
    match a
    case PutApp(_, _, _, _) => AdminKeepsInv(s, a);
    case DeleteApp(_, _) => AdminKeepsInv(s, a);
    case LoadForAuthorize(_, _, _, _) => LoadKeepsInv(s, a);
    case StoreState(_, _, _, _, _, _, _, _) => StoreStateKeepsInv(s, a);
    case Begin(_, _, _) => LoadKeepsInv(s, a);
    case Get(pid, fault) => GetKeepsInv(s, pid, fault);
    case Delete(pid, fault) => DeleteKeepsInv(s, pid, fault);
    case Check(pid, now) => CheckKeepsInv(s, pid, now);
    case StoreCode(_, _, _, _, _, _) => StoreCodeKeepsInv(s, a);
    case CacheApp(_, _) => CachingKeepsInv(s, a);
    case Authenticate(pid, app, now) => AuthenticateKeepsInv(s, pid, app, now);
    case Mint(_, _, _, _, _, _) => MintKeepsInv(s, a);
    case Abandon(_) => LoadKeepsInv(s, a);
  }

  /** Every schedule of steps keeps the invariant. */
  lemma {:induction false} RunKeepsInv(s: Sys, acts: seq<Action>)
    requires Inv(s) && Exec(s, acts).Some?
    ensures Inv(Exec(s, acts).value)
    decreases |acts|
  {
    if acts != [] {
      StepKeepsInv(s, acts[0]);
      RunKeepsInv(Apply(s, acts[0]), acts[1..]);
    }
  }
}
