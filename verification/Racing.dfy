/** Racing for one handle when storage does not fail: somebody always wins. */
module Racing {
  import opened Wrappers
  import opened Storage
  import opened Protocol
  import opened ProtocolInvariant
  import opened Lineage
  import opened ProtocolTheorems

  /** No claim is cut short by storage or by a crash between its Get and its Delete. */
  predicate ClaimsUndisturbed(s: Sys, a: Action) {
    match a
    case Get(_, fault) => fault.NoFault?
    case Delete(_, fault) => fault.NoFault?
    case Abandon(pid) => pid in s.procs ==> !s.procs[pid].Claiming? && !s.procs[pid].Read?
    case _ => true
  }

  predicate UndisturbedRun(s: Sys, acts: seq<Action>)
    decreases |acts|
  {
    acts == [] || (Enabled(s, acts[0]) && ClaimsUndisturbed(s, acts[0]) && UndisturbedRun(Apply(s, acts[0]), acts[1..]))
  }

  /** A request that has read a record holds its current version for as long as the record is stored. */
  ghost predicate ReadsAreCurrent(s: Sys) {
    forall pid | pid in s.procs && s.procs[pid].Read? && s.procs[pid].purpose.Key() in s.store ::
      s.store[s.procs[pid].purpose.Key()] == s.procs[pid].record
  }

  /** A request has read a record only if it had before or its Get has just done so. */
  ghost predicate ReadFrame(s: Sys, s': Sys) {
    forall pid | pid in s'.procs && s'.procs[pid].Read? ::
      var p' := s'.procs[pid];
      || (pid in s.procs && s.procs[pid] == p')
      || (p'.purpose.Key() in s.store && s.store[p'.purpose.Key()] == p'.record)
  }

  /** Storing a new record touches no claim and no stored session record. */
  ghost predicate StoringFrame(s: Sys, s': Sys) {
    && ReadFrame(s, s')
    && s'.hist.received == s.hist.received && s'.hist.ended == s.hist.ended
    && (forall k | k in s.store && k in s.hist.issued :: k in s'.store && s'.store[k] == s.store[k])
  }

  lemma StoringOne(s: Sys, key: Key, i: Issue, version: string, tokens: set<string>, fault: Fault, success: Outcome)
    requires key !in s.hist.issued
    ensures StoringFrame(s, StoreAndFinish(s, key, i, version, tokens, fault, success))
  {
  }

  lemma StoringState(s: Sys, a: Action)
    requires Inv(s) && a.StoreState? && Enabled(s, a)
    ensures StoringFrame(s, Apply(s, a))
  {
    var p := s.procs[a.pid];
    var idp := SelectIDP(p.app, p.req, a.available);
    FreshKey(s, StateKey(a.handle));
    if RequestAcceptable(p.app, p.req) && idp.Some? && a.resolves {
      StoringOne(s, StateKey(a.handle), StateIssue(s, p, a.pid, idp.value, a.available, a.now), a.version, {a.handle}, a.fault,
                 if a.hasURL then Redirected(a.handle) else Failed);
    }
  }

  lemma StoringCode(s: Sys, a: Action)
    requires Inv(s) && a.StoreCode? && Enabled(s, a)
    ensures StoringFrame(s, Apply(s, a))
  {
    var p := s.procs[a.pid];
    FreshKey(s, CodeKey(a.handle));
    if p.data.StatePayload? {
      StoringOne(s, CodeKey(a.handle), CodeIssue(s, p, a.pid, a.claims, a.now), a.version, {a.handle}, a.fault, CodeSent(a.handle));
    }
  }

  lemma StoringTokens(s: Sys, a: Action)
    requires Inv(s) && a.Mint? && Enabled(s, a)
    ensures StoringFrame(s, Apply(s, a))
  {
    var p := s.procs[a.pid];
    FreshKey(s, RefreshKey(a.handle));
    if p.stage.grant.base.Some? {
      var fam := if p.stage.grant.family == "" then a.family else p.stage.grant.family;
      StoringOne(s, RefreshKey(a.handle), MintIssue(s, p, a.pid, fam, a.now), a.version, {a.handle, fam}, a.fault, TokensSent(a.handle));
    }
  }

  lemma StoringAny(s: Sys, a: Action)
    requires Inv(s) && (a.StoreState? || a.StoreCode? || a.Mint?) && Enabled(s, a)
    ensures StoringFrame(s, Apply(s, a))
  {
    if a.StoreState? {
      StoringState(s, a);
    } else if a.StoreCode? {
      StoringCode(s, a);
    } else {
      StoringTokens(s, a);
    }
  }

  lemma ClaimingReadFrame(s: Sys, a: Action)
    requires (a.Begin? || a.Get? || a.Delete? || a.Check? || a.Authenticate?) && Enabled(s, a)
    ensures ReadFrame(s, Apply(s, a))
  {
  }

  lemma OtherReadFrame(s: Sys, a: Action)
    requires !a.StoreState? && !a.StoreCode? && !a.Mint? && Enabled(s, a)
    ensures ReadFrame(s, Apply(s, a))
  {
    if a.Begin? || a.Get? || a.Delete? || a.Check? || a.Authenticate? {
      ClaimingReadFrame(s, a);
    }
  }

  lemma ReadsStayCurrentAcross(s: Sys, s': Sys)
    requires Inv(s) && ReadsAreCurrent(s) && StepFrame(s, s') && ReadFrame(s, s')
    ensures ReadsAreCurrent(s')
  {
    forall pid | pid in s'.procs && s'.procs[pid].Read? && s'.procs[pid].purpose.Key() in s'.store
      ensures s'.store[s'.procs[pid].purpose.Key()] == s'.procs[pid].record
    {
      if pid in s.procs && s.procs[pid] == s'.procs[pid] {
        ReadFacts(s, pid);
      }
    }
  }

  lemma ReadsStayCurrent(s: Sys, a: Action)
    requires Inv(s) && ReadsAreCurrent(s) && Enabled(s, a)
    ensures ReadsAreCurrent(Apply(s, a))
  {
    EveryStepFrame(s, a);
    if a.StoreState? || a.StoreCode? || a.Mint? {
      StoringAny(s, a);
    } else {
      OtherReadFrame(s, a);
    }
    ReadsStayCurrentAcross(s, Apply(s, a));
  }

  lemma {:induction false} ReachableReadsAreCurrent(s: Sys, acts: seq<Action>)
    requires Inv(s) && ReadsAreCurrent(s) && Exec(s, acts).Some?
    ensures ReadsAreCurrent(Exec(s, acts).value)
    decreases |acts|
  {
    if acts != [] {
      StepKeepsInv(s, acts[0]);
      ReadsStayCurrent(s, acts[0]);
      ReachableReadsAreCurrent(Apply(s, acts[0]), acts[1..]);
    }
  }

  /** The handle was stored with a usable version, and is either still there or has been won. */
  ghost predicate Winnable(s: Sys, k: Key) {
    && IsSession(k) && k in s.hist.issued
    && (|| (k in s.store && s.store[k].version != "")
        || exists r :: r in s.hist.received && r.key == k)
  }

  ghost predicate Won(s: Sys, k: Key) {
    exists r :: r in s.hist.received && r.key == k
  }

  /** A Get that fails found nothing to read. */
  lemma GetOutcome(s: Sys, a: Action, k: Key)
    requires a.Get? && Enabled(s, a) && ClaimsUndisturbed(s, a) && Winnable(s, k)
    ensures Winnable(Apply(s, a), k)
    ensures forall pid | Attempt(pid, k) in Apply(s, a).hist.ended && Attempt(pid, k) !in s.hist.ended :: Won(Apply(s, a), k)
    ensures s.hist.received <= Apply(s, a).hist.received
  {
  }

  /** A Delete removes what its request read, or finds the record gone. */
  lemma DeleteOutcome(s: Sys, a: Action, k: Key)
    requires ReadsAreCurrent(s) && a.Delete? && Enabled(s, a) && ClaimsUndisturbed(s, a) && Winnable(s, k)
    ensures Winnable(Apply(s, a), k)
    ensures forall pid | Attempt(pid, k) in Apply(s, a).hist.ended && Attempt(pid, k) !in s.hist.ended :: Won(Apply(s, a), k)
    ensures s.hist.received <= Apply(s, a).hist.received
  {
    var p := s.procs[a.pid];
    var s' := DoDelete(s, p, a.pid, NoFault);
    assert s' == Apply(s, a);
    if p.purpose.Key() in s.store {
      assert Receipt(a.pid, p.purpose.Key(), p.record.data) in s'.hist.received;
    }
    if r :| r in s.hist.received && r.key == k {
      assert r in s'.hist.received;
    }
  }

  ghost predicate EndedSince(s: Sys, s': Sys, k: Key) {
    exists pid :: Attempt(pid, k) in s'.hist.ended && Attempt(pid, k) !in s.hist.ended
  }

  lemma StoringKeepsWinnable(s: Sys, s': Sys, k: Key)
    requires StepFrame(s, s') && StoringFrame(s, s') && Winnable(s, k)
    ensures Winnable(s', k) && s'.hist.received == s.hist.received && s'.hist.ended == s.hist.ended
  {
    if r :| r in s.hist.received && r.key == k {
      assert r in s'.hist.received;
    }
  }

  lemma OtherKeepsWinnable(s: Sys, a: Action, k: Key)
    requires !a.StoreState? && !a.StoreCode? && !a.Mint? && !a.Get? && !a.Delete? && Enabled(s, a) && Winnable(s, k)
    ensures Winnable(Apply(s, a), k) && Apply(s, a).hist.received == s.hist.received && Apply(s, a).hist.ended == s.hist.ended
  {
  }

  lemma StepKeepsWinnable(s: Sys, a: Action, k: Key)
    requires Inv(s) && ReadsAreCurrent(s) && Enabled(s, a) && ClaimsUndisturbed(s, a) && Winnable(s, k)
    ensures Winnable(Apply(s, a), k)
    ensures EndedSince(s, Apply(s, a), k) ==> Won(Apply(s, a), k)
    ensures s.hist.received <= Apply(s, a).hist.received
  {
    if a.Get? {
      GetOutcome(s, a, k);
    } else if a.Delete? {
      DeleteOutcome(s, a, k);
    } else if a.StoreState? || a.StoreCode? || a.Mint? {
      EveryStepFrame(s, a);
      StoringAny(s, a);
      StoringKeepsWinnable(s, Apply(s, a), k);
    } else {
      OtherKeepsWinnable(s, a, k);
    }
  }

  /** Once some attempt has ended, the handle has been won, and stays won. */
  lemma {:induction false} EndedMeansWon(s: Sys, acts: seq<Action>, k: Key)
    requires Inv(s) && ReadsAreCurrent(s) && UndisturbedRun(s, acts) && Exec(s, acts).Some? && Winnable(s, k)
    ensures EndedSince(s, Exec(s, acts).value, k) || Won(s, k) ==> Won(Exec(s, acts).value, k)
    decreases |acts|
  {
    if acts != [] {
      var mid := Apply(s, acts[0]);
      StepKeepsInv(s, acts[0]);
      ReadsStayCurrent(s, acts[0]);
      StepKeepsWinnable(s, acts[0], k);
      EndedMeansWon(mid, acts[1..], k);
      if Won(s, k) {
        var r :| r in s.hist.received && r.key == k;
        assert r in mid.hist.received;
      }
      if EndedSince(s, Exec(s, acts).value, k) && !EndedSince(mid, Exec(s, acts).value, k) {
        var pid :| Attempt(pid, k) in Exec(s, acts).value.hist.ended && Attempt(pid, k) !in s.hist.ended;
        assert Attempt(pid, k) in mid.hist.ended;
        assert EndedSince(s, mid, k);
      }
    }
  }

  /**
   * Any number of requests race for a stored handle under any schedule in which storage does not fail: as soon as one
   * attempt has ended, exactly one of them has received the payload.
   */
  lemma ExactlyOneWinner(s: Sys, acts: seq<Action>, k: Key, pid: nat)
    requires Reachable(s) && k in s.store && IsSession(k) && s.store[k].version != ""
    requires UndisturbedRun(s, acts) && Exec(s, acts).Some?
    requires Attempt(pid, k) in Exec(s, acts).value.hist.ended && Attempt(pid, k) !in s.hist.ended
    ensures exists r :: r in Exec(s, acts).value.hist.received && r.key == k && r.data == s.store[k].data
                        && forall q | q in Exec(s, acts).value.hist.received && q.key == k :: q == r
  {
    var s' := Exec(s, acts).value;
    ReachableReads(s);
    EndedMeansWon(s, acts, k);
    assert EndedSince(s, s', k);
    ReachableOnwards(s, acts);
    IssuedForever(s, acts, k);
    var r :| r in s'.hist.received && r.key == k;
    SingleUse(s', r, r);
    forall q | q in s'.hist.received && q.key == k ensures q == r {
      SingleUse(s', q, r);
    }
  }

  lemma ReachableReads(s: Sys)
    requires Reachable(s)
    ensures Inv(s) && ReadsAreCurrent(s)
  {
    var before :| Exec(Init, before) == Some(s);
    InitInv();
    RunKeepsInv(Init, before);
    ReachableReadsAreCurrent(Init, before);
  }

  lemma ReachableOnwards(s: Sys, acts: seq<Action>)
    requires Reachable(s) && Exec(s, acts).Some?
    ensures Reachable(Exec(s, acts).value)
  {
    var before :| Exec(Init, before) == Some(s);
    ExecAppend(Init, before, acts);
    assert Exec(Init, before + acts) == Some(Exec(s, acts).value);
  }

  lemma {:induction false} IssuedForever(s: Sys, acts: seq<Action>, k: Key)
    requires Inv(s) && Exec(s, acts).Some? && k in s.hist.issued
    ensures k in Exec(s, acts).value.hist.issued && Exec(s, acts).value.hist.issued[k] == s.hist.issued[k]
    decreases |acts|
  {
    if acts != [] {
      StepKeepsInv(s, acts[0]);
      EveryStepFrame(s, acts[0]);
      IssuedForever(Apply(s, acts[0]), acts[1..], k);
    }
  }
}
