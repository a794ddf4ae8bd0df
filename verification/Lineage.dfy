/** Chains of session records: state, code, then refresh tokens, each spent to make the next. */
module Lineage {
  import opened Wrappers
  import opened Models
  import opened Storage
  import opened Protocol
  import opened ProtocolInvariant

  ghost predicate WellFounded(issued: map<Key, Issue>) {
    forall k | k in issued && !issued[k].source.Requested? ::
      issued[k].source.parent in issued && issued[issued[k].source.parent].seqno < issued[k].seqno
  }

  ghost predicate OneChild(issued: map<Key, Issue>) {
    forall j, k, p | IsChildOf(issued, j, p) && IsChildOf(issued, k, p) :: j == k
  }

  /** The records `k` descends from, oldest first, ending in `k` itself. */
  ghost function Chain(issued: map<Key, Issue>, k: Key): (c: seq<Key>)
    requires WellFounded(issued) && k in issued
    ensures |c| >= 1 && c[|c| - 1] == k
    ensures forall x | x in c :: x in issued
    decreases issued[k].seqno
  {
    var src := issued[k].source;
    if src.Requested? then [k] else Chain(issued, src.parent) + [k]
  }

  lemma InvIsWellFounded(s: Sys)
    requires Inv(s)
    ensures WellFounded(s.hist.issued) && OneChild(s.hist.issued)
  {
    forall k | k in s.hist.issued && !s.hist.issued[k].source.Requested?
      ensures s.hist.issued[k].source.parent in s.hist.issued
      ensures s.hist.issued[s.hist.issued[k].source.parent].seqno < s.hist.issued[k].seqno
    {
      assert EdgeOk(s.hist.apps, s.hist.issued, k);
    }
  }

  /** A chain starts at an authorization request and steps from parent to child. */
  lemma {:induction false} ChainSteps(issued: map<Key, Issue>, k: Key)
    requires WellFounded(issued) && k in issued
    ensures var c := Chain(issued, k); issued[c[0]].source.Requested?
    ensures var c := Chain(issued, k); forall i | 0 <= i < |c| - 1 :: IsChildOf(issued, c[i + 1], c[i])
    ensures var c := Chain(issued, k); forall i | 0 <= i < |c| :: Chain(issued, c[i]) == c[..i + 1]
    decreases issued[k].seqno
  {
    var c := Chain(issued, k);
    var src := issued[k].source;
    if !src.Requested? {
      ChainSteps(issued, src.parent);
      var up := Chain(issued, src.parent);
      assert c == up + [k];
      forall i | 0 <= i < |c| ensures Chain(issued, c[i]) == c[..i + 1] {
        if i < |up| {
          assert c[..i + 1] == up[..i + 1];
        }
      }
    }
  }

  /** Records of one authorization request never fork: one of any two chains continues the other. */
  lemma {:induction false} ChainsDoNotFork(issued: map<Key, Issue>, j: Key, k: Key)
    requires WellFounded(issued) && OneChild(issued) && j in issued && k in issued
    requires Chain(issued, j)[0] == Chain(issued, k)[0]
    ensures Chain(issued, j) <= Chain(issued, k) || Chain(issued, k) <= Chain(issued, j)
    decreases issued[j].seqno
  {
    var src := issued[j].source;
    if !src.Requested? {
      var up, cj, ck := Chain(issued, src.parent), Chain(issued, j), Chain(issued, k);
      assert cj == up + [j];
      ChainsDoNotFork(issued, src.parent, k);
      if up <= ck && |up| < |ck| {
        ChainSteps(issued, k);
        assert IsChildOf(issued, ck[|up|], ck[|up| - 1]);
        assert ck[|up| - 1] == src.parent;
        assert IsChildOf(issued, j, src.parent);
        assert cj <= ck;
      }
    }
  }

  lemma ContinuedMeansSpent(issued: map<Key, Issue>, j: Key, k: Key)
    requires WellFounded(issued) && j in issued && k in issued
    requires Chain(issued, j) <= Chain(issued, k) && Chain(issued, j) != Chain(issued, k)
    ensures !Childless(issued, j)
  {
    var cj, ck := Chain(issued, j), Chain(issued, k);
    ChainSteps(issued, k);
    assert IsChildOf(issued, ck[|cj|], ck[|cj| - 1]);
  }

  /** A record that was never spent on another ends the chain of its request. */
  lemma ChildlessIsTip(issued: map<Key, Issue>, j: Key, k: Key)
    requires WellFounded(issued) && OneChild(issued) && j in issued && k in issued
    requires Chain(issued, j)[0] == Chain(issued, k)[0]
    requires Childless(issued, j)
    ensures Chain(issued, k) <= Chain(issued, j)
    ensures Childless(issued, k) ==> j == k
  {
    var cj, ck := Chain(issued, j), Chain(issued, k);
    ChainsDoNotFork(issued, j, k);
    if cj <= ck && cj != ck {
      ContinuedMeansSpent(issued, j, k);
    }
    if ck <= cj && cj != ck {
      ContinuedMeansSpent(issued, k, j);
    }
  }

  lemma EdgeKinds(s: Sys, k: Key)
    requires Inv(s) && k in s.hist.issued
    ensures var src := s.hist.issued[k].source;
            && (src.Requested? <==> k.StateKey?)
            && (src.FromState? <==> k.CodeKey?) && (src.FromState? ==> src.parent in s.hist.issued && src.parent.StateKey?)
            && (src.FromGrant? <==> k.RefreshKey?)
            && (src.FromGrant? ==> src.parent in s.hist.issued && (src.parent.CodeKey? || src.parent.RefreshKey?))
  {
    assert EdgeOk(s.hist.apps, s.hist.issued, k);
    if !s.hist.issued[k].source.Requested? {
      assert EdgeOk(s.hist.apps, s.hist.issued, s.hist.issued[k].source.parent);
    }
  }

  /** The shape of a chain: a state, then perhaps a code, then refresh tokens. */
  lemma {:induction false} ChainShape(s: Sys, k: Key)
    requires Inv(s) && k in s.hist.issued && WellFounded(s.hist.issued)
    ensures var c := Chain(s.hist.issued, k);
            && c[0].StateKey?
            && (|c| > 1 ==> c[1].CodeKey?)
            && (forall i | 2 <= i < |c| :: c[i].RefreshKey?)
            && (k.StateKey? <==> |c| == 1) && (k.CodeKey? <==> |c| == 2) && (k.RefreshKey? <==> |c| > 2)
    decreases s.hist.issued[k].seqno
  {
    EdgeKinds(s, k);
    var src := s.hist.issued[k].source;
    if !src.Requested? {
      ChainShape(s, src.parent);
      EdgeKinds(s, src.parent);
    }
  }
}
