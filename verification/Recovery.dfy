/** What recovering the branches after a restart achieves. */
module Recovery {
  import opened Branches

  /** The status write that this branch needs, if any, is answered. */
  predicate Written(m: Manager, br: Branch, c: RecoverCalls) {
    if br.session !in m.sessions then c.statusReadOk && c.writeOk else br.status.Active? ==> c.writeOk
  }

  /** A live branch without its session is failed, an interrupted one waits again, unless
      the write fails. */
  function RecoveredBranch(m: Manager, br: Branch, c: RecoverCalls): Branch {
    if !Written(m, br, c) then br
    else if br.session !in m.sessions then br.(status := Failed)
    else if br.status.Active? then br.(status := Pending)
    else br
  }

  predicate Returned(m: Manager, br: Branch, c: RecoverCalls) {
    br.session in m.sessions && Written(m, br, c)
  }

  predicate Visited(order: seq<BranchId>, n: nat, b: BranchId)
    requires n <= |order|
  {
    exists k :: 0 <= k < n && order[k] == b
  }

  /** `r` is `m` with exactly the first `n` branches of `order` recovered, each as its session,
      its status and its calls ask, and the list of those that were. */
  ghost predicate RecoveredThose(m: Manager, r: (Manager, seq<BranchId>), order: seq<BranchId>,
                                 c: nat -> RecoverCalls, n: nat)
    requires Lists(order, m) && n <= |order|
  {
    && r.0 == m.(branches := r.0.branches) && r.0.branches.Keys == m.branches.Keys
    && (forall k :: 0 <= k < n ==> r.0.branches[order[k]] == RecoveredBranch(m, m.branches[order[k]], c(k)))
    && (forall b :: b in m.branches && !Visited(order, n, b) ==> r.0.branches[b] == m.branches[b])
    && (forall k :: 0 <= k < n ==> (order[k] in r.1 <==> Returned(m, m.branches[order[k]], c(k))))
    && forall b :: b in r.1 ==> Visited(order, n, b)
  }

  lemma {:induction false} RecoverPrefixExactly(m: Manager, order: seq<BranchId>, c: nat -> RecoverCalls, n: nat)
    requires Lists(order, m) && n <= |order|
    ensures RecoveredThose(m, RecoverPrefix(m, order, c, n), order, c, n)
  {
    if n > 0 {
      RecoverPrefixExactly(m, order, c, n - 1);
      NotYetVisited(m, RecoverPrefix(m, order, c, n - 1), order, c, n - 1);
      RecoverSnoc(m, order, c, n - 1);
      RecoveredOneMore(m, RecoverPrefix(m, order, c, n - 1), RecoverPrefix(m, order, c, n), order, c, n - 1);
    }
  }

  lemma NotYetVisited(m: Manager, r1: (Manager, seq<BranchId>), order: seq<BranchId>, c: nat -> RecoverCalls, n: nat)
    requires Lists(order, m) && n < |order| && RecoveredThose(m, r1, order, c, n)
    ensures var b := order[n];
            && b in m.branches && m.branches[b].status.IsLive()
            && b in r1.0.branches && r1.0.branches[b] == m.branches[b] && b !in r1.1
  {
    assert !Visited(order, n, order[n]);
  }

  /** The next branch of the list, when the ones before it left it alone. */
  lemma RecoverSnoc(m: Manager, order: seq<BranchId>, c: nat -> RecoverCalls, n: nat)
    requires Lists(order, m) && n < |order|
    requires var m1 := RecoverPrefix(m, order, c, n).0;
             order[n] in m1.branches && m1.branches[order[n]] == m.branches[order[n]] && m1.sessions == m.sessions
    ensures var r1, r2, b := RecoverPrefix(m, order, c, n), RecoverPrefix(m, order, c, n + 1), order[n];
            && r2.0 == r1.0.(branches := r1.0.branches[b := RecoveredBranch(m, m.branches[b], c(n))])
            && r2.1 == if Returned(m, m.branches[b], c(n)) then r1.1 + [b] else r1.1
  {
    RecoverOneExactly(m, RecoverPrefix(m, order, c, n).0, order[n], c(n));
  }

  lemma RecoverOneExactly(m: Manager, m1: Manager, b: BranchId, c: RecoverCalls)
    requires b in m.branches && m.branches[b].status.IsLive()
    requires b in m1.branches && m1.branches[b] == m.branches[b] && m1.sessions == m.sessions
    ensures var r := RecoverOne(m1, b, m.branches[b], c);
            && r.0 == m1.(branches := m1.branches[b := RecoveredBranch(m, m.branches[b], c)])
            && r.1 == Returned(m, m.branches[b], c)
  {
    assert m1.branches[b := m1.branches[b]] == m1.branches;
  }

  lemma VisitedOneMore(order: seq<BranchId>, n: nat)
    requires n < |order|
    ensures forall b :: Visited(order, n + 1, b) <==> Visited(order, n, b) || b == order[n]
  {
    forall b ensures Visited(order, n + 1, b) <==> Visited(order, n, b) || b == order[n] {
      if Visited(order, n, b) {
        var k :| 0 <= k < n && order[k] == b;
        assert 0 <= k < n + 1;
      }
    }
  }

  lemma RecoveredOneMore(m: Manager, r1: (Manager, seq<BranchId>), r2: (Manager, seq<BranchId>),
                         order: seq<BranchId>, c: nat -> RecoverCalls, n: nat)
    requires Lists(order, m) && n < |order| && RecoveredThose(m, r1, order, c, n) && order[n] !in r1.1
    requires order[n] in m.branches
    requires r2.0 == r1.0.(branches := r1.0.branches[order[n] := RecoveredBranch(m, m.branches[order[n]], c(n))])
    requires r2.1 == if Returned(m, m.branches[order[n]], c(n)) then r1.1 + [order[n]] else r1.1
    ensures RecoveredThose(m, r2, order, c, n + 1)
  {
    VisitedOneMore(order, n);
    KeptRecovered(m, r1, r2, order, c, n);
    forall k | 0 <= k < n + 1
      ensures r2.0.branches[order[k]] == RecoveredBranch(m, m.branches[order[k]], c(k))
      ensures order[k] in r2.1 <==> Returned(m, m.branches[order[k]], c(k))
    {
      assert k < n || k == n;
    }
    forall b | b in m.branches && !Visited(order, n + 1, b) ensures r2.0.branches[b] == m.branches[b] {
      assert b != order[n] && !Visited(order, n, b);
    }
  }

  /** The branches visited before stay as they are. */
  lemma KeptRecovered(m: Manager, r1: (Manager, seq<BranchId>), r2: (Manager, seq<BranchId>),
                      order: seq<BranchId>, c: nat -> RecoverCalls, n: nat)
    requires Lists(order, m) && n < |order| && RecoveredThose(m, r1, order, c, n)
    requires order[n] in m.branches
    requires r2.0.branches == r1.0.branches[order[n] := RecoveredBranch(m, m.branches[order[n]], c(n))]
    requires r2.1 == r1.1 || r2.1 == r1.1 + [order[n]]
    ensures forall k :: 0 <= k < n ==> r2.0.branches[order[k]] == r1.0.branches[order[k]]
    ensures forall k :: 0 <= k < n ==> (order[k] in r2.1 <==> order[k] in r1.1)
  {
    forall k | 0 <= k < n ensures order[k] != order[n] {}
  }

  ghost predicate AllWritten(m: Manager, order: seq<BranchId>, c: nat -> RecoverCalls)
    requires Lists(order, m)
  {
    forall k :: 0 <= k < |order| ==> Written(m, m.branches[order[k]], c(k))
  }

  /** The live branches afterwards are exactly those returned if and only if every write that
      was needed was answered. Then each has its session, and no branch is active. */
  lemma RecoveryIsComplete(m: Manager, order: seq<BranchId>, c: nat -> RecoverCalls)
    requires Lists(order, m) && forall b :: b in LiveBranches(m) ==> b in order
    ensures var r := RecoverPrefix(m, order, c, |order|);
            && r.0 == m.(branches := r.0.branches)
            && ((forall b :: b in LiveBranches(r.0) <==> b in r.1) <==> AllWritten(m, order, c))
            && (AllWritten(m, order, c) ==>
                  forall b :: b in r.0.branches && r.0.branches[b].status.IsLive() ==>
                    r.0.branches[b].session in r.0.sessions && !r.0.branches[b].status.Active?)
  {
    var r := RecoverPrefix(m, order, c, |order|);
    RecoverPrefixExactly(m, order, c, |order|);
    forall b | b in m.branches ensures Visited(order, |order|, b) <==> m.branches[b].status.IsLive() {
      assert m.branches[b].status.IsLive() ==> b in LiveBranches(m);
    }
    forall k | 0 <= k < |order| ensures order[k] in m.branches && order[k] in r.0.branches {}
    if forall b :: b in LiveBranches(r.0) <==> b in r.1 {
      forall k | 0 <= k < |order| ensures Written(m, m.branches[order[k]], c(k)) {
        assert order[k] in LiveBranches(r.0) <==> order[k] in r.1;
      }
    }
    if AllWritten(m, order, c) {
      forall b ensures b in LiveBranches(r.0) <==> b in r.1 {
        if b in m.branches && Visited(order, |order|, b) {
          var k :| 0 <= k < |order| && order[k] == b;
          assert Written(m, m.branches[order[k]], c(k));
        }
      }
    }
  }
}
