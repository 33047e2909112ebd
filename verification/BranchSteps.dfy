/** What one operation can do to the branches that exist. */
module BranchSteps {
  import opened Branches

  /** Where a status can lead; recovery takes an active branch back to Pending. */
  predicate Moved(from: BranchStatus, to: BranchStatus) {
    || from == to
    || (from.Pending? && (to.Active? || to.Failed?))
    || (from.Active? && (to.Pending? || to.Completed? || to.Merging? || to.Failed?))
    || (from.Completed? && to.Merging?)
    || (from.Merging? && (to.Merged? || to.Failed?))
  }

  /** No branch comes or goes, and only statuses move. */
  ghost predicate Moves(m: Manager, m': Manager) {
    && m'.branches.Keys == m.branches.Keys && m'.born == m.born && m'.maxBranches == m.maxBranches
    && forall b :: b in m.branches ==>
         && m'.branches[b] == m.branches[b].(status := m'.branches[b].status)
         && Moved(m.branches[b].status, m'.branches[b].status)
  }

  lemma UpdateMoves(m: Manager, b: BranchId, status: BranchStatus, readOk: bool, writeOk: bool)
    ensures Moves(m, UpdateStatus(m, b, status, readOk, writeOk).m)
  {}

  lemma AbortMoves(m: Manager, b: BranchId, c: AbortCalls)
    ensures Moves(m, AbortBranch(m, b, c).m)
  {
    if b in m.branches {
      UpdateMoves(m.(sessions := m.sessions - {m.branches[b].session}), b, Failed, c.statusReadOk, c.writeOk);
    }
  }

  lemma {:induction false} RecoverMoves(m: Manager, order: seq<BranchId>, c: nat -> RecoverCalls, n: nat)
    requires Lists(order, m) && n <= |order|
    ensures var m' := RecoverPrefix(m, order, c, n).0;
            && Moves(m, m')
            && forall b :: b in m.branches && (forall k :: 0 <= k < n ==> order[k] != b) ==>
                 m'.branches[b] == m.branches[b]
  {
    if n > 0 {
      RecoverMoves(m, order, c, n - 1);
      var m1 := RecoverPrefix(m, order, c, n - 1).0;
      RecoverOneMoves(m1, order[n - 1], c(n - 1));
      MovesOneMore(m, m1, RecoverPrefix(m, order, c, n).0, order[n - 1]);
    }
  }

  lemma {:induction false} RecoverOnlyMoves(m: Manager, order: seq<BranchId>, c: nat -> RecoverCalls, n: nat)
    requires Lists(order, m) && n <= |order|
    ensures var m' := RecoverPrefix(m, order, c, n).0; m' == m.(branches := m'.branches)
  {
    if n > 0 {
      RecoverOnlyMoves(m, order, c, n - 1);
    }
  }

  lemma MovesOneMore(m: Manager, m1: Manager, m2: Manager, b: BranchId)
    requires Moves(m, m1) && Moves(m1, m2) && b in m.branches && m1.branches[b] == m.branches[b]
    requires forall k :: k in m1.branches && k != b ==> m2.branches[k] == m1.branches[k]
    ensures Moves(m, m2)
  {}

  lemma RecoverOneMoves(m: Manager, b: BranchId, c: RecoverCalls)
    requires b in m.branches && m.branches[b].status.IsLive()
    ensures var m' := RecoverOne(m, b, m.branches[b], c).0;
            Moves(m, m') && forall k :: k in m.branches && k != b ==> m'.branches[k] == m.branches[k]
  {}

  lemma FinishMoves(m: Manager, sid: SessionId, c: FinishCalls)
    requires sid in m.running
    ensures Moves(m, FinishExecute(m, sid, c).m)
  {}

  lemma CommitMoves(m: Manager, mid: MergeId, c: CommitCalls)
    ensures Moves(m, CommitMerge(m, mid, c).m)
  {}

  /** Every operation but creation moves statuses and nothing else about branches. */
  lemma StepMoves(m: Manager, op: Op)
    requires Legal(m, op) && !op.Create?
    ensures Moves(m, Step(m, op))
  {
    match op
    case MarkExecuting(b, readOk, writeOk) => UpdateMoves(m, b, Active, readOk, writeOk);
    case Complete(b, readOk, writeOk) => UpdateMoves(m, b, Completed, readOk, writeOk);
    case Abort(b, c) => AbortMoves(m, b, c);
    case Recover(order, c) => RecoverMoves(m, order, c, |order|);
    case Request(b, strategy, requiresApproval, mid, c) =>
      assert RequestMerge(m, b, strategy, requiresApproval, mid, c).m.branches == m.branches;
    case Approve(mid, approver, ok) => assert ApproveInRepository(m, mid, approver, ok).m.branches == m.branches;
    case Begin(mid, sid, c) => assert BeginExecute(m, mid, sid, c).m.branches == m.branches;
    case Finish(sid, c) => FinishMoves(m, sid, c);
    case Commit(mid, c) => CommitMoves(m, mid, c);
    case SessionLost(sid) =>
  }

  /** Creation adds one pending branch, of an existing parent, below the limit, or none. */
  lemma CreateAdds(m: Manager, source: Source, id: BranchId, sid: SessionId, c: CreateCalls)
    requires id !in m.branches
    ensures var m' := CreateBranch(m, source, id, sid, c).m;
            && m'.maxBranches == m.maxBranches && m'.running == m.running
            && (|| (m'.branches == m.branches && m'.born == m.born)
                || (id in m'.branches && m'.branches == m.branches[id := m'.branches[id]]
                    && m'.born == m.born[id := |m.branches|]
                    && m'.branches[id].status.Pending? && |LiveBranches(m)| < m.maxBranches
                    && (m'.branches[id].parent.Some? ==> m'.branches[id].parent.value in m.branches)))
  {}
}
