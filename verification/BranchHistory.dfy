/** The life of a branch: what moves its status, and what a merged branch went through. */
module BranchHistory {
  import opened Prelude
  import opened Branches
  import opened BranchSteps
  import opened Recovery
  import opened MergeHistory

  // ---- What moves a status ----

  /** Recovery visits the branch with answers of this kind. */
  predicate Revisits(op: Op, b: BranchId, readToo: bool) {
    op.Recover?
    && exists k :: 0 <= k < |op.order| && op.order[k] == b && op.recover(k).writeOk
                   && (readToo ==> op.recover(k).statusReadOk)
  }

  /** The changes were collected, merged and staged, and the request was saved. */
  predicate Saves(m: Manager, sid: SessionId, c: FinishCalls) {
    && sid in m.running && m.running[sid].row.strategy in m.strategies && m.running[sid].request in m.requests
    && c.collectOk && c.mergeOk && (c.conflicts == 0 ==> c.stageOk) && c.saveOk
  }

  /** The request is ready and its staging session was committed. */
  predicate Delivers(m: Manager, mid: MergeId, c: CommitCalls) {
    && c.requestOk && mid in m.requests && m.requests[mid].status.ReadyToCommit?
    && m.requests[mid].staging.Some? && m.requests[mid].staging.value in m.sessions && c.answer.Accepted?
  }

  /** Why a branch enters a status that it did not have. */
  ghost predicate Enters(m: Manager, op: Op, b: BranchId, to: BranchStatus)
    requires Legal(m, op) && b in m.branches
  {
    var from, alive := m.branches[b].status, m.branches[b].session in m.sessions;
    match to
    case Pending => from.Active? && alive && Revisits(op, b, false)
    case Active => from.Pending? && op == MarkExecuting(b, true, true)
    case Completed => from.Active? && op == Complete(b, true, true)
    case Merging =>
      && (from.Active? || from.Completed?)
      && op.Finish? && Saves(m, op.sid, op.finish) && m.running[op.sid].row.branch == b
      && op.finish.statusReadOk && op.finish.statusWriteOk
    case Merged =>
      && from.Merging?
      && op.Commit? && Delivers(m, op.mid, op.commit) && m.requests[op.mid].branch == b
      && op.commit.statusReadOk && op.commit.statusWriteOk
    case Failed =>
      && (from.Pending? || from.Active? || from.Merging?)
      && (|| (op.Abort? && op.b == b && alive && op.abort == AbortCalls(true, Discarded, true, true))
          || (!alive && Revisits(op, b, true)))
  }

  ghost predicate EntersExactly(m: Manager, op: Op, b: BranchId)
    requires Legal(m, op) && b in m.branches
  {
    b in Step(m, op).branches
    && forall to :: to != m.branches[b].status ==> (Step(m, op).branches[b].status == to <==> Enters(m, op, b, to))
  }

  lemma UpdateEnters(m: Manager, op: Op, b: BranchId)
    requires Legal(m, op) && b in m.branches && (op.MarkExecuting? || op.Complete? || op.Abort?)
    ensures EntersExactly(m, op, b)
  {}

  lemma MergeEnters(m: Manager, op: Op, b: BranchId)
    requires Legal(m, op) && b in m.branches && (op.Finish? || op.Commit?)
    ensures EntersExactly(m, op, b)
  {
    if op.Commit? {
      CommitResult(m, op.mid, op.commit);
    }
  }

  lemma RecoverEnters(m: Manager, op: Op, b: BranchId)
    requires Legal(m, op) && b in m.branches && op.Recover?
    ensures EntersExactly(m, op, b)
  {
    RecoverPrefixExactly(m, op.order, op.recover, |op.order|);
    if k :| 0 <= k < |op.order| && op.order[k] == b {
      RevisitsOnce(op, b, k);
      assert Step(m, op).branches[b] == RecoveredBranch(m, m.branches[b], op.recover(k));
    } else {
      assert !Visited(op.order, |op.order|, b);
    }
  }

  lemma RevisitsOnce(op: Op, b: BranchId, k: nat)
    requires op.Recover? && k < |op.order| && op.order[k] == b
    requires forall i, j :: 0 <= i < j < |op.order| ==> op.order[i] != op.order[j]
    ensures Revisits(op, b, false) <==> op.recover(k).writeOk
    ensures Revisits(op, b, true) <==> op.recover(k).writeOk && op.recover(k).statusReadOk
  {}

  lemma OthersEnterNothing(m: Manager, op: Op, b: BranchId)
    requires Legal(m, op) && b in m.branches
    requires op.Create? || op.Request? || op.Approve? || op.Begin? || op.SessionLost?
    ensures b in Step(m, op).branches && Step(m, op).branches[b] == m.branches[b] && EntersExactly(m, op, b)
  {
    if op.Create? {
      CreateAdds(m, op.source, op.id, op.sid, op.create);
    } else {
      StepMoves(m, op);
    }
  }

  /** For every state and operation: a branch enters a status exactly for the reason given. */
  lemma StatusMovesExactly(m: Manager, op: Op, b: BranchId)
    requires Legal(m, op) && b in m.branches
    ensures EntersExactly(m, op, b)
  {
    match op
    case MarkExecuting(_, _, _) => UpdateEnters(m, op, b);
    case Complete(_, _, _) => UpdateEnters(m, op, b);
    case Abort(_, _) => UpdateEnters(m, op, b);
    case Recover(_, _) => RecoverEnters(m, op, b);
    case Finish(_, _) => MergeEnters(m, op, b);
    case Commit(_, _) => MergeEnters(m, op, b);
    case _ => OthersEnterNothing(m, op, b);
  }

  // ---- What the records of a merge come from ----

  /** What approval and execution do not change about a request. */
  predicate SameTerms(r: MergeRequest, s: MergeRequest) {
    r.branch == s.branch && r.strategy == s.strategy && r.approvedBy == s.approvedBy
  }

  /** What such an operation leaves alone. */
  lemma QuietOp(m: Manager, op: Op)
    requires Legal(m, op) && !op.Request? && !op.Approve? && !op.Begin? && !op.Finish? && !op.Commit?
    ensures var m' := Step(m, op);
            && m'.requests == m.requests && m'.running == m.running
            && m'.executions == m.executions && m'.commits == m.commits
  {
    match op
    case Recover(order, c) => RecoverOnlyMoves(m, order, c, |order|);
    case _ =>
  }

  /** A stored request is one that was stored, a new one, one just approved, or the copy that
      an execution saves. */
  ghost predicate RequestComes(m: Manager, op: Op, mid: MergeId, r: MergeRequest)
    requires Legal(m, op)
  {
    || (mid in m.requests && SameTerms(r, m.requests[mid]))
    || (op.Request? && mid == op.mid && r.branch == op.b && r.strategy == op.strategy
        && op.b in m.branches && m.branches[op.b].status.Completed?
        && (r.approvedBy == None || (r.approvedBy == Some("auto") && !op.requiresApproval)))
    || (op.Approve? && op.ok && mid == op.mid && mid in m.requests
        && SameTerms(r, m.requests[mid].(approvedBy := Some(op.approver))))
    || (op.Finish? && mid == m.running[op.sid].request && SameTerms(r, m.running[op.sid].row))
  }

  lemma RequestOrigin(m: Manager, op: Op, mid: MergeId)
    requires Legal(m, op) && mid in Step(m, op).requests
    ensures RequestComes(m, op, mid, Step(m, op).requests[mid])
  {
    match op
    case Request(_, _, _, _, _) => NewRequestOrigin(m, op, mid);
    case Approve(_, _, _) =>
    case Begin(_, _, _) => assert Step(m, op).requests == m.requests;
    case Finish(_, _) => SavedRequestOrigin(m, op, mid);
    case Commit(id, c) => CommittedRequestOrigin(m, op, mid);
    case _ => QuietOp(m, op);
  }

  lemma NewRequestOrigin(m: Manager, op: Op, mid: MergeId)
    requires Legal(m, op) && op.Request? && mid in Step(m, op).requests
    ensures RequestComes(m, op, mid, Step(m, op).requests[mid])
  {}

  lemma SavedRequestOrigin(m: Manager, op: Op, mid: MergeId)
    requires Legal(m, op) && op.Finish? && mid in Step(m, op).requests
    ensures RequestComes(m, op, mid, Step(m, op).requests[mid])
  {}

  lemma CommittedRequestOrigin(m: Manager, op: Op, mid: MergeId)
    requires Legal(m, op) && op.Commit? && mid in Step(m, op).requests
    ensures RequestComes(m, op, mid, Step(m, op).requests[mid])
  {
    CommitResult(m, op.mid, op.commit);
  }

  lemma RunningOrigin(m: Manager, op: Op, sid: SessionId)
    requires Legal(m, op) && sid in Step(m, op).running
    ensures var x := Step(m, op).running[sid];
            || (sid in m.running && x == m.running[sid])
            || (op.Begin? && sid == op.sid && x.request == op.mid && op.mid in m.requests && x.row == m.requests[op.mid]
                && x.row.status.Approved?)
  {
    match op
    case Request(_, _, _, _, _) =>
    case Approve(_, _, _) =>
    case Begin(_, _, _) =>
    case Finish(_, _) =>
    case Commit(id, c) => CommitResult(m, id, c);
    case _ => QuietOp(m, op);
  }

  lemma ExecutionOrigin(m: Manager, op: Op)
    requires Legal(m, op)
    ensures var xs := Step(m, op).executions;
            xs == m.executions
            || (op.Finish? && xs == m.executions + [ExecutionOf(m.running[op.sid], op.sid, op.finish.conflicts)])
  {
    match op
    case Request(_, _, _, _, _) =>
    case Approve(_, _, _) =>
    case Begin(_, _, _) =>
    case Finish(_, _) =>
    case Commit(id, c) => CommitResult(m, id, c);
    case _ => QuietOp(m, op);
  }

  lemma CommitOrigin(m: Manager, op: Op)
    requires Legal(m, op)
    ensures var cs := Step(m, op).commits;
            cs == m.commits
            || (op.Commit? && op.mid in m.requests && m.requests[op.mid].staging.Some?
                && m.requests[op.mid].staging.value in m.sessions
                && cs == m.commits + [m.requests[op.mid].staging.value])
  {
    match op
    case Request(_, _, _, _, _) =>
    case Approve(_, _, _) =>
    case Begin(_, _, _) =>
    case Finish(_, _) =>
    case Commit(id, c) => CommitResult(m, id, c);
    case _ => QuietOp(m, op);
  }

  // ---- The way of a merge through a run ----

  /** Where in the run a branch was marked executing and completed, and where its merge was
      requested, approved, begun, finished and committed. */
  datatype Trail = Trail(mark: nat, complete: nat, request: nat, approve: nat, begin: nat, finish: nat, commit: nat)

  /** The `k`-th operation of the run moved `b` from another status to `to`. */
  ghost predicate MovedAt(start: Manager, ops: seq<Op>, k: nat, b: BranchId, to: BranchStatus) {
    && k < |ops| && LegalRun(start, ops[..k]) && Legal(Run(start, ops[..k]), ops[k])
    && var m := Run(start, ops[..k]);
       && b in m.branches && m.branches[b].status != to
       && b in Step(m, ops[k]).branches && Step(m, ops[k]).branches[b].status == to
  }

  ghost predicate MarkedAt(start: Manager, ops: seq<Op>, t: Trail, b: BranchId) {
    t.mark < |ops| && ops[t.mark] == MarkExecuting(b, true, true) && MovedAt(start, ops, t.mark, b, Active)
  }

  ghost predicate CompletedAt(start: Manager, ops: seq<Op>, t: Trail, b: BranchId) {
    && MarkedAt(start, ops, t, b) && t.mark < t.complete < |ops|
    && ops[t.complete] == Complete(b, true, true) && MovedAt(start, ops, t.complete, b, Completed)
  }

  ghost predicate RequestedAt(start: Manager, ops: seq<Op>, t: Trail, mid: MergeId, b: BranchId, strategy: string) {
    && CompletedAt(start, ops, t, b) && t.complete < t.request < |ops|
    && var op := ops[t.request]; op.Request? && op.mid == mid && op.b == b && op.strategy == strategy
  }

  predicate HasWorked(s: BranchStatus) { s.Completed? || s.Merging? || s.Merged? }

  /** Who is active was marked, who has worked was marked and then completed, and so was the
      branch of every request, stored or copied by an execution. */
  ghost predicate Worked(start: Manager, ops: seq<Op>, m: Manager) {
    && (forall b :: b in m.branches && m.branches[b].status.Active? ==> exists t :: MarkedAt(start, ops, t, b))
    && (forall b :: b in m.branches && HasWorked(m.branches[b].status) ==> exists t :: CompletedAt(start, ops, t, b))
    && (forall mid :: mid in m.requests ==> WasRequested(start, ops, mid, m.requests[mid]))
    && forall sid :: sid in m.running ==> WasRequested(start, ops, m.running[sid].request, m.running[sid].row)
  }

  ghost predicate WasRequested(start: Manager, ops: seq<Op>, mid: MergeId, r: MergeRequest) {
    exists t :: RequestedAt(start, ops, t, mid, r.branch, r.strategy)
  }

  // ---- Trails stay when the run goes on ----

  lemma MovedStays(start: Manager, ops: seq<Op>, op: Op, k: nat, b: BranchId, to: BranchStatus)
    requires MovedAt(start, ops, k, b, to)
    ensures MovedAt(start, ops + [op], k, b, to)
  {
    assert (ops + [op])[..k] == ops[..k];
  }

  lemma MovedLast(start: Manager, ops: seq<Op>, op: Op, b: BranchId, to: BranchStatus)
    requires LegalRun(start, ops) && Legal(Run(start, ops), op)
    requires b in Run(start, ops).branches && Run(start, ops).branches[b].status != to
    requires b in Step(Run(start, ops), op).branches && Step(Run(start, ops), op).branches[b].status == to
    ensures MovedAt(start, ops + [op], |ops|, b, to)
  {
    assert (ops + [op])[..|ops|] == ops;
  }

  lemma MarkedStays(start: Manager, ops: seq<Op>, op: Op, t: Trail, b: BranchId)
    requires MarkedAt(start, ops, t, b)
    ensures MarkedAt(start, ops + [op], t, b)
  {
    MovedStays(start, ops, op, t.mark, b, Active);
  }

  lemma CompletedStays(start: Manager, ops: seq<Op>, op: Op, t: Trail, b: BranchId)
    requires CompletedAt(start, ops, t, b)
    ensures CompletedAt(start, ops + [op], t, b)
  {
    MarkedStays(start, ops, op, t, b);
    MovedStays(start, ops, op, t.complete, b, Completed);
  }

  lemma RequestedStays(start: Manager, ops: seq<Op>, op: Op, mid: MergeId, r: MergeRequest)
    requires WasRequested(start, ops, mid, r)
    ensures WasRequested(start, ops + [op], mid, r)
  {
    var t :| RequestedAt(start, ops, t, mid, r.branch, r.strategy);
    RequestStays(start, ops, op, t, mid, r.branch, r.strategy);
  }

  lemma RequestStays(start: Manager, ops: seq<Op>, op: Op, t: Trail, mid: MergeId, b: BranchId, strategy: string)
    requires RequestedAt(start, ops, t, mid, b, strategy)
    ensures RequestedAt(start, ops + [op], t, mid, b, strategy)
  {
    CompletedStays(start, ops, op, t, b);
  }

  // ---- One more operation ----

  lemma ActiveNext(start: Manager, ops: seq<Op>, op: Op, b: BranchId)
    requires LegalRun(start, ops) && Worked(start, ops, Run(start, ops)) && Legal(Run(start, ops), op)
    requires b in Step(Run(start, ops), op).branches && Step(Run(start, ops), op).branches[b].status.Active?
    ensures exists t :: MarkedAt(start, ops + [op], t, b)
  {
    var m := Run(start, ops);
    if b !in m.branches {
      NewIsPending(m, op, b);
    } else if m.branches[b].status.Active? {
      var t :| MarkedAt(start, ops, t, b);
      MarkedStays(start, ops, op, t, b);
    } else {
      StatusMovesExactly(m, op, b);
      assert Enters(m, op, b, Active);
      MovedLast(start, ops, op, b, Active);
      assert MarkedAt(start, ops + [op], Trail(|ops|, 0, 0, 0, 0, 0, 0), b);
    }
  }

  lemma NewIsPending(m: Manager, op: Op, b: BranchId)
    requires Legal(m, op) && b !in m.branches && b in Step(m, op).branches
    ensures Step(m, op).branches[b].status.Pending?
  {
    if op.Create? {
      CreateAdds(m, op.source, op.id, op.sid, op.create);
    } else {
      StepMoves(m, op);
    }
  }

  lemma WorkedNext(start: Manager, ops: seq<Op>, op: Op, b: BranchId)
    requires LegalRun(start, ops) && Worked(start, ops, Run(start, ops)) && Legal(Run(start, ops), op)
    requires b in Step(Run(start, ops), op).branches && HasWorked(Step(Run(start, ops), op).branches[b].status)
    ensures exists t :: CompletedAt(start, ops + [op], t, b)
  {
    var m, to := Run(start, ops), Step(Run(start, ops), op).branches[b].status;
    if b !in m.branches {
      NewIsPending(m, op, b);
    } else if HasWorked(m.branches[b].status) {
      var t :| CompletedAt(start, ops, t, b);
      CompletedStays(start, ops, op, t, b);
    } else {
      StatusMovesExactly(m, op, b);
      assert Enters(m, op, b, to);
      if to.Completed? {
        var t :| MarkedAt(start, ops, t, b);
        MarkedStays(start, ops, op, t, b);
        MovedLast(start, ops, op, b, Completed);
        assert MarkedAt(start, ops + [op], t.(complete := |ops|), b);
        assert CompletedAt(start, ops + [op], t.(complete := |ops|), b);
      } else {
        var x := m.running[op.sid];
        var t :| RequestedAt(start, ops, t, x.request, b, x.row.strategy);
        CompletedStays(start, ops, op, t, b);
      }
    }
  }

  lemma RequestedNext(start: Manager, ops: seq<Op>, op: Op, mid: MergeId)
    requires LegalRun(start, ops) && Worked(start, ops, Run(start, ops)) && Legal(Run(start, ops), op)
    requires mid in Step(Run(start, ops), op).requests
    ensures WasRequested(start, ops + [op], mid, Step(Run(start, ops), op).requests[mid])
  {
    var m, r := Run(start, ops), Step(Run(start, ops), op).requests[mid];
    RequestOrigin(m, op, mid);
    if mid in m.requests && r.branch == m.requests[mid].branch && r.strategy == m.requests[mid].strategy {
      RequestedStays(start, ops, op, mid, m.requests[mid]);
    } else if op.Request? {
      var t :| CompletedAt(start, ops, t, op.b);
      RequestAdded(start, ops, op, t);
    } else {
      RequestedStays(start, ops, op, mid, m.running[op.sid].row);
    }
  }

  lemma RequestAdded(start: Manager, ops: seq<Op>, op: Op, t: Trail)
    requires op.Request? && CompletedAt(start, ops, t, op.b)
    ensures RequestedAt(start, ops + [op], t.(request := |ops|), op.mid, op.b, op.strategy)
  {
    CompletedStays(start, ops, op, t, op.b);
    assert MarkedAt(start, ops + [op], t.(request := |ops|), op.b);
  }

  lemma CopyNext(start: Manager, ops: seq<Op>, op: Op, sid: SessionId)
    requires LegalRun(start, ops) && Worked(start, ops, Run(start, ops)) && Legal(Run(start, ops), op)
    requires sid in Step(Run(start, ops), op).running
    ensures var x := Step(Run(start, ops), op).running[sid]; WasRequested(start, ops + [op], x.request, x.row)
  {
    var m, x := Run(start, ops), Step(Run(start, ops), op).running[sid];
    RunningOrigin(m, op, sid);
    RequestedStays(start, ops, op, x.request, x.row);
  }

  lemma StepWorks(start: Manager, ops: seq<Op>, op: Op)
    requires LegalRun(start, ops) && Worked(start, ops, Run(start, ops)) && Legal(Run(start, ops), op)
    ensures Worked(start, ops + [op], Step(Run(start, ops), op))
  {
    var m' := Step(Run(start, ops), op);
    forall b | b in m'.branches && m'.branches[b].status.Active? ensures exists t :: MarkedAt(start, ops + [op], t, b) {
      ActiveNext(start, ops, op, b);
    }
    forall b | b in m'.branches && HasWorked(m'.branches[b].status)
      ensures exists t :: CompletedAt(start, ops + [op], t, b)
    {
      WorkedNext(start, ops, op, b);
    }
    forall mid | mid in m'.requests ensures WasRequested(start, ops + [op], mid, m'.requests[mid]) {
      RequestedNext(start, ops, op, mid);
    }
    forall sid | sid in m'.running
      ensures WasRequested(start, ops + [op], m'.running[sid].request, m'.running[sid].row)
    {
      CopyNext(start, ops, op, sid);
    }
  }

  lemma {:induction false} RunInit(m: Manager, ops: seq<Op>)
    requires LegalRun(m, ops) && ops != []
    ensures LegalRun(m, ops[..|ops| - 1]) && Legal(Run(m, ops[..|ops| - 1]), ops[|ops| - 1])
    ensures Run(m, ops) == Step(Run(m, ops[..|ops| - 1]), ops[|ops| - 1])
    decreases |ops|
  {
    var init := ops[..|ops| - 1];
    if |ops| > 1 {
      RunInit(Step(m, ops[0]), ops[1..]);
      assert init[1..] == ops[1..][..|ops| - 2] && init[0] == ops[0];
      assert ops[1..][|ops| - 2] == ops[|ops| - 1];
    } else {
      assert init == [] && ops[1..] == [];
    }
  }

  /** Over every run from the start: an active branch was marked executing while it was
      pending; a completed, merging or merged one was marked executing and later completed
      while it was active; and so had the branch of every merge request when it was made. */
  lemma {:induction false} RunWorks(strategies: set<string>, maxBranches: nat, ops: seq<Op>)
    requires LegalRun(Start(strategies, maxBranches), ops)
    ensures Worked(Start(strategies, maxBranches), ops, Run(Start(strategies, maxBranches), ops))
    decreases |ops|
  {
    if ops != [] {
      RunInit(Start(strategies, maxBranches), ops);
      RunWorks(strategies, maxBranches, ops[..|ops| - 1]);
      RunWorksNext(Start(strategies, maxBranches), ops);
    }
  }

  lemma RunWorksNext(start: Manager, ops: seq<Op>)
    requires LegalRun(start, ops) && ops != [] && LegalRun(start, ops[..|ops| - 1])
    requires Worked(start, ops[..|ops| - 1], Run(start, ops[..|ops| - 1]))
    ensures Worked(start, ops, Run(start, ops))
  {
    var init, op := ops[..|ops| - 1], ops[|ops| - 1];
    RunInit(start, ops);
    StepWorks(start, init, op);
    assert ops == init + [op];
  }
}
