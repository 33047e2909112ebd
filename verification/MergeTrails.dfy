/** The way of a merge through a run: who approved it, and what was committed. */
module MergeTrails {
  import opened Prelude
  import opened Branches
  import opened BranchHistory
  import opened MergeHistory

  /** Approved by that text, or at once as part of the request. */
  ghost predicate ApprovedAt(start: Manager, ops: seq<Op>, t: Trail, mid: MergeId, r: MergeRequest) {
    && RequestedAt(start, ops, t, mid, r.branch, r.strategy) && t.request <= t.approve < |ops| && r.approvedBy.Some?
    && var op := ops[t.approve];
       || (op.Approve? && op.ok && op.mid == mid && r.approvedBy == Some(op.approver))
       || (t.approve == t.request && op.Request? && !op.requiresApproval && r.approvedBy == Some("auto"))
  }

  ghost predicate BegunAt(start: Manager, ops: seq<Op>, t: Trail, x: Running, sid: SessionId) {
    && ApprovedAt(start, ops, t, x.request, x.row) && t.approve < t.begin < |ops|
    && var op := ops[t.begin]; op.Begin? && op.mid == x.request && op.sid == sid
  }

  ghost predicate FinishedAt(start: Manager, ops: seq<Op>, t: Trail, x: Execution) {
    && t.begin < t.finish < |ops| && ops[t.finish].Finish? && ops[t.finish].sid == x.staging
    && exists r: MergeRequest :: r.branch == x.branch && r.approvedBy == Some(x.approver)
                                 && BegunAt(start, ops, t, Running(x.request, r), x.staging)
  }

  ghost predicate CommittedAt(start: Manager, ops: seq<Op>, t: Trail, x: Execution) {
    && FinishedAt(start, ops, t, x) && t.finish < t.commit < |ops|
    && ops[t.commit].Commit? && ops[t.commit].mid == x.request
  }

  ghost predicate WasApproved(start: Manager, ops: seq<Op>, mid: MergeId, r: MergeRequest) {
    exists t :: ApprovedAt(start, ops, t, mid, r)
  }

  /** Approvals, executions and commits have their trails too. */
  ghost predicate Traced(start: Manager, ops: seq<Op>, m: Manager) {
    && (forall mid :: mid in m.requests && m.requests[mid].approvedBy.Some? ==>
          WasApproved(start, ops, mid, m.requests[mid]))
    && (forall sid :: sid in m.running ==> WasBegun(start, ops, m.running[sid], sid))
    && (forall i :: 0 <= i < |m.executions| ==> WasFinished(start, ops, m.executions[i]))
    && forall i :: 0 <= i < |m.executions| && m.executions[i].staging in m.commits ==>
         WasCommitted(start, ops, m.executions[i])
  }

  ghost predicate WasBegun(start: Manager, ops: seq<Op>, x: Running, sid: SessionId) {
    exists t :: BegunAt(start, ops, t, x, sid)
  }

  ghost predicate WasFinished(start: Manager, ops: seq<Op>, x: Execution) {
    exists t :: FinishedAt(start, ops, t, x)
  }

  ghost predicate WasCommitted(start: Manager, ops: seq<Op>, x: Execution) {
    exists t :: CommittedAt(start, ops, t, x)
  }

  lemma ApprovedStays(start: Manager, ops: seq<Op>, op: Op, t: Trail, mid: MergeId, r: MergeRequest)
    requires ApprovedAt(start, ops, t, mid, r)
    ensures ApprovedAt(start, ops + [op], t, mid, r)
  {
    CompletedStays(start, ops, op, t, r.branch);
  }

  lemma BegunStays(start: Manager, ops: seq<Op>, op: Op, t: Trail, x: Running, sid: SessionId)
    requires BegunAt(start, ops, t, x, sid)
    ensures BegunAt(start, ops + [op], t, x, sid)
  {
    ApprovedStays(start, ops, op, t, x.request, x.row);
  }

  lemma FinishedStays(start: Manager, ops: seq<Op>, op: Op, t: Trail, x: Execution)
    requires FinishedAt(start, ops, t, x)
    ensures FinishedAt(start, ops + [op], t, x)
  {
    var r: MergeRequest :| r.branch == x.branch && r.approvedBy == Some(x.approver)
                           && BegunAt(start, ops, t, Running(x.request, r), x.staging);
    BegunStays(start, ops, op, t, Running(x.request, r), x.staging);
  }

  lemma CommittedStays(start: Manager, ops: seq<Op>, op: Op, t: Trail, x: Execution)
    requires CommittedAt(start, ops, t, x)
    ensures CommittedAt(start, ops + [op], t, x)
  {
    FinishedStays(start, ops, op, t, x);
  }

  // ---- One more operation ----

  lemma ApprovalAdded(start: Manager, ops: seq<Op>, op: Op, t: Trail, mid: MergeId, r: MergeRequest)
    requires RequestedAt(start, ops, t, mid, r.branch, r.strategy)
    requires op.Approve? && op.ok && op.mid == mid && r.approvedBy == Some(op.approver)
    ensures ApprovedAt(start, ops + [op], t.(approve := |ops|), mid, r)
  {
    RequestStays(start, ops, op, t, mid, r.branch, r.strategy);
    assert MarkedAt(start, ops + [op], t.(approve := |ops|), r.branch);
  }

  lemma AutoApprovalAdded(start: Manager, ops: seq<Op>, op: Op, t: Trail, r: MergeRequest)
    requires op.Request? && !op.requiresApproval && CompletedAt(start, ops, t, op.b)
    requires r.branch == op.b && r.strategy == op.strategy && r.approvedBy == Some("auto")
    ensures ApprovedAt(start, ops + [op], t.(request := |ops|, approve := |ops|), op.mid, r)
  {
    CompletedStays(start, ops, op, t, op.b);
    assert MarkedAt(start, ops + [op], t.(request := |ops|, approve := |ops|), op.b);
  }

  lemma ApprovedOnTerms(start: Manager, ops: seq<Op>, op: Op, mid: MergeId, r: MergeRequest, s: MergeRequest)
    requires WasApproved(start, ops, mid, r) && SameTerms(r, s)
    ensures WasApproved(start, ops + [op], mid, s)
  {
    var t :| ApprovedAt(start, ops, t, mid, r);
    ApprovedStays(start, ops, op, t, mid, r);
    assert ApprovedAt(start, ops + [op], t, mid, s);
  }

  lemma ApprovedNext(start: Manager, ops: seq<Op>, op: Op, mid: MergeId)
    requires LegalRun(start, ops) && Legal(Run(start, ops), op)
    requires Worked(start, ops, Run(start, ops)) && Traced(start, ops, Run(start, ops))
    requires mid in Step(Run(start, ops), op).requests && Step(Run(start, ops), op).requests[mid].approvedBy.Some?
    ensures WasApproved(start, ops + [op], mid, Step(Run(start, ops), op).requests[mid])
  {
    RequestOrigin(Run(start, ops), op, mid);
    ComesApproved(start, ops, Run(start, ops), op, mid, Step(Run(start, ops), op).requests[mid]);
  }

  lemma BegunWasApproved(start: Manager, ops: seq<Op>, x: Running, sid: SessionId)
    requires WasBegun(start, ops, x, sid)
    ensures WasApproved(start, ops, x.request, x.row)
  {
    var t :| BegunAt(start, ops, t, x, sid);
    assert ApprovedAt(start, ops, t, x.request, x.row);
  }

  lemma ComesApproved(start: Manager, ops: seq<Op>, m: Manager, op: Op, mid: MergeId, r: MergeRequest)
    requires Legal(m, op) && RequestComes(m, op, mid, r) && r.approvedBy.Some?
    requires Worked(start, ops, m) && Traced(start, ops, m)
    ensures WasApproved(start, ops + [op], mid, r)
  {
    if mid in m.requests && SameTerms(r, m.requests[mid]) {
      ApprovedOnTerms(start, ops, op, mid, m.requests[mid], r);
    } else if op.Request? {
      var t :| CompletedAt(start, ops, t, op.b);
      AutoApprovalAdded(start, ops, op, t, r);
    } else if op.Approve? {
      assert WasRequested(start, ops, mid, m.requests[mid]);
      var t :| RequestedAt(start, ops, t, mid, r.branch, r.strategy);
      ApprovalAdded(start, ops, op, t, mid, r);
    } else {
      assert WasBegun(start, ops, m.running[op.sid], op.sid);
      BegunWasApproved(start, ops, m.running[op.sid], op.sid);
      ApprovedOnTerms(start, ops, op, mid, m.running[op.sid].row, r);
    }
  }

  lemma BegunNext(start: Manager, ops: seq<Op>, op: Op, sid: SessionId)
    requires LegalRun(start, ops) && Legal(Run(start, ops), op) && Sound(Run(start, ops))
    requires Traced(start, ops, Run(start, ops)) && sid in Step(Run(start, ops), op).running
    ensures WasBegun(start, ops + [op], Step(Run(start, ops), op).running[sid], sid)
  {
    var m, x := Run(start, ops), Step(Run(start, ops), op).running[sid];
    RunningOrigin(m, op, sid);
    if sid in m.running && x == m.running[sid] {
      assert WasBegun(start, ops, x, sid);
      var t :| BegunAt(start, ops, t, x, sid);
      BegunStays(start, ops, op, t, x, sid);
    } else {
      assert RequestSound(m, op.mid, m.requests[op.mid]);
      assert WasApproved(start, ops, op.mid, x.row);
      var t :| ApprovedAt(start, ops, t, op.mid, x.row);
      BeginAdded(start, ops, op, t, x);
    }
  }

  lemma BeginAdded(start: Manager, ops: seq<Op>, op: Op, t: Trail, x: Running)
    requires op.Begin? && x.request == op.mid && ApprovedAt(start, ops, t, op.mid, x.row)
    ensures BegunAt(start, ops + [op], t.(begin := |ops|), x, op.sid)
  {
    ApprovedStays(start, ops, op, t, op.mid, x.row);
    assert MarkedAt(start, ops + [op], t.(begin := |ops|), x.row.branch);
  }

  lemma FinishAdded(start: Manager, ops: seq<Op>, op: Op, t: Trail, x: Running, conflicts: nat)
    requires op.Finish? && BegunAt(start, ops, t, x, op.sid)
    ensures FinishedAt(start, ops + [op], t.(finish := |ops|), ExecutionOf(x, op.sid, conflicts))
  {
    BegunStays(start, ops, op, t, x, op.sid);
    assert MarkedAt(start, ops + [op], t.(finish := |ops|), x.row.branch);
    assert BegunAt(start, ops + [op], t.(finish := |ops|), Running(x.request, x.row), op.sid);
  }

  lemma CommitAdded(start: Manager, ops: seq<Op>, op: Op, t: Trail, x: Execution)
    requires op.Commit? && op.mid == x.request && FinishedAt(start, ops, t, x)
    ensures CommittedAt(start, ops + [op], t.(commit := |ops|), x)
  {
    var r: MergeRequest :| r.branch == x.branch && r.approvedBy == Some(x.approver)
                           && BegunAt(start, ops, t, Running(x.request, r), x.staging);
    BegunStays(start, ops, op, t, Running(x.request, r), x.staging);
    assert MarkedAt(start, ops + [op], t.(commit := |ops|), r.branch);
    assert BegunAt(start, ops + [op], t.(commit := |ops|), Running(x.request, r), x.staging);
  }

  lemma FinishedNext(start: Manager, ops: seq<Op>, op: Op, i: nat)
    requires LegalRun(start, ops) && Legal(Run(start, ops), op)
    requires Traced(start, ops, Run(start, ops)) && i < |Step(Run(start, ops), op).executions|
    ensures WasFinished(start, ops + [op], Step(Run(start, ops), op).executions[i])
  {
    var m, x := Run(start, ops), Step(Run(start, ops), op).executions[i];
    ExecutionOrigin(m, op);
    if i < |m.executions| {
      assert WasFinished(start, ops, m.executions[i]);
      var t :| FinishedAt(start, ops, t, m.executions[i]);
      FinishedStays(start, ops, op, t, x);
    } else {
      assert WasBegun(start, ops, m.running[op.sid], op.sid);
      var t :| BegunAt(start, ops, t, m.running[op.sid], op.sid);
      FinishAdded(start, ops, op, t, m.running[op.sid], op.finish.conflicts);
    }
  }

  /** A staging session is committed for the request that its execution belongs to. */
  lemma CommitsOwn(m: Manager, op: Op, i: nat)
    requires Sound(m) && Legal(m, op) && i < |Step(m, op).executions|
    requires Step(m, op).executions[i].staging in Step(m, op).commits
    ensures i < |m.executions| && Step(m, op).executions[i] == m.executions[i]
    ensures m.executions[i].staging in m.commits || (op.Commit? && op.mid == m.executions[i].request)
  {
    ExecutionOrigin(m, op);
    CommitOrigin(m, op);
    if op.Finish? {
      FreshStaging(m, op.sid, op.finish);
      assert Step(m, op).commits == m.commits;
    } else if Step(m, op).commits != m.commits {
      assert RequestSound(m, op.mid, m.requests[op.mid]);
      var j :| 0 <= j < |m.executions| && m.executions[j].request == op.mid
               && m.requests[op.mid].staging == Some(m.executions[j].staging);
      assert m.executions[i].staging !in m.commits ==> i == j;
    }
  }

  lemma CommittedNext(start: Manager, ops: seq<Op>, op: Op, i: nat)
    requires LegalRun(start, ops) && Legal(Run(start, ops), op) && Sound(Run(start, ops))
    requires Traced(start, ops, Run(start, ops)) && i < |Step(Run(start, ops), op).executions|
    requires Step(Run(start, ops), op).executions[i].staging in Step(Run(start, ops), op).commits
    ensures WasCommitted(start, ops + [op], Step(Run(start, ops), op).executions[i])
  {
    var m := Run(start, ops);
    CommitsOwn(m, op, i);
    var x := m.executions[i];
    if x.staging in m.commits {
      assert WasCommitted(start, ops, x);
      var t :| CommittedAt(start, ops, t, x);
      CommittedStays(start, ops, op, t, x);
    } else {
      assert WasFinished(start, ops, x);
      var t :| FinishedAt(start, ops, t, x);
      CommitAdded(start, ops, op, t, x);
    }
  }

  lemma StepTraces(start: Manager, ops: seq<Op>, op: Op)
    requires LegalRun(start, ops) && Legal(Run(start, ops), op) && Sound(Run(start, ops))
    requires Worked(start, ops, Run(start, ops)) && Traced(start, ops, Run(start, ops))
    ensures Traced(start, ops + [op], Step(Run(start, ops), op))
  {
    var m' := Step(Run(start, ops), op);
    forall mid | mid in m'.requests && m'.requests[mid].approvedBy.Some?
      ensures WasApproved(start, ops + [op], mid, m'.requests[mid])
    {
      ApprovedNext(start, ops, op, mid);
    }
    forall sid | sid in m'.running ensures WasBegun(start, ops + [op], m'.running[sid], sid) {
      BegunNext(start, ops, op, sid);
    }
    forall i | 0 <= i < |m'.executions| ensures WasFinished(start, ops + [op], m'.executions[i]) {
      FinishedNext(start, ops, op, i);
    }
    forall i | 0 <= i < |m'.executions| && m'.executions[i].staging in m'.commits
      ensures WasCommitted(start, ops + [op], m'.executions[i])
    {
      CommittedNext(start, ops, op, i);
    }
  }

  lemma {:induction false} RunTraces(strategies: set<string>, maxBranches: nat, ops: seq<Op>)
    requires LegalRun(Start(strategies, maxBranches), ops) && forall op :: op in ops ==> RollsBack(op)
    ensures Traced(Start(strategies, maxBranches), ops, Run(Start(strategies, maxBranches), ops))
    decreases |ops|
  {
    if ops != [] {
      var start, init := Start(strategies, maxBranches), ops[..|ops| - 1];
      RunInit(start, ops);
      RunTraces(strategies, maxBranches, init);
      RunWorks(strategies, maxBranches, init);
      RunKeeps(start, init);
      RunTracesNext(start, ops);
    }
  }

  lemma RunTracesNext(start: Manager, ops: seq<Op>)
    requires LegalRun(start, ops) && ops != [] && LegalRun(start, ops[..|ops| - 1])
    requires var init, m := ops[..|ops| - 1], Run(start, ops[..|ops| - 1]);
             Sound(m) && Worked(start, init, m) && Traced(start, init, m)
    ensures Traced(start, ops, Run(start, ops))
  {
    var init, op := ops[..|ops| - 1], ops[|ops| - 1];
    RunInit(start, ops);
    StepTraces(start, init, op);
    assert ops == init + [op];
  }

  /** Over every run from the start: a merged branch was marked executing, completed, its merge
      requested, approved by the recorded approver, begun, finished and committed, in this
      order. */
  lemma MergedWentAllTheWay(strategies: set<string>, maxBranches: nat, ops: seq<Op>, b: BranchId)
    returns (x: Execution, t: Trail)
    requires LegalRun(Start(strategies, maxBranches), ops) && forall op :: op in ops ==> RollsBack(op)
    requires var m := Run(Start(strategies, maxBranches), ops); b in m.branches && m.branches[b].status.Merged?
    ensures x in Run(Start(strategies, maxBranches), ops).executions && x.branch == b && x.conflicts == 0
    ensures CommittedAt(Start(strategies, maxBranches), ops, t, x)
  {
    var start, m := Start(strategies, maxBranches), Run(Start(strategies, maxBranches), ops);
    RunTraces(strategies, maxBranches, ops);
    var k := BehindMerged(strategies, maxBranches, ops, b);
    x := m.executions[k];
    assert WasCommitted(start, ops, x);
    t :| CommittedAt(start, ops, t, x);
  }

  lemma BehindMerged(strategies: set<string>, maxBranches: nat, ops: seq<Op>, b: BranchId) returns (k: nat)
    requires LegalRun(Start(strategies, maxBranches), ops) && forall op :: op in ops ==> RollsBack(op)
    requires var m := Run(Start(strategies, maxBranches), ops); b in m.branches && m.branches[b].status.Merged?
    ensures var m := Run(Start(strategies, maxBranches), ops);
            k < |m.executions| && m.executions[k].branch == b && m.executions[k].conflicts == 0
            && m.executions[k].staging in m.commits
  {
    var m := Run(Start(strategies, maxBranches), ops);
    MergeHistoryIsSound(strategies, maxBranches, ops, b);
    k :| MergedBy(m, b, k);
    assert m.executions[k].staging in multiset(m.commits);
  }
}
