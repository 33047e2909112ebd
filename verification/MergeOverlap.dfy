/** Executions of one request that overlap: when the stored request still tells the truth. */
module MergeOverlap {
  import opened Prelude
  import opened Branches
  import opened BranchRuns
  import opened BranchSteps
  import opened MergeHistory

  /** The stored request shows the execution: its staging session and its conflicts. */
  ghost predicate RowAgrees(m: Manager, x: Execution) {
    && x.request in m.requests
    && var r := m.requests[x.request];
       && r.staging == Some(x.staging) && r.conflicts == x.conflicts
       && (if x.conflicts > 0 then r.status.HasConflicts? else r.status.ReadyToCommit? || r.status.Committed?)
  }

  ghost predicate RowsAgree(m: Manager) {
    forall i :: 0 <= i < |m.executions| ==> RowAgrees(m, m.executions[i])
  }

  ghost predicate RequestExecuted(m: Manager, mid: MergeId) {
    exists i :: 0 <= i < |m.executions| && m.executions[i].request == mid
  }

  /** The finish gets as far as the save although the request was executed meanwhile. */
  ghost predicate Overwrites(m: Manager, sid: SessionId, c: FinishCalls) {
    sid in m.running && FinishFailure(m, sid, c).None? && RequestExecuted(m, m.running[sid].request)
  }

  /** What a finish does to requests and executions. */
  lemma FinishEffect(m: Manager, sid: SessionId, c: FinishCalls)
    requires sid in m.running
    ensures var d, r := FinishExecute(m, sid, c), m.running[sid];
            && d.m.requests == (if FinishFailure(m, sid, c).None?
                                then m.requests[r.request := Executed(r.row, sid, c.conflicts)] else m.requests)
            && d.m.executions == (if d.r.Ok? then m.executions + [ExecutionOf(r, sid, c.conflicts)] else m.executions)
            && (d.r.Ok? ==> FinishFailure(m, sid, c).None?)
  {}

  /** A finish leaves the stored requests in agreement with the executions if and only if
      it does not save a request that was executed while it was suspended. */
  lemma FinishKeepsRowsExactly(m: Manager, sid: SessionId, c: FinishCalls)
    requires Sound(m) && RowsAgree(m) && sid in m.running
    ensures RowsAgree(FinishExecute(m, sid, c).m) <==> !Overwrites(m, sid, c)
  {
    var m', r := FinishExecute(m, sid, c).m, m.running[sid];
    FinishEffect(m, sid, c);
    FreshStaging(m, sid, c);
    if Overwrites(m, sid, c) {
      var i :| 0 <= i < |m.executions| && m.executions[i].request == r.request;
      assert m'.executions[i] == m.executions[i] && m.executions[i].staging != sid;
      assert !RowAgrees(m', m'.executions[i]);
    } else {
      forall i | 0 <= i < |m'.executions| ensures RowAgrees(m', m'.executions[i]) {
        if i < |m.executions| {
          assert m'.executions[i] == m.executions[i] && RowAgrees(m, m.executions[i]);
        }
      }
    }
  }

  /** Reading the request again and finding it approved would rule that out. */
  lemma StillApprovedIsSafe(m: Manager, sid: SessionId, c: FinishCalls)
    requires RowsAgree(m) && sid in m.running && m.running[sid].request in m.requests
    requires m.requests[m.running[sid].request].status.Approved?
    ensures !Overwrites(m, sid, c)
  {}

  lemma CommitKeepsRows(m: Manager, mid: MergeId, c: CommitCalls)
    requires RowsAgree(m)
    ensures RowsAgree(CommitMerge(m, mid, c).m)
  {
    CommitResult(m, mid, c);
    var m' := CommitMerge(m, mid, c).m;
    assert m'.executions == m.executions;
    forall i | 0 <= i < |m'.executions| ensures RowAgrees(m', m'.executions[i]) {
      assert RowAgrees(m, m.executions[i]);
    }
  }

  /** Requests that an execution names are neither new nor waiting. */
  lemma WaitingKeepsRows(m: Manager, mid: MergeId, r: MergeRequest)
    requires RowsAgree(m) && (mid in m.requests ==> m.requests[mid].status.Waiting?)
    ensures RowsAgree(m.(requests := m.requests[mid := r]))
  {
    forall i | 0 <= i < |m.executions| ensures RowAgrees(m.(requests := m.requests[mid := r]), m.executions[i]) {
      assert RowAgrees(m, m.executions[i]);
    }
  }

  lemma ApproveKeepsRows(m: Manager, mid: MergeId, approver: string, ok: bool)
    requires RowsAgree(m)
    ensures RowsAgree(ApproveInRepository(m, mid, approver, ok).m)
  {
    if mid in m.requests && m.requests[mid].status.Waiting? {
      WaitingKeepsRows(m, mid, m.requests[mid].(status := Approved, approvedBy := Some(approver)));
    }
  }

  lemma StepKeepsRows(m: Manager, op: Op)
    requires Sound(m) && RowsAgree(m) && Legal(m, op) && !(op.Finish? && Overwrites(m, op.sid, op.finish))
    ensures RowsAgree(Step(m, op))
  {
    match op
    case Request(b, strategy, requiresApproval, mid, c) =>
      var r := MergeRequest(b, strategy, Waiting, None, None, 0);
      WaitingKeepsRows(m, mid, r);
      ApproveKeepsRows(m.(requests := m.requests[mid := r]), mid, "auto", c.approveOk);
    case Approve(mid, approver, ok) => ApproveKeepsRows(m, mid, approver, ok);
    case Finish(sid, c) => FinishKeepsRowsExactly(m, sid, c);
    case Commit(mid, c) => CommitKeepsRows(m, mid, c);
    case _ =>
      RowsUntouched(m, op);
      SameRows(m, Step(m, op));
  }

  lemma RowsUntouched(m: Manager, op: Op)
    requires Legal(m, op) && !op.Request? && !op.Approve? && !op.Finish? && !op.Commit?
    ensures Step(m, op).requests == m.requests && Step(m, op).executions == m.executions
  {
    if op.Recover? {
      RecoverOnlyMoves(m, op.order, op.recover, |op.order|);
    }
  }

  lemma SameRows(m: Manager, m': Manager)
    requires RowsAgree(m) && m'.requests == m.requests && m'.executions == m.executions
    ensures RowsAgree(m')
  {
    forall i | 0 <= i < |m'.executions| ensures RowAgrees(m', m'.executions[i]) {
      assert RowAgrees(m, m.executions[i]);
    }
  }

  ghost predicate NeverOverwrites(m: Manager, ops: seq<Op>)
    requires LegalRun(m, ops)
    decreases |ops|
  {
    ops != [] ==>
      && !(ops[0].Finish? && Overwrites(m, ops[0].sid, ops[0].finish))
      && NeverOverwrites(Step(m, ops[0]), ops[1..])
  }

  // ---- A session that no request names any more ----

  /** Each staging session of an execution is named by its own request or by none. */
  ghost predicate NamedByOwn(m: Manager) {
    forall i, k :: 0 <= i < |m.executions| && k in m.requests ==>
      m.requests[k].staging == Some(m.executions[i].staging) ==> k == m.executions[i].request
  }

  ghost predicate Abandoned(m: Manager, x: SessionId) {
    x in m.used && x !in m.running && forall k :: k in m.requests ==> m.requests[k].staging != Some(x)
  }

  /** Executions stay and no request names another session than before. */
  ghost predicate NamesNoMore(m: Manager, m': Manager) {
    && m'.executions == m.executions
    && forall k :: k in m'.requests && m'.requests[k].staging.Some? ==>
         k in m.requests && m.requests[k].staging == m'.requests[k].staging
  }

  lemma StepNamesNoMore(m: Manager, op: Op)
    requires Legal(m, op) && !op.Finish?
    ensures NamesNoMore(m, Step(m, op))
  {
    match op
    case Request(_, _, _, _, _) =>
    case Approve(_, _, _) =>
    case Commit(mid, c) => CommitResult(m, mid, c);
    case _ => RowsUntouched(m, op);
  }

  lemma StepKeepsNamed(m: Manager, op: Op)
    requires Sound(m) && NamedByOwn(m) && Legal(m, op)
    ensures NamedByOwn(Step(m, op)) && m.executions <= Step(m, op).executions
  {
    if op.Finish? {
      FinishEffect(m, op.sid, op.finish);
      FreshStaging(m, op.sid, op.finish);
    } else {
      StepNamesNoMore(m, op);
    }
  }

  lemma StepUses(m: Manager, op: Op)
    requires Legal(m, op)
    ensures m.used <= Step(m, op).used
  {
    match op
    case Recover(order, c) => RecoverOnlyMoves(m, order, c, |order|);
    case _ =>
  }

  /** Only executions with new sessions are suspended. */
  lemma StepSuspendsFresh(m: Manager, op: Op)
    requires Legal(m, op)
    ensures forall x :: x in Step(m, op).running ==> x in m.running || x !in m.used
  {
    match op
    case Recover(order, c) => RecoverOnlyMoves(m, order, c, |order|);
    case _ =>
  }

  /** Only the commit of a request that names it commits a session. */
  lemma StepCommits(m: Manager, op: Op, x: SessionId)
    requires Legal(m, op) && forall k :: k in m.requests ==> m.requests[k].staging != Some(x)
    ensures x in Step(m, op).commits <==> x in m.commits
  {
    match op
    case Recover(order, c) => RecoverOnlyMoves(m, order, c, |order|);
    case Commit(mid, c) => CommitResult(m, mid, c);
    case _ =>
  }

  lemma StepKeepsAbandoned(m: Manager, op: Op, x: SessionId)
    requires Legal(m, op) && Abandoned(m, x)
    ensures Abandoned(Step(m, op), x) && (x in Step(m, op).commits <==> x in m.commits)
  {
    StepUses(m, op);
    StepSuspendsFresh(m, op);
    StepCommits(m, op, x);
    if op.Finish? {
      FinishEffect(m, op.sid, op.finish);
    } else {
      StepNamesNoMore(m, op);
    }
  }

  /** An abandoned session stays so, and is not committed, over every run. */
  lemma {:induction false} RunKeepsAbandoned(m: Manager, ops: seq<Op>, x: SessionId)
    requires Sound(m) && NamedByOwn(m) && Abandoned(m, x)
    requires LegalRun(m, ops) && forall op :: op in ops ==> RollsBack(op)
    ensures var m' := Run(m, ops);
            && Sound(m') && NamedByOwn(m') && m.executions <= m'.executions
            && Abandoned(m', x) && (x in m'.commits <==> x in m.commits)
    decreases |ops|
  {
    if ops != [] {
      StepKeeps(m, ops[0]);
      StepKeepsNamed(m, ops[0]);
      StepKeepsAbandoned(m, ops[0], x);
      RunKeepsAbandoned(Step(m, ops[0]), ops[1..], x);
    }
  }

  /** Saving over an execution abandons its session. */
  lemma OverwriteAbandons(m: Manager, sid: SessionId, c: FinishCalls, i: nat)
    requires Sound(m) && NamedByOwn(m) && Overwrites(m, sid, c) && i < |m.executions|
    requires m.executions[i].request == m.running[sid].request
    ensures Abandoned(FinishExecute(m, sid, c).m, m.executions[i].staging)
    ensures FinishExecute(m, sid, c).m.commits == m.commits
  {
    FinishEffect(m, sid, c);
    FreshStaging(m, sid, c);
    assert ExecutionSound(m, m.executions[i]);
  }

  lemma OverwriteBreaksRows(m: Manager, sid: SessionId, c: FinishCalls, ops: seq<Op>)
    requires Sound(m) && NamedByOwn(m) && Overwrites(m, sid, c) && Sound(FinishExecute(m, sid, c).m)
    requires NamedByOwn(FinishExecute(m, sid, c).m) && m.executions <= FinishExecute(m, sid, c).m.executions
    requires LegalRun(FinishExecute(m, sid, c).m, ops) && forall op :: op in ops ==> RollsBack(op)
    ensures !RowsAgree(Run(FinishExecute(m, sid, c).m, ops))
  {
    var i :| 0 <= i < |m.executions| && m.executions[i].request == m.running[sid].request;
    OverwriteAbandons(m, sid, c, i);
    var m1 := FinishExecute(m, sid, c).m;
    RunKeepsAbandoned(m1, ops, m.executions[i].staging);
    assert Run(m1, ops).executions[i] == m.executions[i];
    assert !RowAgrees(Run(m1, ops), m.executions[i]);
  }

  /** Over every run, the stored request of every execution shows that execution if and only
      if no execution is saved over another one of its request. */
  lemma {:induction false} RunKeepsRowsExactly(m: Manager, ops: seq<Op>)
    requires Sound(m) && RowsAgree(m) && NamedByOwn(m)
    requires LegalRun(m, ops) && forall op :: op in ops ==> RollsBack(op)
    ensures RowsAgree(Run(m, ops)) <==> NeverOverwrites(m, ops)
    decreases |ops|
  {
    if ops != [] {
      var op, m1 := ops[0], Step(m, ops[0]);
      StepKeeps(m, op);
      StepKeepsNamed(m, op);
      if op.Finish? && Overwrites(m, op.sid, op.finish) {
        OverwriteBreaksRows(m, op.sid, op.finish, ops[1..]);
      } else {
        StepKeepsRows(m, op);
        RunKeepsRowsExactly(m1, ops[1..]);
      }
    }
  }

  /** From `m` on, whatever is done, the session of execution `i` is never committed and its
      branch never merged. */
  ghost predicate NeverMerges(m: Manager, i: nat) {
    i < |m.executions|
    && forall ops :: LegalRun(m, ops) && (forall op :: op in ops ==> RollsBack(op)) ==>
         && m.executions[i].staging !in Run(m, ops).commits
         && (m.executions[i].branch in Run(m, ops).branches ==>
               !Run(m, ops).branches[m.executions[i].branch].status.Merged?)
  }

  lemma AbandonedNeverMerges(m: Manager, i: nat)
    requires Sound(m) && NamedByOwn(m) && i < |m.executions|
    requires Abandoned(m, m.executions[i].staging) && m.executions[i].staging !in m.commits
    ensures NeverMerges(m, i)
  {
    var x := m.executions[i];
    forall ops | LegalRun(m, ops) && (forall op :: op in ops ==> RollsBack(op))
      ensures x.staging !in Run(m, ops).commits
      ensures x.branch in Run(m, ops).branches ==> !Run(m, ops).branches[x.branch].status.Merged?
    {
      RunKeepsAbandoned(m, ops, x.staging);
      assert Run(m, ops).executions[i] == x;
    }
  }

  /** A merge that is saved over before its commit is lost: whatever is done afterwards, its
      session is never committed and its branch never Merged. */
  lemma OverwrittenMergeIsLost(m: Manager, sid: SessionId, c: FinishCalls, i: nat)
    requires Sound(m) && NamedByOwn(m) && Overwrites(m, sid, c) && !c.rollback.Kept? && i < |m.executions|
    requires m.executions[i].request == m.running[sid].request && m.executions[i].staging !in m.commits
    ensures i < |FinishExecute(m, sid, c).m.executions|
            && FinishExecute(m, sid, c).m.executions[i] == m.executions[i] && NeverMerges(FinishExecute(m, sid, c).m, i)
  {
    FinishKeeps(m, sid, c);
    StepKeepsNamed(m, Finish(sid, c));
    OverwriteAbandons(m, sid, c, i);
    AbandonedNeverMerges(FinishExecute(m, sid, c).m, i);
  }

  // ---- It happens ----

  /** The one execution's session is alive and its branch merging, and that will never be
      merged. */
  ghost predicate LosesMerge(m: Manager) {
    && |m.executions| == 1 && NeverMerges(m, 0)
    && var x := m.executions[0];
       x.staging in m.sessions && x.conflicts == 0 && x.branch in m.branches && m.branches[x.branch].status.Merging?
  }

  /** The state in which a merge is lost, by its looks. */
  ghost predicate Overlapped(m: Manager) {
    && |m.executions| == 1 && Abandoned(m, m.executions[0].staging) && m.commits == []
    && NamedByOwn(m)
    && var x := m.executions[0];
       x.staging in m.sessions && x.conflicts == 0 && x.branch in m.branches && m.branches[x.branch].status.Merging?
  }

  /** Two executions of one auto-approved request, the second one finishing after the first,
      lose the merge. */
  lemma OverlapLosesMerge() returns (ops: seq<Op>)
    ensures LegalRun(Start({"s"}, 2), ops) && LosesMerge(Run(Start({"s"}, 2), ops))
  {
    ops := BelowBase("s");
    ops := OverlappedNext(Start({"s"}, 2), ops);
    RunKeeps(Start({"s"}, 2), ops);
    AbandonedNeverMerges(Run(Start({"s"}, 2), ops), 0);
  }

  lemma OverlappedNext(start: Manager, ops: seq<Op>) returns (more: seq<Op>)
    requires Reached(start, ops, TwoBranches(), {10, 11}) && start.strategies == {"s"}
    ensures LegalRun(start, more) && (forall op :: op in more ==> RollsBack(op)) && Overlapped(Run(start, more))
  {
    var m := Run(start, ops);
    var request := Request(1, "s", false, 0, RequestCalls(true, true, true));
    var row := MergeRequest(1, "s", Approved, Some("auto"), None, 0);
    RunSnoc(start, ops, request);
    var m1 := RequestMerge(m, 1, "s", false, 0, RequestCalls(true, true, true)).m;
    assert m1 == m.(requests := map[0 := row]);
    RunSnoc(start, ops + [request], Begin(0, 13, BEGIN));
    var m2 := BeginExecute(m1, 0, 13, BEGIN).m;
    assert m2 == Begun(m1, 13).(running := m1.running[13 := Running(0, row)]);
    var begun := ops + [request] + [Begin(0, 13, BEGIN)];
    RunSnoc(start, begun, Begin(0, 14, BEGIN));
    var m3 := BeginExecute(m2, 0, 14, BEGIN).m;
    assert m3 == Begun(m2, 14).(running := m2.running[14 := Running(0, row)]);
    more := FinishedTwice(start, begun + [Begin(0, 14, BEGIN)], m3, row);
  }

  lemma FinishedTwice(start: Manager, ops: seq<Op>, m: Manager, row: MergeRequest) returns (more: seq<Op>)
    requires LegalRun(start, ops) && (forall op :: op in ops ==> RollsBack(op)) && Run(start, ops) == m
    requires m.sessions == {10, 11, 13, 14} == m.used && m.commits == [] && m.executions == []
    requires m.branches == TwoBranches() && m.strategies == {"s"} && m.requests == map[0 := row]
    requires row == MergeRequest(1, "s", Approved, Some("auto"), None, 0)
    requires 13 in m.running && m.running[13] == Running(0, row) && 14 in m.running && m.running[14] == Running(0, row)
    ensures LegalRun(start, more) && (forall op :: op in more ==> RollsBack(op)) && Overlapped(Run(start, more))
  {
    FirstFinish(m, row);
    var m1 := FinishExecute(m, 13, FINISH).m;
    SecondFinish(m1, row);
    RunSnoc(start, ops, Finish(13, FINISH));
    RunSnoc(start, ops + [Finish(13, FINISH)], Finish(14, FINISH));
    more := ops + [Finish(13, FINISH)] + [Finish(14, FINISH)];
  }

  lemma FirstFinish(m: Manager, row: MergeRequest)
    requires m.branches == TwoBranches() && m.strategies == {"s"} && m.executions == [] && m.requests == map[0 := row]
    requires row == MergeRequest(1, "s", Approved, Some("auto"), None, 0)
    requires m.sessions == {10, 11, 13, 14} && 13 in m.running && m.running[13] == Running(0, row)
    ensures var m1 := FinishExecute(m, 13, FINISH).m;
            && m1.executions == [Execution(0, 1, 13, "auto", 0)] && m1.sessions == m.sessions && m1.used == m.used
            && m1.branches == TwoBranches()[1 := Branch(Some(0), 11, Merging)] && m1.running == m.running - {13}
            && m1.strategies == m.strategies && m1.commits == m.commits && m1.requests.Keys == {0}
  {}

  lemma SecondFinish(m: Manager, row: MergeRequest)
    requires m.branches == TwoBranches()[1 := Branch(Some(0), 11, Merging)] && m.strategies == {"s"}
    requires m.executions == [Execution(0, 1, 13, "auto", 0)] && m.requests.Keys == {0} && m.commits == []
    requires row == MergeRequest(1, "s", Approved, Some("auto"), None, 0)
    requires m.sessions == {10, 11, 13, 14} == m.used && m.running.Keys !! {13}
    requires 14 in m.running && m.running[14] == Running(0, row)
    ensures Overlapped(FinishExecute(m, 14, FINISH).m)
  {
    var m2 := FinishExecute(m, 14, FINISH).m;
    assert m2.executions == m.executions && m2.sessions == m.sessions - {14} && m2.branches == m.branches;
    assert m2.requests.Keys == {0} && m2.requests[0].staging == Some(14);
  }
}
