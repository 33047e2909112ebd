/** What every run of the branch manager keeps about merges and sessions, with executions
    that suspend and overlap. */
module MergeHistory {
  import opened Prelude
  import opened Branches
  import opened BranchSteps

  /** `r` is past waiting, for branch `b`, approved by `approver`. */
  ghost predicate ApprovedBy(r: MergeRequest, b: BranchId, approver: Option<string>) {
    !r.status.Waiting? && r.branch == b && approver.Some? && r.approvedBy == approver
  }

  ghost predicate ExecutionSound(m: Manager, x: Execution) {
    && x.request in m.requests && ApprovedBy(m.requests[x.request], x.branch, Some(x.approver))
    && x.staging in m.used && x.staging !in m.running
    && x.branch in m.branches
    && var status := m.branches[x.branch].status; status.Merging? || status.Merged? || status.Failed?
  }

  /** Executions are of distinct branches and staging sessions, of approved requests, and
      their branches never went back. */
  ghost predicate ExecutionsSound(m: Manager) {
    && (forall i, j :: 0 <= i < j < |m.executions| ==>
          m.executions[i].branch != m.executions[j].branch && m.executions[i].staging != m.executions[j].staging)
    && forall i :: 0 <= i < |m.executions| ==> ExecutionSound(m, m.executions[i])
  }

  /** A suspended execution holds a copy of an approved request. */
  ghost predicate RunningSound(m: Manager) {
    forall sid :: sid in m.running ==>
      && sid in m.used && m.running[sid].request in m.requests
      && ApprovedBy(m.requests[m.running[sid].request], m.running[sid].row.branch, m.running[sid].row.approvedBy)
  }

  ghost predicate WasExecuted(m: Manager, b: BranchId) {
    exists i :: 0 <= i < |m.executions| && m.executions[i].branch == b
  }

  ghost predicate MergingWasExecuted(m: Manager) {
    forall b :: b in m.branches && (m.branches[b].status.Merging? || m.branches[b].status.Merged?) ==> WasExecuted(m, b)
  }

  ghost predicate RecordedAs(m: Manager, mid: MergeId, r: MergeRequest) {
    exists i :: 0 <= i < |m.executions| && m.executions[i].request == mid && r.staging == Some(m.executions[i].staging)
                && m.executions[i].branch == r.branch && m.executions[i].conflicts == r.conflicts
  }

  /** A request is conflict-free if ready, and its staging session, while alive, is that of
      a recorded execution of it. */
  ghost predicate RequestSound(m: Manager, mid: MergeId, r: MergeRequest) {
    && (!r.status.Waiting? ==> r.approvedBy.Some?)
    && (r.status.ReadyToCommit? || r.status.Committed? ==> r.conflicts == 0)
    && (r.staging.Some? ==> r.staging.value in m.used && r.staging.value !in m.running && !r.status.Waiting?)
    && (r.staging.Some? && r.staging.value in m.sessions ==> RecordedAs(m, mid, r))
  }

  ghost predicate RequestsSound(m: Manager) {
    forall mid :: mid in m.requests ==> RequestSound(m, mid, m.requests[mid])
  }

  ghost predicate CommitSound(m: Manager, sid: SessionId) {
    && sid !in m.sessions && sid !in m.running && sid in m.used
    && exists k :: 0 <= k < |m.executions| && m.executions[k].staging == sid && m.executions[k].conflicts == 0
  }

  /** Each commit consumed, once, the staging session of an execution without conflicts. */
  ghost predicate CommitsSound(m: Manager) {
    && m.sessions <= m.used
    && (forall i, j :: 0 <= i < j < |m.commits| ==> m.commits[i] != m.commits[j])
    && forall i :: 0 <= i < |m.commits| ==> CommitSound(m, m.commits[i])
  }

  ghost predicate MergedWasCommitted(m: Manager) {
    forall i :: 0 <= i < |m.executions| && m.executions[i].branch in m.branches
                && m.branches[m.executions[i].branch].status.Merged? ==>
                  m.executions[i].staging in m.commits
  }

  ghost predicate Sound(m: Manager) {
    && ExecutionsSound(m) && RunningSound(m) && MergingWasExecuted(m)
    && RequestsSound(m) && CommitsSound(m) && MergedWasCommitted(m)
  }

  // ---- Steps ----

  /** A status change other than into the merge states, of a branch that is not Merged. */
  lemma StatusKeeps(m: Manager, b: BranchId, status: BranchStatus)
    requires Sound(m) && b in m.branches && !m.branches[b].status.Merged?
    requires status.Failed? || (!status.Merging? && !status.Merged? && !m.branches[b].status.Merging?
             && !m.branches[b].status.Failed?)
    ensures Sound(WithStatus(m, b, status))
  {}

  lemma UpdateKeeps(m: Manager, b: BranchId, status: BranchStatus, readOk: bool, writeOk: bool)
    requires Sound(m) && (status.Active? || status.Completed? || status.Failed?)
    ensures Sound(UpdateStatus(m, b, status, readOk, writeOk).m)
  {
    if b in m.branches && ValidTransition(m.branches[b].status, status) {
      StatusKeeps(m, b, status);
    }
  }

  lemma LessSessionsKeeps(m: Manager, sid: SessionId)
    requires Sound(m)
    ensures Sound(m.(sessions := m.sessions - {sid}))
  {}

  lemma LessRunningKeeps(m: Manager, sid: SessionId)
    requires Sound(m)
    ensures Sound(m.(running := m.running - {sid}))
  {}

  lemma BegunKeeps(m: Manager, sid: SessionId)
    requires Sound(m) && sid !in m.used
    ensures Sound(Begun(m, sid))
  {}

  lemma CreateKeeps(m: Manager, source: Source, id: BranchId, sid: SessionId, c: CreateCalls)
    requires Sound(m) && id !in m.branches && sid !in m.used
    ensures Sound(CreateBranch(m, source, id, sid, c).m)
  {
    BegunKeeps(m, sid);
    if CreateBranch(m, source, id, sid, c).r.Ok? {
      PendingBranchKeeps(Begun(m, sid), CreateBranch(m, source, id, sid, c).m, id);
    }
  }

  lemma PendingBranchKeeps(m: Manager, m': Manager, id: BranchId)
    requires Sound(m) && id !in m.branches && id in m'.branches && m'.branches[id].status.Pending?
    requires m' == m.(branches := m.branches[id := m'.branches[id]], born := m'.born)
    ensures Sound(m')
  {
    forall b | b in m'.branches && (m'.branches[b].status.Merging? || m'.branches[b].status.Merged?)
      ensures WasExecuted(m', b)
    {
      assert WasExecuted(m, b);
    }
  }

  lemma RecoverOneKeeps(m: Manager, b: BranchId, c: RecoverCalls)
    requires Sound(m) && b in m.branches && m.branches[b].status.IsLive()
    ensures var m' := RecoverOne(m, b, m.branches[b], c).0;
            Sound(m') && forall k :: k in m.branches && k != b ==> k in m'.branches && m'.branches[k] == m.branches[k]
  {
    UpdateKeeps(m, b, Failed, c.statusReadOk, c.writeOk);
    if m.branches[b].status.Active? {
      StatusKeeps(m, b, Pending);
    }
  }

  lemma {:induction false} RecoverKeeps(m: Manager, order: seq<BranchId>, c: nat -> RecoverCalls, n: nat)
    requires Sound(m) && Lists(order, m) && n <= |order|
    ensures var m' := RecoverPrefix(m, order, c, n).0;
            && Sound(m')
            && forall k :: n <= k < |order| ==> order[k] in m'.branches && m'.branches[order[k]] == m.branches[order[k]]
  {
    if n > 0 {
      RecoverKeeps(m, order, c, n - 1);
      RecoverOneKeeps(RecoverPrefix(m, order, c, n - 1).0, order[n - 1], c(n - 1));
    }
  }

  /** `r` agrees with what executions, finished or suspended, know of request `mid`. */
  ghost predicate Agrees(m: Manager, mid: MergeId, r: MergeRequest) {
    && (forall i :: 0 <= i < |m.executions| && m.executions[i].request == mid ==>
          ApprovedBy(r, m.executions[i].branch, Some(m.executions[i].approver)))
    && forall sid :: sid in m.running && m.running[sid].request == mid ==>
         ApprovedBy(r, m.running[sid].row.branch, m.running[sid].row.approvedBy)
  }

  lemma StoreKeeps(m: Manager, mid: MergeId, r: MergeRequest)
    requires Sound(m) && Agrees(m, mid, r) && RequestSound(m, mid, r)
    ensures Sound(m.(requests := m.requests[mid := r]))
  {
    var m' := m.(requests := m.requests[mid := r]);
    forall k | k in m'.requests ensures RequestSound(m', k, m'.requests[k]) {
      assert k != mid ==> RequestSound(m, k, m.requests[k]);
      assert RecordedAs(m, k, m'.requests[k]) ==> RecordedAs(m', k, m'.requests[k]);
    }
    assert forall b :: WasExecuted(m, b) ==> WasExecuted(m', b);
  }

  lemma NothingKnown(m: Manager, mid: MergeId, r: MergeRequest)
    requires Sound(m) && (mid in m.requests ==> m.requests[mid].status.Waiting?)
    ensures Agrees(m, mid, r)
  {
    forall i | 0 <= i < |m.executions| ensures m.executions[i].request != mid {
      assert ExecutionSound(m, m.executions[i]);
    }
  }

  lemma ApproveKeeps(m: Manager, mid: MergeId, approver: string, ok: bool)
    requires Sound(m)
    ensures Sound(ApproveInRepository(m, mid, approver, ok).m)
  {
    if mid in m.requests && m.requests[mid].status.Waiting? {
      var r := m.requests[mid].(status := Approved, approvedBy := Some(approver));
      assert RequestSound(m, mid, m.requests[mid]);
      NothingKnown(m, mid, r);
      StoreKeeps(m, mid, r);
    }
  }

  lemma RequestKeeps(m: Manager, b: BranchId, strategy: string, requiresApproval: bool, mid: MergeId, c: RequestCalls)
    requires Sound(m) && mid !in m.requests
    ensures Sound(RequestMerge(m, b, strategy, requiresApproval, mid, c).m)
  {
    var r := MergeRequest(b, strategy, Waiting, None, None, 0);
    NothingKnown(m, mid, r);
    StoreKeeps(m, mid, r);
    ApproveKeeps(m.(requests := m.requests[mid := r]), mid, "auto", c.approveOk);
  }

  lemma BeginKeeps(m: Manager, mid: MergeId, sid: SessionId, c: BeginCalls)
    requires Sound(m) && sid !in m.used && !c.rollback.Kept?
    ensures Sound(BeginExecute(m, mid, sid, c).m)
  {
    BegunKeeps(m, sid);
    LessSessionsKeeps(Begun(m, sid), sid);
    if BeginExecute(m, mid, sid, c).r.Ok? {
      assert RequestSound(m, mid, m.requests[mid]);
      SuspendedKeeps(m, mid, sid);
    }
  }

  lemma SuspendedKeeps(m: Manager, mid: MergeId, sid: SessionId)
    requires Sound(m) && Sound(Begun(m, sid)) && sid !in m.used && mid in m.requests && m.requests[mid].status.Approved?
    requires m.requests[mid].approvedBy.Some?
    ensures Sound(Begun(m, sid).(running := m.running[sid := Running(mid, m.requests[mid])]))
  {
    var m' := Begun(m, sid).(running := m.running[sid := Running(mid, m.requests[mid])]);
    forall i | 0 <= i < |m'.executions| ensures ExecutionSound(m', m'.executions[i]) {
      assert ExecutionSound(m, m.executions[i]);
    }
    forall k | k in m'.requests ensures RequestSound(m', k, m'.requests[k]) {
      assert RequestSound(m, k, m.requests[k]);
      assert RecordedAs(m, k, m'.requests[k]) ==> RecordedAs(m', k, m'.requests[k]);
    }
    forall i | 0 <= i < |m'.commits| ensures CommitSound(m', m'.commits[i]) {
      assert CommitSound(m, m.commits[i]);
    }
    assert forall b :: WasExecuted(m, b) ==> WasExecuted(m', b);
  }

  /** Between the parts of a finish: the request is saved and, for the sake of the argument,
      the staging session already gone. */
  ghost function Saved(m: Manager, sid: SessionId, c: FinishCalls): Manager
    requires sid in m.running
  {
    var r := m.running[sid];
    m.(running := m.running - {sid}, sessions := m.sessions - {sid},
       requests := m.requests[r.request := Executed(r.row, sid, c.conflicts)])
  }

  lemma SavedKeeps(m: Manager, sid: SessionId, c: FinishCalls)
    requires Sound(m) && sid in m.running
    ensures Sound(Saved(m, sid, c))
  {
    var r := m.running[sid];
    var row := Executed(r.row, sid, c.conflicts);
    var m1 := m.(running := m.running - {sid});
    LessRunningKeeps(m, sid);
    LessSessionsKeeps(m1, sid);
    StoreKeeps(m1.(sessions := m1.sessions - {sid}), r.request, row);
  }

  lemma FinishKeeps(m: Manager, sid: SessionId, c: FinishCalls)
    requires Sound(m) && sid in m.running && !c.rollback.Kept?
    ensures Sound(FinishExecute(m, sid, c).m)
  {
    LessRunningKeeps(m, sid);
    LessSessionsKeeps(m.(running := m.running - {sid}), sid);
    SavedKeeps(m, sid, c);
    FinishResult(m, sid, c);
    if FinishExecute(m, sid, c).r.Ok? {
      FreshStaging(m, sid, c);
      ExecutedKeeps(Saved(m, sid, c), FinishExecute(m, sid, c).m, ExecutionOf(m.running[sid], sid, c.conflicts));
    }
  }

  lemma FinishResult(m: Manager, sid: SessionId, c: FinishCalls)
    requires sid in m.running && !c.rollback.Kept?
    ensures var d, x := FinishExecute(m, sid, c), ExecutionOf(m.running[sid], sid, c.conflicts);
            if d.r.Err? then
              d.m == m.(running := m.running - {sid}, sessions := m.sessions - {sid}) || d.m == Saved(m, sid, c)
            else x.branch in m.branches
                 && (m.branches[x.branch].status.Active? || m.branches[x.branch].status.Completed?)
                 && d.m == WithStatus(Saved(m, sid, c), x.branch, Merging)
                             .(sessions := m.sessions, executions := m.executions + [x])
  {}

  lemma FreshStaging(m: Manager, sid: SessionId, c: FinishCalls)
    requires Sound(m) && sid in m.running
    ensures forall i :: 0 <= i < |m.executions| ==> m.executions[i].staging != sid
    ensures forall i :: 0 <= i < |m.commits| ==> m.commits[i] != sid
    ensures forall k :: k in m.requests ==> m.requests[k].staging != Some(sid)
  {
    forall i | 0 <= i < |m.executions| ensures m.executions[i].staging != sid {
      assert ExecutionSound(m, m.executions[i]);
    }
    forall i | 0 <= i < |m.commits| ensures m.commits[i] != sid {
      assert CommitSound(m, m.commits[i]);
    }
    forall k | k in m.requests ensures m.requests[k].staging != Some(sid) {
      assert RequestSound(m, k, m.requests[k]);
    }
  }

  /** Recording the execution together with its branch status and live staging session. */
  lemma ExecutedKeeps(m: Manager, m': Manager, x: Execution)
    requires Sound(m) && x.request in m.requests && x.branch in m.branches && x.staging in m.used
    requires x.staging !in m.running && x.staging !in m.sessions && x.staging !in m.commits
    requires m.requests[x.request].staging == Some(x.staging) && m.requests[x.request].conflicts == x.conflicts
    requires ApprovedBy(m.requests[x.request], x.branch, Some(x.approver))
    requires m.branches[x.branch].status.Active? || m.branches[x.branch].status.Completed?
    requires forall i :: 0 <= i < |m.executions| ==> m.executions[i].staging != x.staging
    requires forall k :: k in m.requests && k != x.request ==> m.requests[k].staging != Some(x.staging)
    requires m.sessions <= m'.sessions <= m.sessions + {x.staging}
    requires m' == WithStatus(m, x.branch, Merging).(sessions := m'.sessions, executions := m.executions + [x])
    ensures Sound(m')
  {
    var n := |m.executions|;
    assert m'.executions[n] == x && forall i :: 0 <= i < n ==> m'.executions[i] == m.executions[i];
    ExecutedExecutions(m, m', x);
    forall k | k in m'.requests ensures RequestSound(m', k, m'.requests[k]) {
      assert RequestSound(m, k, m.requests[k]);
      assert RecordedAs(m, k, m'.requests[k]) ==> RecordedAs(m', k, m'.requests[k]);
    }
    forall i | 0 <= i < |m'.commits| ensures CommitSound(m', m'.commits[i]) {
      assert CommitSound(m, m.commits[i]);
    }
    forall b | b in m'.branches && (m'.branches[b].status.Merging? || m'.branches[b].status.Merged?)
      ensures WasExecuted(m', b)
    {
      assert if b == x.branch then m'.executions[n].branch == b else WasExecuted(m, b);
    }
  }

  lemma ExecutedExecutions(m: Manager, m': Manager, x: Execution)
    requires ExecutionsSound(m) && x.request in m.requests && x.branch in m.branches && x.staging in m.used
    requires x.staging !in m.running && ApprovedBy(m.requests[x.request], x.branch, Some(x.approver))
    requires m.branches[x.branch].status.Active? || m.branches[x.branch].status.Completed?
    requires forall i :: 0 <= i < |m.executions| ==> m.executions[i].staging != x.staging
    requires m' == WithStatus(m, x.branch, Merging).(sessions := m'.sessions, executions := m.executions + [x])
    ensures ExecutionsSound(m')
  {
    forall i | 0 <= i < |m.executions|
      ensures m.executions[i].branch != x.branch && ExecutionSound(m', m.executions[i])
    {
      assert ExecutionSound(m, m.executions[i]);
    }
  }

  lemma SessionCommittedKeeps(m: Manager, sid: SessionId, k: nat)
    requires Sound(m) && sid in m.sessions && k < |m.executions| && m.executions[k].staging == sid
    requires m.executions[k].conflicts == 0
    ensures Sound(m.(sessions := m.sessions - {sid}, commits := m.commits + [sid]))
  {
    var gone := m.(sessions := m.sessions - {sid});
    LessSessionsKeeps(m, sid);
    assert ExecutionSound(m, m.executions[k]);
    forall i | 0 <= i < |m.commits| ensures m.commits[i] != sid {
      assert CommitSound(m, m.commits[i]);
    }
    assert CommitSound(gone, sid);
    CommitRecorded(gone, sid);
  }

  lemma CommitRecorded(m: Manager, sid: SessionId)
    requires Sound(m) && CommitSound(m, sid) && forall i :: 0 <= i < |m.commits| ==> m.commits[i] != sid
    ensures Sound(m.(commits := m.commits + [sid]))
  {
    var m' := m.(commits := m.commits + [sid]);
    forall i | 0 <= i < |m'.commits| ensures CommitSound(m', m'.commits[i]) {
      assert CommitSound(m, m'.commits[i]);
    }
    forall k | k in m'.requests ensures RequestSound(m', k, m'.requests[k]) {
      assert RequestSound(m, k, m.requests[k]);
      assert RecordedAs(m, k, m'.requests[k]) ==> RecordedAs(m', k, m'.requests[k]);
    }
    assert forall b :: WasExecuted(m, b) ==> WasExecuted(m', b);
  }

  lemma MergedKeeps(m: Manager, k: nat)
    requires Sound(m) && k < |m.executions| && m.executions[k].staging in m.commits
    requires m.executions[k].branch in m.branches && m.branches[m.executions[k].branch].status.Merging?
    ensures Sound(WithStatus(m, m.executions[k].branch, Merged))
  {
    var b := m.executions[k].branch;
    var m' := WithStatus(m, b, Merged);
    forall i | 0 <= i < |m.executions| && m.executions[i].branch == b ensures i == k {}
    assert MergedWasCommitted(m');
    assert forall a :: WasExecuted(m, a) ==> WasExecuted(m', a);
    assert m'.executions[k].branch == b;
  }

  lemma MarkCommittedKeeps(m: Manager, mid: MergeId)
    requires Sound(m) && mid in m.requests && m.requests[mid].status.ReadyToCommit?
    ensures Sound(m.(requests := m.requests[mid := m.requests[mid].(status := Committed)]))
  {
    var r := m.requests[mid].(status := Committed);
    assert RequestSound(m, mid, m.requests[mid]);
    assert RecordedAs(m, mid, m.requests[mid]) ==> RecordedAs(m, mid, r);
    forall i | 0 <= i < |m.executions| && m.executions[i].request == mid
      ensures ApprovedBy(r, m.executions[i].branch, Some(m.executions[i].approver))
    {
      assert ExecutionSound(m, m.executions[i]);
    }
    StoreKeeps(m, mid, r);
  }

  /** After the session manager accepted the commit. */
  lemma AcceptedKeeps(m: Manager, mid: MergeId)
    requires Sound(m) && mid in m.requests && m.requests[mid].status.ReadyToCommit?
    requires m.requests[mid].staging.Some? && m.requests[mid].staging.value in m.sessions
    ensures var sid, b := m.requests[mid].staging.value, m.requests[mid].branch;
            var m1 := m.(sessions := m.sessions - {sid}, commits := m.commits + [sid]);
            && Sound(m1)
            && (b in m1.branches && m1.branches[b].status.Merging? ==> Sound(WithStatus(m1, b, Merged)))
  {
    var req := m.requests[mid];
    var sid := req.staging.value;
    assert RequestSound(m, mid, req);
    var k :| 0 <= k < |m.executions| && m.executions[k].request == mid && req.staging == Some(m.executions[k].staging)
             && m.executions[k].branch == req.branch && m.executions[k].conflicts == req.conflicts;
    SessionCommittedKeeps(m, sid, k);
    var m1 := m.(sessions := m.sessions - {sid}, commits := m.commits + [sid]);
    assert m1.commits[|m.commits|] == sid;
    if req.branch in m1.branches && m1.branches[req.branch].status.Merging? {
      MergedKeeps(m1, k);
    }
  }

  lemma CommitResult(m: Manager, mid: MergeId, c: CommitCalls)
    ensures var m' := CommitMerge(m, mid, c).m;
            || m' == m
            || (&& mid in m.requests && m.requests[mid].status.ReadyToCommit? && m.requests[mid].staging.Some?
                && m.requests[mid].staging.value in m.sessions
                && var sid, b := m.requests[mid].staging.value, m.requests[mid].branch;
                   var m1 := m.(sessions := m.sessions - {sid}, commits := m.commits + [sid]);
                   var m2 := WithStatus(m1, b, Merged);
                   || m' == m.(sessions := m.sessions - {sid})
                   || m' == m1
                   || (b in m1.branches && m1.branches[b].status.Merging?
                       && (|| m' == m2
                           || m' == m2.(requests := m2.requests[mid := m2.requests[mid].(status := Committed)]))))
  {}

  lemma CommitKeeps(m: Manager, mid: MergeId, c: CommitCalls)
    requires Sound(m)
    ensures Sound(CommitMerge(m, mid, c).m)
  {
    CommitResult(m, mid, c);
    if CommitMerge(m, mid, c).m != m {
      var sid, b := m.requests[mid].staging.value, m.requests[mid].branch;
      LessSessionsKeeps(m, sid);
      AcceptedKeeps(m, mid);
      var m1 := m.(sessions := m.sessions - {sid}, commits := m.commits + [sid]);
      if b in m1.branches && m1.branches[b].status.Merging? {
        MarkCommittedKeeps(WithStatus(m1, b, Merged), mid);
      }
    }
  }

  lemma StepKeeps(m: Manager, op: Op)
    requires Sound(m) && Legal(m, op) && RollsBack(op)
    ensures Sound(Step(m, op))
  {
    match op
    case Create(source, id, sid, c) => CreateKeeps(m, source, id, sid, c);
    case MarkExecuting(b, readOk, writeOk) => UpdateKeeps(m, b, Active, readOk, writeOk);
    case Complete(b, readOk, writeOk) => UpdateKeeps(m, b, Completed, readOk, writeOk);
    case Abort(b, c) =>
      if b in m.branches {
        LessSessionsKeeps(m, m.branches[b].session);
        UpdateKeeps(m.(sessions := m.sessions - {m.branches[b].session}), b, Failed, c.statusReadOk, c.writeOk);
      }
    case Recover(order, c) => RecoverKeeps(m, order, c, |order|);
    case Request(b, strategy, requiresApproval, mid, c) => RequestKeeps(m, b, strategy, requiresApproval, mid, c);
    case Approve(mid, approver, ok) => ApproveKeeps(m, mid, approver, ok);
    case Begin(mid, sid, c) => BeginKeeps(m, mid, sid, c);
    case Finish(sid, c) => FinishKeeps(m, sid, c);
    case Commit(mid, c) => CommitKeeps(m, mid, c);
    case SessionLost(sid) => LessSessionsKeeps(m, sid);
  }

  lemma {:induction false} RunKeeps(m: Manager, ops: seq<Op>)
    requires Sound(m) && LegalRun(m, ops) && forall op :: op in ops ==> RollsBack(op)
    ensures Sound(Run(m, ops))
    decreases |ops|
  {
    if ops != [] {
      StepKeeps(m, ops[0]);
      RunKeeps(Step(m, ops[0]), ops[1..]);
    }
  }

  // ---- Main results ----

  /** The one execution behind a merged branch. */
  ghost predicate MergedBy(m: Manager, b: BranchId, k: nat) {
    && k < |m.executions| && m.executions[k].branch == b
    && (forall i :: 0 <= i < |m.executions| && m.executions[i].branch == b ==> i == k)
    && m.executions[k].request in m.requests
    && ApprovedBy(m.requests[m.executions[k].request], b, Some(m.executions[k].approver))
    && m.executions[k].conflicts == 0
    && multiset(m.commits)[m.executions[k].staging] == 1
  }

  /** Over every run from the start, with executions overlapping and repository calls
      failing anywhere: a merged branch has exactly one executed request, which was approved
      and conflict-free, and whose staging session was committed exactly once. */
  lemma MergeHistoryIsSound(strategies: set<string>, maxBranches: nat, ops: seq<Op>, b: BranchId)
    requires LegalRun(Start(strategies, maxBranches), ops) && forall op :: op in ops ==> RollsBack(op)
    requires var m := Run(Start(strategies, maxBranches), ops); b in m.branches && m.branches[b].status.Merged?
    ensures exists k :: MergedBy(Run(Start(strategies, maxBranches), ops), b, k)
  {
    var m := Run(Start(strategies, maxBranches), ops);
    RunKeeps(Start(strategies, maxBranches), ops);
    assert WasExecuted(m, b);
    var k :| 0 <= k < |m.executions| && m.executions[k].branch == b;
    assert ExecutionSound(m, m.executions[k]);
    var i :| 0 <= i < |m.commits| && m.commits[i] == m.executions[k].staging;
    assert CommitSound(m, m.commits[i]);
    var j :| 0 <= j < |m.executions| && m.executions[j].staging == m.commits[i] && m.executions[j].conflicts == 0;
    assert j == k;
    OccursOnce(m.commits, i);
    assert MergedBy(m, b, k);
  }

  lemma OccursOnce(s: seq<SessionId>, i: nat)
    requires i < |s| && forall a, b :: 0 <= a < b < |s| ==> s[a] != s[b]
    ensures multiset(s)[s[i]] == 1
  {
    assert s == s[..i] + [s[i]] + s[i + 1..];
    assert s[i] !in s[..i] && s[i] !in s[i + 1..];
  }

  /** Merged and Failed are final: no operation, recovery included, leaves them. */
  lemma TerminalIsAbsorbing(m: Manager, op: Op, b: BranchId)
    requires Legal(m, op) && b in m.branches && (m.branches[b].status.Merged? || m.branches[b].status.Failed?)
    ensures b in Step(m, op).branches && Step(m, op).branches[b] == m.branches[b]
  {
    if op.Create? {
      CreateAdds(m, op.source, op.id, op.sid, op.create);
    } else {
      StepMoves(m, op);
    }
  }

  /** A beginning that fails leaves the active sessions as they were. A finish that fails
      takes exactly the staging session away, whatever happened in between; one that succeeds
      leaves it, recorded in the saved request. */
  lemma ExecutionBalancesSessions(m: Manager, mid: MergeId, sid: SessionId, b: BeginCalls, c: FinishCalls)
    requires !b.rollback.Kept? && !c.rollback.Kept?
    ensures sid !in m.sessions ==>
              var d := BeginExecute(m, mid, sid, b);
              if d.r.Ok? then d.m.sessions == m.sessions + {sid}
                  && d.m.running == m.running[sid := Running(mid, m.requests[mid])]
              else d.m.sessions == m.sessions && d.m.running == m.running
    ensures sid in m.running ==>
              var d, req := FinishExecute(m, sid, c), m.running[sid].request;
              if d.r.Ok? then d.m.sessions == m.sessions && req in d.m.requests
                  && d.m.requests[req].staging == Some(sid)
              else d.m.sessions == m.sessions - {sid}
  {}

  /** The repository finds no waiting row exactly for a missing request or one past waiting;
      `approve_merge` passes this on as a repository error. It would make the documented
      not-found error of a missing branch only, which approving never reports. */
  lemma MissingApprovalIsRepositoryError(m: Manager, mid: MergeId, approver: string, ok: bool)
    ensures var a, d := ApproveRow(m, mid, approver, ok), ApproveInRepository(m, mid, approver, ok);
            && (a.1 == Some(RequestRowMissing) <==> ok && (mid in m.requests ==> !m.requests[mid].status.Waiting?))
            && (a.1 == Some(RequestRowMissing) ==> d.r == Err(Repository) && d.m == m)
            && d.r != Err(MergeRequestNotFound)
    ensures forall e :: ApproveError(e) == MergeRequestNotFound <==> e == BranchRowMissing
  {}

  /** A failed creation keeps its new session exactly when the session had begun and the
      record could not be made or stored. */
  lemma CreateLeaksSession(m: Manager, source: Source, id: BranchId, sid: SessionId, c: CreateCalls)
    requires sid !in m.sessions
    ensures var d := CreateBranch(m, source, id, sid, c);
            && (d.m.sessions == m.sessions || d.m.sessions == m.sessions + {sid})
            && (d.r.Err? && d.m.sessions != m.sessions
                <==> c.listOk && |LiveBranches(m)| < m.maxBranches && SourceError(m, source, c.readOk).None?
                     && c.beginOk && !(c.recordOk && c.writeOk))
  {
    assert sid in m.sessions + {sid};
  }

  /** An abort fails with the session gone exactly when the session was live and dropped,
      and the status change after it was refused or not answered; so even with every call
      answered for completed, merged and failed branches. */
  lemma AbortDiscardsBeforeChecking(m: Manager, b: BranchId, c: AbortCalls)
    requires b in m.branches
    ensures var d, br := AbortBranch(m, b, c), m.branches[b];
            d.r.Err? && d.m.sessions != m.sessions
            <==> c.readOk && br.session in m.sessions && !c.rollback.Kept?
                 && !(c.rollback.Discarded? && c.statusReadOk && ValidTransition(br.status, Failed) && c.writeOk)
    ensures ValidTransition(m.branches[b].status, Failed)
            <==> !m.branches[b].status.Completed? && !m.branches[b].status.Merged? && !m.branches[b].status.Failed?
  {
    var sid := m.branches[b].session;
    assert sid in m.sessions ==> m.sessions - {sid} != m.sessions;
  }

  /** When the commit of a ready request's live session reaches the parent, which takes only
      the session manager's answer, and when the operation then succeeds or the branch
      becomes Merged, which takes a branch that is still merging. */
  lemma CommitNeedsMergingBranch(m: Manager, mid: MergeId, c: CommitCalls)
    requires mid in m.requests && m.requests[mid].status.ReadyToCommit?
    requires m.requests[mid].staging.Some? && m.requests[mid].staging.value in m.sessions
    requires m.requests[mid].branch in m.branches && !m.branches[m.requests[mid].branch].status.Merged?
    ensures var b, sid := m.requests[mid].branch, m.requests[mid].staging.value;
            var d := CommitMerge(m, mid, c);
            var merging := m.branches[b].status.Merging? && c.statusReadOk && c.statusWriteOk;
            && d.m.commits == (if c.requestOk && (c.answer.Accepted? || c.answer.AcceptedUnclean?)
                               then m.commits + [sid] else m.commits)
            && (d.m.branches[b].status.Merged? <==> c.requestOk && c.answer.Accepted? && merging)
            && (d.r.Ok? <==> c.requestOk && c.answer.Accepted? && merging && c.saveOk)
  {}

  /** So a branch aborted between execution and commit of its merge ends Failed with its
      changes committed to the parent. */
  lemma AbortedMergeStillCommits(m: Manager, mid: MergeId)
    requires mid in m.requests && m.requests[mid].status.ReadyToCommit?
    requires m.requests[mid].staging.Some? && m.requests[mid].staging.value in m.sessions
    requires m.requests[mid].branch in m.branches && m.branches[m.requests[mid].branch].status.Merging?
    requires m.branches[m.requests[mid].branch].session in m.sessions - {m.requests[mid].staging.value}
    ensures var b := m.requests[mid].branch;
            var aborted := AbortBranch(m, b, AbortCalls(true, Discarded, true, true));
            var committed := CommitMerge(aborted.m, mid, CommitCalls(true, Accepted, true, true, true));
            && aborted.r.Ok? && committed.r == Err(InvalidStatusTransition(Failed, Merged))
            && committed.m.branches[b].status.Failed?
            && committed.m.commits == m.commits + [m.requests[mid].staging.value]
  {}
}
