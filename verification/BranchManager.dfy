/** The branch manager: repository rows and sessions changed in place, call by call. */
module BranchManagement {
  import opened Prelude
  import opened BranchAnswers
  import opened Branches
  import opened BranchTrees

  class BranchManager {
    var branches: map<BranchId, Branch>
    var requests: map<MergeId, MergeRequest>
    var sessions: set<SessionId>
    /** Executions between their two parts: the local state of suspended calls. */
    var running: map<SessionId, Running>
    const strategies: set<string>
    const maxBranches: nat
    // The order of creation, the session ids given out, and the record of merges.
    ghost var born: map<BranchId, nat>
    ghost var used: set<SessionId>
    ghost var executions: seq<Execution>
    ghost var commits: seq<SessionId>

    ghost function View(): Manager reads this {
      Manager(branches, requests, sessions, running, strategies, maxBranches, born, used, executions, commits)
    }

    constructor (strategies: set<string>, maxBranches: nat)
      ensures View() == Start(strategies, maxBranches) && Aged(View())
    {
      this.strategies, this.maxBranches := strategies, maxBranches;
      branches, requests, sessions, running := map[], map[], {}, map[];
      born, used, executions, commits := map[], {}, [], [];
    }

    // ---- Session manager ----

    method BeginSession(sid: SessionId, ok: bool) returns (begun: bool)
      modifies this
      ensures begun == ok && View() == if ok then Begun(old(View()), sid) else old(View())
    {
      if ok {
        sessions := sessions + {sid};
        used := used + {sid};
      }
      return ok;
    }

    method RollbackSession(sid: SessionId, answer: RollbackAnswer) returns (done: bool)
      modifies this
      ensures done == (sid in old(sessions) && answer.Discarded?)
      ensures View() == if sid in old(sessions) then RolledBack(old(View()), sid, answer) else old(View())
    {
      if sid !in sessions || answer.Kept? {
        return false;
      }
      sessions := sessions - {sid};
      return answer.Discarded?;
    }

    method Commit(sid: SessionId, answer: CommitAnswer) returns (r: Result<(), BranchError>)
      modifies this
      ensures Done(View(), r) == CommitSession(old(View()), sid, answer)
    {
      if sid !in sessions {
        return Err(Session);
      }
      match answer {
        case Accepted =>
          sessions, commits := sessions - {sid}, commits + [sid];
          return Ok(());
        case AcceptedUnclean =>
          sessions, commits := sessions - {sid}, commits + [sid];
          return Err(Session);
        case Refused => return Err(Session);
        case Lost =>
          sessions := sessions - {sid};
          return Err(Session);
      }
    }

    // ---- State machine ----

    method UpdateBranchStatus(b: BranchId, status: BranchStatus, readOk: bool, writeOk: bool)
      returns (r: Result<(), BranchError>)
      modifies this
      ensures Done(View(), r) == UpdateStatus(old(View()), b, status, readOk, writeOk)
      ensures r.Ok? <==> readOk && b in old(branches) && MayLead(old(branches)[b].status, status) && writeOk
      ensures branches == if r.Ok? then old(branches)[b := old(branches)[b].(status := status)] else old(branches)
    {
      if !readOk {
        return Err(Repository);
      }
      if b !in branches {
        return Err(BranchNotFound);
      }
      var from := branches[b].status;
      if !ValidTransition(from, status) {
        return Err(InvalidStatusTransition(from, status));
      }
      if !writeOk {
        return Err(Repository);
      }
      branches := branches[b := branches[b].(status := status)];
      return Ok(());
    }

    // ---- Life cycle ----

    method Create(source: Source, id: BranchId, sid: SessionId, c: CreateCalls)
      returns (r: Result<BranchId, BranchError>)
      modifies this
      ensures Done(View(), r) == CreateBranch(old(View()), source, id, sid, c)
      ensures r.Err? ==> branches == old(branches) && sessions <= old(sessions) + {sid}
      ensures r.Ok? ==> branches == old(branches)[id := NewBranch(source, sid)]
                        && sessions == old(sessions) + {sid}
                        && (source.FromBranch? ==>
                              source.id in old(branches) && old(branches)[source.id].session in old(sessions))
    {
      if !c.listOk {
        return Err(Repository);
      }
      var live := set b | b in branches && branches[b].status.IsLive();
      assert live == LiveBranches(View());
      if |live| >= maxBranches {
        return Err(MaxBranchesExceeded);
      }
      match source {
        case Base =>
        case FromBranch(p) =>
          if !c.readOk {
            return Err(Repository);
          }
          if p !in branches {
            return Err(BranchNotFound);
          }
          if branches[p].session !in sessions {
            return Err(Session);
          }
        case Snapshot => return Err(Validation);
      }
      var begun := BeginSession(sid, c.beginOk);
      if !begun {
        return Err(Session);
      }
      if !c.recordOk {
        return Err(Validation);
      }
      if !c.writeOk {
        return Err(Repository);
      }
      born := born[id := |branches|];
      branches := branches[id := NewBranch(source, sid)];
      return Ok(id);
    }

    method Abort(b: BranchId, c: AbortCalls) returns (r: Result<(), BranchError>)
      modifies this
      ensures Done(View(), r) == AbortBranch(old(View()), b, c)
      ensures r.Ok? ==> b in branches && branches[b].status.Failed? && branches[b].session !in sessions
      ensures r.Err? ==> branches == old(branches)
    {
      if !c.readOk {
        return Err(Repository);
      }
      if b !in branches {
        return Err(BranchNotFound);
      }
      var rolledBack := RollbackSession(branches[b].session, c.rollback);
      if !rolledBack {
        return Err(Session);
      }
      r := UpdateBranchStatus(b, Failed, c.statusReadOk, c.writeOk);
    }

    method Recover(order: seq<BranchId>, c: nat -> RecoverCalls) returns (recovered: seq<BranchId>)
      requires Lists(order, View())
      modifies this
      ensures (View(), recovered) == RecoverPrefix(old(View()), order, c, |order|)
    {
      recovered := [];
      var rows := branches;
      for i := 0 to |order|
        invariant (View(), recovered) == RecoverPrefix(old(View()), order, c, i)
      {
        var b := order[i];
        var br := rows[b];
        var calls := c(i);
        if br.session !in sessions {
          var ignored := UpdateBranchStatus(b, Failed, calls.statusReadOk, calls.writeOk);
          continue;
        }
        if br.status == Active {
          if !calls.writeOk || b !in branches {
            continue;
          }
          branches := branches[b := branches[b].(status := Pending)];
        }
        recovered := recovered + [b];
      }
    }

    // ---- Merge workflow ----

    method ApproveStoredRequest(mid: MergeId, approver: string, ok: bool) returns (e: Option<RepositoryError>)
      modifies this
      ensures (View(), e) == ApproveRow(old(View()), mid, approver, ok)
    {
      if !ok {
        return Some(SqlError);
      }
      if mid !in requests || !requests[mid].status.Waiting? {
        return Some(RequestRowMissing);
      }
      requests := requests[mid := requests[mid].(status := Approved, approvedBy := Some(approver))];
      return None;
    }

    method ApproveMerge(mid: MergeId, approver: string, ok: bool) returns (r: Result<(), BranchError>)
      modifies this
      ensures Done(View(), r) == ApproveInRepository(old(View()), mid, approver, ok)
    {
      var e := ApproveStoredRequest(mid, approver, ok);
      return if e.Some? then Err(ApproveError(e.value)) else Ok(());
    }

    method RequestBranchMerge(b: BranchId, strategy: string, requiresApproval: bool, mid: MergeId, c: RequestCalls)
      returns (r: Result<MergeId, BranchError>)
      modifies this
      ensures Done(View(), r) == RequestMerge(old(View()), b, strategy, requiresApproval, mid, c)
      ensures r.Ok? ==> r.value == mid && b in branches && branches[b].status.Completed? && strategy in strategies
                        && mid in requests && (requests[mid].status.Approved? <==> !requiresApproval)
    {
      if !c.readOk {
        return Err(Repository);
      }
      if b !in branches {
        return Err(BranchNotFound);
      }
      if branches[b].status != Completed {
        return Err(InvalidBranchState);
      }
      if strategy !in strategies {
        return Err(InvalidStrategy);
      }
      if !c.createOk {
        return Err(Repository);
      }
      requests := requests[mid := MergeRequest(b, strategy, Waiting, None, None, 0)];
      if !requiresApproval {
        var e := ApproveStoredRequest(mid, "auto", c.approveOk);
        if e.Some? {
          return Err(PassedOn(e.value));
        }
      }
      return Ok(mid);
    }

    method CheckExecutable(mid: MergeId, c: BeginCalls) returns (e: Option<BranchError>)
      ensures e == ExecuteRefusal(View(), mid, c)
      ensures e.None? ==> MayExecute(View(), mid)
    {
      if !c.requestOk { return Some(Repository); }
      if mid !in requests { return Some(MergeRequestNotFound); }
      if !requests[mid].status.Approved? { return Some(MergeNotApproved); }
      if !c.branchOk { return Some(Repository); }
      var b := requests[mid].branch;
      if b !in branches { return Some(BranchNotFound); }
      if branches[b].status != Completed { return Some(InvalidBranchState); }
      if !c.parseOk { return Some(Validation); }
      match branches[b].parent {
        case None => return Some(Validation);
        case Some(p) =>
          if !c.parentOk { return Some(Repository); }
          if p !in branches { return Some(BranchNotFound); }
          if branches[p].session !in sessions { return Some(Session); }
          if !c.beginOk { return Some(Session); }
          return None;
      }
    }

    /** `execute_merge` up to its first suspension. An error leaves everything as it was, if
        the rollback takes the session off the table. */
    method BeginExecution(mid: MergeId, sid: SessionId, c: BeginCalls) returns (r: Result<(), BranchError>)
      requires sid !in sessions
      modifies this
      ensures Done(View(), r) == BeginExecute(old(View()), mid, sid, c)
      ensures branches == old(branches) && requests == old(requests)
      ensures r.Err? && !c.rollback.Kept? ==> sessions == old(sessions) && running == old(running)
      ensures r.Ok? ==> old(MayExecute(View(), mid)) && sessions == old(sessions) + {sid}
                        && running == old(running)[sid := Running(mid, requests[mid])]
    {
      var refusal := CheckExecutable(mid, c);
      if refusal.Some? {
        return Err(refusal.value);
      }
      var req := requests[mid];
      var begun := BeginSession(sid, c.beginOk);
      if branches[req.branch].session !in sessions {
        var ignored := RollbackSession(sid, c.rollback);
        return Err(Session);
      }
      running := running[sid := Running(mid, req)];
      return Ok(());
    }

    /** Collecting the changes, merging and staging them. */
    method MergeChanges(strategy: string, c: FinishCalls) returns (e: Option<BranchError>)
      ensures e.None? <==> c.collectOk && strategy in strategies && c.mergeOk && (c.conflicts == 0 ==> c.stageOk)
      ensures e.Some? ==> e.value == if !c.collectOk then Session
                                     else if strategy !in strategies then InvalidStrategy
                                     else if !c.mergeOk then Merge
                                     else Session
    {
      if !c.collectOk { return Some(Session); }
      if strategy !in strategies { return Some(InvalidStrategy); }
      if !c.mergeOk { return Some(Merge); }
      if c.conflicts == 0 && !c.stageOk { return Some(Session); }
      return None;
    }

    /** Saving the request and then moving the branch to Merging. */
    method SaveExecution(run: Running, sid: SessionId, c: FinishCalls) returns (r: Result<nat, BranchError>)
      modifies this
      ensures var m := old(View()).(requests := old(requests)[run.request := Executed(run.row, sid, c.conflicts)]);
              var u := UpdateStatus(m, run.row.branch, Merging, c.statusReadOk, c.statusWriteOk);
              Done(View(), r) == if u.r.Err? then Done(RolledBack(u.m, sid, c.rollback), Err(u.r.error))
                                 else Done(u.m.(executions := m.executions + [ExecutionOf(run, sid, c.conflicts)]),
                                           Ok(c.conflicts))
    {
      requests := requests[run.request := Executed(run.row, sid, c.conflicts)];
      var updated := UpdateBranchStatus(run.row.branch, Merging, c.statusReadOk, c.statusWriteOk);
      if updated.Err? {
        var ignored := RollbackSession(sid, c.rollback);
        return Err(updated.error);
      }
      executions := executions + [ExecutionOf(run, sid, c.conflicts)];
      return Ok(c.conflicts);
    }

    /** `execute_merge` from there on, whatever others did meanwhile. An error takes exactly
        the staging session away and changes no branch; success saves it in the request. */
    method FinishExecution(sid: SessionId, c: FinishCalls) returns (r: Result<nat, BranchError>)
      requires sid in running
      modifies this
      ensures Done(View(), r) == FinishExecute(old(View()), sid, c)
      ensures r.Err? ==> branches == old(branches) && (!c.rollback.Kept? ==> sessions == old(sessions) - {sid})
      ensures r.Ok? ==>
                var mid, b := old(running)[sid].request, old(running)[sid].row.branch;
                && sessions == old(sessions) && mid in requests && requests[mid].staging == Some(sid)
                && b in old(branches) && branches == old(branches)[b := old(branches)[b].(status := Merging)]
    {
      var run := running[sid];
      running := running - {sid};
      var failure := MergeChanges(run.row.strategy, c);
      if failure.Some? {
        var ignored := RollbackSession(sid, c.rollback);
        return Err(failure.value);
      }
      if !c.saveOk || run.request !in requests {
        var ignored := RollbackSession(sid, c.rollback);
        return Err(Repository);
      }
      r := SaveExecution(run, sid, c);
    }

    method CommitBranchMerge(mid: MergeId, c: CommitCalls) returns (r: Result<(), BranchError>)
      modifies this
      ensures Done(View(), r) == CommitMerge(old(View()), mid, c)
      ensures r.Ok? ==> mid in requests && requests[mid].status.Committed? && old(requests)[mid].staging.Some?
                        && commits == old(commits) + [old(requests)[mid].staging.value]
                        && requests[mid].branch in branches && branches[requests[mid].branch].status.Merged?
      ensures commits == old(commits) ==> branches == old(branches) && requests == old(requests)
    {
      if !c.requestOk {
        return Err(Repository);
      }
      if mid !in requests {
        return Err(MergeRequestNotFound);
      }
      var req := requests[mid];
      if req.status != ReadyToCommit {
        return Err(InvalidBranchState);
      }
      if req.staging.None? {
        return Err(Session);
      }
      r := Commit(req.staging.value, c.answer);
      if r.Err? {
        return;
      }
      r := UpdateBranchStatus(req.branch, Merged, c.statusReadOk, c.statusWriteOk);
      if r.Err? {
        return;
      }
      if !c.saveOk {
        return Err(Repository);
      }
      requests := requests[mid := req.(status := Committed)];
      return Ok(());
    }

    // ---- Branch tree ----

    /** The children of a branch, each once, in an order of the repository's choosing. */
    method ListBranchesByParent(p: BranchId) returns (kids: seq<BranchId>)
      ensures NoDup(kids) && forall c :: c in kids <==> IsChild(View(), c, p)
    {
      kids := [];
      var todo := branches.Keys;
      while todo != {}
        invariant todo <= branches.Keys && NoDup(kids)
        invariant forall c :: c in kids <==> c !in todo && IsChild(View(), c, p)
      {
        var c :| c in todo;
        todo := todo - {c};
        if branches[c].parent == Some(p) {
          kids := kids + [c];
        }
      }
    }

    /** `readable`: whether the row of a branch can be parsed and its children listed. */
    method BuildBranchTree(id: BranchId, readable: BranchId -> bool) returns (t: Option<BranchTree>)
      requires Aged(View()) && id in branches
      ensures t.Some? <==> forall d :: Descends(View(), d, id) ==> readable(d)
      ensures t.Some? ==> IsTreeOf(View(), t.value, id)
      decreases |branches| - born[id]
    {
      ghost var m := View();
      assert Descends(m, id, id);
      if !readable(id) {
        return None;
      }
      var kids := ListBranchesByParent(id);
      var children: seq<BranchTree> := [];
      var i := 0;
      while i < |kids|
        invariant 0 <= i <= |kids| && IsForestOf(m, children, kids, i)
        invariant forall k, d :: 0 <= k < i && Descends(m, d, kids[k]) ==> readable(d)
      {
        assert IsChild(m, kids[i], id) by { assert kids[i] in kids; }
        var child := BuildBranchTree(kids[i], readable);
        if child.None? {
          ghost var d :| Descends(m, d, kids[i]) && !readable(d);
          DescendsThroughChild(m, d, id);
          return None;
        }
        ForestGrows(m, children, kids, child.value, id);
        children := children + [child.value];
        i := i + 1;
      }
      forall d | Descends(m, d, id) ensures readable(d) {
        DescendsThroughChild(m, d, id);
        if d != id {
          ghost var c :| IsChild(m, c, id) && Descends(m, d, c);
          assert c in kids;
        }
      }
      ForestIsTree(m, children, kids, id);
      return Some(BranchTree(id, children));
    }

    method GetBranchTree(id: BranchId, readable: BranchId -> bool) returns (r: Result<BranchTree, BranchError>)
      requires Aged(View())
      ensures id !in branches ==> r == Err(BranchNotFound)
      ensures id in branches ==> (r.Ok? <==> forall d :: Descends(View(), d, id) ==> readable(d))
      ensures r.Ok? ==> IsTreeOf(View(), r.value, id)
    {
      if id !in branches {
        return Err(BranchNotFound);
      }
      var t := BuildBranchTree(id, readable);
      return if t.Some? then Ok(t.value) else Err(Validation);
    }
  }
}
