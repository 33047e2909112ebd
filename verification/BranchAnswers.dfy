/** What each operation of the branch manager answers, and exactly when. */
module BranchAnswers {
  import opened Prelude
  import opened Branches

  /** Which status may follow which. */
  predicate MayLead(from: BranchStatus, to: BranchStatus) {
    || (to.Active? && from.Pending?)
    || (to.Completed? && from.Active?)
    || (to.Merging? && (from.Active? || from.Completed?))
    || (to.Merged? && from.Merging?)
    || (to.Failed? && (from.Pending? || from.Active? || from.Merging?))
  }

  lemma StatusAnswers(m: Manager, b: BranchId, to: BranchStatus, readOk: bool, writeOk: bool)
    ensures var d := UpdateStatus(m, b, to, readOk, writeOk);
            var may := b in m.branches && MayLead(m.branches[b].status, to);
            && (d.r == Ok(()) <==> readOk && may && writeOk)
            && (d.r == Err(BranchNotFound) <==> readOk && b !in m.branches)
            && (d.r.Err? && d.r.error.InvalidStatusTransition? <==> readOk && b in m.branches && !may)
            && (d.r == Err(Repository) <==> !readOk || (may && !writeOk))
            && (d.r.Err? && d.r.error.InvalidStatusTransition? ==>
                  d.r.error == InvalidStatusTransition(m.branches[b].status, to))
            && d.m == if d.r.Ok? then m.(branches := m.branches[b := m.branches[b].(status := to)]) else m
  {}

  /** The limit counts pending, active and merging branches. */
  function Counted(m: Manager): nat {
    |set b | b in m.branches && m.branches[b].status in {Pending, Active, Merging}|
  }

  /** The branch to start from is there, with its session. */
  predicate SourceAlive(m: Manager, source: Source) {
    source.FromBranch? ==> source.id in m.branches && m.branches[source.id].session in m.sessions
  }

  lemma CreateAnswers(m: Manager, source: Source, id: BranchId, sid: SessionId, c: CreateCalls)
    ensures var d := CreateBranch(m, source, id, sid, c);
            var room := c.listOk && Counted(m) < m.maxBranches;
            var found := room && !source.Snapshot? && (source.FromBranch? ==> c.readOk);
            var begun := found && SourceAlive(m, source) && c.beginOk;
            && (d.r == Ok(id) <==> begun && c.recordOk && c.writeOk)
            && (d.r == Err(MaxBranchesExceeded) <==> c.listOk && !room)
            && (d.r == Err(BranchNotFound) <==> found && source.FromBranch? && source.id !in m.branches)
            && (d.r == Err(Session)
                <==> found && (source.FromBranch? ==> source.id in m.branches) && !begun)
            && (d.r == Err(Validation) <==> (room && source.Snapshot?) || (begun && !c.recordOk))
            && (d.r == Err(Repository)
                <==> || !c.listOk || (room && source.FromBranch? && !c.readOk)
                     || (begun && c.recordOk && !c.writeOk))
            && d.m.sessions == (if begun then m.sessions + {sid} else m.sessions)
            && d.m.requests == m.requests && d.m.running == m.running
            && d.m.branches == if d.r.Ok? then m.branches[id := Branch(
                 if source.FromBranch? then Some(source.id) else None, sid, Pending)] else m.branches
  {
    assert LiveBranches(m) == set b | b in m.branches && m.branches[b].status in {Pending, Active, Merging};
  }

  lemma AbortAnswers(m: Manager, b: BranchId, c: AbortCalls)
    ensures var d := AbortBranch(m, b, c);
            var held := c.readOk && b in m.branches && m.branches[b].session in m.sessions;
            var status := if b in m.branches then m.branches[b].status else Failed;
            var live := status in {Pending, Active, Merging};
            && (d.r == Ok(()) <==> held && live && c == AbortCalls(true, Discarded, true, true))
            && (d.r == Err(BranchNotFound) <==> c.readOk && b !in m.branches)
            && (d.r == Err(Session) <==> c.readOk && b in m.branches && !(held && c.rollback.Discarded?))
            && (d.r == Err(InvalidStatusTransition(status, Failed))
                <==> held && c.rollback.Discarded? && c.statusReadOk && !live)
            && (d.r == Err(Repository)
                <==> !c.readOk || (held && c.rollback.Discarded? && (!c.statusReadOk || (live && !c.writeOk))))
            && d.m.sessions == (if held && !c.rollback.Kept? then m.sessions - {m.branches[b].session} else m.sessions)
            && d.m.branches == (if d.r.Ok? then m.branches[b := m.branches[b].(status := Failed)] else m.branches)
            && d.m.requests == m.requests && d.m.running == m.running
  {}

  lemma RequestAnswers(m: Manager, b: BranchId, strategy: string, requiresApproval: bool, mid: MergeId, c: RequestCalls)
    requires mid !in m.requests
    ensures var d := RequestMerge(m, b, strategy, requiresApproval, mid, c);
            var done := c.readOk && b in m.branches && m.branches[b].status.Completed?;
            var stored := done && strategy in m.strategies && c.createOk;
            && (d.r == Ok(mid) <==> stored && (requiresApproval || c.approveOk))
            && (d.r == Err(BranchNotFound) <==> c.readOk && b !in m.branches)
            && (d.r == Err(InvalidBranchState) <==> c.readOk && b in m.branches && !done)
            && (d.r == Err(InvalidStrategy) <==> done && strategy !in m.strategies)
            && (d.r == Err(Repository) <==> !c.readOk || (done && strategy in m.strategies && d.r != Ok(mid)))
            && d.m == m.(requests := d.m.requests)
            && d.m.requests == if !stored then m.requests
               else m.requests[mid := if requiresApproval || !c.approveOk
                                      then MergeRequest(b, strategy, Waiting, None, None, 0)
                                      else MergeRequest(b, strategy, Approved, Some("auto"), None, 0)]
  {}

  lemma ApproveAnswers(m: Manager, mid: MergeId, approver: string, ok: bool)
    ensures var d := ApproveInRepository(m, mid, approver, ok);
            && (d.r == Ok(()) <==> ok && mid in m.requests && m.requests[mid].status.Waiting?)
            && (d.r == Err(Repository) <==> d.r != Ok(()))
            && d.m == m.(requests := d.m.requests)
            && d.m.requests == if !d.r.Ok? then m.requests
               else m.requests[mid := m.requests[mid].(status := Approved, approvedBy := Some(approver))]
  {}

  /** The parent that the merge goes to is there, with its session. */
  predicate ParentAlive(m: Manager, b: BranchId)
    requires b in m.branches && m.branches[b].parent.Some?
  {
    var p := m.branches[b].parent.value; p in m.branches && m.branches[p].session in m.sessions
  }

  lemma BeginAnswers(m: Manager, mid: MergeId, sid: SessionId, c: BeginCalls)
    requires sid !in m.sessions
    ensures var d := BeginExecute(m, mid, sid, c);
            var stored := c.requestOk && mid in m.requests;
            var approved := stored && m.requests[mid].status.Approved?;
            var b := if stored then m.requests[mid].branch else 0;
            var read := approved && c.branchOk && b in m.branches;
            var done := read && m.branches[b].status.Completed?;
            var parented := done && c.parseOk && m.branches[b].parent.Some?;
            var known := parented && c.parentOk && m.branches[b].parent.value in m.branches;
            var begun := known && ParentAlive(m, b) && c.beginOk;
            var going := begun && m.branches[b].session in m.sessions + {sid};
            && (d.r == Ok(()) <==> going)
            && (d.r == Err(MergeRequestNotFound) <==> c.requestOk && !stored)
            && (d.r == Err(MergeNotApproved) <==> stored && !approved)
            && (d.r == Err(BranchNotFound) <==> (approved && c.branchOk && !read) || (parented && c.parentOk && !known))
            && (d.r == Err(InvalidBranchState) <==> read && !done)
            && (d.r == Err(Validation) <==> done && !parented)
            && (d.r == Err(Session) <==> known && !going)
            && (d.r == Err(Repository)
                <==> !c.requestOk || (approved && !c.branchOk) || (parented && !c.parentOk))
            && d.m.branches == m.branches && d.m.requests == m.requests && d.m.commits == m.commits
            && d.m.sessions == (if going || (begun && c.rollback.Kept?) then m.sessions + {sid} else m.sessions)
            && d.m.running == if going then m.running[sid := Running(mid, m.requests[mid])] else m.running
  {}

  lemma FinishAnswers(m: Manager, sid: SessionId, c: FinishCalls)
    requires sid in m.running
    ensures var d, x := FinishExecute(m, sid, c), m.running[sid];
            var known := c.collectOk && x.row.strategy in m.strategies;
            var staged := known && c.mergeOk && (c.conflicts == 0 ==> c.stageOk);
            var saved := staged && c.saveOk && x.request in m.requests;
            var b := x.row.branch;
            var read := saved && c.statusReadOk && b in m.branches;
            var may := read && m.branches[b].status in {Active, Completed};
            && (d.r == Ok(c.conflicts) <==> may && c.statusWriteOk)
            && (d.r == Err(InvalidStrategy) <==> c.collectOk && !known)
            && (d.r == Err(Merge) <==> known && !c.mergeOk)
            && (d.r == Err(Session) <==> !c.collectOk || (known && c.mergeOk && !staged))
            && (d.r == Err(BranchNotFound) <==> saved && c.statusReadOk && !read)
            && (read ==> (d.r == Err(InvalidStatusTransition(m.branches[b].status, Merging)) <==> !may))
            && (d.r == Err(Repository)
                <==> (staged && !saved) || (saved && !c.statusReadOk) || (may && !c.statusWriteOk))
            && d.m.running == m.running - {sid} && d.m.commits == m.commits
            && d.m.sessions == (if d.r.Ok? || c.rollback.Kept? then m.sessions else m.sessions - {sid})
            && d.m.branches == (if d.r.Ok? then m.branches[b := m.branches[b].(status := Merging)] else m.branches)
            && d.m.requests == (if !saved then m.requests else m.requests[x.request := x.row.(
                 staging := Some(sid), conflicts := c.conflicts,
                 status := if c.conflicts == 0 then ReadyToCommit else HasConflicts)])
            && var approver := if x.row.approvedBy.Some? then x.row.approvedBy.value else "";
               d.m.executions == if !d.r.Ok? then m.executions
                                 else m.executions + [Execution(x.request, b, sid, approver, c.conflicts)]
  {}

  lemma CommitAnswers(m: Manager, mid: MergeId, c: CommitCalls)
    ensures var d := CommitMerge(m, mid, c);
            var stored := c.requestOk && mid in m.requests;
            var ready := stored && m.requests[mid].status.ReadyToCommit?;
            var held := ready && m.requests[mid].staging.Some? && m.requests[mid].staging.value in m.sessions;
            var sid := if held then m.requests[mid].staging.value else 0;
            var accepted := held && c.answer.Accepted?;
            var b := if stored then m.requests[mid].branch else 0;
            var read := accepted && c.statusReadOk && b in m.branches;
            var may := read && m.branches[b].status.Merging?;
            && (d.r == Ok(()) <==> may && c.statusWriteOk && c.saveOk)
            && (d.r == Err(MergeRequestNotFound) <==> c.requestOk && !stored)
            && (d.r == Err(InvalidBranchState) <==> stored && !ready)
            && (d.r == Err(Session) <==> ready && !accepted)
            && (d.r == Err(BranchNotFound) <==> accepted && c.statusReadOk && !read)
            && (read ==> (d.r == Err(InvalidStatusTransition(m.branches[b].status, Merged)) <==> !may))
            && (d.r == Err(Repository)
                <==> !c.requestOk || (accepted && !c.statusReadOk) || (may && !(c.statusWriteOk && c.saveOk)))
            && d.m.running == m.running && d.m.executions == m.executions
            && d.m.sessions == (if held && !c.answer.Refused? then m.sessions - {sid} else m.sessions)
            && d.m.commits == (if held && (c.answer.Accepted? || c.answer.AcceptedUnclean?) then m.commits + [sid]
                               else m.commits)
            && d.m.branches == (if may && c.statusWriteOk then m.branches[b := m.branches[b].(status := Merged)]
                                else m.branches)
            && d.m.requests == if d.r.Ok? then m.requests[mid := m.requests[mid].(status := Committed)] else m.requests
  {}
}
