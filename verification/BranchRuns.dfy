/** Building runs of the branch manager that go well, operation by operation. */
module BranchRuns {
  import opened Prelude
  import opened Branches

  const CREATE := CreateCalls(true, true, true, true, true)
  const BEGIN := BeginCalls(true, true, true, true, true, Discarded)
  const FINISH := FinishCalls(true, true, true, true, true, true, Discarded, 0)

  /** `ops` is a run from `start`, and this is where it ends, as far as it matters here. */
  ghost predicate Reached(start: Manager, ops: seq<Op>, branches: map<BranchId, Branch>, sessions: set<SessionId>) {
    && LegalRun(start, ops) && (forall op :: op in ops ==> RollsBack(op))
    && var m := Run(start, ops);
       && m.branches == branches && m.sessions == sessions == m.used
       && m.requests == map[] && m.executions == [] && m.commits == []
       && m.strategies == start.strategies && m.maxBranches == start.maxBranches
  }

  lemma CreatedNext(start: Manager, ops: seq<Op>, branches: map<BranchId, Branch>, sessions: set<SessionId>,
                    source: Source, id: BranchId, sid: SessionId)
    returns (more: seq<Op>)
    requires Reached(start, ops, branches, sessions) && id !in branches && sid !in sessions && !source.Snapshot?
    requires |LiveBranches(Run(start, ops))| < start.maxBranches
    requires source.FromBranch? ==> source.id in branches && branches[source.id].session in sessions
    ensures Reached(start, more, branches[id := NewBranch(source, sid)], sessions + {sid})
    ensures |LiveBranches(Run(start, more))| == |LiveBranches(Run(start, ops))| + 1
  {
    var m, op := Run(start, ops), Create(source, id, sid, CREATE);
    var d := CreateBranch(m, source, id, sid, CREATE);
    RunSnoc(start, ops, op);
    more := ops + [op];
    assert Run(start, more) == d.m;
    assert LiveBranches(d.m) == LiveBranches(m) + {id};
  }

  lemma CompletedNext(start: Manager, ops: seq<Op>, branches: map<BranchId, Branch>, sessions: set<SessionId>,
                      b: BranchId)
    returns (more: seq<Op>)
    requires Reached(start, ops, branches, sessions) && b in branches && branches[b].status.Pending?
    ensures Reached(start, more, branches[b := branches[b].(status := Completed)], sessions)
    ensures |LiveBranches(Run(start, more))| == |LiveBranches(Run(start, ops))| - 1
  {
    var m := Run(start, ops);
    RunSnoc(start, ops, MarkExecuting(b, true, true));
    var m1 := WithStatus(m, b, Active);
    assert Run(start, ops + [MarkExecuting(b, true, true)]) == m1;
    RunSnoc(start, ops + [MarkExecuting(b, true, true)], Complete(b, true, true));
    more := ops + [MarkExecuting(b, true, true)] + [Complete(b, true, true)];
    assert Run(start, more) == WithStatus(m1, b, Completed);
    assert branches[b := branches[b].(status := Active)][b := branches[b].(status := Completed)]
        == branches[b := branches[b].(status := Completed)];
    assert LiveBranches(Run(start, more)) == LiveBranches(m) - {b} && b in LiveBranches(m);
  }

  function TwoBranches(): map<BranchId, Branch> {
    map[0 := Branch(None, 10, Pending), 1 := Branch(Some(0), 11, Completed)]
  }

  /** With a limit of two: a branch below the base and one below that, which is completed. */
  lemma BelowBase(strategy: string) returns (ops: seq<Op>)
    ensures Reached(Start({strategy}, 2), ops, TwoBranches(), {10, 11})
    ensures |LiveBranches(Run(Start({strategy}, 2), ops))| == 1
  {
    var start := Start({strategy}, 2);
    var b0, b1 := Branch(None, 10, Pending), Branch(Some(0), 11, Pending);
    assert LiveBranches(start) == {} && Reached(start, [], map[], {});
    ops := CreatedNext(start, [], map[], {}, Base, 0, 10);
    ops := CreatedNext(start, ops, map[0 := b0], {10}, FromBranch(0), 1, 11);
    ops := CompletedNext(start, ops, map[0 := b0, 1 := b1], {10, 11}, 1);
    assert map[0 := b0, 1 := b1][1 := b1.(status := Completed)] == TwoBranches();
  }

  /** The merge of a completed branch goes through, whatever the number of live branches. */
  lemma MergedNext(start: Manager, ops: seq<Op>, branches: map<BranchId, Branch>, sessions: set<SessionId>,
                   b: BranchId, strategy: string, mid: MergeId, sid: SessionId)
    returns (more: seq<Op>)
    requires Reached(start, ops, branches, sessions) && strategy in start.strategies && sid !in sessions
    requires b in branches && branches[b].status.Completed? && branches[b].session in sessions
    requires branches[b].parent.Some? && branches[b].parent.value in branches
    requires branches[branches[b].parent.value].session in sessions
    ensures LegalRun(start, more)
    ensures |LiveBranches(Run(start, more))| == |LiveBranches(Run(start, ops))| + 1
  {
    var m := Run(start, ops);
    var request := Request(b, strategy, false, mid, RequestCalls(true, true, true));
    var row := MergeRequest(b, strategy, Approved, Some("auto"), None, 0);
    RunSnoc(start, ops, request);
    var m1 := RequestMerge(m, b, strategy, false, mid, RequestCalls(true, true, true)).m;
    assert m1 == m.(requests := m1.requests) && mid in m1.requests && m1.requests[mid] == row;
    RunSnoc(start, ops + [request], Begin(mid, sid, BEGIN));
    var m2 := BeginExecute(m1, mid, sid, BEGIN).m;
    assert m2 == Begun(m1, sid).(running := m1.running[sid := Running(mid, row)]);
    RunSnoc(start, ops + [request] + [Begin(mid, sid, BEGIN)], Finish(sid, FINISH));
    more := ops + [request] + [Begin(mid, sid, BEGIN)] + [Finish(sid, FINISH)];
    var m3 := FinishExecute(m2, sid, FINISH).m;
    assert m3.branches == branches[b := branches[b].(status := Merging)];
    assert LiveBranches(m3) == LiveBranches(m) + {b} && b !in LiveBranches(m);
  }
}
