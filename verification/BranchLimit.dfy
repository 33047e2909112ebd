/** How far the limit on active branches reaches. */
module BranchLimit {
  import opened Prelude
  import opened Branches
  import opened BranchRuns
  import opened BranchSteps

  /** Branches that have not finished their work. */
  function Working(m: Manager): set<BranchId> {
    set b | b in m.branches && (m.branches[b].status.Pending? || m.branches[b].status.Active?)
  }

  lemma SubsetSize(a: set<BranchId>, b: set<BranchId>)
    requires a <= b
    ensures |a| <= |b|
  {
    if a != {} {
      var x :| x in a;
      SubsetSize(a - {x}, b - {x});
    }
  }

  lemma WorkingPlus(m: Manager, m': Manager, id: BranchId)
    requires id !in m.branches && id in m'.branches && m'.branches[id].status.Pending?
    requires m'.branches == m.branches[id := m'.branches[id]]
    ensures |Working(m')| == |Working(m)| + 1
  {
    assert Working(m') == Working(m) + {id};
  }

  /** Only creation starts work, and only below the limit. */
  lemma StepWithinLimit(m: Manager, op: Op)
    requires Legal(m, op) && |Working(m)| <= m.maxBranches
    ensures Step(m, op).maxBranches == m.maxBranches && |Working(Step(m, op))| <= m.maxBranches
  {
    var m' := Step(m, op);
    if op.Create? {
      CreateAdds(m, op.source, op.id, op.sid, op.create);
      SubsetSize(Working(m), LiveBranches(m));
      if m'.branches == m.branches {
        assert Working(m') == Working(m);
      } else {
        WorkingPlus(m, m', op.id);
      }
    } else {
      StepMoves(m, op);
      SubsetSize(Working(m'), Working(m));
    }
  }

  /** Over every run, the pending and active branches stay within the limit. */
  lemma {:induction false} RunWithinLimit(m: Manager, ops: seq<Op>)
    requires LegalRun(m, ops) && |Working(m)| <= m.maxBranches
    ensures |Working(Run(m, ops))| <= m.maxBranches
    decreases |ops|
  {
    if ops != [] {
      StepWithinLimit(m, ops[0]);
      RunWithinLimit(Step(m, ops[0]), ops[1..]);
    }
  }

  /** The branch of a suspended execution has finished its own work. */
  ghost predicate SuspendedAreDone(m: Manager) {
    forall sid :: sid in m.running ==>
      var b := m.running[sid].row.branch;
      b in m.branches && !m.branches[b].status.Pending? && !m.branches[b].status.Active?
  }

  lemma StepKeepsDone(m: Manager, op: Op)
    requires SuspendedAreDone(m) && Legal(m, op)
    ensures SuspendedAreDone(Step(m, op))
  {
    if op.Create? {
      CreateAdds(m, op.source, op.id, op.sid, op.create);
    } else {
      StepMoves(m, op);
      StepSuspends(m, op);
    }
  }

  /** Only a beginning suspends an execution, of a completed branch. */
  lemma StepSuspends(m: Manager, op: Op)
    requires Legal(m, op) && !op.Create?
    ensures forall sid :: sid in Step(m, op).running ==>
              || (sid in m.running && Step(m, op).running[sid] == m.running[sid])
              || (op.Begin? && var b := Step(m, op).running[sid].row.branch;
                               b in m.branches && m.branches[b].status.Completed? && Step(m, op).branches == m.branches)
  {
    match op
    case Recover(order, c) => RecoverOnlyMoves(m, order, c, |order|);
    case _ =>
  }

  lemma {:induction false} RunKeepsDone(m: Manager, ops: seq<Op>)
    requires SuspendedAreDone(m) && LegalRun(m, ops)
    ensures SuspendedAreDone(Run(m, ops))
    decreases |ops|
  {
    if ops != [] {
      StepKeepsDone(m, ops[0]);
      RunKeepsDone(Step(m, ops[0]), ops[1..]);
    }
  }

  /** The number that the limit is checked against counts merging branches too. After every
      run, executing a merge raises it by one, unchecked: the limit holds afterwards if and
      only if it was not yet reached before. */
  lemma ExecutionIsNotLimited(strategies: set<string>, maxBranches: nat, ops: seq<Op>, sid: SessionId, c: FinishCalls)
    requires LegalRun(Start(strategies, maxBranches), ops)
    requires sid in Run(Start(strategies, maxBranches), ops).running
    requires FinishExecute(Run(Start(strategies, maxBranches), ops), sid, c).r.Ok?
    ensures var m := Run(Start(strategies, maxBranches), ops);
            var m' := FinishExecute(m, sid, c).m;
            && |LiveBranches(m')| == |LiveBranches(m)| + 1
            && (|LiveBranches(m')| <= maxBranches <==> |LiveBranches(m)| < maxBranches)
  {
    var m := Run(Start(strategies, maxBranches), ops);
    RunKeepsDone(Start(strategies, maxBranches), ops);
    var b := m.running[sid].row.branch;
    assert LiveBranches(FinishExecute(m, sid, c).m) == LiveBranches(m) + {b} && b !in LiveBranches(m);
  }

  /** With a limit of two: a branch below the base, one below that which is completed, a
      third one created in its place, and then the merge of the completed one. */
  lemma LimitIsPassed() returns (ops: seq<Op>)
    ensures LegalRun(Start({"s"}, 2), ops) && |LiveBranches(Run(Start({"s"}, 2), ops))| == 3
  {
    var start := Start({"s"}, 2);
    ops := BelowBase("s");
    ops := CreatedNext(start, ops, TwoBranches(), {10, 11}, Base, 2, 12);
    ops := MergedNext(start, ops, TwoBranches()[2 := Branch(None, 12, Pending)], {10, 11, 12}, 1, "s", 0, 13);
  }
}
