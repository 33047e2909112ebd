/** What every run of the supervisor keeps: joins are safe, failures climb, work is bounded. */
module TaskTheorems {
  import opened Prelude
  import opened TaskBoard

  /** A parent is older than its subtasks. A task without a plan has none, a coordinating
      task has some, and those of a verifying or completed task are all completed. */
  ghost predicate TaskSound(b: Board, i: TaskId)
    requires i < |b|
  {
    var st := b[i].status;
    && (b[i].parent.Some? ==> b[i].parent.value < i)
    && (st.Pending? || st.Planning? || st.Executing? || st.Assigned? ==> !HasChild(b, i))
    && (st.Coordinating? ==> HasChild(b, i))
    && (st.Verifying? || st.Completed? ==> AllChildrenCompleted(b, i))
  }

  ghost predicate JoinSafe(b: Board) {
    forall i: TaskId :: i < |b| ==> TaskSound(b, i)
  }

  /** Rows stay, keep their parents, and a finished task is not reopened. */
  ghost predicate Evolves(b: Board, b': Board) {
    && |b| <= |b'|
    && forall i :: 0 <= i < |b| ==>
         b'[i].parent == b[i].parent
         && (b[i].status.Completed? || b[i].status.Failed? ==> b'[i].status == b[i].status)
  }

  /** Since the snapshot only a reporting agent may have touched the task. */
  ghost predicate Current(b: Board, id: TaskId, t: Task) {
    id < |b| && (b[id] == t || (t.status.Executing? && t.hasAgent))
  }

  /** Tasks other than `id` changed only through agent reports. */
  ghost predicate OthersReported(b: Board, b': Board, id: TaskId) {
    |b| <= |b'| && forall j :: 0 <= j < |b| && j != id ==> b'[j] == b[j] || (b[j].status.Executing? && b[j].hasAgent)
  }

  // ---- Single writes ----

  lemma SetStatusKeeps(b: Board, id: TaskId, status: Status)
    requires JoinSafe(b) && id < |b| && !b[id].status.Completed? && !b[id].status.Failed?
    requires status.Pending? || status.Planning? || status.Executing? || status.Assigned? ==> !HasChild(b, id)
    requires status.Coordinating? ==> HasChild(b, id)
    requires status.Verifying? || status.Completed? ==> AllChildrenCompleted(b, id)
    ensures JoinSafe(SetStatus(b, id, status)) && Evolves(b, SetStatus(b, id, status))
  {
    var b' := SetStatus(b, id, status);
    forall i: TaskId | i < |b'| ensures TaskSound(b', i) {
      assert TaskSound(b, i);
      assert HasChild(b, i) <==> HasChild(b', i) by {
        if k :| 0 <= k < |b| && b[k].parent == Some(i) { assert b'[k].parent == Some(i); }
        if k :| 0 <= k < |b'| && b'[k].parent == Some(i) { assert b[k].parent == Some(i); }
      }
      assert AllChildrenCompleted(b, i) ==> AllChildrenCompleted(b', i);
    }
  }

  lemma ReportKeeps(b: Board, r: Report)
    requires JoinSafe(b)
    ensures JoinSafe(ApplyReport(b, r)) && Evolves(b, ApplyReport(b, r))
    ensures |ApplyReport(b, r)| == |b|
    ensures forall j :: 0 <= j < |b| ==> ApplyReport(b, r)[j] == b[j] || (b[j].status.Executing? && b[j].hasAgent)
  {
    if r.id < |b| && b[r.id].status.Executing? && b[r.id].hasAgent {
      assert TaskSound(b, r.id);
      NoChildAllCompleted(b, r.id);
      SetStatusKeeps(b, r.id, if r.ok then Completed else Failed);
    }
  }

  lemma NoChildAllCompleted(b: Board, p: TaskId)
    ensures !HasChild(b, p) ==> AllChildrenCompleted(b, p)
  {}

  lemma {:induction false} ReportsKeep(b: Board, rs: seq<Report>)
    requires JoinSafe(b)
    ensures JoinSafe(ApplyReports(b, rs)) && Evolves(b, ApplyReports(b, rs))
    ensures |ApplyReports(b, rs)| == |b|
    ensures forall j :: 0 <= j < |b| ==> ApplyReports(b, rs)[j] == b[j] || (b[j].status.Executing? && b[j].hasAgent)
  {
    if rs != [] {
      ReportsKeep(b, rs[..|rs| - 1]);
      ReportKeeps(ApplyReports(b, rs[..|rs| - 1]), rs[|rs| - 1]);
    }
  }

  lemma AddSubtasksKeeps(b: Board, id: TaskId, contents: seq<string>)
    requires JoinSafe(b) && id < |b| && b[id].status.Planning?
    ensures var b' := AddSubtasks(b, id, contents);
            && Evolves(b, b')
            && (contents != [] ==> HasChild(b', id))
            && forall i: TaskId :: i < |b'| && i != id ==> TaskSound(b', i)
  {
    var b' := AddSubtasks(b, id, contents);
    if contents != [] {
      assert b'[|b|].parent == Some(id);
    }
    forall i: TaskId | i < |b'| && i != id ensures TaskSound(b', i) {
      assert HasChild(b', i) ==> i < |b| && HasChild(b, i) by {
        if k :| 0 <= k < |b'| && b'[k].parent == Some(i) {
          assert k < |b| && b[k].parent == Some(i);
          assert TaskSound(b, k);
        }
      }
      if i < |b| {
        assert TaskSound(b, i);
        if k :| 0 <= k < |b| && b[k].parent == Some(i) {
          assert b'[k].parent == Some(i);
        }
      }
    }
  }

  /** Planning ends with the subtasks coordinated or, after an error, the task failed. */
  lemma PlanningKeeps(b: Board, id: TaskId, contents: seq<string>, status: Status)
    requires JoinSafe(b) && id < |b| && b[id].status.Planning?
    requires status.Failed? || (status.Coordinating? && contents != [])
    ensures var b' := SetStatus(AddSubtasks(b, id, contents), id, status); JoinSafe(b') && Evolves(b, b')
  {
    var mid := AddSubtasks(b, id, contents);
    AddSubtasksKeeps(b, id, contents);
    var b' := SetStatus(mid, id, status);
    forall i: TaskId | i < |b'| ensures TaskSound(b', i) {
      if i != id {
        assert TaskSound(mid, i);
        assert HasChild(mid, i) <==> HasChild(b', i) by {
          if k :| 0 <= k < |mid| && mid[k].parent == Some(i) { assert b'[k].parent == Some(i); }
          if k :| 0 <= k < |b'| && b'[k].parent == Some(i) { assert mid[k].parent == Some(i); }
        }
        assert AllChildrenCompleted(mid, i) ==> AllChildrenCompleted(b', i);
      } else {
        assert TaskSound(b, id);
        if k :| 0 <= k < |mid| && mid[k].parent == Some(id) { assert b'[k].parent == Some(id); }
      }
    }
  }

  // ---- One task of a poll ----

  /** Planning broke off after some subtasks were made, or before the task's own status
      was written, and the failure was not recorded either. */
  predicate LosesPlan(t: Task, e: Env) {
    && t.status.Planning? && e.plan.Subtasks? && e.plan.contents != [] && !e.markFailedOk
    && if e.creations < |e.plan.contents| then e.creations > 0 else !e.writeOk
  }

  /** What handling the current task `id` leads to. */
  ghost function Settled(m: Board, id: TaskId, e: Env): Board
    requires id < |m|
  {
    var h := Handle(m, id, m[id], e);
    if h.moved.None? && e.markFailedOk then SetStatus(h.board, id, Failed) else h.board
  }

  lemma PlanningSettles(m: Board, id: TaskId, e: Env)
    requires JoinSafe(m) && id < |m| && m[id].status.Planning? && !LosesPlan(m[id], e)
    ensures JoinSafe(Settled(m, id, e)) && Evolves(m, Settled(m, id, e))
    ensures OthersReported(m, Settled(m, id, e), id)
  {
    assert TaskSound(m, id);
    SetStatusKeeps(m, id, Failed);
    SetStatusKeeps(m, id, Executing);
    if e.plan.Subtasks? && e.plan.contents != [] {
      var contents := e.plan.contents;
      PlanningKeeps(m, id, contents, Coordinating);
      PlanningKeeps(m, id, contents, Failed);
      if e.creations < |contents| {
        PlanningKeeps(m, id, contents[..e.creations], Failed);
      }
      assert AddSubtasks(m, id, contents[..0]) == m;
    }
  }

  lemma LostPlanBreaks(m: Board, id: TaskId, e: Env)
    requires JoinSafe(m) && id < |m| && LosesPlan(m[id], e)
    ensures Evolves(m, Settled(m, id, e)) && OthersReported(m, Settled(m, id, e), id)
    ensures Orphaning(Settled(m, id, e), id)
  {
    var made := if e.creations < |e.plan.contents| then e.plan.contents[..e.creations] else e.plan.contents;
    assert Settled(m, id, e) == AddSubtasks(m, id, made) && made != [];
    AddSubtasksKeeps(m, id, made);
  }

  /** A planning task that already has subtasks. */
  ghost predicate Orphaning(b: Board, id: TaskId) {
    id < |b| && b[id].status.Planning? && HasChild(b, id)
  }

  lemma TaskSettles(m: Board, id: TaskId, e: Env)
    requires JoinSafe(m) && id < |m| && m[id].status.IsActive() && !LosesPlan(m[id], e)
    ensures JoinSafe(Settled(m, id, e)) && Evolves(m, Settled(m, id, e))
    ensures OthersReported(m, Settled(m, id, e), id)
  {
    assert TaskSound(m, id);
    NoChildAllCompleted(m, id);
    SetStatusKeeps(m, id, Failed);
    match m[id].status
    case Pending => SetStatusKeeps(m, id, Planning);
    case Planning => PlanningSettles(m, id, e);
    case Executing =>
      SetStatusKeeps(m, id, Completed);
      AssignKeeps(m, id);
    case Coordinating =>
      if AllChildrenCompleted(m, id) { SetStatusKeeps(m, id, Verifying); }
    case Verifying => SetStatusKeeps(m, id, Completed);
  }

  /** Handling one task keeps the joins safe if and only if it does not lose a plan. */
  lemma ProcessKeeps(b: Board, id: TaskId, t: Task, e: Env)
    requires JoinSafe(b) && Current(b, id, t) && t.status.IsActive()
    ensures var b' := Process(b, id, t, e);
            && Evolves(b, b') && OthersReported(b, b', id)
            && (JoinSafe(b') <==> !LosesPlan(t, e))
            && (LosesPlan(t, e) ==> Orphaning(b', id))
  {
    var m := ApplyReports(b, e.reports);
    ReportsKeep(b, e.reports);
    if !(t.status.Executing? && t.hasAgent) {
      assert m[id] == t;
      assert Process(b, id, t, e) == Settled(m, id, e);
      if LosesPlan(t, e) {
        LostPlanBreaks(m, id, e);
        assert !TaskSound(Process(b, id, t, e), id);
      } else {
        TaskSettles(m, id, e);
      }
    }
  }

  lemma AssignKeeps(b: Board, id: TaskId)
    requires JoinSafe(b) && id < |b|
    ensures JoinSafe(Assign(b, id)) && Evolves(b, Assign(b, id))
  {
    var b' := Assign(b, id);
    forall i: TaskId | i < |b'| ensures TaskSound(b', i) {
      assert TaskSound(b, i);
      assert HasChild(b, i) <==> HasChild(b', i) by {
        if k :| 0 <= k < |b| && b[k].parent == Some(i) { assert b'[k].parent == Some(i); }
        if k :| 0 <= k < |b'| && b'[k].parent == Some(i) { assert b[k].parent == Some(i); }
      }
      assert AllChildrenCompleted(b, i) ==> AllChildrenCompleted(b', i);
    }
  }

  lemma ProcessEvolves(b: Board, id: TaskId, t: Task, e: Env)
    requires JoinSafe(b) && Current(b, id, t) && t.status.IsActive()
    ensures Evolves(b, Process(b, id, t, e)) && OthersReported(b, Process(b, id, t, e), id)
  {
    ProcessKeeps(b, id, t, e);
  }

  // ---- Whole polls and runs ----

  /** No task of the poll loses its plan. */
  ghost predicate KeepsPlans(b: Board, s: Step)
    requires LegalStep(b, s)
  {
    s.Poll? ==> forall k :: 0 <= k < |s.order| ==> !LosesPlan(b[s.order[k]], s.envs(k))
  }

  /** The subset of runs in which also every failure of a handler is recorded. */
  ghost predicate MarksFailures(s: Step) {
    s.Poll? ==> forall k {:trigger s.envs(k)} :: s.envs(k).markFailedOk
  }

  /** Up to the `n`-th task of a poll the joins are safe, and the rest of the snapshot is
      current. */
  ghost predicate KeptSoFar(b0: Board, order: seq<TaskId>, envs: nat -> Env, n: nat) {
    && n <= |order| && InRange(order, b0)
    && var b := PollBoard(b0, order, envs, n);
       JoinSafe(b) && Evolves(b0, b) && forall k :: n <= k < |order| ==> Current(b, order[k], b0[order[k]])
  }

  lemma {:induction false} PollKeeps(b0: Board, order: seq<TaskId>, envs: nat -> Env, n: nat)
    requires JoinSafe(b0) && IsSnapshot(order, b0) && n <= |order|
    requires forall k :: 0 <= k < n ==> !LosesPlan(b0[order[k]], envs(k))
    ensures KeptSoFar(b0, order, envs, n)
  {
    if n > 0 {
      var k := n - 1;
      PollKeeps(b0, order, envs, k);
      PollKeepsNext(b0, order, envs, k);
      assert KeptSoFar(b0, order, envs, k + 1);
    }
  }

  lemma PollKeepsNext(b0: Board, order: seq<TaskId>, envs: nat -> Env, n: nat)
    requires IsSnapshot(order, b0) && n < |order| && !LosesPlan(b0[order[n]], envs(n))
    requires KeptSoFar(b0, order, envs, n)
    ensures KeptSoFar(b0, order, envs, n + 1)
  {
    var b, id, e := PollBoard(b0, order, envs, n), order[n], envs(n);
    var b' := PollBoard(b0, order, envs, n + 1);
    assert id in order && b' == Process(b, id, b0[id], e);
    ProcessKeeps(b, id, b0[id], e);
    forall k | n + 1 <= k < |order| ensures Current(b', order[k], b0[order[k]]) {
      StillCurrent(b, b', id, b0, order[k]);
    }
  }

  /** A lost plan is not made good while the poll goes on with other tasks. */
  lemma OrphaningStays(b: Board, id: TaskId, t: Task, e: Env, p: TaskId)
    requires Orphaning(b, p) && Current(b, id, t) && t.status.IsActive() && id != p
    ensures Orphaning(Process(b, id, t, e), p)
  {
    ProcessSpends(b, id, t, e);
    ProcessKeepsParents(b, id, t, e);
    var c :| 0 <= c < |b| && b[c].parent == Some(p);
    assert Process(b, id, t, e)[c].parent == Some(p);
  }

  lemma ProcessKeepsParents(b: Board, id: TaskId, t: Task, e: Env)
    requires id < |b|
    ensures |b| <= |Process(b, id, t, e)| && forall j :: 0 <= j < |b| ==> Process(b, id, t, e)[j].parent == b[j].parent
  {
    ParentsStay(b, e.reports);
  }

  lemma {:induction false} ParentsStay(b: Board, rs: seq<Report>)
    ensures |ApplyReports(b, rs)| == |b| && forall j :: 0 <= j < |b| ==> ApplyReports(b, rs)[j].parent == b[j].parent
  {
    if rs != [] {
      ParentsStay(b, rs[..|rs| - 1]);
    }
  }

  /** From the first task that loses its plan to the end of the poll. */
  lemma {:induction false} PollStaysBroken(b0: Board, order: seq<TaskId>, envs: nat -> Env, k: nat, n: nat)
    requires JoinSafe(b0) && IsSnapshot(order, b0) && k < n <= |order|
    requires LosesPlan(b0[order[k]], envs(k)) && forall i :: 0 <= i < k ==> !LosesPlan(b0[order[i]], envs(i))
    ensures Orphaning(PollBoard(b0, order, envs, n), order[k])
    decreases n
  {
    var b, id := PollBoard(b0, order, envs, n - 1), order[n - 1];
    assert id in order;
    if n == k + 1 {
      PollKeeps(b0, order, envs, k);
      ProcessKeeps(b, id, b0[id], envs(k));
    } else {
      PollStaysBroken(b0, order, envs, k, n - 1);
      PollSpends(b0, order, envs, n - 1);
      OrphaningStays(b, id, b0[id], envs(n - 1), order[k]);
    }
  }

  lemma FirstLoss(b0: Board, order: seq<TaskId>, envs: nat -> Env, n: nat) returns (k: nat)
    requires InRange(order, b0) && n < |order| && LosesPlan(b0[order[n]], envs(n))
    ensures k <= n && LosesPlan(b0[order[k]], envs(k)) && forall i :: 0 <= i < k ==> !LosesPlan(b0[order[i]], envs(i))
  {
    if i :| 0 <= i < n && LosesPlan(b0[order[i]], envs(i)) {
      k := FirstLoss(b0, order, envs, i);
    } else {
      k := n;
    }
  }

  /** A whole poll, like a report or a new task, keeps the joins safe if and only if no task
      of it loses its plan. */
  lemma StepKeeps(b: Board, s: Step)
    requires JoinSafe(b) && LegalStep(b, s)
    ensures JoinSafe(StepBoard(b, s)) <==> KeepsPlans(b, s)
    ensures KeepsPlans(b, s) ==> Evolves(b, StepBoard(b, s))
  {
    match s
    case Poll(order, envs) =>
      if n :| 0 <= n < |order| && LosesPlan(b[order[n]], envs(n)) {
        var k := FirstLoss(b, order, envs, n);
        PollStaysBroken(b, order, envs, k, |order|);
        assert !TaskSound(StepBoard(b, s), order[k]);
      } else {
        PollKeeps(b, order, envs, |order|);
      }
    case AgentReport(r) => ReportKeeps(b, r);
    case Submit(content) => SubmitKeeps(b, content);
  }

  lemma SubmitKeeps(b: Board, content: string)
    requires JoinSafe(b)
    ensures JoinSafe(StepBoard(b, Submit(content))) && Evolves(b, StepBoard(b, Submit(content)))
    ensures StepBoard(b, Submit(content)) == b + [Task(content, Pending, None, false)]
  {
    var b' := StepBoard(b, Submit(content));
    forall i: TaskId | i < |b'| ensures TaskSound(b', i) {
      assert HasChild(b', i) ==> i < |b| && HasChild(b, i) by {
        if k :| 0 <= k < |b'| && b'[k].parent == Some(i) { assert k < |b| && TaskSound(b, k); }
      }
      if i < |b| {
        assert TaskSound(b, i);
        if k :| 0 <= k < |b| && b[k].parent == Some(i) { assert b'[k].parent == Some(i); }
      }
    }
  }

  ghost predicate RunKeepsPlans(b: Board, steps: seq<Step>)
    requires LegalRun(b, steps)
    decreases |steps|
  {
    steps != [] ==> KeepsPlans(b, steps[0]) && RunKeepsPlans(StepBoard(b, steps[0]), steps[1..])
  }

  lemma {:induction false} MarkedRunKeepsPlans(b: Board, steps: seq<Step>)
    requires LegalRun(b, steps) && forall s :: s in steps ==> MarksFailures(s)
    ensures RunKeepsPlans(b, steps)
    decreases |steps|
  {
    if steps != [] {
      assert MarksFailures(steps[0]);
      MarkedRunKeepsPlans(StepBoard(b, steps[0]), steps[1..]);
    }
  }

  /** Join safety over every run, whatever planner, dispatcher, agents and failing
      repository calls do, as long as no plan is lost. */
  lemma {:induction false} RunIsJoinSafe(b: Board, steps: seq<Step>)
    requires JoinSafe(b) && LegalRun(b, steps) && RunKeepsPlans(b, steps)
    ensures JoinSafe(RunBoard(b, steps)) && Evolves(b, RunBoard(b, steps))
    decreases |steps|
  {
    if steps != [] {
      StepKeeps(b, steps[0]);
      RunIsJoinSafe(StepBoard(b, steps[0]), steps[1..]);
    }
  }

  // ---- Failures climb the task tree ----

  function Ancestor(b: Board, c: TaskId, k: nat): Option<TaskId>
    decreases k
  {
    if k == 0 then Some(c)
    else if c < |b| && b[c].parent.Some? then Ancestor(b, b[c].parent.value, k - 1) else None
  }

  lemma {:induction false} AncestorStays(b: Board, b': Board, c: TaskId, k: nat)
    requires Evolves(b, b') && c < |b| && JoinSafe(b)
    ensures Ancestor(b', c, k) == Ancestor(b, c, k)
  {
    assert TaskSound(b, c);
    if k > 0 && b[c].parent.Some? {
      AncestorStays(b, b', b[c].parent.value, k - 1);
    }
  }

  /** Handling a coordinating task that has a failed subtask fails it, even if the
      repository calls of the handler fail. */
  lemma CoordinatorFails(b: Board, p: TaskId, t: Task, e: Env, c: TaskId)
    requires JoinSafe(b) && Current(b, p, t) && t.status.Coordinating? && e.markFailedOk
    requires c < |b| && b[c].parent == Some(p) && b[c].status.Failed?
    ensures var b' := Process(b, p, t, e); p < |b'| && b'[p].status.Failed?
  {
    var m := ApplyReports(b, e.reports);
    ReportsKeep(b, e.reports);
    assert m[c].parent == Some(p) && m[c].status.Failed?;
    assert HasChild(m, p) && AnyChildFailed(m, p);
  }

  /** A poll up to its `n`-th task: the parent of a failed task is still coordinating and
      not yet handled, or failed. */
  ghost predicate FailsParentSoFar(b0: Board, order: seq<TaskId>, envs: nat -> Env, n: nat, p: TaskId) {
    && n <= |order| && InRange(order, b0)
    && var b := PollBoard(b0, order, envs, n);
       p < |b| && (b[p].status.Failed? || exists k :: n <= k < |order| && order[k] == p)
  }

  lemma {:induction false} PollFailsParent(b0: Board, order: seq<TaskId>, envs: nat -> Env, n: nat, c: TaskId)
    requires JoinSafe(b0) && IsSnapshot(order, b0) && n <= |order| && forall k :: 0 <= k < n ==> envs(k).markFailedOk
    requires c < |b0| && b0[c].status.Failed? && b0[c].parent.Some?
    ensures FailsParentSoFar(b0, order, envs, n, b0[c].parent.value)
  {
    if n == 0 {
      var p := b0[c].parent.value;
      assert TaskSound(b0, c) && TaskSound(b0, p) && HasChild(b0, p);
      if !b0[p].status.Failed? {
        assert b0[p].status.Coordinating?;
        assert p in order;
      }
    } else {
      var k := n - 1;
      PollFailsParent(b0, order, envs, k, c);
      PollKeeps(b0, order, envs, k);
      FailsParentNext(b0, order, envs, k, c);
      assert FailsParentSoFar(b0, order, envs, k + 1, b0[c].parent.value);
    }
  }

  lemma FailsParentNext(b0: Board, order: seq<TaskId>, envs: nat -> Env, n: nat, c: TaskId)
    requires JoinSafe(b0) && IsSnapshot(order, b0) && n < |order| && envs(n).markFailedOk
             && KeptSoFar(b0, order, envs, n)
    requires c < |b0| && b0[c].status.Failed? && b0[c].parent.Some?
    requires FailsParentSoFar(b0, order, envs, n, b0[c].parent.value)
    ensures FailsParentSoFar(b0, order, envs, n + 1, b0[c].parent.value)
  {
    var b, id, e, p := PollBoard(b0, order, envs, n), order[n], envs(n), b0[c].parent.value;
    assert id in order;
    assert TaskSound(b0, c) && TaskSound(b0, p) && HasChild(b0, p);
    ProcessEvolves(b, id, b0[id], e);
    if !b[p].status.Failed? && id == p {
      assert b0[p].status.Coordinating?;
      CoordinatorFails(b, p, b0[p], e, c);
    }
  }

  lemma PollFails(b: Board, s: Step, c: TaskId)
    requires JoinSafe(b) && s.Poll? && LegalStep(b, s) && MarksFailures(s)
    requires c < |b| && b[c].status.Failed? && b[c].parent.Some?
    ensures var b', p := StepBoard(b, s), b[c].parent.value; p < |b'| && b'[p].status.Failed?
  {
    PollFailsParent(b, s.order, s.envs, |s.order|, c);
  }

  function Polls(steps: seq<Step>): nat {
    if steps == [] then 0 else (if steps[0].Poll? then 1 else 0) + Polls(steps[1..])
  }

  /** Once a task is failed, so is its k-th ancestor after k more polls. */
  lemma {:induction false} FailurePropagates(b: Board, steps: seq<Step>, c: TaskId, k: nat)
    requires JoinSafe(b) && LegalRun(b, steps) && forall s :: s in steps ==> MarksFailures(s)
    requires c < |b| && b[c].status.Failed? && Ancestor(b, c, k).Some? && Polls(steps) >= k
    ensures var b', a := RunBoard(b, steps), Ancestor(b, c, k).value; a < |b'| && b'[a].status.Failed?
    decreases |steps|
  {
    if k == 0 {
      MarkedRunKeepsPlans(b, steps);
      RunIsJoinSafe(b, steps);
    } else {
      var b1, tail := StepBoard(b, steps[0]), steps[1..];
      assert MarksFailures(steps[0]);
      StepKeeps(b, steps[0]);
      assert TaskSound(b, c);
      if steps[0].Poll? {
        var p := b[c].parent.value;
        PollFails(b, steps[0], c);
        AncestorStays(b, b1, p, k - 1);
        FailurePropagates(b1, tail, p, k - 1);
      } else {
        AncestorStays(b, b1, c, k);
        FailurePropagates(b1, tail, c, k);
      }
    }
  }

  // ---- Productive work is bounded ----

  /** How many more times a task can make progress. */
  function Rank(t: Task): nat {
    match t.status
    case Pending => 4
    case Planning => 3
    case Coordinating => 2
    case Executing => if t.hasAgent then 0 else 1
    case Verifying => 1
    case _ => 0
  }

  function Potential(b: Board): nat {
    if b == [] then 0 else Potential(b[..|b| - 1]) + Rank(b[|b| - 1])
  }

  lemma {:induction false} PotentialUpdate(b: Board, id: TaskId, t: Task)
    requires id < |b|
    ensures Potential(b[id := t]) + Rank(b[id]) == Potential(b) + Rank(t)
  {
    var n := |b| - 1;
    if id == n {
      assert b[id := t][..n] == b[..n];
    } else {
      assert b[id := t][..n] == b[..n][id := t];
      PotentialUpdate(b[..n], id, t);
    }
  }

  lemma {:induction false} PotentialBound(b: Board)
    ensures Potential(b) <= 4 * |b|
  {
    if b != [] {
      PotentialBound(b[..|b| - 1]);
    }
  }

  lemma {:induction false} PotentialOfSubtasks(b: Board, id: TaskId, contents: seq<string>)
    ensures Potential(AddSubtasks(b, id, contents)) == Potential(b) + 4 * |contents|
  {
    var b' := AddSubtasks(b, id, contents);
    if contents == [] {
      assert b' == b;
    } else {
      PotentialOfSubtasks(b, id, contents[..|contents| - 1]);
      assert b'[..|b'| - 1] == AddSubtasks(b, id, contents[..|contents| - 1]);
    }
  }

  lemma {:induction false} ReportsSpendNothing(b: Board, rs: seq<Report>)
    ensures Potential(ApplyReports(b, rs)) == Potential(b) && |ApplyReports(b, rs)| == |b|
    ensures forall j :: 0 <= j < |b| ==> ApplyReports(b, rs)[j] == b[j] || (b[j].status.Executing? && b[j].hasAgent)
  {
    if rs != [] {
      var m, r := ApplyReports(b, rs[..|rs| - 1]), rs[|rs| - 1];
      ReportsSpendNothing(b, rs[..|rs| - 1]);
      if r.id < |m| {
        PotentialUpdate(m, r.id, m[r.id].(status := Completed));
        PotentialUpdate(m, r.id, m[r.id].(status := Failed));
      }
    }
  }

  /** `b` came from `m` by work on `id` that spent at least `n` units. */
  ghost predicate Spent(m: Board, b: Board, id: TaskId, n: nat) {
    && n + Potential(b) + 4 * |m| <= Potential(m) + 4 * |b|
    && id < |m| <= |b| && forall j :: 0 <= j < |m| && j != id ==> b[j] == m[j]
  }

  ghost predicate HandledSpends(m: Board, h: Handled, id: TaskId) {
    Spent(m, h.board, id, if h.moved == Some(true) then 1 else 0)
  }

  lemma WriteSpends(m: Board, id: TaskId, status: Status, ok: bool)
    requires id < |m| && Rank(m[id].(status := status)) < Rank(m[id])
    ensures HandledSpends(m, Write(m, id, status, ok), id)
  {
    PotentialUpdate(m, id, m[id].(status := status));
  }

  lemma ExecutingSpends(m: Board, id: TaskId, e: Env)
    requires id < |m| && m[id].status.Executing?
    ensures HandledSpends(m, HandleExecuting(m, id, m[id], e), id)
  {
    if !m[id].hasAgent {
      WriteSpends(m, id, Completed, e.writeOk);
      PotentialUpdate(m, id, m[id].(hasAgent := true));
    }
  }

  lemma PlanSpends(m: Board, id: TaskId, e: Env)
    requires id < |m| && m[id].status.Planning?
    ensures HandledSpends(m, HandlePlanning(m, id, e), id)
  {
    WriteSpends(m, id, Executing, e.writeOk);
    if e.plan.Subtasks? {
      var all := e.plan.contents;
      PlanningSpends(m, id, if e.creations < |all| then all[..e.creations] else all);
    }
  }

  lemma PlanningSpends(m: Board, id: TaskId, contents: seq<string>)
    requires id < |m| && m[id].status.Planning?
    ensures var grown := AddSubtasks(m, id, contents);
            Spent(m, grown, id, 0) && Spent(m, SetStatus(grown, id, Coordinating), id, 1)
  {
    var grown := AddSubtasks(m, id, contents);
    PotentialOfSubtasks(m, id, contents);
    assert grown[id] == m[id];
    PotentialUpdate(grown, id, m[id].(status := Coordinating));
  }

  lemma HandlingSpends(m: Board, id: TaskId, e: Env)
    requires id < |m| && m[id].status.IsActive()
    ensures HandledSpends(m, Handle(m, id, m[id], e), id)
  {
    match m[id].status
    case Pending => WriteSpends(m, id, Planning, e.writeOk);
    case Planning => PlanSpends(m, id, e);
    case Executing => ExecutingSpends(m, id, e);
    case Coordinating =>
      WriteSpends(m, id, Verifying, e.writeOk);
      WriteSpends(m, id, Failed, e.writeOk);
    case Verifying => WriteSpends(m, id, Completed, e.writeOk);
  }

  /** No assumption on the environment: each counted step spends one unit of potential,
      and only new tasks bring some. */
  lemma ProcessSpends(b: Board, id: TaskId, t: Task, e: Env)
    requires Current(b, id, t) && t.status.IsActive()
    ensures var b' := Process(b, id, t, e);
            && Progress(b, id, t, e) + Potential(b') + 4 * |b| <= Potential(b) + 4 * |b'|
            && OthersReported(b, b', id)
  {
    var m := ApplyReports(b, e.reports);
    ReportsSpendNothing(b, e.reports);
    if !(t.status.Executing? && t.hasAgent) {
      assert m[id] == t;
      HandlingSpends(m, id, e);
      var h := Handle(m, id, t, e);
      PotentialUpdate(h.board, id, h.board[id].(status := Failed));
    }
  }

  lemma StillCurrent(b: Board, b': Board, id: TaskId, b0: Board, other: TaskId)
    requires other < |b0| && Current(b, other, b0[other]) && OthersReported(b, b', id) && other != id
    ensures Current(b', other, b0[other])
  {}

  lemma {:induction false} PollSpends(b0: Board, order: seq<TaskId>, envs: nat -> Env, n: nat)
    requires IsSnapshot(order, b0) && n <= |order|
    ensures var b := PollBoard(b0, order, envs, n);
            && PollCount(b0, order, envs, n) + Potential(b) + 4 * |b0| <= Potential(b0) + 4 * |b|
            && forall k :: n <= k < |order| ==> Current(b, order[k], b0[order[k]])
  {
    if n > 0 {
      PollSpends(b0, order, envs, n - 1);
      var b, id := PollBoard(b0, order, envs, n - 1), order[n - 1];
      assert id in order;
      ProcessSpends(b, id, b0[id], envs(n - 1));
      forall k | n <= k < |order| ensures Current(PollBoard(b0, order, envs, n), order[k], b0[order[k]]) {
        StillCurrent(b, PollBoard(b0, order, envs, n), id, b0, order[k]);
      }
    }
  }

  lemma {:induction false} RunSpends(b: Board, steps: seq<Step>)
    requires LegalRun(b, steps)
    ensures RunCount(b, steps) + Potential(RunBoard(b, steps)) + 4 * |b| <= Potential(b) + 4 * |RunBoard(b, steps)|
    decreases |steps|
  {
    if steps != [] {
      var s, b1 := steps[0], StepBoard(b, steps[0]);
      match s {
        case Poll(order, envs) => PollSpends(b, order, envs, |order|);
        case Submit(content) => assert b1[..|b|] == b;
        case AgentReport(r) =>
          assert [r][..0] == [] && ApplyReports(b, [r]) == ApplyReport(b, r);
          ReportsSpendNothing(b, [r]);
      }
      RunSpends(b1, steps[1..]);
    }
  }

  /** Over every run, even with failing repository calls and lost failure marks, the
      polls' results sum to at most four times the number of tasks ever created. */
  lemma ProductiveStepsBounded(b: Board, steps: seq<Step>)
    requires LegalRun(b, steps)
    ensures RunCount(b, steps) <= 4 * |RunBoard(b, steps)|
  {
    RunSpends(b, steps);
    PotentialBound(b);
  }

  // ---- What a lost plan can lead to ----

  /** If the status write after planning fails and so does the failure mark, the task is
      planned a second time; without a plan it is then executed and completed while its
      subtask is still pending. */
  lemma LostFailureMarkBreaksJoin(x: string, y: string)
    ensures var b0 := [Task(x, Planning, None, false)];
            var lost := Env([], Subtasks([y]), Busy, true, 1, false, false);
            var next := Env([], NoPlan, Finished, true, 0, true, true);
            var b1 := Process(b0, 0, b0[0], lost);
            var b2 := Process(b1, 0, b1[0], next);
            var b3 := Process(b2, 0, b2[0], next);
            JoinSafe(b0) && |b3| == 2 && b3[0].status.Completed? && b3[1].status.Pending? && !TaskSound(b3, 0)
  {}
}
