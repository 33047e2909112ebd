/** A planner bounded in depth and fan-out leaves only finitely much to do. */
module TaskTermination {
  import opened Prelude
  import opened TaskBoard
  import opened TaskTheorems
  import opened TaskLiveness

  /** Plans of at most `fanOut` subtasks, and none for tasks at depth `depth` or below. */
  datatype Bounds = Bounds(fanOut: nat, depth: nat)

  /** `n` times `w`. */
  function Copies(n: nat, w: nat): nat {
    if n == 0 then 0 else Copies(n - 1, w) + w
  }

  lemma {:induction false} CopiesMultiply(n: nat, w: nat)
    ensures Copies(n, w) == n * w
  {
    if n > 0 {
      CopiesMultiply(n - 1, w);
      assert n * w == (n - 1) * w + w;
    }
  }

  lemma {:induction false} CopiesGrow(n: nat, m: nat, v: nat, w: nat)
    requires n <= m && v <= w
    ensures Copies(n, v) <= Copies(m, w)
  {
    if n < m {
      CopiesGrow(n, m - 1, v, w);
    } else if n > 0 {
      CopiesGrow(n - 1, m - 1, v, w);
    }
  }

  lemma {:induction false} CopiesAdd(n: nat, m: nat, w: nat)
    ensures Copies(n + m, w) == Copies(n, w) + Copies(m, w)
  {
    if m > 0 {
      CopiesAdd(n, m - 1, w);
    }
  }

  lemma CopiesBound(r: nat, n: nat, m: nat, w: nat)
    requires r <= Copies(n, w) + Copies(m, w)
    ensures r <= (n + m) * w
  {
    CopiesAdd(n, m, w);
    CopiesMultiply(n + m, w);
  }

  /** How many productive steps a pending task at depth `d`, with all it may be split into,
      can still make. */
  function Weight(bd: Bounds, d: nat): (w: nat)
    ensures w >= 4
    decreases if d < bd.depth then bd.depth - d else 0
  {
    if d >= bd.depth then 4 else 4 + Copies(bd.fanOut, Weight(bd, d + 1))
  }

  lemma {:induction false} WeightFalls(bd: Bounds, d: nat)
    ensures Weight(bd, d) <= Weight(bd, 0)
    decreases d
  {
    if d > 0 {
      WeightStep(bd, d - 1);
      WeightFalls(bd, d - 1);
    }
  }

  lemma {:induction false} WeightStep(bd: Bounds, d: nat)
    ensures Weight(bd, d + 1) <= Weight(bd, d)
    decreases if d < bd.depth then bd.depth - d else 0
  {
    if d + 1 < bd.depth {
      WeightStep(bd, d + 1);
      CopiesGrow(bd.fanOut, bd.fanOut, Weight(bd, d + 2), Weight(bd, d + 1));
    }
  }

  /** The number of ancestors of a task. */
  function Depth(b: Board, i: TaskId): nat
    decreases i
  {
    if i < |b| && b[i].parent.Some? && b[i].parent.value < i then 1 + Depth(b, b[i].parent.value) else 0
  }

  ghost predicate SameParents(b: Board, b': Board) {
    |b| <= |b'| && forall i :: 0 <= i < |b| ==> b'[i].parent == b[i].parent
  }

  lemma {:induction false} DepthStays(b: Board, b': Board, i: TaskId)
    requires SameParents(b, b') && i < |b|
    ensures Depth(b', i) == Depth(b, i)
    decreases i
  {
    if b[i].parent.Some? && b[i].parent.value < i {
      DepthStays(b, b', b[i].parent.value);
    }
  }

  /** What is left of a task's weight in its status. */
  function Left(bd: Bounds, d: nat, t: Task): nat {
    match t.status
    case Pending => Weight(bd, d)
    case Planning => Weight(bd, d) - 1
    case _ => Rank(t)
  }

  /** What is left of the first `n` tasks. */
  function Budget(bd: Bounds, b: Board, n: nat): nat
    requires n <= |b|
  {
    if n == 0 then 0 else Budget(bd, b, n - 1) + Left(bd, Depth(b, n - 1), b[n - 1])
  }

  function Total(bd: Bounds, b: Board): nat { Budget(bd, b, |b|) }

  lemma {:induction false} BudgetStays(bd: Bounds, b: Board, b': Board, n: nat)
    requires SameParents(b, b') && n <= |b| && forall i :: 0 <= i < n ==> b'[i] == b[i]
    ensures Budget(bd, b', n) == Budget(bd, b, n)
  {
    if n > 0 {
      BudgetStays(bd, b, b', n - 1);
      DepthStays(b, b', n - 1);
    }
  }

  lemma {:induction false} BudgetUpdate(bd: Bounds, b: Board, id: TaskId, t: Task, n: nat)
    requires id < n <= |b| && t.parent == b[id].parent
    ensures Budget(bd, b[id := t], n) + Left(bd, Depth(b, id), b[id]) == Budget(bd, b, n) + Left(bd, Depth(b, id), t)
  {
    var b' := b[id := t];
    DepthStays(b, b', n - 1);
    if id == n - 1 {
      BudgetStays(bd, b, b', n - 1);
    } else {
      BudgetUpdate(bd, b, id, t, n - 1);
    }
  }

  /** A write that leaves `spent` less to the task. */
  lemma UpdateSpends(bd: Bounds, b: Board, id: TaskId, t: Task, spent: nat)
    requires id < |b| && t.parent == b[id].parent
    requires spent + Left(bd, Depth(b, id), t) <= Left(bd, Depth(b, id), b[id])
    ensures spent + Total(bd, b[id := t]) <= Total(bd, b)
  {
    BudgetUpdate(bd, b, id, t, |b|);
  }

  lemma {:induction false} BudgetBound(bd: Bounds, b: Board, n: nat)
    requires n <= |b|
    ensures Budget(bd, b, n) <= Copies(n, Weight(bd, 0))
  {
    if n > 0 {
      BudgetBound(bd, b, n - 1);
      WeightFalls(bd, Depth(b, n - 1));
    }
  }

  /** Adding one pending task. */
  lemma AppendAdds(bd: Bounds, b: Board, t: Task)
    requires t.status.Pending?
    ensures Total(bd, b + [t]) == Total(bd, b) + Weight(bd, Depth(b + [t], |b|))
  {
    BudgetStays(bd, b, b + [t], |b|);
  }

  lemma {:induction false} SubtasksAdd(bd: Bounds, b: Board, id: TaskId, contents: seq<string>)
    requires id < |b|
    ensures Total(bd, AddSubtasks(b, id, contents)) == Total(bd, b) + Copies(|contents|, Weight(bd, Depth(b, id) + 1))
    ensures SameParents(b, AddSubtasks(b, id, contents))
  {
    if contents == [] {
      assert AddSubtasks(b, id, contents) == b;
    } else {
      var n := |contents| - 1;
      SubtasksAdd(bd, b, id, contents[..n]);
      SubtaskAdds(bd, b, AddSubtasks(b, id, contents[..n]), id, contents[n]);
      assert AddSubtasks(b, id, contents) == AddSubtasks(b, id, contents[..n]) + [NewTask(contents[n], Some(id))];
    }
  }

  lemma SubtaskAdds(bd: Bounds, b: Board, b': Board, id: TaskId, content: string)
    requires SameParents(b, b') && id < |b|
    ensures Total(bd, b' + [NewTask(content, Some(id))]) == Total(bd, b') + Weight(bd, Depth(b, id) + 1)
    ensures SameParents(b, b' + [NewTask(content, Some(id))])
  {
    var t := NewTask(content, Some(id));
    AppendAdds(bd, b', t);
    DepthStays(b, b' + [t], id);
    assert (b' + [t])[|b'|] == t;
  }

  /** Reporting agents spend nothing. */
  lemma {:induction false} ReportsKeepTotal(bd: Bounds, b: Board, rs: seq<Report>)
    ensures Total(bd, ApplyReports(b, rs)) <= Total(bd, b) && SameParents(b, ApplyReports(b, rs))
    ensures |ApplyReports(b, rs)| == |b|
  {
    if rs != [] {
      var m, r := ApplyReports(b, rs[..|rs| - 1]), rs[|rs| - 1];
      ReportsKeepTotal(bd, b, rs[..|rs| - 1]);
      if r.id < |m| {
        if ApplyReport(m, r) != m {
          UpdateSpends(bd, m, r.id, m[r.id].(status := if r.ok then Completed else Failed), 0);
        }
      }
    }
  }

  /** The plan for a task at depth `d` is within the bounds. */
  predicate PlanWithin(bd: Bounds, d: nat, t: Task, e: Env) {
    t.status.Planning? && e.plan.Subtasks? && e.plan.contents != [] ==> |e.plan.contents| <= bd.fanOut && d < bd.depth
  }

  /** What handling `id` spends, including the failure mark. */
  ghost predicate Pays(bd: Bounds, m: Board, b: Board, n: nat) {
    n + Total(bd, b) <= Total(bd, m) && SameParents(m, b)
  }

  /** The subtasks and the coordination weigh less than what was left of the plan. */
  lemma PlanFits(bd: Bounds, d: nat, n: nat)
    requires n <= bd.fanOut && (n > 0 ==> d < bd.depth)
    ensures Copies(n, Weight(bd, d + 1)) + 4 <= Weight(bd, d)
  {
    CopiesGrow(n, bd.fanOut, Weight(bd, d + 1), Weight(bd, d + 1));
  }

  lemma PlanPays(bd: Bounds, m: Board, id: TaskId, contents: seq<string>, status: Status)
    requires id < |m| && m[id].status.Planning? && (status.Coordinating? || status.Failed?)
    requires |contents| <= bd.fanOut && (contents != [] ==> Depth(m, id) < bd.depth)
    ensures Pays(bd, m, SetStatus(AddSubtasks(m, id, contents), id, status), 1)
  {
    var d, grown := Depth(m, id), AddSubtasks(m, id, contents);
    SubtasksAdd(bd, m, id, contents);
    DepthStays(m, grown, id);
    assert grown[id] == m[id];
    BudgetUpdate(bd, grown, id, m[id].(status := status), |grown|);
    PlanFits(bd, d, |contents|);
  }

  lemma PlanningPays(bd: Bounds, m: Board, id: TaskId, e: Env)
    requires id < |m| && m[id].status.Planning? && !LosesPlan(m[id], e) && PlanWithin(bd, Depth(m, id), m[id], e)
    ensures Pays(bd, m, Settled(m, id, e), if Handle(m, id, m[id], e).moved == Some(true) then 1 else 0)
  {
    UpdateSpends(bd, m, id, m[id].(status := Executing), 1);
    UpdateSpends(bd, m, id, m[id].(status := Failed), 0);
    if e.plan.Subtasks? && e.plan.contents != [] {
      var contents := e.plan.contents;
      PlanPays(bd, m, id, contents, Coordinating);
      PlanPays(bd, m, id, contents, Failed);
      if e.creations < |contents| {
        PlanPays(bd, m, id, contents[..e.creations], Failed);
      }
      assert AddSubtasks(m, id, contents[..0]) == m;
    }
  }

  /** A handler that writes `status`, or errs and is marked failed or not. */
  lemma WritePays(bd: Bounds, m: Board, id: TaskId, status: Status, e: Env)
    requires id < |m| && Left(bd, Depth(m, id), m[id].(status := status)) < Left(bd, Depth(m, id), m[id])
    ensures var h := Write(m, id, status, e.writeOk);
            var b := if h.moved.None? && e.markFailedOk then SetStatus(h.board, id, Failed) else h.board;
            Pays(bd, m, b, if h.moved == Some(true) then 1 else 0)
  {
    if Write(m, id, status, e.writeOk).moved == Some(true) {
      UpdateSpends(bd, m, id, m[id].(status := status), 1);
    } else {
      UpdateSpends(bd, m, id, m[id].(status := Failed), 0);
    }
  }

  lemma ExecutingPays(bd: Bounds, m: Board, id: TaskId, e: Env)
    requires id < |m| && m[id].status.Executing?
    ensures Pays(bd, m, Settled(m, id, e), if Handle(m, id, m[id], e).moved == Some(true) then 1 else 0)
  {
    UpdateSpends(bd, m, id, m[id].(status := Failed), 0);
    if !m[id].hasAgent {
      WritePays(bd, m, id, Completed, e);
      UpdateSpends(bd, m, id, m[id].(hasAgent := true), 1);
    }
  }

  lemma CoordinatingPays(bd: Bounds, m: Board, id: TaskId, e: Env)
    requires id < |m| && m[id].status.Coordinating?
    ensures Pays(bd, m, Settled(m, id, e), if Handle(m, id, m[id], e).moved == Some(true) then 1 else 0)
  {
    UpdateSpends(bd, m, id, m[id].(status := Failed), 0);
    WritePays(bd, m, id, Verifying, e);
    WritePays(bd, m, id, Failed, e);
  }

  lemma SettlingPays(bd: Bounds, m: Board, id: TaskId, e: Env)
    requires id < |m| && m[id].status.IsActive() && !LosesPlan(m[id], e) && PlanWithin(bd, Depth(m, id), m[id], e)
    ensures Pays(bd, m, Settled(m, id, e), if Handle(m, id, m[id], e).moved == Some(true) then 1 else 0)
  {
    match m[id].status
    case Pending => WritePays(bd, m, id, Planning, e);
    case Planning => PlanningPays(bd, m, id, e);
    case Executing => ExecutingPays(bd, m, id, e);
    case Coordinating => CoordinatingPays(bd, m, id, e);
    case Verifying => WritePays(bd, m, id, Completed, e);
  }

  lemma ProcessPays(bd: Bounds, b: Board, id: TaskId, t: Task, e: Env)
    requires Current(b, id, t) && t.status.IsActive() && !LosesPlan(t, e) && PlanWithin(bd, Depth(b, id), t, e)
    ensures Pays(bd, b, Process(b, id, t, e), Progress(b, id, t, e))
  {
    var m := ApplyReports(b, e.reports);
    ReportsKeepTotal(bd, b, e.reports);
    ReportsSpendNothing(b, e.reports);
    DepthStays(b, m, id);
    if !(t.status.Executing? && t.hasAgent) {
      assert m[id] == t;
      SettlingPays(bd, m, id, e);
      assert Process(b, id, t, e) == Settled(m, id, e);
    }
  }

  /** All plans made in this step are within the bounds. */
  ghost predicate PlansWithin(bd: Bounds, b: Board, s: Step)
    requires LegalStep(b, s)
  {
    s.Poll? ==> forall k :: 0 <= k < |s.order| ==> PlanWithin(bd, Depth(b, s.order[k]), b[s.order[k]], s.envs(k))
  }

  ghost predicate Bounded(bd: Bounds, b: Board, s: Step)
    requires LegalStep(b, s)
  {
    KeepsPlans(b, s) && PlansWithin(bd, b, s)
  }

  /** The first `n` tasks of a poll have paid for their steps. */
  ghost predicate PaidSoFar(bd: Bounds, b0: Board, order: seq<TaskId>, envs: nat -> Env, n: nat) {
    && n <= |order| && InRange(order, b0)
    && Pays(bd, b0, PollBoard(b0, order, envs, n), PollCount(b0, order, envs, n))
  }

  lemma {:induction false} PollPays(bd: Bounds, b0: Board, order: seq<TaskId>, envs: nat -> Env, n: nat)
    requires IsSnapshot(order, b0) && n <= |order| && Bounded(bd, b0, Poll(order, envs))
    ensures PaidSoFar(bd, b0, order, envs, n)
  {
    if n > 0 {
      var k := n - 1;
      PollPays(bd, b0, order, envs, k);
      NextPays(bd, b0, order, envs, k);
      assert PaidSoFar(bd, b0, order, envs, k + 1);
    }
  }

  lemma NextPays(bd: Bounds, b0: Board, order: seq<TaskId>, envs: nat -> Env, n: nat)
    requires IsSnapshot(order, b0) && n < |order| && Bounded(bd, b0, Poll(order, envs))
             && PaidSoFar(bd, b0, order, envs, n)
    ensures PaidSoFar(bd, b0, order, envs, n + 1)
  {
    var b, id, e := PollBoard(b0, order, envs, n), order[n], envs(n);
    PollSpends(b0, order, envs, n);
    assert id in order && PlanWithin(bd, Depth(b0, id), b0[id], e) && !LosesPlan(b0[id], e);
    DepthStays(b0, b, id);
    ProcessPays(bd, b, id, b0[id], e);
    LastOfPoll(b0, order, envs, n + 1);
  }

  lemma LastOfPoll(b: Board, order: seq<TaskId>, envs: nat -> Env, n: nat)
    requires 0 < n <= |order| && InRange(order, b)
    ensures var m, id, e := PollBoard(b, order, envs, n - 1), order[n - 1], envs(n - 1);
            && PollBoard(b, order, envs, n) == Process(m, id, b[id], e)
            && PollCount(b, order, envs, n) == PollCount(b, order, envs, n - 1) + Progress(m, id, b[id], e)
  {}

  ghost predicate BoundedRun(bd: Bounds, b: Board, steps: seq<Step>)
    requires LegalRun(b, steps)
    decreases |steps|
  {
    steps != [] ==> Bounded(bd, b, steps[0]) && BoundedRun(bd, StepBoard(b, steps[0]), steps[1..])
  }

  function Submissions(steps: seq<Step>): nat {
    if steps == [] then 0 else (if steps[0].Submit? then 1 else 0) + Submissions(steps[1..])
  }

  lemma StepPays(bd: Bounds, b: Board, s: Step)
    requires LegalStep(b, s) && Bounded(bd, b, s)
    ensures StepCount(b, s) + Total(bd, StepBoard(b, s)) <= Total(bd, b) + if s.Submit? then Weight(bd, 0) else 0
  {
    match s
    case Poll(order, envs) => PollPays(bd, b, order, envs, |order|);
    case Submit(content) => AppendAdds(bd, b, NewTask(content, None));
    case AgentReport(r) =>
      assert [r][..0] == [] && ApplyReports(b, [r]) == ApplyReport(b, r);
      ReportsKeepTotal(bd, b, [r]);
  }

  lemma {:induction false} RunPays(bd: Bounds, b: Board, steps: seq<Step>)
    requires LegalRun(b, steps) && BoundedRun(bd, b, steps)
    ensures RunCount(b, steps) + Total(bd, RunBoard(b, steps))
         <= Total(bd, b) + Copies(Submissions(steps), Weight(bd, 0))
    decreases |steps|
  {
    if steps != [] {
      StepPays(bd, b, steps[0]);
      RunPays(bd, StepBoard(b, steps[0]), steps[1..]);
    }
  }

  /** Over every run with a bounded planner, the productive steps are at most as many as the
      tasks at the start and those submitted are worth, however long the run is. */
  lemma BoundedPlannerBoundsWork(bd: Bounds, b: Board, steps: seq<Step>)
    requires LegalRun(b, steps) && BoundedRun(bd, b, steps)
    ensures RunCount(b, steps) <= (|b| + Submissions(steps)) * Weight(bd, 0)
  {
    RunPays(bd, b, steps);
    BudgetBound(bd, b, |b|);
    CopiesBound(RunCount(b, steps), |b|, Submissions(steps), Weight(bd, 0));
  }

  /** So a run with working calls, a bounded planner and more polls than that comes to a poll
      with no active task, or to one where a task waits for an agent. */
  lemma WorkEnds(bd: Bounds, b: Board, steps: seq<Step>)
    requires JoinSafe(b) && LegalRun(b, steps) && BoundedRun(bd, b, steps) && forall s :: s in steps ==> StepWorks(s)
    requires Polls(steps) > (|b| + Submissions(steps)) * Weight(bd, 0)
    ensures Rests(b, steps)
  {
    RestlessRunCounts(b, steps);
    BoundedPlannerBoundsWork(bd, b, steps);
  }

  // ---- With lost plans there is no bound ----

  ghost predicate WithinRun(bd: Bounds, b: Board, steps: seq<Step>)
    requires LegalRun(b, steps)
    decreases |steps|
  {
    steps != [] ==> PlansWithin(bd, b, steps[0]) && WithinRun(bd, StepBoard(b, steps[0]), steps[1..])
  }

  /** The status write after planning and the failure mark are both lost. */
  const LOST := Env([], Subtasks([""]), Busy, true, 1, false, false)
  /** The planner errs and the failure mark is lost: nothing happens. */
  const NOTHING := Env([], PlanError, Busy, true, 0, true, false)
  const WORK := Env([], NoPlan, Finished, true, 0, true, true)

  function Losing(k: nat): Env { LOST }

  function Working(k: nat): Env { if k == 0 then NOTHING else WORK }

  /** A root that is still planning; everything else, except for the last task, is done. */
  ghost predicate RootPlans(b: Board, last: Status) {
    && |b| >= 1 && b[0] == Task("", Planning, None, false)
    && (forall i :: 0 < i < |b| - 1 ==> b[i].status.Completed?)
    && (|b| > 1 ==> b[|b| - 1] == Task("", last, Some(0), false))
  }

  lemma PrependStep(bd: Bounds, b: Board, s: Step, rest: seq<Step>)
    requires LegalStep(b, s) && PlansWithin(bd, b, s)
    requires LegalRun(StepBoard(b, s), rest) && WithinRun(bd, StepBoard(b, s), rest)
    ensures LegalRun(b, [s] + rest) && WithinRun(bd, b, [s] + rest)
    ensures RunCount(b, [s] + rest) == StepCount(b, s) + RunCount(StepBoard(b, s), rest)
    ensures Submissions([s] + rest) == Submissions(rest) + if s.Submit? then 1 else 0
  {
    assert ([s] + rest)[1..] == rest;
  }

  /** The root loses a plan: one more pending subtask, and the root plans on. */
  lemma LosingPoll(b: Board)
    requires RootPlans(b, Completed)
    ensures var s := Poll([0], Losing);
            LegalStep(b, s) && PlansWithin(Bounds(1, 1), b, s) && StepBoard(b, s) == b + [NewTask("", Some(0))]
  {
    assert PollBoard(b, [0], Losing, 1) == Process(b, 0, b[0], LOST);
    assert AddSubtasks(b, 0, [""]) == b + [NewTask("", Some(0))];
  }

  /** The last task goes on by one status while the root stays as it is. */
  lemma WorkingPoll(b: Board, from: Status, to: Status)
    requires RootPlans(b, from) && |b| > 1
    requires (from.Pending? && to.Planning?) || (from.Planning? && to.Executing?) || (from.Executing? && to.Completed?)
    ensures var s := Poll([0, |b| - 1], Working);
            && LegalStep(b, s) && PlansWithin(Bounds(1, 1), b, s) && StepCount(b, s) >= 1
            && |StepBoard(b, s)| == |b| && RootPlans(StepBoard(b, s), to)
  {
    var last, order := |b| - 1, [0, |b| - 1];
    assert PollBoard(b, order, Working, 1) == Process(b, 0, b[0], NOTHING) == b;
    assert PollBoard(b, order, Working, 2) == Process(b, last, b[last], WORK) == SetStatus(b, last, to);
    assert Progress(b, last, b[last], WORK) == 1;
    assert PollCount(b, order, Working, 2) == PollCount(b, order, Working, 1) + 1;
  }

  function WorkStep(b: Board): Step
    requires |b| > 1
  {
    Poll([0, |b| - 1], Working)
  }

  lemma PrependWork(b: Board, from: Status, to: Status, rest: seq<Step>)
    requires RootPlans(b, from) && |b| > 1
    requires (from.Pending? && to.Planning?) || (from.Planning? && to.Executing?) || (from.Executing? && to.Completed?)
    requires LegalStep(b, WorkStep(b)) && LegalRun(StepBoard(b, WorkStep(b)), rest)
    requires WithinRun(Bounds(1, 1), StepBoard(b, WorkStep(b)), rest)
    ensures LegalRun(b, [WorkStep(b)] + rest) && WithinRun(Bounds(1, 1), b, [WorkStep(b)] + rest)
    ensures RunCount(b, [WorkStep(b)] + rest) >= 1 + RunCount(StepBoard(b, WorkStep(b)), rest)
    ensures Submissions([WorkStep(b)] + rest) == Submissions(rest)
  {
    WorkingPoll(b, from, to);
    PrependStep(Bounds(1, 1), b, WorkStep(b), rest);
  }

  /** Even a planner of fan-out one that splits only root tasks can cause any number of
      productive steps from a single task if plans are lost again and again. */
  lemma {:induction false} LostPlansNeverEnd(b: Board, n: nat) returns (steps: seq<Step>)
    requires RootPlans(b, Completed)
    ensures LegalRun(b, steps) && WithinRun(Bounds(1, 1), b, steps)
    ensures Submissions(steps) == 0 && RunCount(b, steps) >= 3 * n
    decreases n
  {
    if n == 0 {
      steps := [];
    } else {
      var lose := Poll([0], Losing);
      LosingPoll(b);
      var b1 := StepBoard(b, lose);
      assert RootPlans(b1, Pending);
      WorkingPoll(b1, Pending, Planning);
      var b2 := StepBoard(b1, WorkStep(b1));
      WorkingPoll(b2, Planning, Executing);
      var b3 := StepBoard(b2, WorkStep(b2));
      WorkingPoll(b3, Executing, Completed);
      steps := LostPlansNeverEnd(StepBoard(b3, WorkStep(b3)), n - 1);
      PrependWork(b3, Executing, Completed, steps);
      steps := [WorkStep(b3)] + steps;
      PrependWork(b2, Planning, Executing, steps);
      steps := [WorkStep(b2)] + steps;
      PrependWork(b1, Pending, Planning, steps);
      steps := [WorkStep(b1)] + steps;
      PrependStep(Bounds(1, 1), b, lose, steps);
      steps := [lose] + steps;
    }
  }
}
