/** Why a task is where it is: which answers move it, and who decides about dispatched work. */
module TaskHistory {
  import opened Prelude
  import opened TaskBoard
  import opened TaskTheorems

  // ---- One task of a poll ----

  /** The planner split the task, and it gave these subtasks. */
  predicate Splits(e: Env) { e.plan.Subtasks? && e.plan.contents != [] }

  /** Some call that the handling of `t` makes is not answered. */
  predicate CallFails(b: Board, id: TaskId, t: Task, e: Env) {
    match t.status
    case Planning => e.plan.PlanError? || (Splits(e) && e.creations < |e.plan.contents|) || !e.writeOk
    case Executing => !t.hasAgent && (e.dispatch.MeshError? || (!e.dispatch.Busy? && !e.writeOk))
    case Coordinating =>
      !e.fetchOk || (!e.writeOk && (AllChildrenCompleted(b, id) || AnyChildFailed(b, id)))
    case _ => !e.writeOk
  }

  /** How far the table has grown: the subtasks that could be stored. */
  function Stored(t: Task, e: Env): seq<string> {
    if !t.status.Planning? || !Splits(e) then []
    else if e.creations < |e.plan.contents| then e.plan.contents[..e.creations] else e.plan.contents
  }

  /** From one status to another: exactly for these reasons. */
  ghost predicate MovesFor(b: Board, id: TaskId, t: Task, e: Env, to: Status) {
    match to
    case Pending => t.status.Pending? && CallFails(b, id, t, e) && !e.markFailedOk
    case Planning =>
      if t.status.Planning? then CallFails(b, id, t, e) && !e.markFailedOk else t.status.Pending? && e.writeOk
    case Executing =>
      if t.status.Executing? then !(e.dispatch.Finished? && e.writeOk) && (CallFails(b, id, t, e) ==> !e.markFailedOk)
      else t.status.Planning? && e.writeOk && !e.plan.PlanError? && !Splits(e)
    case Coordinating =>
      if t.status.Planning? then Splits(e) && e.creations >= |e.plan.contents| && e.writeOk
      else t.status.Coordinating?
           && if CallFails(b, id, t, e) then !e.markFailedOk
              else !AnyChildFailed(b, id) && !AllChildrenCompleted(b, id)
    case Verifying =>
      if t.status.Verifying? then CallFails(b, id, t, e) && !e.markFailedOk
      else t.status.Coordinating? && e.fetchOk && e.writeOk && !AnyChildFailed(b, id) && AllChildrenCompleted(b, id)
    case Completed =>
      e.writeOk && (t.status.Verifying? || (t.status.Executing? && e.dispatch.Finished?))
    case Failed =>
      || (CallFails(b, id, t, e) && e.markFailedOk)
      || (t.status.Coordinating? && !CallFails(b, id, t, e) && AnyChildFailed(b, id))
    case Assigned => false
  }

  /** `b'` is `m` after `id` was handled: its status moved for exactly the reasons above, it
      got an agent exactly by an accepted dispatch, its stored subtasks are new rows of their
      own, and every other row stayed. */
  ghost predicate Handles(m: Board, id: TaskId, e: Env, b': Board)
    requires id < |m|
  {
    var t, more := m[id], Stored(m[id], e);
    && |b'| == |m| + |more|
    && (forall i :: 0 <= i < |more| ==> b'[|m| + i] == Task(more[i], Pending, Some(id), false))
    && (forall j :: 0 <= j < |m| && j != id ==> b'[j] == m[j])
    && b'[id] == Task(t.content, b'[id].status, t.parent,
                      t.hasAgent || (t.status.Executing? && e.dispatch.Accepted? && e.writeOk))
    && forall to :: MovesFor(m, id, t, e, to) <==> to == b'[id].status
  }

  lemma PlanningMoves(m: Board, id: TaskId, e: Env)
    requires id < |m| && m[id].status.Planning?
    ensures Handles(m, id, e, Settled(m, id, e))
  {
    var b', more := Settled(m, id, e), Stored(m[id], e);
    assert AddSubtasks(m, id, []) == m;
    assert |b'| == |m| + |more|;
  }

  lemma ExecutingMoves(m: Board, id: TaskId, e: Env)
    requires id < |m| && m[id].status.Executing? && !m[id].hasAgent
    ensures Handles(m, id, e, Settled(m, id, e))
  {}

  lemma CoordinatingMoves(m: Board, id: TaskId, e: Env)
    requires id < |m| && m[id].status.Coordinating?
    ensures Handles(m, id, e, Settled(m, id, e))
  {
    if AllChildrenCompleted(m, id) && AnyChildFailed(m, id) {
      assert false;
    }
    NoChildAllCompleted(m, id);
  }

  lemma WritingMoves(m: Board, id: TaskId, e: Env)
    requires id < |m| && (m[id].status.Pending? || m[id].status.Verifying?)
    ensures Handles(m, id, e, Settled(m, id, e))
  {}

  /** What a poll does with a task that no agent holds, once the reports that arrive first
      have been written. */
  lemma TaskMoves(b: Board, id: TaskId, e: Env)
    requires id < |b| && b[id].status.IsActive() && !(b[id].status.Executing? && b[id].hasAgent)
    ensures var m := ApplyReports(b, e.reports);
            |m| == |b| && m[id] == b[id] && Handles(m, id, e, Process(b, id, b[id], e))
  {
    var m := ApplyReports(b, e.reports);
    ReportsSpendNothing(b, e.reports);
    match m[id].status
    case Planning => PlanningMoves(m, id, e);
    case Executing => ExecutingMoves(m, id, e);
    case Coordinating => CoordinatingMoves(m, id, e);
    case Pending => WritingMoves(m, id, e);
    case Verifying => WritingMoves(m, id, e);
  }

  // ---- Agents decide about the tasks they were given ----

  /** Whether `i` is held by an agent or was finished by one. */
  predicate Held(b: Board, i: TaskId) {
    i < |b| && b[i].hasAgent && (b[i].status.Executing? || b[i].status.Completed? || b[i].status.Failed?)
  }

  /** What reports make of a held task: the first one about it decides. */
  function Decided(st: Status, i: TaskId, rs: seq<Report>): Status {
    if rs == [] then st
    else
      var before, r := Decided(st, i, rs[..|rs| - 1]), rs[|rs| - 1];
      if before.Executing? && r.id == i then (if r.ok then Completed else Failed) else before
  }

  lemma {:induction false} DecidedConcat(st: Status, i: TaskId, a: seq<Report>, b: seq<Report>)
    ensures Decided(st, i, a + b) == Decided(Decided(st, i, a), i, b)
  {
    if b == [] {
      assert a + b == a;
    } else {
      DecidedConcat(st, i, a, b[..|b| - 1]);
      assert (a + b)[..|a + b| - 1] == a + b[..|b| - 1];
    }
  }

  /** `b'` has `i` as the reports decide. */
  ghost predicate DecidedBy(b: Board, b': Board, i: TaskId, rs: seq<Report>) {
    Held(b, i) && Held(b', i) && b'[i] == b[i].(status := Decided(b[i].status, i, rs))
  }

  lemma DecidedThen(b: Board, m: Board, b': Board, i: TaskId, a: seq<Report>, c: seq<Report>)
    requires DecidedBy(b, m, i, a) && DecidedBy(m, b', i, c)
    ensures DecidedBy(b, b', i, a + c)
  {
    DecidedConcat(b[i].status, i, a, c);
  }

  lemma {:induction false} ReportsDecide(b: Board, rs: seq<Report>, i: TaskId)
    requires Held(b, i)
    ensures DecidedBy(b, ApplyReports(b, rs), i, rs)
  {
    if rs != [] {
      ReportsDecide(b, rs[..|rs| - 1], i);
    }
  }

  /** The poll loop handles it as a task that it leaves to its agent, if at all. */
  ghost predicate LeftToAgent(i: TaskId, id: TaskId, t: Task) {
    id == i ==> t.status.Executing? && t.hasAgent
  }

  lemma ProcessDecides(b: Board, id: TaskId, t: Task, e: Env, i: TaskId)
    requires Held(b, i) && LeftToAgent(i, id, t)
    ensures DecidedBy(b, Process(b, id, t, e), i, e.reports)
  {
    ReportsDecide(b, e.reports, i);
  }

  /** The reports that arrive in a poll from its `k`-th task up to its `n`-th. */
  function ReportsBetween(envs: nat -> Env, k: nat, n: nat): seq<Report> {
    if n <= k then [] else ReportsBetween(envs, k, n - 1) + envs(n - 1).reports
  }

  lemma {:induction false} PollDecides(b0: Board, order: seq<TaskId>, envs: nat -> Env, k: nat, n: nat, i: TaskId)
    requires InRange(order, b0) && k <= n <= |order| && Held(PollBoard(b0, order, envs, k), i)
    requires forall j :: k <= j < n ==> LeftToAgent(i, order[j], b0[order[j]])
    ensures DecidedBy(PollBoard(b0, order, envs, k), PollBoard(b0, order, envs, n), i, ReportsBetween(envs, k, n))
    decreases n
  {
    if k < n {
      PollDecides(b0, order, envs, k, n - 1, i);
      var m := PollBoard(b0, order, envs, n - 1);
      ProcessDecides(m, order[n - 1], b0[order[n - 1]], envs(n - 1), i);
      DecidedThen(PollBoard(b0, order, envs, k), m, PollBoard(b0, order, envs, n), i,
                  ReportsBetween(envs, k, n - 1), envs(n - 1).reports);
    }
  }

  function StepReports(s: Step): seq<Report> {
    match s
    case Poll(order, envs) => ReportsBetween(envs, 0, |order|)
    case Submit(_) => []
    case AgentReport(r) => [r]
  }

  /** All reports of a run, in the order in which they arrive. */
  function RunReports(steps: seq<Step>): seq<Report> {
    if steps == [] then [] else StepReports(steps[0]) + RunReports(steps[1..])
  }

  lemma StepDecides(b: Board, s: Step, i: TaskId)
    requires LegalStep(b, s) && Held(b, i)
    ensures DecidedBy(b, StepBoard(b, s), i, StepReports(s))
  {
    match s
    case Poll(order, envs) =>
      forall j | 0 <= j < |order| ensures LeftToAgent(i, order[j], b[order[j]]) {
        assert order[j] in order;
      }
      PollDecides(b, order, envs, 0, |order|, i);
    case Submit(_) =>
    case AgentReport(r) =>
      assert [r][..0] == [];
      ReportsDecide(b, [r], i);
  }

  /** Over every run, a task that an agent holds is completed or failed by the first report
      about it, good or bad, and by nothing else. */
  lemma {:induction false} AgentDecides(b: Board, steps: seq<Step>, i: TaskId)
    requires LegalRun(b, steps) && Held(b, i)
    ensures DecidedBy(b, RunBoard(b, steps), i, RunReports(steps))
    decreases |steps|
  {
    if steps != [] {
      var b1, b2 := StepBoard(b, steps[0]), RunBoard(b, steps);
      StepDecides(b, steps[0], i);
      AgentDecides(b1, steps[1..], i);
      DecidedThen(b, b1, b2, i, StepReports(steps[0]), RunReports(steps[1..]));
    }
  }

  /** The dispatcher takes the task and its agent is stored. */
  predicate TakesOn(t: Task, e: Env) { t.status.Executing? && !t.hasAgent && e.dispatch.Accepted? && e.writeOk }

  /** The `k`-th task of a poll is dispatched and accepted. */
  ghost predicate Dispatched(b: Board, s: Step, k: nat) {
    && LegalStep(b, s) && s.Poll? && k < |s.order| && s.order[k] < |b|
    && TakesOn(b[s.order[k]], s.envs(k))
  }

  lemma OthersStay(b: Board, id: TaskId, t: Task, e: Env, j: TaskId)
    requires j < |b| && j != id && !(b[j].status.Executing? && b[j].hasAgent)
    ensures j < |Process(b, id, t, e)| && Process(b, id, t, e)[j] == b[j]
  {
    ReportsSpendNothing(b, e.reports);
  }

  /** Whatever a poll does before it comes to a task that no agent holds, the task waits. */
  lemma {:induction false} WaitsItsTurn(b0: Board, order: seq<TaskId>, envs: nat -> Env, n: nat, i: TaskId)
    requires InRange(order, b0) && n <= |order| && i < |b0| && !(b0[i].status.Executing? && b0[i].hasAgent)
    requires forall j :: 0 <= j < n ==> order[j] != i
    ensures i < |PollBoard(b0, order, envs, n)| && PollBoard(b0, order, envs, n)[i] == b0[i]
  {
    if n > 0 {
      WaitsItsTurn(b0, order, envs, n - 1, i);
      OthersStay(PollBoard(b0, order, envs, n - 1), order[n - 1], b0[order[n - 1]], envs(n - 1), i);
    }
  }

  /** A task that an accepted dispatch gives to an agent is executing from then on, until the
      first report about it completes or fails it; nothing else does, in the rest of the poll
      and over every run after it. */
  lemma AcceptedTaskIsReported(b: Board, s: Step, k: nat, steps: seq<Step>)
    requires Dispatched(b, s, k) && LegalRun(StepBoard(b, s), steps)
    ensures var i, b' := s.order[k], RunBoard(StepBoard(b, s), steps);
            var later := ReportsBetween(s.envs, k + 1, |s.order|) + RunReports(steps);
            i < |b'| && b'[i] == b[i].(hasAgent := true, status := Decided(Executing, i, later))
  {
    var i, order, envs := s.order[k], s.order, s.envs;
    WaitsItsTurn(b, order, envs, k, i);
    var m := PollBoard(b, order, envs, k);
    var given := PollBoard(b, order, envs, k + 1);
    ReportsSpendNothing(m, envs(k).reports);
    assert given[i] == b[i].(hasAgent := true);
    PollDecides(b, order, envs, k + 1, |order|, i);
    AgentDecides(StepBoard(b, s), steps, i);
    DecidedThen(given, StepBoard(b, s), RunBoard(StepBoard(b, s), steps), i,
                ReportsBetween(envs, k + 1, |order|), RunReports(steps));
  }

  // ---- Nobody holds a task but by an accepted dispatch ----

  ghost predicate EverDispatched(b: Board, steps: seq<Step>, i: TaskId)
    requires LegalRun(b, steps)
    decreases |steps|
  {
    steps != []
    && ((exists k: nat :: Dispatched(b, steps[0], k) && steps[0].order[k] == i)
        || EverDispatched(StepBoard(b, steps[0]), steps[1..], i))
  }

  lemma {:induction false} AgentsStay(b: Board, rs: seq<Report>)
    ensures |ApplyReports(b, rs)| == |b|
    ensures forall j :: 0 <= j < |b| ==> ApplyReports(b, rs)[j].hasAgent == b[j].hasAgent
  {
    if rs != [] {
      AgentsStay(b, rs[..|rs| - 1]);
    }
  }

  predicate HasAgent(b: Board, i: TaskId) { i < |b| && b[i].hasAgent }

  lemma ProcessAgents(b: Board, id: TaskId, t: Task, e: Env, i: TaskId)
    requires id < |b|
    ensures HasAgent(Process(b, id, t, e), i) <==> HasAgent(b, i) || (i == id && TakesOn(t, e))
    ensures |Process(b, id, t, e)| >= |b|
  {
    AgentsStay(b, e.reports);
  }

  /** Up to the `n`-th task of a poll, `i` has an agent if and only if it had one or was
      dispatched and accepted. */
  lemma {:induction false} PollAgents(b0: Board, order: seq<TaskId>, envs: nat -> Env, n: nat, i: TaskId)
    requires IsSnapshot(order, b0) && n <= |order|
    ensures HasAgent(PollBoard(b0, order, envs, n), i)
       <==> HasAgent(b0, i) || exists k: nat :: k < n && Dispatched(b0, Poll(order, envs), k) && order[k] == i
    ensures |PollBoard(b0, order, envs, n)| >= |b0|
  {
    if n > 0 {
      PollAgents(b0, order, envs, n - 1, i);
      var b, id, e := PollBoard(b0, order, envs, n - 1), order[n - 1], envs(n - 1);
      ProcessAgents(b, id, b0[id], e, i);
      assert Dispatched(b0, Poll(order, envs), n - 1) <==> TakesOn(b0[id], e);
    }
  }

  /** Over every run, a task has an agent if and only if it had one or a poll's dispatch of it
      was accepted. */
  lemma {:induction false} AgentsAreDispatched(b: Board, steps: seq<Step>, i: TaskId)
    requires LegalRun(b, steps)
    ensures HasAgent(RunBoard(b, steps), i) <==> HasAgent(b, i) || EverDispatched(b, steps, i)
    decreases |steps|
  {
    if steps != [] {
      var s, b1 := steps[0], StepBoard(b, steps[0]);
      AgentsAreDispatched(b1, steps[1..], i);
      match s
      case Poll(order, envs) => PollAgents(b, order, envs, |order|, i);
      case Submit(_) =>
      case AgentReport(_) =>
    }
  }
}
