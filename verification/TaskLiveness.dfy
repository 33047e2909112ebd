/** The poll loop never gets stuck on its own: it can only wait for agents. */
module TaskLiveness {
  import opened Prelude
  import opened TaskBoard
  import opened TaskTheorems

  /** A task that only an agent outside the poll loop can move on. */
  predicate AwaitsAgent(t: Task) {
    (t.status.Executing? && t.hasAgent) || t.status.Assigned?
  }

  predicate SomeAwait(b: Board) {
    exists i :: 0 <= i < |b| && AwaitsAgent(b[i])
  }

  /** Every call succeeds: the repository answers, the planner does not err, and the
      dispatcher takes or finishes the task. */
  predicate Works(e: Env) {
    && e.fetchOk && e.writeOk && !e.plan.PlanError? && (e.dispatch.Accepted? || e.dispatch.Finished?)
    && (e.plan.Subtasks? ==> e.creations >= |e.plan.contents|)
  }

  ghost predicate StepWorks(s: Step) {
    s.Poll? ==> forall k {:trigger s.envs(k)} :: Works(s.envs(k))
  }

  lemma {:induction false} NothingToReport(b: Board, rs: seq<Report>)
    requires !SomeAwait(b)
    ensures ApplyReports(b, rs) == b
  {
    if rs != [] {
      NothingToReport(b, rs[..|rs| - 1]);
      var r := rs[|rs| - 1];
      assert r.id < |b| ==> !AwaitsAgent(b[r.id]);
    }
  }

  predicate Stuck(b: Board, id: TaskId, e: Env) {
    id < |b| && Progress(b, id, b[id], e) == 0
  }

  /** With working calls, handling a task either counts as progress or changes nothing. */
  lemma NoProgressNoChange(b: Board, id: TaskId, e: Env)
    requires !SomeAwait(b) && Works(e) && Stuck(b, id, e)
    ensures Process(b, id, b[id], e) == b
  {
    NothingToReport(b, e.reports);
  }

  /** With working calls, only a coordinator with an unfinished subtask makes no progress. */
  lemma OnlyCoordinatorsWait(b: Board, id: TaskId, e: Env)
    requires JoinSafe(b) && !SomeAwait(b) && Works(e) && id < |b| && b[id].status.IsActive()
    ensures Stuck(b, id, e) ==>
              exists c :: id < c < |b| && b[c].parent == Some(id) && b[c].status.IsActive()
  {
    NothingToReport(b, e.reports);
    assert !AwaitsAgent(b[id]);
    if Stuck(b, id, e) {
      assert b[id].status.Coordinating?;
      assert TaskSound(b, id);
      var c :| 0 <= c < |b| && b[c].parent == Some(id) && !b[c].status.Completed?;
      assert TaskSound(b, c);
      assert !b[c].status.Failed? && !AwaitsAgent(b[c]);
    }
  }

  ghost predicate AllWork(envs: nat -> Env, n: nat) {
    forall k :: 0 <= k < n ==> Works(envs(k))
  }

  /** Nothing was counted up to the `n`-th task of a poll, and the board is as it was. */
  ghost predicate IdleSoFar(b: Board, order: seq<TaskId>, envs: nat -> Env, n: nat) {
    && n <= |order| && InRange(order, b)
    && PollBoard(b, order, envs, n) == b && forall k :: 0 <= k < n ==> Stuck(b, order[k], envs(k))
  }

  lemma IdleOneMore(b: Board, order: seq<TaskId>, envs: nat -> Env, n: nat)
    requires n < |order| && IdleSoFar(b, order, envs, n) && !SomeAwait(b) && Works(envs(n))
    requires PollCount(b, order, envs, n + 1) == 0
    ensures IdleSoFar(b, order, envs, n + 1)
  {
    var id, e := order[n], envs(n);
    assert PollCount(b, order, envs, n + 1) == PollCount(b, order, envs, n) + Progress(b, id, b[id], e);
    assert Stuck(b, id, e);
    NoProgressNoChange(b, id, e);
    assert PollBoard(b, order, envs, n + 1) == Process(b, id, b[id], e);
  }

  lemma CountGrows(b: Board, order: seq<TaskId>, envs: nat -> Env, n: nat)
    requires n < |order| && InRange(order, b)
    ensures PollCount(b, order, envs, n) <= PollCount(b, order, envs, n + 1)
  {}

  lemma {:induction false} IdlePollKeepsBoard(b: Board, order: seq<TaskId>, envs: nat -> Env, n: nat)
    requires n <= |order| && InRange(order, b) && !SomeAwait(b) && AllWork(envs, n)
    requires PollCount(b, order, envs, n) == 0
    ensures IdleSoFar(b, order, envs, n)
  {
    if n > 0 {
      var k := n - 1;
      assert AllWork(envs, k);
      CountGrows(b, order, envs, k);
      IdlePollKeepsBoard(b, order, envs, k);
      IdleOneMore(b, order, envs, k);
      assert IdleSoFar(b, order, envs, k + 1);
    }
  }

  /** The youngest active task at or above `id`. */
  lemma YoungestActive(b: Board, id: TaskId) returns (top: TaskId)
    requires id < |b| && b[id].status.IsActive()
    ensures id <= top < |b| && b[top].status.IsActive()
    ensures forall c :: top < c < |b| ==> !b[c].status.IsActive()
    decreases |b| - id
  {
    if c :| id < c < |b| && b[c].status.IsActive() {
      top := YoungestActive(b, c);
    } else {
      top := id;
    }
  }

  /** No deadlock: a poll that makes no progress although all its calls succeed finds no
      active task, or some task waits for an agent. */
  lemma NoDeadlock(b: Board, order: seq<TaskId>, envs: nat -> Env)
    requires JoinSafe(b) && IsSnapshot(order, b) && StepWorks(Poll(order, envs))
    ensures PollCount(b, order, envs, |order|) == 0 ==> order == [] || SomeAwait(b)
  {
    if PollCount(b, order, envs, |order|) == 0 && order != [] && !SomeAwait(b) {
      IdlePollKeepsBoard(b, order, envs, |order|);
      assert order[0] in order;
      var top := YoungestActive(b, order[0]);
      assert top in order;
      var k :| 0 <= k < |order| && order[k] == top;
      assert Works(envs(k));
      OnlyCoordinatorsWait(b, top, envs(k));
      assert false;
    }
  }

  /** At some poll of the run there is nothing to do, or a task waits for an agent. */
  ghost predicate Rests(b: Board, steps: seq<Step>)
    requires LegalRun(b, steps)
    decreases |steps|
  {
    steps != []
    && ((steps[0].Poll? && (steps[0].order == [] || SomeAwait(b))) || Rests(StepBoard(b, steps[0]), steps[1..]))
  }

  lemma {:induction false} RestlessRunCounts(b: Board, steps: seq<Step>)
    requires JoinSafe(b) && LegalRun(b, steps) && forall s :: s in steps ==> StepWorks(s)
    ensures !Rests(b, steps) ==> RunCount(b, steps) >= Polls(steps)
    decreases |steps|
  {
    if steps != [] {
      var s := steps[0];
      assert StepWorks(s);
      StepKeeps(b, s);
      RestlessRunCounts(StepBoard(b, s), steps[1..]);
      if s.Poll? {
        NoDeadlock(b, s.order, s.envs);
      }
    }
  }
}
