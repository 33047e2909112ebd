/** The supervisor's task table and what one poll does to it, as functions. */
module TaskBoard {
  import opened Prelude

  type TaskId = nat

  datatype Status = Pending | Planning | Executing | Coordinating | Verifying | Assigned | Completed | Failed {
    predicate IsActive() { Pending? || Planning? || Executing? || Coordinating? || Verifying? }
  }

  datatype Task = Task(content: string, status: Status, parent: Option<TaskId>, hasAgent: bool)

  /** Rows are only appended, so a task's id is its index. */
  type Board = seq<Task>

  datatype Plan = PlanError | NoPlan | Subtasks(contents: seq<string>)

  datatype Dispatch = MeshError | Accepted | Finished | Busy

  /** An agent reports the end of a task that was dispatched to it. */
  datatype Report = Report(id: TaskId, ok: bool)

  /** What the outside world does while one task of a poll is handled: agent reports that
      arrive first, the planner's and dispatcher's answers, how many subtask insertions
      succeed, and which repository calls succeed. Failing calls change nothing. */
  datatype Env = Env(reports: seq<Report>, plan: Plan, dispatch: Dispatch,
                     fetchOk: bool, creations: nat, writeOk: bool, markFailedOk: bool)

  /** A handler's result: `None` stands for an error. */
  datatype Handled = Handled(board: Board, moved: Option<bool>)

  function SetStatus(b: Board, id: TaskId, status: Status): Board {
    if id < |b| then b[id := b[id].(status := status)] else b
  }

  function Assign(b: Board, id: TaskId): Board {
    if id < |b| then b[id := b[id].(hasAgent := true)] else b
  }

  function ApplyReport(b: Board, r: Report): Board {
    if r.id < |b| && b[r.id].status.Executing? && b[r.id].hasAgent
    then SetStatus(b, r.id, if r.ok then Completed else Failed) else b
  }

  function ApplyReports(b: Board, rs: seq<Report>): Board {
    if rs == [] then b else ApplyReport(ApplyReports(b, rs[..|rs| - 1]), rs[|rs| - 1])
  }

  function NewTask(content: string, parent: Option<TaskId>): Task {
    Task(content, Pending, parent, false)
  }

  function AddSubtasks(b: Board, parent: TaskId, contents: seq<string>): Board {
    b + seq(|contents|, i requires 0 <= i < |contents| => NewTask(contents[i], Some(parent)))
  }

  predicate HasChild(b: Board, p: TaskId) {
    exists i :: 0 <= i < |b| && b[i].parent == Some(p)
  }

  predicate AnyChildFailed(b: Board, p: TaskId) {
    exists i :: 0 <= i < |b| && b[i].parent == Some(p) && b[i].status.Failed?
  }

  predicate AllChildrenCompleted(b: Board, p: TaskId) {
    forall i :: 0 <= i < |b| && b[i].parent == Some(p) ==> b[i].status.Completed?
  }

  function Write(b: Board, id: TaskId, status: Status, ok: bool): Handled {
    if ok then Handled(SetStatus(b, id, status), Some(true)) else Handled(b, None)
  }

  function HandlePlanning(b: Board, id: TaskId, e: Env): Handled {
    match e.plan
    case PlanError => Handled(b, None)
    case NoPlan => Write(b, id, Executing, e.writeOk)
    case Subtasks(contents) =>
      if contents == [] then Write(b, id, Executing, e.writeOk)
      else if e.creations < |contents| then Handled(AddSubtasks(b, id, contents[..e.creations]), None)
      else Write(AddSubtasks(b, id, contents), id, Coordinating, e.writeOk)
  }

  function HandleExecuting(b: Board, id: TaskId, t: Task, e: Env): Handled {
    if t.hasAgent then Handled(b, Some(false))
    else match e.dispatch
         case MeshError => Handled(b, None)
         case Accepted => if e.writeOk then Handled(Assign(b, id), Some(true)) else Handled(b, None)
         case Finished => Write(b, id, Completed, e.writeOk)
         case Busy => Handled(b, Some(false))
  }

  function HandleCoordinating(b: Board, id: TaskId, e: Env): Handled {
    if !e.fetchOk then Handled(b, None)
    else if !HasChild(b, id) then Write(b, id, Verifying, e.writeOk)
    else if AnyChildFailed(b, id) then Write(b, id, Failed, e.writeOk)
    else if AllChildrenCompleted(b, id) then Write(b, id, Verifying, e.writeOk)
    else Handled(b, Some(false))
  }

  /** Dispatch on the status the task had when the poll began. */
  function Handle(b: Board, id: TaskId, t: Task, e: Env): Handled {
    match t.status
    case Pending => Write(b, id, Planning, e.writeOk)
    case Planning => HandlePlanning(b, id, e)
    case Executing => HandleExecuting(b, id, t, e)
    case Coordinating => HandleCoordinating(b, id, e)
    case Verifying => Write(b, id, Completed, e.writeOk)
    case _ => Handled(b, Some(false))
  }

  /** A handler that errs is followed by an attempt to mark its task failed. */
  function Process(b: Board, id: TaskId, t: Task, e: Env): Board {
    var h := Handle(ApplyReports(b, e.reports), id, t, e);
    if h.moved.None? && e.markFailedOk then SetStatus(h.board, id, Failed) else h.board
  }

  function Progress(b: Board, id: TaskId, t: Task, e: Env): nat {
    if Handle(ApplyReports(b, e.reports), id, t, e).moved == Some(true) then 1 else 0
  }

  predicate InRange(order: seq<TaskId>, b: Board) {
    forall k :: 0 <= k < |order| ==> order[k] < |b|
  }

  /** `order` lists the active tasks, each once. */
  ghost predicate IsSnapshot(order: seq<TaskId>, b: Board) {
    NoDup(order) && InRange(order, b) && forall id: TaskId :: id in order <==> id < |b| && b[id].status.IsActive()
  }

  /** The board after the first `n` tasks of a poll that began at `b0`. */
  function PollBoard(b0: Board, order: seq<TaskId>, envs: nat -> Env, n: nat): Board
    requires n <= |order| && InRange(order, b0)
  {
    if n == 0 then b0
    else Process(PollBoard(b0, order, envs, n - 1), order[n - 1], b0[order[n - 1]], envs(n - 1))
  }

  function PollCount(b0: Board, order: seq<TaskId>, envs: nat -> Env, n: nat): nat
    requires n <= |order| && InRange(order, b0)
  {
    if n == 0 then 0
    else PollCount(b0, order, envs, n - 1)
         + Progress(PollBoard(b0, order, envs, n - 1), order[n - 1], b0[order[n - 1]], envs(n - 1))
  }

  /** One step of a run: a poll by the only poller, a new root task, an agent's report. */
  datatype Step = Poll(order: seq<TaskId>, envs: nat -> Env) | Submit(content: string) | AgentReport(report: Report)

  function StepBoard(b: Board, s: Step): Board
    requires s.Poll? ==> InRange(s.order, b)
  {
    match s
    case Poll(order, envs) => PollBoard(b, order, envs, |order|)
    case Submit(content) => b + [NewTask(content, None)]
    case AgentReport(r) => ApplyReport(b, r)
  }

  function StepCount(b: Board, s: Step): nat
    requires s.Poll? ==> InRange(s.order, b)
  {
    if s.Poll? then PollCount(b, s.order, s.envs, |s.order|) else 0
  }

  ghost predicate LegalStep(b: Board, s: Step) {
    s.Poll? ==> IsSnapshot(s.order, b)
  }

  ghost predicate LegalRun(b: Board, steps: seq<Step>)
    decreases |steps|
  {
    steps == [] || (LegalStep(b, steps[0]) && LegalRun(StepBoard(b, steps[0]), steps[1..]))
  }

  ghost function RunBoard(b: Board, steps: seq<Step>): Board
    requires LegalRun(b, steps)
    decreases |steps|
  {
    if steps == [] then b else RunBoard(StepBoard(b, steps[0]), steps[1..])
  }

  /** The sum of the results of all polls of a run. */
  ghost function RunCount(b: Board, steps: seq<Step>): nat
    requires LegalRun(b, steps)
    decreases |steps|
  {
    if steps == [] then 0 else StepCount(b, steps[0]) + RunCount(StepBoard(b, steps[0]), steps[1..])
  }
}
