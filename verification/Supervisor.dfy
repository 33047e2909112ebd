/** The poll loop and its status handlers, writing the task table in place. */
module SupervisorLoop {
  import opened Prelude
  import opened TaskBoard

  class Supervisor {
    var tasks: Board

    constructor (initial: Board)
      ensures tasks == initial
    {
      tasks := initial;
    }

    // ---- Repository ----

    method UpdateStatus(id: TaskId, status: Status, ok: bool) returns (done: bool)
      modifies this
      ensures done == ok && tasks == if ok then SetStatus(old(tasks), id, status) else old(tasks)
    {
      if ok && id < |tasks| {
        tasks := tasks[id := tasks[id].(status := status)];
      }
      return ok;
    }

    method AssignAgent(id: TaskId, ok: bool) returns (done: bool)
      modifies this
      ensures done == ok && tasks == if ok then Assign(old(tasks), id) else old(tasks)
    {
      if ok && id < |tasks| {
        tasks := tasks[id := tasks[id].(hasAgent := true)];
      }
      return ok;
    }

    method CreateTask(content: string, parent: Option<TaskId>, ok: bool) returns (done: bool)
      modifies this
      ensures done == ok && tasks == if ok then old(tasks) + [NewTask(content, parent)] else old(tasks)
    {
      if ok {
        tasks := tasks + [NewTask(content, parent)];
      }
      return ok;
    }

    method FetchSubtasks(parent: TaskId) returns (subtasks: seq<Task>)
      ensures forall t :: t in subtasks <==> t in tasks && t.parent == Some(parent)
    {
      subtasks := [];
      for i := 0 to |tasks|
        invariant forall t :: t in subtasks <==> t in tasks[..i] && t.parent == Some(parent)
      {
        if tasks[i].parent == Some(parent) {
          subtasks := subtasks + [tasks[i]];
        }
        assert tasks[..i + 1] == tasks[..i] + [tasks[i]];
      }
      assert tasks[..|tasks|] == tasks;
    }

    // ---- Handlers ----

    method WriteStatus(id: TaskId, status: Status, ok: bool) returns (moved: Option<bool>)
      modifies this
      ensures Handled(tasks, moved) == Write(old(tasks), id, status, ok)
    {
      var done := UpdateStatus(id, status, ok);
      return if done then Some(true) else None;
    }

    method PlanTask(id: TaskId, e: Env) returns (moved: Option<bool>)
      modifies this
      ensures Handled(tasks, moved) == HandlePlanning(old(tasks), id, e)
      ensures e.plan.PlanError? ==> moved == None && tasks == old(tasks)
      ensures !e.plan.PlanError? && (e.plan.Subtasks? ==> e.plan.contents == []) && id < |old(tasks)| ==>
                if e.writeOk then moved == Some(true) && tasks == old(tasks)[id := old(tasks[id]).(status := Executing)]
                else moved == None && tasks == old(tasks)
      ensures e.plan.Subtasks? && e.plan.contents != [] && id < |old(tasks)| ==>
                var n, all := |old(tasks)|, e.creations >= |e.plan.contents|;
                && |tasks| == n + (if all then |e.plan.contents| else e.creations)
                && (forall i :: n <= i < |tasks| ==> tasks[i] == Task(e.plan.contents[i - n], Pending, Some(id), false))
                && (forall i :: 0 <= i < n && i != id ==> tasks[i] == old(tasks[i]))
                && tasks[id] == (if all && e.writeOk then old(tasks[id]).(status := Coordinating) else old(tasks[id]))
                && moved == if all && e.writeOk then Some(true) else None
    {
      if e.plan.PlanError? {
        return None;
      }
      if e.plan.Subtasks? && e.plan.contents != [] {
        var contents := e.plan.contents;
        var i := 0;
        while i < |contents|
          invariant 0 <= i <= |contents| && i <= e.creations
          invariant tasks == AddSubtasks(old(tasks), id, contents[..i])
        {
          var done := CreateTask(contents[i], Some(id), i < e.creations);
          if !done {
            return None;
          }
          i := i + 1;
        }
        assert contents[..i] == contents;
        moved := WriteStatus(id, Coordinating, e.writeOk);
      } else {
        moved := WriteStatus(id, Executing, e.writeOk);
      }
    }

    method ExecuteTask(id: TaskId, t: Task, e: Env) returns (moved: Option<bool>)
      modifies this
      ensures Handled(tasks, moved) == HandleExecuting(old(tasks), id, t, e)
      ensures t.hasAgent || e.dispatch.Busy? ==> moved == Some(false) && tasks == old(tasks)
      ensures !t.hasAgent && (e.dispatch.MeshError? || (!e.dispatch.Busy? && !e.writeOk)) ==>
                moved == None && tasks == old(tasks)
      ensures !t.hasAgent && e.dispatch.Accepted? && e.writeOk && id < |old(tasks)| ==>
                moved == Some(true) && tasks == old(tasks)[id := old(tasks[id]).(hasAgent := true)]
      ensures !t.hasAgent && e.dispatch.Finished? && e.writeOk && id < |old(tasks)| ==>
                moved == Some(true) && tasks == old(tasks)[id := old(tasks[id]).(status := Completed)]
    {
      if t.hasAgent {
        return Some(false);
      }
      match e.dispatch {
        case MeshError => return None;
        case Accepted =>
          var done := AssignAgent(id, e.writeOk);
          return if done then Some(true) else None;
        case Finished => moved := WriteStatus(id, Completed, e.writeOk);
        case Busy => return Some(false);
      }
    }

    method CoordinateTask(id: TaskId, e: Env) returns (moved: Option<bool>)
      modifies this
      ensures Handled(tasks, moved) == HandleCoordinating(old(tasks), id, e)
      ensures moved != Some(true) ==> tasks == old(tasks)
      ensures moved == Some(true) && id < |old(tasks)| ==>
                var failed := exists t :: t in old(tasks) && t.parent == Some(id) && t.status.Failed?;
                tasks == old(tasks)[id := old(tasks[id]).(status := if failed then Failed else Verifying)]
      ensures moved == Some(true)
         <==> e.fetchOk && e.writeOk
              && ((exists t :: t in old(tasks) && t.parent == Some(id) && t.status.Failed?)
                  || forall t :: t in old(tasks) && t.parent == Some(id) ==> t.status.Completed?)
    {
      if !e.fetchOk {
        return None;
      }
      var subtasks := FetchSubtasks(id);
      assert HasChild(tasks, id) <==> subtasks != [] by {
        assert HasChild(tasks, id) ==> exists t :: t in subtasks;
        assert subtasks != [] ==> subtasks[0] in subtasks;
      }
      if |subtasks| == 0 {
        moved := WriteStatus(id, Verifying, e.writeOk);
        return;
      }
      if exists t :: t in subtasks && t.status.Failed? {
        moved := WriteStatus(id, Failed, e.writeOk);
        return;
      }
      if forall t :: t in subtasks ==> t.status.Completed? {
        moved := WriteStatus(id, Verifying, e.writeOk);
        return;
      }
      return Some(false);
    }

    method HandleTask(id: TaskId, t: Task, e: Env) returns (moved: Option<bool>)
      modifies this
      ensures Handled(tasks, moved) == Handle(old(tasks), id, t, e)
      ensures (t.status.Pending? || t.status.Verifying?) && id < |old(tasks)| ==>
                if e.writeOk
                then moved == Some(true)
                     && tasks == old(tasks)[id := old(tasks[id]).(status :=
                          if t.status.Pending? then Planning else Completed)]
                else moved == None && tasks == old(tasks)
      ensures !t.status.IsActive() ==> moved == Some(false) && tasks == old(tasks)
    {
      match t.status {
        case Pending => moved := WriteStatus(id, Planning, e.writeOk);
        case Planning => moved := PlanTask(id, e);
        case Executing => moved := ExecuteTask(id, t, e);
        case Coordinating => moved := CoordinateTask(id, e);
        case Verifying => moved := WriteStatus(id, Completed, e.writeOk);
        case _ => return Some(false);
      }
    }

    // ---- Poll ----

    /** Agents write their reports to the same table. */
    method ReceiveReports(reports: seq<Report>)
      modifies this
      ensures tasks == ApplyReports(old(tasks), reports)
    {
      for i := 0 to |reports|
        invariant tasks == ApplyReports(old(tasks), reports[..i])
      {
        assert reports[..i + 1][..i] == reports[..i];
        tasks := ApplyReport(tasks, reports[i]);
      }
      assert reports[..|reports|] == reports;
    }

    /** One poll over the tasks that were active when it began; `None` if they could not
        be fetched. */
    method PollTasks(order: seq<TaskId>, envs: nat -> Env, fetched: bool) returns (processed: Option<nat>)
      requires IsSnapshot(order, tasks)
      modifies this
      ensures !fetched ==> processed == None && tasks == old(tasks)
      ensures fetched ==> tasks == StepBoard(old(tasks), Poll(order, envs))
                          && processed == Some(StepCount(old(tasks), Poll(order, envs)))
    {
      if !fetched {
        return None;
      }
      var snapshot := tasks;
      var active := seq(|order|, i requires 0 <= i < |order| && InRange(order, snapshot) => snapshot[order[i]]);
      var count := 0;
      for i := 0 to |order|
        invariant tasks == PollBoard(old(tasks), order, envs, i)
        invariant count == PollCount(old(tasks), order, envs, i)
      {
        var e := envs(i);
        ReceiveReports(e.reports);
        var moved := HandleTask(order[i], active[i], e);
        match moved {
          case Some(true) => count := count + 1;
          case Some(false) =>
          case None => var marked := UpdateStatus(order[i], Failed, e.markFailedOk);
        }
      }
      return Some(count);
    }
  }
}
