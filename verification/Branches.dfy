/** The branch manager's state and operations, as functions. */
module Branches {
  import opened Prelude

  type BranchId = nat
  type SessionId = nat
  type MergeId = nat

  datatype BranchStatus = Pending | Active | Completed | Failed | Merging | Merged {
    /** Listed by the repository as active. */
    predicate IsLive() { Pending? || Active? || Merging? }
  }

  datatype Branch = Branch(parent: Option<BranchId>, session: SessionId, status: BranchStatus)

  datatype RequestStatus = Waiting | Approved | InProgress | HasConflicts | ReadyToCommit | Committed | Rejected

  datatype MergeRequest = MergeRequest(branch: BranchId, strategy: string, status: RequestStatus,
                                       approvedBy: Option<string>, staging: Option<SessionId>, conflicts: nat)

  datatype BranchError =
    | Repository | Session | Merge | Validation
    | BranchNotFound | MergeRequestNotFound | MergeNotApproved | InvalidStrategy | InvalidBranchState
    | MaxBranchesExceeded
    | InvalidStatusTransition(from: BranchStatus, to: BranchStatus)

  /** A merge that was carried out: whose approval it rests on, and its conflicts. */
  datatype Execution = Execution(request: MergeId, branch: BranchId, staging: SessionId, approver: string,
                                 conflicts: nat)

  /** An execution that waits for the file scan or the strategy, with the request as read. */
  datatype Running = Running(request: MergeId, row: MergeRequest)

  /** Repository and session manager. `running` holds, by staging session, the executions
      that are suspended. `born` numbers the branches in order of creation, `used` are the
      session ids ever given out, `executions` and `commits` record the merges carried out
      and the sessions committed. */
  datatype Manager = Manager(branches: map<BranchId, Branch>, requests: map<MergeId, MergeRequest>,
                             sessions: set<SessionId>, running: map<SessionId, Running>,
                             strategies: set<string>, maxBranches: nat,
                             born: map<BranchId, nat>, used: set<SessionId>,
                             executions: seq<Execution>, commits: seq<SessionId>)

  datatype Done<T> = Done(m: Manager, r: Result<T, BranchError>)

  function Start(strategies: set<string>, maxBranches: nat): Manager {
    Manager(map[], map[], {}, map[], strategies, maxBranches, map[], {}, [], [])
  }

  function LiveBranches(m: Manager): set<BranchId> {
    set b | b in m.branches && m.branches[b].status.IsLive()
  }

  // ---- Status changes ----

  predicate ValidTransition(from: BranchStatus, to: BranchStatus) {
    match from
    case Pending => to.Active? || to.Failed?
    case Active => to.Completed? || to.Merging? || to.Failed?
    case Completed => to.Merging?
    case Merging => to.Merged? || to.Failed?
    case _ => false
  }

  function WithStatus(m: Manager, b: BranchId, status: BranchStatus): Manager {
    if b in m.branches then m.(branches := m.branches[b := m.branches[b].(status := status)]) else m
  }

  /** `readOk` and `writeOk`: whether the repository answers the two calls. */
  function UpdateStatus(m: Manager, b: BranchId, status: BranchStatus, readOk: bool, writeOk: bool): Done<()> {
    if !readOk then Done(m, Err(Repository))
    else if b !in m.branches then Done(m, Err(BranchNotFound))
    else
      var from := m.branches[b].status;
      if !ValidTransition(from, status) then Done(m, Err(InvalidStatusTransition(from, status)))
      else if !writeOk then Done(m, Err(Repository))
      else Done(WithStatus(m, b, status), Ok(()))
  }

  // ---- Life cycle ----

  datatype Source = Base | FromBranch(id: BranchId) | Snapshot

  datatype CreateCalls = CreateCalls(listOk: bool, readOk: bool, beginOk: bool, recordOk: bool, writeOk: bool)

  function Begun(m: Manager, sid: SessionId): Manager {
    m.(sessions := m.sessions + {sid}, used := m.used + {sid})
  }

  /** The session path a new branch starts from, or why there is none. */
  function SourceError(m: Manager, source: Source, readOk: bool): Option<BranchError> {
    match source
    case Base => None
    case FromBranch(p) =>
      if !readOk then Some(Repository)
      else if p !in m.branches then Some(BranchNotFound)
      else if m.branches[p].session !in m.sessions then Some(Session)
      else None
    case Snapshot => Some(Validation)
  }

  function NewBranch(source: Source, sid: SessionId): Branch {
    Branch(if source.FromBranch? then Some(source.id) else None, sid, Pending)
  }

  /** `id` and `sid` are the fresh ids that the generator yields. */
  function CreateBranch(m: Manager, source: Source, id: BranchId, sid: SessionId, c: CreateCalls): Done<BranchId> {
    if !c.listOk then Done(m, Err(Repository))
    else if |LiveBranches(m)| >= m.maxBranches then Done(m, Err(MaxBranchesExceeded))
    else
      var e := SourceError(m, source, c.readOk);
      if e.Some? then Done(m, Err(e.value))
      else if !c.beginOk then Done(m, Err(Session))
      else
        var m1 := Begun(m, sid);
        if !c.recordOk then Done(m1, Err(Validation))
        else if !c.writeOk then Done(m1, Err(Repository))
        else
          Done(m1.(branches := m1.branches[id := NewBranch(source, sid)], born := m1.born[id := |m1.branches|]),
               Ok(id))
  }

  /** How the session manager answers a rollback: done; done, but the directory could not
      be removed, which is an error; or refused with the session kept. */
  datatype RollbackAnswer = Discarded | DiscardedUnclean | Kept

  function RolledBack(m: Manager, sid: SessionId, answer: RollbackAnswer): Manager {
    if answer.Kept? then m else m.(sessions := m.sessions - {sid})
  }

  datatype AbortCalls = AbortCalls(readOk: bool, rollback: RollbackAnswer, statusReadOk: bool, writeOk: bool)

  /** The session is rolled back before the status change is validated. */
  function AbortBranch(m: Manager, b: BranchId, c: AbortCalls): Done<()> {
    if !c.readOk then Done(m, Err(Repository))
    else if b !in m.branches then Done(m, Err(BranchNotFound))
    else
      var sid := m.branches[b].session;
      if sid !in m.sessions then Done(m, Err(Session))
      else if !c.rollback.Discarded? then Done(RolledBack(m, sid, c.rollback), Err(Session))
      else UpdateStatus(m.(sessions := m.sessions - {sid}), b, Failed, c.statusReadOk, c.writeOk)
  }

  datatype RecoverCalls = RecoverCalls(statusReadOk: bool, writeOk: bool)

  /** One branch of the list of live branches; `br` is the row as listed. */
  function RecoverOne(m: Manager, b: BranchId, br: Branch, c: RecoverCalls): (Manager, bool) {
    if br.session !in m.sessions then (UpdateStatus(m, b, Failed, c.statusReadOk, c.writeOk).m, false)
    else if br.status.Active? then
      if !c.writeOk || b !in m.branches then (m, false) else (WithStatus(m, b, Pending), true)
    else (m, true)
  }

  predicate Lists(order: seq<BranchId>, m: Manager) {
    && (forall i, j :: 0 <= i < j < |order| ==> order[i] != order[j])
    && (forall k :: 0 <= k < |order| ==> order[k] in m.branches && m.branches[order[k]].status.IsLive())
  }

  function RecoverPrefix(m: Manager, order: seq<BranchId>, c: nat -> RecoverCalls, n: nat): (Manager, seq<BranchId>)
    requires Lists(order, m) && n <= |order|
  {
    if n == 0 then (m, [])
    else
      var (m1, done) := RecoverPrefix(m, order, c, n - 1);
      var (m2, ok) := RecoverOne(m1, order[n - 1], m.branches[order[n - 1]], c(n - 1));
      (m2, if ok then done + [order[n - 1]] else done)
  }

  // ---- Merge requests ----

  datatype RequestCalls = RequestCalls(readOk: bool, createOk: bool, approveOk: bool)

  /** The repository's own errors. */
  datatype RepositoryError = SqlError | BranchRowMissing | RequestRowMissing

  /** The repository approves a request only while it is waiting. */
  function ApproveRow(m: Manager, mid: MergeId, approver: string, ok: bool): (Manager, Option<RepositoryError>) {
    if !ok then (m, Some(SqlError))
    else if mid !in m.requests || !m.requests[mid].status.Waiting? then (m, Some(RequestRowMissing))
    else
      var row := m.requests[mid].(status := Approved, approvedBy := Some(approver));
      (m.(requests := m.requests[mid := row]), None)
  }

  /** How a repository error is passed on, by default and by `approve_merge`. */
  function PassedOn(e: RepositoryError): BranchError { Repository }

  function ApproveError(e: RepositoryError): BranchError {
    if e.BranchRowMissing? then MergeRequestNotFound else PassedOn(e)
  }

  function ApproveInRepository(m: Manager, mid: MergeId, approver: string, ok: bool): Done<()> {
    var a := ApproveRow(m, mid, approver, ok);
    Done(a.0, if a.1.Some? then Err(ApproveError(a.1.value)) else Ok(()))
  }

  function RequestMerge(m: Manager, b: BranchId, strategy: string, requiresApproval: bool, mid: MergeId,
                        c: RequestCalls): Done<MergeId> {
    if !c.readOk then Done(m, Err(Repository))
    else if b !in m.branches then Done(m, Err(BranchNotFound))
    else if !m.branches[b].status.Completed? then Done(m, Err(InvalidBranchState))
    else if strategy !in m.strategies then Done(m, Err(InvalidStrategy))
    else if !c.createOk then Done(m, Err(Repository))
    else
      var m1 := m.(requests := m.requests[mid := MergeRequest(b, strategy, Waiting, None, None, 0)]);
      if requiresApproval then Done(m1, Ok(mid))
      else
        var a := ApproveRow(m1, mid, "auto", c.approveOk);
        Done(a.0, if a.1.Some? then Err(PassedOn(a.1.value)) else Ok(mid))
  }

  /** Which calls succeed up to the first suspension of an execution. */
  datatype BeginCalls = BeginCalls(requestOk: bool, branchOk: bool, parseOk: bool, parentOk: bool, beginOk: bool,
                                   rollback: RollbackAnswer)

  /** Which calls succeed after it, and how many conflicts the strategy finds. */
  datatype FinishCalls = FinishCalls(collectOk: bool, mergeOk: bool, stageOk: bool, saveOk: bool,
                                     statusReadOk: bool, statusWriteOk: bool, rollback: RollbackAnswer, conflicts: nat)

  /** The checks before the staging session begins. */
  function ExecuteRefusal(m: Manager, mid: MergeId, c: BeginCalls): Option<BranchError> {
    if !c.requestOk then Some(Repository)
    else if mid !in m.requests then Some(MergeRequestNotFound)
    else if !m.requests[mid].status.Approved? then Some(MergeNotApproved)
    else if !c.branchOk then Some(Repository)
    else
      var b := m.requests[mid].branch;
      if b !in m.branches then Some(BranchNotFound)
      else if !m.branches[b].status.Completed? then Some(InvalidBranchState)
      else if !c.parseOk then Some(Validation)
      else match m.branches[b].parent
           case None => Some(Validation)
           case Some(p) =>
             if !c.parentOk then Some(Repository)
             else if p !in m.branches then Some(BranchNotFound)
             else if m.branches[p].session !in m.sessions then Some(Session)
             else if !c.beginOk then Some(Session)
             else None
  }

  /** What has been established when an execution is not refused. */
  predicate MayExecute(m: Manager, mid: MergeId) {
    && mid in m.requests && m.requests[mid].status.Approved?
    && var b := m.requests[mid].branch;
       && b in m.branches && m.branches[b].status.Completed? && m.branches[b].parent.Some?
       && var p := m.branches[b].parent.value;
          p in m.branches && m.branches[p].session in m.sessions
  }

  function Executed(req: MergeRequest, sid: SessionId, conflicts: nat): MergeRequest {
    req.(staging := Some(sid), conflicts := conflicts, status := if conflicts > 0 then HasConflicts else ReadyToCommit)
  }

  /** The part of an execution before it suspends: checks, staging session, and the look-up
      of the branch's session. */
  function BeginExecute(m: Manager, mid: MergeId, sid: SessionId, c: BeginCalls): Done<()> {
    var refusal := ExecuteRefusal(m, mid, c);
    if refusal.Some? then Done(m, Err(refusal.value))
    else
      var req, m1 := m.requests[mid], Begun(m, sid);
      if m1.branches[req.branch].session !in m1.sessions then Done(RolledBack(m1, sid, c.rollback), Err(Session))
      else Done(m1.(running := m1.running[sid := Running(mid, req)]), Ok(()))
  }

  /** Why the changes cannot be collected, merged, staged or saved. */
  function FinishFailure(m: Manager, sid: SessionId, c: FinishCalls): Option<BranchError>
    requires sid in m.running
  {
    if !c.collectOk then Some(Session)
    else if m.running[sid].row.strategy !in m.strategies then Some(InvalidStrategy)
    else if !c.mergeOk then Some(Merge)
    else if c.conflicts == 0 && !c.stageOk then Some(Session)
    else if !c.saveOk || m.running[sid].request !in m.requests then Some(Repository)
    else None
  }

  function ExecutionOf(r: Running, sid: SessionId, conflicts: nat): Execution {
    Execution(r.request, r.row.branch, sid, if r.row.approvedBy.Some? then r.row.approvedBy.value else "", conflicts)
  }

  /** The part after it: the request is saved from the copy read before the suspension, and
      only then the branch's status is read again. */
  function FinishExecute(m: Manager, sid: SessionId, c: FinishCalls): Done<nat>
    requires sid in m.running
  {
    var r, m1 := m.running[sid], m.(running := m.running - {sid});
    var failure := FinishFailure(m, sid, c);
    if failure.Some? then Done(RolledBack(m1, sid, c.rollback), Err(failure.value))
    else
      var m2 := m1.(requests := m1.requests[r.request := Executed(r.row, sid, c.conflicts)]);
      var u := UpdateStatus(m2, r.row.branch, Merging, c.statusReadOk, c.statusWriteOk);
      if u.r.Err? then Done(RolledBack(u.m, sid, c.rollback), Err(u.r.error))
      else Done(u.m.(executions := u.m.executions + [ExecutionOf(r, sid, c.conflicts)]), Ok(c.conflicts))
  }

  /** How the session manager answers a commit: done; done, but the directory could not be
      removed; refused with the session kept; or the session directory was lost. */
  datatype CommitAnswer = Accepted | AcceptedUnclean | Refused | Lost

  datatype CommitCalls = CommitCalls(requestOk: bool, answer: CommitAnswer, statusReadOk: bool, statusWriteOk: bool,
                                     saveOk: bool)

  function CommitSession(m: Manager, sid: SessionId, answer: CommitAnswer): Done<()> {
    if sid !in m.sessions then Done(m, Err(Session))
    else
      var gone := m.(sessions := m.sessions - {sid});
      match answer
      case Accepted => Done(gone.(commits := m.commits + [sid]), Ok(()))
      case AcceptedUnclean => Done(gone.(commits := m.commits + [sid]), Err(Session))
      case Refused => Done(m, Err(Session))
      case Lost => Done(gone, Err(Session))
  }

  function CommitMerge(m: Manager, mid: MergeId, c: CommitCalls): Done<()> {
    if !c.requestOk then Done(m, Err(Repository))
    else if mid !in m.requests then Done(m, Err(MergeRequestNotFound))
    else
      var req := m.requests[mid];
      if !req.status.ReadyToCommit? then Done(m, Err(InvalidBranchState))
      else if req.staging.None? then Done(m, Err(Session))
      else
        var s := CommitSession(m, req.staging.value, c.answer);
        if s.r.Err? then s
        else
          var u := UpdateStatus(s.m, req.branch, Merged, c.statusReadOk, c.statusWriteOk);
          if u.r.Err? then u
          else if !c.saveOk then Done(u.m, Err(Repository))
          else Done(u.m.(requests := u.m.requests[mid := req.(status := Committed)]), Ok(()))
  }

  // ---- Runs ----

  datatype Op =
    | Create(source: Source, id: BranchId, sid: SessionId, create: CreateCalls)
    | MarkExecuting(b: BranchId, readOk: bool, writeOk: bool)
    | Complete(b: BranchId, readOk: bool, writeOk: bool)
    | Abort(b: BranchId, abort: AbortCalls)
    | Recover(order: seq<BranchId>, recover: nat -> RecoverCalls)
    | Request(b: BranchId, strategy: string, requiresApproval: bool, mid: MergeId, request: RequestCalls)
    | Approve(mid: MergeId, approver: string, ok: bool)
    | Begin(mid: MergeId, sid: SessionId, begin: BeginCalls)
    | Finish(sid: SessionId, finish: FinishCalls)
    | Commit(mid: MergeId, commit: CommitCalls)
    | SessionLost(sid: SessionId)

  /** Generated ids are fresh, recovery reads the list of live branches, and an execution
      finishes after it began; any other operations may come in between. */
  predicate Legal(m: Manager, op: Op) {
    match op
    case Create(_, id, sid, _) => id !in m.branches && sid !in m.used
    case Recover(order, _) => Lists(order, m)
    case Request(_, _, _, mid, _) => mid !in m.requests
    case Begin(_, sid, _) => sid !in m.used
    case Finish(sid, _) => sid in m.running
    case _ => true
  }

  function Step(m: Manager, op: Op): Manager
    requires Legal(m, op)
  {
    match op
    case Create(source, id, sid, c) => CreateBranch(m, source, id, sid, c).m
    case MarkExecuting(b, readOk, writeOk) => UpdateStatus(m, b, Active, readOk, writeOk).m
    case Complete(b, readOk, writeOk) => UpdateStatus(m, b, Completed, readOk, writeOk).m
    case Abort(b, c) => AbortBranch(m, b, c).m
    case Recover(order, c) => RecoverPrefix(m, order, c, |order|).0
    case Request(b, strategy, requiresApproval, mid, c) => RequestMerge(m, b, strategy, requiresApproval, mid, c).m
    case Approve(mid, approver, ok) => ApproveInRepository(m, mid, approver, ok).m
    case Begin(mid, sid, c) => BeginExecute(m, mid, sid, c).m
    case Finish(sid, c) => FinishExecute(m, sid, c).m
    case Commit(mid, c) => CommitMerge(m, mid, c).m
    case SessionLost(sid) => m.(sessions := m.sessions - {sid})
  }

  /** The only assumption on the outside: a rolled-back staging session leaves the session
      table. Repository calls may fail at any point. */
  predicate RollsBack(op: Op) {
    (op.Begin? ==> !op.begin.rollback.Kept?) && (op.Finish? ==> !op.finish.rollback.Kept?)
  }

  ghost predicate LegalRun(m: Manager, ops: seq<Op>)
    decreases |ops|
  {
    ops == [] || (Legal(m, ops[0]) && LegalRun(Step(m, ops[0]), ops[1..]))
  }

  ghost function Run(m: Manager, ops: seq<Op>): Manager
    requires LegalRun(m, ops)
    decreases |ops|
  {
    if ops == [] then m else Run(Step(m, ops[0]), ops[1..])
  }

  /** A run extended by one operation at its end. */
  lemma {:induction false} RunSnoc(m: Manager, ops: seq<Op>, op: Op)
    requires LegalRun(m, ops) && Legal(Run(m, ops), op)
    ensures LegalRun(m, ops + [op]) && Run(m, ops + [op]) == Step(Run(m, ops), op)
    decreases |ops|
  {
    if ops == [] {
      assert [op][1..] == [];
    } else {
      RunSnoc(Step(m, ops[0]), ops[1..], op);
      assert (ops + [op])[1..] == ops[1..] + [op];
    }
  }
}
