/** Merge requests in the SQL repository: the row that is written and what is read back. */
module MergeRows {
  import opened Prelude
  import opened Branches

  /** The columns of a merge request; lists of changes and conflicts are not stored. */
  datatype StoredRequest = StoredRequest(status: RequestStatus, approvedBy: Option<string>, approvedAt: Option<int>,
                                         staging: Option<string>, startedAt: Option<int>, completedAt: Option<int>)

  /** Absent text is written as the word NULL. */
  datatype Row = Row(status: string, approvedBy: string, approvedAt: Option<int>,
                     staging: string, startedAt: Option<int>, completedAt: Option<int>)

  /** The lower-cased name of the variant. */
  function WrittenStatus(s: RequestStatus): string {
    match s
    case Waiting => "pending"
    case Approved => "approved"
    case InProgress => "inprogress"
    case HasConflicts => "hasconflicts"
    case ReadyToCommit => "readytocommit"
    case Committed => "committed"
    case Rejected => "rejected"
  }

  function ParsedStatus(s: string): Option<RequestStatus> {
    if s == "pending" then Some(Waiting)
    else if s == "approved" then Some(Approved)
    else if s == "in_progress" then Some(InProgress)
    else if s == "has_conflicts" then Some(HasConflicts)
    else if s == "ready_to_commit" then Some(ReadyToCommit)
    else if s == "committed" then Some(Committed)
    else if s == "rejected" then Some(Rejected)
    else None
  }

  function WrittenText(t: Option<string>): string {
    if t.Some? then t.value else "NULL"
  }

  function ReadText(s: string): Option<string> {
    if s == "NULL" || s == "" then None else Some(s)
  }

  function Save(r: StoredRequest): Row {
    Row(WrittenStatus(r.status), WrittenText(r.approvedBy), r.approvedAt,
        WrittenText(r.staging), r.startedAt, r.completedAt)
  }

  function OrZero(t: Option<int>): int { if t.Some? then t.value else 0 }

  /** The status column is checked but not used: the status is rebuilt by replaying
      approval, start and commit. */
  function Load(row: Row): Result<StoredRequest, BranchError> {
    if ParsedStatus(row.status).None? then Err(Repository)
    else
      var r0 := StoredRequest(Waiting, None, None, None, None, None);
      var approver := ReadText(row.approvedBy);
      var r1 := if approver.None? then r0
                else r0.(status := Approved, approvedBy := approver, approvedAt := Some(OrZero(row.approvedAt)));
      var session := ReadText(row.staging);
      var r2 := if session.None? then r1
                else r1.(status := InProgress, staging := session, startedAt := Some(OrZero(row.startedAt)));
      Ok(if row.completedAt.Some? then r2.(status := Committed, completedAt := row.completedAt) else r2)
  }

  /** A status of one word is read as what was written, a longer one is not read at all. */
  lemma StatusIsRead(s: RequestStatus)
    ensures ParsedStatus(WrittenStatus(s))
         == if s in {Waiting, Approved, Committed, Rejected} then Some(s) else None
  {}

  /** Texts survive, and each text comes with its time. */
  predicate WellBuilt(r: StoredRequest) {
    && r.approvedBy != Some("NULL") && r.approvedBy != Some("")
    && r.staging != Some("NULL") && r.staging != Some("")
    && (r.approvedBy.Some? <==> r.approvedAt.Some?)
    && (r.staging.Some? <==> r.startedAt.Some?)
  }

  /** The last of approval, start and commit that the fields record. */
  function RecordedStage(r: StoredRequest): RequestStatus {
    if r.completedAt.Some? then Committed
    else if r.staging.Some? then InProgress
    else if r.approvedBy.Some? then Approved
    else Waiting
  }

  /** What is read of any row: a text other than the empty one and NULL, with the time of its
      own column or else time zero; and the status that these fields record. */
  lemma LoadReads(row: Row)
    requires Load(row).Ok?
    ensures var r := Load(row).value;
            && (r.approvedBy == if row.approvedBy in {"", "NULL"} then None else Some(row.approvedBy))
            && (r.staging == if row.staging in {"", "NULL"} then None else Some(row.staging))
            && (r.approvedBy.Some? ==> r.approvedAt == Some(if row.approvedAt.Some? then row.approvedAt.value else 0))
            && (r.staging.Some? ==> r.startedAt == Some(if row.startedAt.Some? then row.startedAt.value else 0))
            && (r.approvedBy.None? ==> r.approvedAt.None?) && (r.staging.None? ==> r.startedAt.None?)
            && r.completedAt == row.completedAt && r.status == RecordedStage(r)
  {}

  /** Reading back what was written returns the request exactly when its texts survive, its
      status is the one its fields record, and no merge is under way. */
  lemma RoundTrip(r: StoredRequest)
    ensures Load(Save(r)) == Ok(r) <==> WellBuilt(r) && r.status == RecordedStage(r) && !r.status.InProgress?
    ensures Load(Save(r)).Err? <==> r.status.InProgress? || r.status.HasConflicts? || r.status.ReadyToCommit?
  {}

  /** Any text may approve, but an approval by the empty text or by the word NULL is read
      back as no approval. */
  lemma ApproverIsRead(approver: string, at: int)
    ensures var r := StoredRequest(Approved, Some(approver), Some(at), None, None, None);
            && Load(Save(r)).Ok?
            && (Load(Save(r)).value.status.Approved? <==> approver != "" && approver != "NULL")
            && (approver == "" || approver == "NULL" ==> Load(Save(r)).value.status.Waiting?)
  {}

  /** No row whatever is read as a request that is ready to commit, so the commit's check
      never passes on this repository; an executed merge cannot even be read back. */
  lemma NeverReadyToCommit(row: Row, executed: StoredRequest)
    requires executed.status.ReadyToCommit? || executed.status.HasConflicts?
    ensures Load(row).Ok? ==> !Load(row).value.status.ReadyToCommit?
    ensures Load(Save(executed)) == Err(Repository)
  {}
}
