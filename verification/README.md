# Brio core: a verified model

Dafny models of the stateful cores of Brio, with proofs about every input, every run or every reachable
state. `dafny verify dfyconfig.toml` checks all of it.

| files | what they model |
|---|---|
| `FileTree`, `SessionDiff`, `StagedApply`, `SingleApply`, `SessionCommit`, `DirectoryDigest`, `SessionHistory` | a session directory, its diff against the base, the staged apply of that diff, the digest of a directory, and many sessions on one base |
| `Branches`, `BranchManager`, `BranchAnswers`, `BranchSteps`, `BranchHistory`, `BranchRuns`, `BranchTrees`, `MergeHistory`, `MergeTrails`, `MergeOverlap`, `Recovery`, `BranchLimit`, `MergeRows` | the supervisor's branch manager: life cycle, merge workflow, branch tree, stored rows |
| `TaskBoard`, `Supervisor`, `TaskTheorems`, `TaskHistory`, `TaskLiveness`, `TaskTermination` | the supervisor's poll loop over the task table |
| `Breaker`, `BreakerTheorems`, `Backoff`, `Chat` | the circuit breaker shared by concurrent callers, the retry delay, and `chat` |
| `Conflicts`, `EditScript` | merge conflict detection and edit scripts |
| `ToolOrder`, `ToolRuns`, `CommandSplit` | the order in which tool calls run, and the command tokenizer |
| `Prelude` | `Option`, `Result` and facts about sequences |

Code that changes things step by step is a method on a class or a method with a loop. Its `ensures` either
states the promised property outright or equates the new state with a specification function; the theorems
are then lemmas about that function, over single steps and over whole runs. The outside world (device
faults, repository failures, planners, dispatchers, agents, clocks, other callers, the iteration order of hash
maps) is a parameter or a nondeterministic choice, and the results hold for all of them unless a row says
otherwise.

## How to read the main results

- **Apply.** For every pair of well-formed trees and every order of the change list, the staged apply meets
  no file/directory clash, leaves the base's files equal to the session's exactly when the digest tells apart
  the contents that differ, and, whatever call the device fails, passes only through file maps in which each
  path holds its old or its session value (`SessionCommit.CommitSession`, `StagedApply.ApplyChanges`). A ghost
  history records every value the file map takes, including half-written copies and half-removed directories.
  The base's directories after an apply are characterised too. Applying the changes one at a time agrees with
  it if and only if no write comes before the deletion of a file in its way (`SingleApply.FoldMatchesStaged`).
  Over many sessions on one base, with commits that fail half-way included, no update is lost if and only if each
  commit that goes through finds the base's paths and sizes as they were when its session began
  (`SessionHistory.NoLostUpdatesExactly`); the digest alone does not see to that (`SessionHistory.UpdateIsLost`).
- **Branches.** Parents stay older than children, so the tree is finite and complete. `execute_merge` is modelled
  in two parts, because it suspends while files are scanned and the strategy runs; any operations, other
  executions included, may come in between. For every state, a branch enters a status exactly for a stated reason
  (`BranchHistory.StatusMovesExactly`), and over every run a merged branch was marked executing, completed,
  requested, approved, begun, finished and committed in this order (`MergeTrails.MergedWentAllTheWay`). It has
  exactly one executed request, approved, conflict-free and committed once; Merged and Failed are final;
  executions are balanced in sessions; what recovery achieves is exact for every pattern of failing writes.
- **Tasks.** A task moves from one status to another exactly for a stated reason (`TaskHistory.TaskMoves`), and a task
  given to an agent is decided by the first report about it, over every run (`TaskHistory.AcceptedTaskIsReported`).
  Handling a task keeps the joins safe if and only if it does not lose a plan, and so does a whole
  poll. Failures propagate, and there is no deadlock: with working calls the loop can only come to rest with
  nothing to do or waiting for an agent. It makes at most four productive steps a task, and with a planner
  bounded in depth and fan-out at most a fixed number of them for each task submitted.
- **Breaker.** One invariant of all interleavings ties state and counters to the history of events, and the state after
  each call and report is given in terms of that history (`BreakerTheorems.ReportsLead`, `BreakerTheorems.CallsLead`).

## Findings

Where the code and its documentation or purpose part, the model follows the code and a lemma states it:

- The digest of a directory runs paths, contents and the number of files together without separators. A file `a`
  whose contents begin with `x` and a file `ax` with the rest have one digest under any hash
  (`DirectoryDigest.StreamsCollide`), so the conflict check accepts a session that began before such a change and
  its commit undoes the change (`SessionHistory.UpdateIsLost` gives the run). With a hash free of collisions, equal
  digests mean equal files if and only if paths and sizes are equal (`DirectoryDigest.DigestTellsExactly`).
- The snapshot of a session is not taken again. When a commit fails half-way and leaves the base with another byte
  stream, every retry of that session on that base is refused (`SessionHistory.AcceptedExactly`).
- The SQL repository writes a request's status as the lower-cased variant name (`readytocommit`) but reads
  `ready_to_commit`, and rebuilds the status by replaying approval, start and commit. An executed request cannot
  be read back and no row is ever read as ready, so over this repository `commit_merge` never passes its check
  (`MergeRows.NeverReadyToCommit`; `MergeRows.RoundTrip` gives the exact condition for every request).
- An approval by the empty text or by the text NULL, which `approve_merge` accepts, is read back as no approval,
  so such a request can never be executed (`MergeRows.ApproverIsRead`).
- Two executions of one approved request may overlap. The one that finishes last saves its copy of the request
  over the other's: whatever is done afterwards, the staging session of the merge that was carried out is never
  committed and its branch never becomes Merged (`MergeOverlap.OverlapLosesMerge` gives a run,
  `MergeOverlap.OverwrittenMergeIsLost` the general case). Over every run, the stored requests show all executions
  if and only if no finish saves a request that was executed meanwhile (`MergeOverlap.RunKeepsRowsExactly`; for one
  finish, `MergeOverlap.FinishKeepsRowsExactly`); reading the request again would prevent it
  (`MergeOverlap.StillApprovedIsSafe`).
- `abort_branch` rolls the session back before the status change is validated: aborting a completed branch
  reports an invalid transition after the work is gone (`MergeHistory.AbortDiscardsBeforeChecking`).
- Aborting a branch between `execute_merge` and `commit_merge` does not stop the commit: the branch ends
  Failed with its changes in the parent (`MergeHistory.AbortedMergeStillCommits`).
- The limit on active branches counts merging branches, but `execute_merge` adds one without a check: the limit
  is kept if and only if it was not yet reached (`BranchLimit.ExecutionIsNotLimited`), and a run passes it
  (`BranchLimit.LimitIsPassed`).
- `create_branch` leaves its new session active if the record cannot be made or stored
  (`MergeHistory.CreateLeaksSession`).
- `approve_merge` documents a not-found error for a missing request. It makes that error of the repository's error
  for a missing branch, but the repository reports a missing request with another one, which is passed on as a
  repository error (`MergeHistory.MissingApprovalIsRepositoryError`).
- Join safety needs more than a repository whose failing calls change nothing. If planning breaks off after some
  subtasks were made, or before the task's own status is written, and the failure mark fails too, the task is
  planned again although it has subtasks; exactly then is it broken (`TaskTheorems.ProcessKeeps`,
  `TaskTheorems.StepKeeps`). A parent can then complete with a pending subtask
  (`TaskTheorems.LostFailureMarkBreaksJoin`), and even a planner bounded in depth and fan-out can cause any number
  of productive steps (`TaskTermination.LostPlansNeverEnd`).
- `1u64 << attempt` overflows from attempt 64 on; a checked build then stops inside `chat` and the admitted call
  never reports (`Backoff.BackoffIsExact`, `Chat.Provider.Chat`). The jitter factor is documented as at most 1000
  and is at most 999.
- If the calls of a half-open episode never report, the breaker stays half-open for ever
  (`BreakerTheorems.LostProbesStick`).
- A circuit forced open is not always tried again after the timeout: an open circuit admits nothing until it is
  forced closed if and only if no failure is on record and no admitted call is in flight
  (`BreakerTheorems.OpenSticksExactly`).
- The guard in `to_edit_script` compares the script's length with the base's and so drops kept lines after
  enough insertions (`EditScript.ScriptReplays` gives the exact condition).
- `apply_diff` documents the reconstructed target; it returns a subsequence of the base (`EditScript.KeptIsCommon`),
  which is the target if and only if nothing is inserted and the equal ranges are equal (`EditScript.KeptIsTarget`;
  the shortest failing input is in `EditScript.InsertionIsLost`).
- `changes_conflict` documents a deletion against a modification or addition; two deletions conflict too
  (`Conflicts.ClashByKinds`).
- `apply_changes` removes its staging directory after phase 2 only; an error in phase 1 leaves it behind. On a
  device that does not fail this happens exactly when a listed file is missing from the session
  (`StagedApply.ApplyStaged`).
- Quoted empty arguments disappear in `split_command` (`CommandSplit.SplitUndoesJoin`).
- Tool calls of different parsers that match at one position run in the iteration order of a hash map. The order
  cannot be noticed if and only if every such position comes after a match of `done`
  (`ToolRuns.OrderIndependentExactly`); a tie with `done` itself decides whether the other tool runs at all
  (`ToolRuns.TiedPositionsDependOnOrder`).

## Model

| member | source | states |
|---|---|---|
| FileTree.FileSystem.CreateDirAll | brio-core/kernel/src/vfs/diff/apply.rs:40-42 | the path and all ancestors become directories; it clashes only with a file on the way; a fault leaves some of them |
| FileTree.FileSystem.Copy | brio-core/kernel/src/vfs/diff/apply.rs:43 | only the target changes; a fault may leave any content there; every intermediate file map is recorded |
| FileTree.FileSystem.RemoveFile | brio-core/kernel/src/vfs/diff/apply.rs:58-63 | removes exactly one file or changes nothing |
| FileTree.FileSystem.Rename | brio-core/kernel/src/vfs/diff/apply.rs:83-89 | moves a file in one step, or changes nothing |
| FileTree.FileSystem.RemoveDirAll | brio-core/kernel/src/vfs/diff/apply.rs:78-81 | removes the directory and all below it; an interrupted removal only loses files below it |
| SessionDiff.ScanDirectory | brio-core/kernel/src/vfs/diff/compute.rs:53-76 | one entry for each file and no other, with its size and no digest |
| SessionDiff.ComputeDiff | brio-core/kernel/src/vfs/diff/compute.rs:83-128 | for every iteration order: lists, each once, exactly the added and the deleted paths, and as modified exactly the paths of both trees whose sizes or digests differ |
| SessionDiff.DiffIsConsistent | brio-core/kernel/src/vfs/diff/compute.rs:83-128 | a diff has one entry a path and lists every addition and deletion; applying it yields the session's files if and only if the digest is sound on the two trees |
| SessionDiff.UnchangedSessionHasNoDiff | brio-core/kernel/src/vfs/diff/compute.rs:83-128 | equal files give the empty diff; an empty diff means equal paths with equal-looking contents |
| SessionDiff.CopyOneMore | brio-core/kernel/src/vfs/reflink.rs:19-51 | when an entry of the walk is visited its ancestors are already there, and copying it gives the copy one entry longer |
| SessionDiff.CopyTree | brio-core/kernel/src/vfs/reflink.rs:14-55 | the new session tree equals the base tree, or the device failed; no clash |
| StagedApply.StageStep | brio-core/kernel/src/vfs/diff/apply.rs:35-44 | no staged parent stands in the way of a staged file, and staging it extends the staged set by exactly that file |
| StagedApply.StageContent | brio-core/kernel/src/vfs/diff/apply.rs:33-47 | phase 1 changes nothing outside the staging directory at any moment, for any change list, and stages exactly the written files |
| StagedApply.DeleteOne | brio-core/kernel/src/vfs/diff/apply.rs:57-64 | deleting a listed file keeps staging intact and the base per-path atomic |
| StagedApply.DeleteStale | brio-core/kernel/src/vfs/diff/apply.rs:56-64 | the deletion phase removes exactly the listed deletions and is per-path atomic throughout |
| StagedApply.ClearDestination | brio-core/kernel/src/vfs/diff/apply.rs:72-81 | where no file lies beneath the destination, clearing it removes no file at any moment |
| StagedApply.MoveClear | brio-core/kernel/src/vfs/diff/apply.rs:66-91 | once the deletions are done no file lies above or beneath a destination, so nothing the session keeps is removed and no move clashes |
| StagedApply.MoveOne | brio-core/kernel/src/vfs/diff/apply.rs:69-89 | one move takes the file map from its old to its new value and through no other |
| StagedApply.DirsStep | brio-core/kernel/src/vfs/diff/apply.rs:72-81 | how one move changes the set of directories, for swaps in both directions |
| StagedApply.MoveIntoPlace | brio-core/kernel/src/vfs/diff/apply.rs:66-92 | the move phase ends with the merged files and the expected directories, can fail only through the device, and is per-path atomic throughout |
| StagedApply.CleanUp | brio-core/kernel/src/vfs/diff/apply.rs:95-98 | removing staging changes nothing outside it, even when interrupted, and its error is ignored |
| StagedApply.FinalizeStaged | brio-core/kernel/src/vfs/diff/apply.rs:51-93 | both steps of phase 2 together |
| StagedApply.AppliedAll | brio-core/kernel/src/vfs/diff/apply.rs:51-98 | with staging empty and gone, exactly the merged files and the expected directories remain |
| StagedApply.ApplyStaged | brio-core/kernel/src/vfs/diff/apply.rs:33-107 | the whole apply once staging was made; a write missing from the session fails with nothing outside staging changed at any moment, and on a device that does not fail exactly then is the staging directory left behind |
| StagedApply.ApplyChanges | brio-core/kernel/src/vfs/diff/apply.rs:17-107 | for every consistent list in any order: only the device can fail it, every intermediate file map is per-path atomic, a complete apply leaves the merged files and the expected directories |
| SingleApply.ApplySingleChange | brio-core/kernel/src/vfs/diff/apply.rs:114-148 | one change in place equals the functional change, with the same errors |
| SingleApply.SingleChangeKeepsWellFormed | brio-core/kernel/src/vfs/diff/apply.rs:114-148 | one change keeps the tree well-formed |
| SingleApply.Blocked | brio-core/kernel/src/vfs/diff/apply.rs:124-126 | a write clashes exactly when a file that is deleted later stands where it needs a directory |
| SingleApply.FoldFrom | brio-core/kernel/src/vfs/diff/apply.rs:114-148 | from any half-done list, one change at a time ends in the merged files or stops at that clash |
| SingleApply.FoldMatchesStaged | brio-core/kernel/src/vfs/diff/apply.rs:33-93 | folding single changes gives the staged apply's files if and only if no write precedes the deletion of a file in its way |
| SingleApply.DeletionsFirst | brio-core/kernel/src/vfs/diff/apply.rs:114-148 | deletions first is such an order, whatever the order inside each group |
| SingleApply.FileBecomesDirectory | brio-core/kernel/src/vfs/diff/apply.rs:114-148 | a file that becomes a directory, written first, stops the fold although the staged apply succeeds |
| SessionCommit.CommitSession | brio-core/kernel/src/vfs/manager/isolation.rs:57-100 | refuses exactly when the base digest changed, and then changes nothing; otherwise per-path atomic, and on a sound device the base's files become the session's exactly when equal size and digest mean equal contents, so whenever the digest tells the contents of the two trees apart |
| DirectoryDigest.ComputeDirectoryHash | brio-core/kernel/src/vfs/hashing.rs:8-43 | the walk hashes path and contents of each file in order and then their number |
| DirectoryDigest.StreamEndsWithCount | brio-core/kernel/src/vfs/hashing.rs:39-41 | the hashed bytes end with the number of files in decimal, which can be read back |
| DirectoryDigest.PathTextTells | brio-core/kernel/src/vfs/hashing.rs:17-20 | different paths are hashed as different texts |
| DirectoryDigest.StreamsCollide | brio-core/kernel/src/vfs/hashing.rs:21-41 | moving the first bytes of a file's contents to the end of its name leaves the hashed bytes as they are |
| DirectoryDigest.DigestTellsExactly | brio-core/kernel/src/vfs/hashing.rs:8-43 | for a hash without collisions, two directories of one digest have equal files if and only if they have equal paths and sizes |
| SessionHistory.StepIsSerialExactly | brio-core/kernel/src/vfs/manager/session.rs:73-159 | for any digest and any device: a step keeps each commit built on exactly what the change before it left, if and only if it is not a commit that goes through on a base other than its session's origin |
| SessionHistory.RunIsSerialExactly | brio-core/kernel/src/vfs/manager/session.rs:73-180 | the same over every run of sessions on one base |
| SessionHistory.NoLostUpdatesExactly | brio-core/kernel/src/vfs/manager/session.rs:73-180 | with the digest of the code: over every run, failing commits included, no update is lost if and only if each commit that goes through finds the paths and sizes that its session began with |
| SessionHistory.AcceptedExactly | brio-core/kernel/src/vfs/manager/isolation.rs:64-79 | after every run a session is accepted exactly when the base gives the byte stream its origin gave; a session whose commit failed and changed that stream is refused from then on, on that base |
| SessionHistory.RolledBackIsOver | brio-core/kernel/src/vfs/manager/session.rs:118-180 | after a rollback or a commit that goes through, over every run: no step but a new beginning makes the session accepted again, and a rollback leaves the base alone |
| SessionHistory.WorkIsLastEdit | brio-core/kernel/src/vfs/manager/session.rs:73-159 | over every run, an open session offers the tree of its last edit, on the origin and the digest it was begun with |
| SessionHistory.UpdateIsLost | brio-core/kernel/src/vfs/manager/isolation.rs:64-92 | a run from any file whose contents begin with a text: two sessions are accepted and the second one undoes the first |
| BranchManagement.BranchManager.Create | brio-core/components/supervisor/src/branch/lifecycle.rs:22-80 | success adds exactly one pending branch, of an existing parent with a live session, and its session; an error adds no branch and at most that session |
| BranchManagement.BranchManager.Abort | brio-core/components/supervisor/src/branch/lifecycle.rs:91-115 | success leaves the branch failed and its session gone; an error changes no branch |
| BranchManagement.BranchManager.ApproveMerge | brio-core/components/supervisor/src/branch/merge_request.rs:367-388 | the repository's answer with its error mapped as in the source, and the request approved only if it was waiting |
| BranchManagement.BranchManager.RequestBranchMerge | brio-core/components/supervisor/src/branch/merge_request.rs:32-80 | success means a completed branch, a known strategy, and a stored request that is approved exactly if no approval was required |
| BranchManagement.BranchManager.BeginExecution | brio-core/components/supervisor/src/branch/merge_request.rs:117-181 | up to the first suspension: success only for an approved request of a completed branch with a live parent, with one more session; an error leaves sessions, branches and requests as they were |
| BranchManagement.BranchManager.FinishExecution | brio-core/components/supervisor/src/branch/merge_request.rs:181-295 | from there on, whatever happened meanwhile: an error takes exactly the staging session away and changes no branch; success moves the branch to Merging and records the session in the saved request |
| BranchManagement.BranchManager.CommitBranchMerge | brio-core/components/supervisor/src/branch/merge_request.rs:310-357 | success commits the request's staging session and leaves branch and request merged and committed; nothing changes unless the session is committed |
| BranchManagement.BranchManager.ListBranchesByParent | brio-core/components/supervisor/src/repository/branch/operations.rs:145-166 | exactly the children, each once |
| BranchManagement.BranchManager.BuildBranchTree | brio-core/components/supervisor/src/branch/coordinator.rs:447-461 | terminates, succeeds if and only if all descendants are readable, and holds every descendant exactly once along parent edges |
| BranchManagement.BranchManager.GetBranchTree | brio-core/components/supervisor/src/branch/coordinator.rs:432-444 | the same from a root, or not found |
| BranchSteps.StepMoves | brio-core/components/supervisor/src/branch/state_machine.rs:26-74 | every operation but creation leaves the branches and their parents alone and moves statuses only along the stated transitions or from Active back to Pending |
| BranchHistory.StatusMovesExactly | brio-core/components/supervisor/src/branch/state_machine.rs:26-112 | for every state and operation: a branch becomes active, completed, merging, merged, failed or pending again exactly for the operation, the earlier status and the answers stated |
| BranchHistory.RunWorks | brio-core/components/supervisor/src/branch/state_machine.rs:82-112 | over every run from the start: an active branch was marked executing while pending; a completed, merging or merged one was marked executing and then completed while active, and so was the branch of every request when it was made |
| MergeTrails.MergedWentAllTheWay | brio-core/components/supervisor/src/branch/merge_request.rs:32-357 | over every run from the start: a merged branch was marked executing, completed, requested for merge, approved by the recorded approver, begun, finished and committed, in this order |
| BranchAnswers.StatusAnswers | brio-core/components/supervisor/src/branch/state_machine.rs:55-74 | success and each error of a status change, in both directions, and what it leaves |
| BranchAnswers.CreateAnswers | brio-core/components/supervisor/src/branch/lifecycle.rs:22-80 | the same for creating a branch |
| BranchAnswers.AbortAnswers | brio-core/components/supervisor/src/branch/lifecycle.rs:91-115 | the same for aborting one |
| BranchAnswers.RequestAnswers | brio-core/components/supervisor/src/branch/merge_request.rs:32-80 | the same for requesting a merge |
| BranchAnswers.ApproveAnswers | brio-core/components/supervisor/src/branch/merge_request.rs:367-388 | the same for approving it |
| BranchAnswers.BeginAnswers | brio-core/components/supervisor/src/branch/merge_request.rs:117-181 | the same for the first part of an execution |
| BranchAnswers.FinishAnswers | brio-core/components/supervisor/src/branch/merge_request.rs:181-295 | the same for its second part |
| BranchAnswers.CommitAnswers | brio-core/components/supervisor/src/branch/merge_request.rs:310-357 | the same for the commit |
| BranchTrees.RunIsAged | brio-core/components/supervisor/src/branch/lifecycle.rs:22-80 | over every run each parent exists and is older than its children, so the parent relation is acyclic |
| BranchTrees.NoYoungerAncestor | brio-core/components/supervisor/src/branch/coordinator.rs:447-461 | no proper ancestor of a branch is as young as it |
| BranchTrees.DescendsThroughChild | brio-core/components/supervisor/src/branch/coordinator.rs:450-458 | the descendants of a branch are itself and those of its children |
| BranchTrees.SiblingsShareNothing | brio-core/components/supervisor/src/branch/coordinator.rs:450-458 | the trees of two children have no branch in common |
| BranchTrees.ForestIsTree | brio-core/components/supervisor/src/branch/coordinator.rs:447-461 | the children's trees under their parent form the parent's tree |
| BranchTrees.TotalNodesIsDescendants | brio-core/components/supervisor/src/branch/coordinator.rs:231-237 | `total_nodes` is the number of proper descendants plus one |
| MergeHistory.FinishKeeps | brio-core/components/supervisor/src/branch/merge_request.rs:181-295 | finishing an execution keeps the merge records sound, whichever call fails and whatever came in between |
| MergeHistory.CommitKeeps | brio-core/components/supervisor/src/branch/merge_request.rs:310-357 | committing keeps them sound, whichever call fails |
| MergeHistory.RunKeeps | brio-core/components/supervisor/src/branch/merge_request.rs:32-357 | every run, with executions overlapping, keeps executions, suspended executions, requests, commits and branch states consistent with one another |
| MergeHistory.MergeHistoryIsSound | brio-core/components/supervisor/src/branch/merge_request.rs:111-357 | over every run, executions overlapping and repository calls failing anywhere: a merged branch has exactly one executed request, approved, conflict-free when executed, its staging session committed exactly once |
| MergeHistory.TerminalIsAbsorbing | brio-core/components/supervisor/src/branch/state_machine.rs:26-47 | no operation, recovery included, changes a merged or failed branch |
| MergeHistory.ExecutionBalancesSessions | brio-core/components/supervisor/src/branch/merge_request.rs:171-295 | a failing beginning leaves the active sessions as they were, a failing finish takes exactly the staging session away, success leaves it recorded in the request |
| MergeHistory.MissingApprovalIsRepositoryError | brio-core/components/supervisor/src/branch/merge_request.rs:367-388 | the repository misses the row exactly for a missing request or one past waiting; that becomes a repository error and changes nothing, and the documented not-found error is made of a missing branch only and never returned |
| MergeHistory.CreateLeaksSession | brio-core/components/supervisor/src/branch/lifecycle.rs:27-71 | the exact conditions under which a failed creation keeps its new session |
| MergeHistory.AbortDiscardsBeforeChecking | brio-core/components/supervisor/src/branch/lifecycle.rs:91-107 | for all answers of the calls: exactly when an abort fails after the session is gone |
| MergeHistory.CommitNeedsMergingBranch | brio-core/components/supervisor/src/branch/merge_request.rs:334-354 | for all answers of the calls: exactly when a commit reaches the parent, when the branch becomes merged, and when the operation succeeds |
| MergeHistory.AbortedMergeStillCommits | brio-core/components/supervisor/src/branch/merge_request.rs:310-357 | a branch aborted between execution and commit ends Failed with its changes committed |
| MergeOverlap.FinishKeepsRowsExactly | brio-core/components/supervisor/src/branch/merge_request.rs:257-274 | a finish keeps the stored requests in agreement with the executions if and only if it does not save a request that was executed meanwhile |
| MergeOverlap.StillApprovedIsSafe | brio-core/components/supervisor/src/branch/merge_request.rs:125-127 | a request that is still approved at the save is never such a one |
| MergeOverlap.RunKeepsRowsExactly | brio-core/components/supervisor/src/branch/merge_request.rs:111-357 | over every run, each execution is what its stored request shows if and only if there was no such save |
| MergeOverlap.RunKeepsAbandoned | brio-core/components/supervisor/src/branch/merge_request.rs:257-357 | a session that no request names any more is named by none and not committed over every later run |
| MergeOverlap.OverwrittenMergeIsLost | brio-core/components/supervisor/src/branch/merge_request.rs:257-283 | a merge saved over before its commit: over every later run its session is not committed and its branch not Merged |
| MergeOverlap.OverlapLosesMerge | brio-core/components/supervisor/src/branch/merge_request.rs:111-357 | a run from the start in which that happens to a live session and a merging branch |
| Recovery.RecoverPrefixExactly | brio-core/components/supervisor/src/branch/lifecycle.rs:134-166 | after any part of the loop exactly the branches visited are recovered, each as its session, its status and the answers of its calls ask |
| Recovery.RecoveryIsComplete | brio-core/components/supervisor/src/branch/lifecycle.rs:126-171 | the live branches afterwards are exactly those returned if and only if every status write that was needed was answered; then each has its session and none is active |
| BranchLimit.RunWithinLimit | brio-core/components/supervisor/src/branch/coordinator.rs:334-343 | over every run the pending and active branches stay within the limit |
| BranchLimit.ExecutionIsNotLimited | brio-core/components/supervisor/src/branch/merge_request.rs:276-283 | after every run: executing a merge raises the count that the limit checks by one, so the limit holds afterwards if and only if it was not yet reached |
| BranchLimit.LimitIsPassed | brio-core/components/supervisor/src/branch/coordinator.rs:334-343 | a run from the start that ends with more live branches than the limit |
| MergeRows.RoundTrip | brio-core/components/supervisor/src/repository/branch/wit_impl.rs:100-240 | a stored request is read back unchanged exactly when its texts survive, its status is the one its fields record and no merge is under way; the exact unreadable statuses |
| MergeRows.LoadReads | brio-core/components/supervisor/src/repository/branch/wit_impl.rs:139-240 | what any readable row is read as: each text with the time of its own column, and the status that the fields record |
| MergeRows.StatusIsRead | brio-core/components/supervisor/src/repository/branch/wit_impl.rs:124-138 | a stored status of one word is read as what was written, a longer one is not read |
| MergeRows.ApproverIsRead | brio-core/components/supervisor/src/repository/branch/wit_impl.rs:149-157 | an approved request is read back as approved exactly unless the approver is the empty text or NULL, and else as waiting |
| MergeRows.NeverReadyToCommit | brio-core/components/supervisor/src/repository/branch/operations.rs:294-337 | no row is read as ready to commit, and an executed request cannot be read back |
| SupervisorLoop.Supervisor.FetchSubtasks | brio-core/components/supervisor/src/orchestrator.rs:373-382 | exactly the tasks with that parent |
| SupervisorLoop.Supervisor.PlanTask | brio-core/components/supervisor/src/handlers/planning.rs:22-51 | no subtasks: Executing; else the subtasks as new pending rows of this task, in order, then Coordinating; a failed insertion keeps the earlier ones and nothing else changes |
| SupervisorLoop.Supervisor.ExecuteTask | brio-core/components/supervisor/src/handlers/executing.rs:22-47 | accepted: the agent is assigned and the status stays; completed at once: Completed; busy or assigned before: nothing; an error changes nothing |
| SupervisorLoop.Supervisor.CoordinateTask | brio-core/components/supervisor/src/handlers/coordinating.rs:22-60 | the status is written exactly when some subtask failed, to Failed, or all are completed, to Verifying |
| SupervisorLoop.Supervisor.HandleTask | brio-core/components/supervisor/src/orchestrator.rs:142-167 | dispatch on the status in the snapshot; Pending becomes Planning, Verifying becomes Completed, an inactive task is left alone |
| SupervisorLoop.Supervisor.PollTasks | brio-core/components/supervisor/src/orchestrator.rs:114-140 | the loop's new table and its result for any order of the active tasks |
| TaskTheorems.SetStatusKeeps | brio-core/components/supervisor/src/handlers/coordinating.rs:27-59 | which status writes keep the joins safe |
| TaskTheorems.PlanningKeeps | brio-core/components/supervisor/src/handlers/planning.rs:32-49 | decomposition keeps the joins safe although it is not atomic |
| TaskTheorems.ProcessKeeps | brio-core/components/supervisor/src/orchestrator.rs:129-137 | handling one task of the snapshot, with reports arriving and calls failing, keeps the joins safe if and only if it does not lose a plan |
| TaskTheorems.PollKeeps | brio-core/components/supervisor/src/orchestrator.rs:114-140 | any part of a poll that loses no plan keeps them safe, and the rest of the snapshot stays current |
| TaskTheorems.StepKeeps | brio-core/components/supervisor/src/orchestrator.rs:114-140 | a whole poll, report or submission keeps the joins safe if and only if no task of it loses its plan |
| TaskTheorems.RunIsJoinSafe | brio-core/components/supervisor/src/orchestrator.rs:114-180 | over every run that loses no plan: subtasks of a verifying or completed task are completed, a coordinating task has subtasks, finished tasks stay finished |
| TaskTheorems.CoordinatorFails | brio-core/components/supervisor/src/handlers/coordinating.rs:39-47 | a coordinator with a failed subtask fails when handled, even if its repository calls fail |
| TaskTheorems.FailurePropagates | brio-core/components/supervisor/src/handlers/coordinating.rs:39-47 | a failed task's k-th ancestor is failed after k more polls |
| TaskTheorems.ProcessSpends | brio-core/components/supervisor/src/orchestrator.rs:129-137 | each counted step spends one unit of potential and only new tasks bring some, with no assumption on the environment |
| TaskTheorems.ProductiveStepsBounded | brio-core/components/supervisor/src/orchestrator.rs:114-140 | the results of all polls of a run sum to at most four times the tasks ever created |
| TaskTheorems.LostFailureMarkBreaksJoin | brio-core/components/supervisor/src/orchestrator.rs:170-180 | what a lost plan can lead to: a parent completed with a pending subtask |
| TaskHistory.TaskMoves | brio-core/components/supervisor/src/orchestrator.rs:129-180 | handling a task that no agent holds: each status is entered or kept exactly for the stated answers, an agent is assigned exactly by an accepted dispatch, stored subtasks are new rows of their own, every other row stays |
| TaskHistory.AgentDecides | brio-core/components/supervisor/src/handlers/executing.rs:27-29 | over every run, a task that an agent holds is completed or failed by the first report about it and by nothing else |
| TaskHistory.AcceptedTaskIsReported | brio-core/components/supervisor/src/handlers/executing.rs:31-38 | from an accepted dispatch on, through the rest of the poll and every run: the task executes until the first report about it, which decides |
| TaskHistory.AgentsAreDispatched | brio-core/components/supervisor/src/handlers/executing.rs:31-38 | over every run, a task has an agent exactly if it had one or its dispatch was accepted |
| TaskLiveness.OnlyCoordinatorsWait | brio-core/components/supervisor/src/handlers/coordinating.rs:22-60 | with working calls only a coordinator with an active subtask makes no progress |
| TaskLiveness.NoDeadlock | brio-core/components/supervisor/src/orchestrator.rs:114-140 | a fruitless poll whose calls all succeed finds no active task, or one that waits for an agent |
| TaskTermination.PlanPays | brio-core/components/supervisor/src/handlers/planning.rs:32-43 | decomposing a task within the bounds spends at least one unit of its weight, even if it breaks off and is marked failed |
| TaskTermination.BoundedPlannerBoundsWork | brio-core/components/supervisor/src/orchestrator.rs:114-140 | with plans of at most F subtasks, none below a given depth, and no lost plan, the productive steps of every run are at most W(0) for each task at the start or submitted, where W(d) = 4 + F * W(d + 1) above that depth and 4 at it |
| TaskTermination.WorkEnds | brio-core/components/supervisor/src/orchestrator.rs:114-140 | a run with working calls, a bounded planner and more polls than that comes to a poll with no active task, or to one where a task waits for an agent |
| TaskTermination.LostPlansNeverEnd | brio-core/components/supervisor/src/orchestrator.rs:170-180 | with lost plans even a planner of fan-out one for root tasks only can cause any number of productive steps from one task |
| Breaker.CircuitBreaker.TryAcquire | brio-core/kernel/src/inference/types/circuit_breaker.rs:122-146 | the grant and the new state: closed grants, open grants once the timeout is over and becomes half-open, half-open grants while charges remain; equal to the step that the breaker theorems are about |
| Breaker.CircuitBreaker.RecordSuccess | brio-core/kernel/src/inference/types/circuit_breaker.rs:149-157 | half-open closes, any other state stays; the failure counter is reset; equal to that step |
| Breaker.CircuitBreaker.RecordFailure | brio-core/kernel/src/inference/types/circuit_breaker.rs:160-179 | closed opens at the threshold, half-open opens, open stays; counters and failure time; equal to that step |
| Breaker.CircuitBreaker.ForceClose | brio-core/kernel/src/inference/types/circuit_breaker.rs:201-203 | closed with no failures counted; equal to that step |
| Breaker.CircuitBreaker.ForceOpen | brio-core/kernel/src/inference/types/circuit_breaker.rs:206-208 | open, counters untouched; equal to that step |
| BreakerTheorems.RunKeeps | brio-core/kernel/src/inference/types/circuit_breaker.rs:122-225 | for every interleaving: conservation, outstanding probes, the failure counter equals the row of failures in the history and is below the threshold while closed, admissions out of Open come at or after last failure plus timeout |
| BreakerTheorems.HalfOpenEnds | brio-core/kernel/src/inference/types/circuit_breaker.rs:137-144 | an episode admits at most the configured calls plus one, and some in-flight report ends it |
| BreakerTheorems.OpensExactlyAtThreshold | brio-core/kernel/src/inference/types/circuit_breaker.rs:160-179 | a report opens a closed circuit exactly when it completes a row of threshold failures |
| BreakerTheorems.ReportsLead | brio-core/kernel/src/inference/types/circuit_breaker.rs:149-179 | in every run: a good report closes a half-open circuit and resets the counter, a bad one opens it, no report closes an open one, and a closed one opens exactly with a failure that completes a row |
| BreakerTheorems.CallsLead | brio-core/kernel/src/inference/types/circuit_breaker.rs:122-146 | in every run: which new call is admitted, in terms of the history, and the state it leaves |
| BreakerTheorems.OtherStepsLead | brio-core/kernel/src/inference/types/circuit_breaker.rs:201-208 | time and calls that are not due change no state, forced transitions decide it |
| BreakerTheorems.StateIsRead | brio-core/kernel/src/inference/types/circuit_breaker.rs:122-225 | in every run the state is what a reading of the history alone gives |
| BreakerTheorems.LostProbesStick | brio-core/kernel/src/inference/types/circuit_breaker.rs:137-144 | without reports a half-open breaker stays so and admits only its remaining charges |
| BreakerTheorems.ForcedOpenSticks | brio-core/kernel/src/inference/types/circuit_breaker.rs:206-213 | an open circuit with no failure recorded and no call in flight admits nothing until it is forced closed |
| BreakerTheorems.OpenSticksExactly | brio-core/kernel/src/inference/types/circuit_breaker.rs:125-136 | in every reachable open state: nothing is admitted without a forced close if and only if no failure is recorded and no call is in flight |
| Backoff.BackoffIsExact | brio-core/kernel/src/inference/anthropic/retry.rs:59-69 | for attempts below 64 and no others the saturating computation is the exact capped power plus less than a quarter, at most 37492 |
| Backoff.DelayGrows | brio-core/kernel/src/inference/openai/streaming.rs:59-71 | the delay before jitter never shrinks with the attempt |
| Chat.RunReportsOnce | brio-core/kernel/src/inference/openai/client.rs:188-243 | in every interleaving a call is admitted at most once and reports exactly once or is in flight |
| Chat.OthersKeep | brio-core/kernel/src/inference/openai/client.rs:188-243 | other callers' steps leave a call's admission and missing report alone |
| Chat.Provider.RequestWithRetries | brio-core/kernel/src/inference/openai/client.rs:203-232 | stops at the first answer, final refusal or last retry; counts requests; the total sleep is the sum of the exact delays of the refused attempts |
| Chat.Provider.Chat | brio-core/kernel/src/inference/anthropic/client.rs:230-292 | denied calls report nothing; an admitted call answers and reports, exactly once, as its last request ended, with the requests and the sleep of its retries, unless the 65th refused request overflows the delay |
| Conflicts.DetectConflicts | brio-core/components/supervisor/src/merge/conflict.rs:405-459 | a path is reported, once and with the branches of its changes in order, one for each change, if and only if two distinct changes on it conflict |
| Conflicts.MapFiles | brio-core/components/supervisor/src/merge/conflict.rs:412-421 | the map holds, for every path, the branches of its occurrences in order |
| Conflicts.ScanPairs | brio-core/components/supervisor/src/merge/conflict.rs:427-443 | the early-exit scan finds a conflict if and only if there is one |
| Conflicts.PairsSurvive | brio-core/components/supervisor/src/merge/conflict.rs:427-430 | filtering by path keeps the conflicting pairs |
| Conflicts.ClashByKinds | brio-core/components/supervisor/src/merge/conflict.rs:468-481 | a path conflicts exactly when it has two or more occurrences other than one addition with one modification; three always conflict |
| Conflicts.OrderDoesNotMatter | brio-core/components/supervisor/src/merge/conflict.rs:405-459 | the reported paths do not depend on the order of the branches |
| EditScript.ToEditScript | brio-core/components/supervisor/src/diff/mod.rs:206-262 | the loops with the guard build the specified script |
| EditScript.ScriptReplays | brio-core/components/supervisor/src/diff/mod.rs:206-262 | for every tiling, replaying the script over the base gives the target if and only if each kept line plus the insertions before it is below the base's length and the equal ranges are equal |
| EditScript.InsertionBeforeKeep | brio-core/components/supervisor/src/diff/mod.rs:219-223 | one insertion before the only line loses that line |
| EditScript.RangeDisagrees | brio-core/components/supervisor/src/diff/mod.rs:206-262 | deleting one line and keeping a different one in place of the target's is a tiling that replays to another text |
| EditScript.ApplyDiff | brio-core/components/supervisor/src/diff/mod.rs:168-192 | the loop returns the base lines of the equal ranges that exist |
| EditScript.KeptIsCommon | brio-core/components/supervisor/src/diff/mod.rs:168-192 | for a tiling that is a subsequence of the base, and of the target when the equal ranges are equal |
| EditScript.KeptIsTarget | brio-core/components/supervisor/src/diff/mod.rs:157-192 | for a tiling the result is the documented target if and only if nothing is inserted and the equal ranges are equal |
| EditScript.InsertionIsLost | brio-core/components/supervisor/src/diff/mod.rs:182-187 | one inserted line is the shortest input for which it is not |
| ToolOrder.SortedOrders | brio-core/components/agent-sdk/src/tools/registry.rs:88 | the sort yields an ordered permutation |
| ToolOrder.SortedStays | brio-core/components/agent-sdk/src/tools/registry.rs:88 | the sort is stable: it keeps the order at each position |
| ToolOrder.CollectedHolds | brio-core/components/agent-sdk/src/tools/registry.rs:77-85 | an invocation is collected if and only if the visited parser of its name finds it |
| ToolOrder.CollectedCounts | brio-core/components/agent-sdk/src/tools/registry.rs:77-85 | and as often as that parser finds it |
| ToolOrder.ParsedIsCaptured | brio-core/components/agent-sdk/src/tools/parser.rs:69-87 | one invocation for each match with captures, with its arguments and position, in the order of the matches |
| ToolRuns.FirstLineEnds | brio-core/components/agent-sdk/src/tools/registry.rs:102-107 | the reported text is the output up to its first line end, a line feed with or without a carriage return before it |
| ToolRuns.ToolRegistry.Register | brio-core/components/agent-sdk/src/tools/registry.rs:39-48 | tools and parsers keep the same names |
| ToolRuns.ToolRegistry.Parse | brio-core/components/agent-sdk/src/tools/parser.rs:69-87 | the captured matches, sorted |
| ToolRuns.ToolRegistry.ExecuteAll | brio-core/components/agent-sdk/src/tools/registry.rs:71-123 | result and final world of the collected, sorted invocations, for any iteration order: exactly a prefix ran, with its worlds, outputs, report, summary and error |
| ToolRuns.RunsPrefix | brio-core/components/agent-sdk/src/tools/registry.rs:91-115 | exactly a prefix runs: all, those before the first `done`, or those up to the first failure; with its outputs, report, summary and error |
| ToolRuns.RunPassesThrough | brio-core/components/agent-sdk/src/tools/registry.rs:91-136 | each tool gets its invocation's own arguments and the world that the one before it left, and its output is kept; a missing tool leaves the world and is not found, a failing one is reported by name |
| ToolOrder.OneListExactly | brio-core/components/agent-sdk/src/tools/registry.rs:77-88 | all iteration orders of the parser map give one sorted list if and only if no two different parsers share a position |
| ToolRuns.OrderIndependent | brio-core/components/agent-sdk/src/tools/registry.rs:71-123 | when every tie comes after a match of `done`, all iteration orders give the same result and world, whatever the tools do |
| ToolRuns.TiedPositionsDependOnOrder | brio-core/components/agent-sdk/src/tools/registry.rs:77-115 | for every tie that no match of `done` precedes, `done` itself being tied or not, there are tools and two iteration orders that leave different worlds |
| ToolRuns.OrderIndependentExactly | brio-core/components/agent-sdk/src/tools/registry.rs:71-123 | so the iteration order cannot be noticed, for any tools, if and only if every tie comes after a match of `done` |
| CommandSplit.SplitCommand | brio-core/components/agent-sdk/src/tools/wasm_bridge.rs:362-393 | the tokenizer loop equals the specified splitter |
| CommandSplit.PartsHoldText | brio-core/components/agent-sdk/src/tools/wasm_bridge.rs:362-393 | no part is empty, and the parts concatenate to the command without delimiting quotes and unquoted whitespace |
| CommandSplit.WhitespaceSeparates | brio-core/components/agent-sdk/src/tools/wasm_bridge.rs:378-382 | at whitespace outside quotes, what is before and what is after are split independently |
| CommandSplit.OnlyWhitespaceSeparates | brio-core/components/agent-sdk/src/tools/wasm_bridge.rs:362-393 | a text without such whitespace is one part, or none |
| CommandSplit.SplitUndoesJoin | brio-core/components/agent-sdk/src/tools/wasm_bridge.rs:362-393 | splitting quoted arguments joined by spaces gives back the non-empty ones, so the whole list exactly when none is empty |

## Left out

- Real devices: symlinks, permissions, hard links, metadata and the reflink call. A tree maps paths to contents; calls fail for a missing source, a file/directory clash or a fault.
- Read errors while scanning or hashing, and edits to either tree while it is scanned or applied.
- Session and base are separate trees, and the staging name (a random UUID) occurs in neither.
- SHA-256 is an abstract function. For single files its soundness on two trees is the explicit condition `DigestSound`; results about the digest of a directory that say so take it to be free of collisions (`DirectoryDigest.Proper`). The bytes of a text are any encoding that goes character by character, and the walk is any order of the files that their paths determine. A path that is no valid text is replaced lossily by the source, which is not modelled.
- Operations of one branch manager interleave where `execute_merge` suspends; between suspensions an operation is one step, so threads that interleave inside a step are not modelled.
- The lock of the session manager never fails, so a staging session that is rolled back leaves the session table (`Branches.RollsBack`); what a session's directory contains is not tied to a branch.
- Timestamps, names, configuration and execution plans of branches; identifiers are fresh numbers.
- What the merge strategies compute, how changes are collected from a session and copied to staging: their outcome (an error, or a number of conflicts) is a parameter of the merge.
- Direct `update_status` by callers: a run uses the life-cycle and merge operations.
- The branching statuses of a task and their handlers: the poll loop passes no branch manager.
- The order of the active tasks by priority is any order; agent selection and capabilities are not modelled; agents report between tasks of a poll or between polls.
- Errors of a repository call change nothing in the table; calls that write and then report an error are not modelled.
- Widths of counters (`u32`, `u64` totals) other than in the delay arithmetic, and the build in which shifting by 64 or more wraps.
- Requests of a `chat` are a script of outcomes; the steps of other callers are placed between the last request and the report.
- Regular expressions: a parser is a function from texts to positioned matches. Wording of reports, durations and error texts.
- Paths in change lists are compared as strings; the conflict's description text.
- Myers diff, three-way merge, unified diffs and conflict markers. The results on edit scripts hold for every list of ranges that tiles base and target, whether its equal ranges are equal or not; which lists the diff algorithms produce is not part of the model.
- The kernel's own branch manager, event bus, registries, provider fallback chain, agents' reasoning loop and file tools: they would only add easier members.
