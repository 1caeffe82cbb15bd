# Taskflow protocols in Dafny

Taskflow moves Tickets through coding Attempts, integration into a target branch,
human review on GitHub and cleanup. The parts that are hard to get right are its
protocols: what survives a crash between two writes, an exception at any call, or
another process acting at the wrong moment. This project models those protocols and
proves what every run of them keeps, for every interleaving and every answer of git,
GitHub, the operating system and the tools Taskflow calls.

| Area | Modules |
|---|---|
| Integration run and crash recovery, one Ticket | `IntegrationSchema`, `IntegrationProtocol`, `IntegrationInvariant`, `IntegrationSafety`, `IntegrationSteps`, `CrashClassification`, `IntegrationRun`, `IntegrationProgress` |
| The reconciliation pass over all Tickets | `CrashReconciliation` |
| Managed processes and their termination | `ProcessLifecycle`, `ProcessTermination` |
| Cleanup after a merge or a cancellation | `CommitGraph`, `IntegrationCleanup` |
| Attempts, their event log and its replay | `AttemptLedger`, `AttemptStore`, `LifecycleReplay` |
| Attempt locks, PID files and the reaper | `AttemptResources`, `AttemptResourceManager` |
| The guards on `gh` command lines | `Text`, `GhApiGuard`, `GitHubPrAdapter`, `GhMergeRules` |
| Codex advisory payloads and their contract | `CodexAdvisory`, `CodexReview`, `CodexContract`, `CodexMeaning` |

`dafny verify dfyconfig.toml` checks everything.

## How to read it

**Step systems.** `IntegrationProtocol`, `ProcessLifecycle` and `AttemptResources` are
transition systems. Each database write, git command, GitHub call, system call or
transaction is one step; `Enabled` and `Apply` say when a step may happen and what it
does; a run is any sequence of enabled steps. The environment's moves are steps too:
crashes and deaths, commits and pushes by others, the merge watcher's writes, a process
group that shrinks. The theorems quantify over runs. History that no step reads (which
PRs were ever created, whether the branch was ever pushed, how many integrations were
completed, which signals were sent) is kept in the state so that they can be stated.

**Imperative parts.** Where the source changes things in place, a class does
(`Mirror`, `Host`, `Workspace`, `Store`, `Manager`, `Dict`), and its methods are proved
against functions and predicates of the old state. Between any two steps of such a
method other actors may act: `OthersAct` and `OthersCommit` take arbitrarily many of
their steps, so a method decides on what it last read or saw, which may be out of date.
Where `alone` or `still` holds they take none, and the contract then says more: that the
work is done, not only that nothing wrong is. `life` is how many more writes a process survives to make, so a method's
contract covers dying at every write.

**Independent specifications.** The loops are tied to definitions that do not mention
them. The `gh api` loop accepts exactly the argument lists that some list of argument
groups flattens to. The replay reports nothing exactly when every log is a walk. The
validator passes exactly the documents that meet `Contract`, and the payload builder,
which shares no code with it, is proved to produce such documents.

**Terms written out.** A definition that both a method and its specification use is also
stated in elementary terms, so that the two cannot drift together: the outcome of every
step of a run and where every dead step recovers to (`IntegrationSteps`), the fate of a
stranded Ticket by its records (`ReconciledByRecords`), what a cleanup may act on
(`Permitted`), the rows and events a call writes (`CreatedMeans`, `ClosedMeans`), the
paths and commands that merge (`GhMergeRules`), and the terms of the advisory contract
(`CodexMeaning`).

## Where the code does less than its documentation says

- **Crash cases.** A crashed run is meant to be classified A to E by the step it reached.
  A first integration always is, and is never F (`FirstIntegrationIsNeverF`). A
  re-integration is F exactly when the merge watcher noted a merge, which overwrites
  `last_integration_status`, after the run's last checkpoint (`CrashIsClassified`). The
  watcher defers a Ticket it reads as `integrating`, so such a note comes from a poll that
  read the Ticket before it entered (`NotePollPredatesEntry`): a run that enters with no
  poll in flight and its own checkpoint is never F (`QuietEntryIsNeverF`), and before
  every re-integration such a poll is possible (`MergeNoteHidesCheckpoint`). F is a human
  decision, and the other properties hold in those runs too.
- **Codex tool errors.** The payload written meets the artifact contract exactly unless an
  accepted Codex output itself sets `review_status` to `tool_error`: the status is copied,
  `tool_error` stays null, and the validator rejects the artifact
  (`ConfirmPayloadPasses`, `ToolErrorClaimIsAccepted`).
- **Released resources.** `released` is final exactly when no live reaper still holds a
  selection of the Attempt (`ReleasedIsFinalUnlessSelected`). One that does writes
  `reaped` or its block over it; `ReleasedIsNotFinal` is such a run.

## Model

| member | source | states |
|---|---|---|
| `IntegrationSchema.ValidateTransition` | agent_taskflow/integration_schema.py:98-130 | accepts exactly the fifteen moves listed, and blames an unowned status only for the status the table does not own |
| `IntegrationProtocol.HeadOnTaskBranch` | agent_taskflow/integration_git.py:663-707 | succeeds exactly when HEAD is on the task branch, the branch is HEAD, and both are the expected commit when one is given, and returns that commit |
| `IntegrationInvariant.RunIsRecoverable` | agent_taskflow/integration_controller.py:575-605 | at every step of a run the rows are such that a crash leaves a state the reconciler understands |
| `IntegrationInvariant.RunCase` | agent_taskflow/integration_crash_reconciliation.py:100-140 | the rows of a run at an `integrating` step classify as exactly that step's case |
| `IntegrationInvariant.EffectKeepsInv` | agent_taskflow/integration_controller.py:683-991 | every answered step of a run keeps the invariant |
| `IntegrationInvariant.RunStepKeepsInv` | agent_taskflow/integration_controller.py:993-1028 | so does every step that raises, before or after its effect, inside or outside the exception boundary |
| `IntegrationInvariant.ReconStepKeepsInv` | agent_taskflow/integration_crash_reconciliation.py:273-342 | so does every step of reconciliation, including a failed abort |
| `IntegrationInvariant.StepKeepsInv` | agent_taskflow/integration_controller.py:306-389 | so does every action: lock acquisition, crashes, the watcher's reads and writes, the queue, and anybody moving the clone, the target or the remote branch |
| `IntegrationSafety.RunsKeepInv` | agent_taskflow/integration_controller.py:542-1028 | the invariant holds in every state of every run |
| `IntegrationSafety.HistoryGrows` | agent_taskflow/integration_controller.py:872-919 | over every run, the PRs that exist on GitHub stay, in order, and a pushed branch stays pushed |
| `IntegrationSafety.AtMostOnePr` | agent_taskflow/integration_controller.py:887-919 | no two steps of one run of the system, whatever crashes, errors and retries lie between, create a PR for the Ticket |
| `IntegrationSafety.RebaseUnpublished` | agent_taskflow/integration_controller.py:701-711 | when `git rebase` starts, Taskflow has neither pushed the branch nor created or recorded a PR |
| `IntegrationSafety.NoRebaseAfterPush` | agent_taskflow/integration_controller.py:872-885 | a rebase never starts after a push, including a push that landed but was reported failed |
| `IntegrationSafety.StepKeepsPublished` | agent_taskflow/integration_controller.py:713-789 | each step keeps what the run knows of the validated commit, its branch, the fetched ref and the remote |
| `IntegrationSafety.RecordedBaseIsPublished` | agent_taskflow/integration_controller.py:845-939 | when `integrated_base_sha` is recorded the validators have passed on a commit whose history holds it, and the remote branch is that commit, pushed or skipped, unless somebody else moved the worktree or the remote under the run |
| `IntegrationSafety.ReintegrationCount` | agent_taskflow/integration_controller.py:818-822 | in every state of every run the count is max(0, completed integrations - 1) |
| `IntegrationSafety.ReconciliationIsLegal` | agent_taskflow/integration_crash_reconciliation.py:290-321 | the move made for any crashed Ticket is in the transition table and takes effect |
| `IntegrationSafety.ReconciliationKeepsRecords` | agent_taskflow/integration_crash_reconciliation.py:32-36 | reconciliation changes only the status and the checkpoint: not the count, the base, the PR or the queue |
| `IntegrationSteps.RunsBeginReady` | agent_taskflow/integration_controller.py:498-539 | a run begins exactly on a Ticket ready for integration whose PR is not recorded merged, as a first integration exactly without a PR |
| `IntegrationSteps.HolderMoves` | agent_taskflow/integration_schema.py:98-109 | a run or the reconciler changes a status only along four moves, and only the reconciler requeues |
| `IntegrationSteps.FailuresStop` | agent_taskflow/integration_controller.py:686-692 | a failed branch check, fetch or PR update stops for a decision; success goes on, and a fetch gives the latest target and remote ref |
| `IntegrationSteps.UpdateOutcomes` | agent_taskflow/integration_controller.py:701-723 | a successful update goes on with its commit, a conflict goes to the resolver, any other failure aborts |
| `IntegrationSteps.ResolutionIsChecked` | agent_taskflow/integration_git.py:592-660 | a resolution goes on exactly when claimed, with nothing in progress, a clean tree, no conflict markers, a new HEAD and the target in its history |
| `IntegrationSteps.BranchIsChecked` | agent_taskflow/integration_controller.py:780-789 | validators run exactly when HEAD is on the branch and is the branch, and on that commit |
| `IntegrationSteps.ValidatorsAreHeeded` | agent_taskflow/integration_controller.py:795-815 | only validators that passed let a run go on |
| `IntegrationSteps.BranchIsRechecked` | agent_taskflow/integration_controller.py:841-857 | publishing begins exactly when HEAD and the branch are still the validated commit |
| `IntegrationSteps.PushIsSkippedOnlyUpToDate` | agent_taskflow/integration_controller.py:859-871 | a push is skipped exactly for an up-to-date re-integration, not asked to push anyway, whose validated commit is on the remote ref |
| `IntegrationSteps.PushOutcomes` | agent_taskflow/integration_controller.py:872-885 | a reported push failure stops; success publishes the branch and goes on to create or update the PR |
| `IntegrationSteps.PrOutcomes` | agent_taskflow/integration_controller.py:887-919 | a created PR is recorded next, with its number; a failed creation stops |
| `IntegrationSteps.CheckpointOutcomes` | agent_taskflow/integration_controller.py:575-582 | each checkpoint writes its marker and nothing else, before the step it announces |
| `IntegrationSteps.CompletionOutcomes` | agent_taskflow/integration_controller.py:921-948 | completion records PR, base, count, checkpoint and dequeue in one write; then review; then the lock is released |
| `IntegrationSteps.StopOutcomes` | agent_taskflow/integration_controller.py:607-651 | a stop moves an integrating Ticket to `needs_decision`, then says so in the checkpoint, and ends |
| `IntegrationSteps.RaisesEndInDecision` | agent_taskflow/integration_controller.py:993-1028 | whatever a step of the git phase raises before its effect, the Ticket is in `needs_decision` two steps later |
| `IntegrationSteps.LateRaisesEndInDecision` | agent_taskflow/integration_controller.py:993-1028 | and after its effect too, unless that took the Ticket to review |
| `IntegrationSteps.CaseLetters` | agent_taskflow/integration_crash_reconciliation.py:100-140 | the case letter of a run at each step, by the step itself |
| `IntegrationSteps.CrashesRecover` | agent_taskflow/integration_crash_reconciliation.py:90-140 | over every run, the status each crashed step recovers to: review once integrated; a human while a first integration publishes or creates its PR, or when a merge note hid the checkpoint; the queue otherwise, before publishing only with nothing left in progress |
| `CrashClassification.FirstIntegrationIsNeverF` | agent_taskflow/integration_crash_reconciliation.py:90-140 | a crash of a first integration at any `integrating` step classifies as that step's case, and never as F |
| `CrashClassification.CrashIsClassified` | agent_taskflow/integration_crash_reconciliation.py:90-140 | a crash of any integration classifies as its step's case, or as F exactly when it re-integrates and the watcher noted a merge after the run's last checkpoint |
| `CrashClassification.NotePollPredatesEntry` | agent_taskflow/integration_watcher.py:295-318 | a note that lands on an `integrating` Ticket comes from a poll that read it before it entered |
| `CrashClassification.QuietEntryIsNeverF` | agent_taskflow/integration_watcher.py:295-318 | a run that enters with its own checkpoint and no poll in flight is never F |
| `CrashClassification.MergeNoteHidesCheckpoint` | agent_taskflow/integration_watcher.py:580-616 | before every re-integration enters, a poll may read the Ticket and note its merge after the entry; a crash is then F |
| `IntegrationRun.StepAdvances` | agent_taskflow/integration_controller.py:607-651 | every step of a run, answered or raised, brings it closer to releasing the lock |
| `IntegrationRun.StepStaysOnCourse` | agent_taskflow/integration_controller.py:993-1028 | a step whose exception does not leave the call keeps the Ticket on a course that ends outside `integrating` |
| `IntegrationRun.IntegrateTask` | agent_taskflow/integration_controller.py:306-389 | from every state a dead holder can leave, one call that returns normally leaves the Ticket outside `integrating`, whatever anybody else does meanwhile; if nobody else moves its status it ends in `needs_review` or `needs_decision`, or still queued with its PR merged, and a Ticket in another status is untouched |
| `IntegrationProgress.SmoothStep` | agent_taskflow/integration_controller.py:683-991 | where every step succeeds, each step leads to the next with the rows, the clone and the remote as that step leaves them |
| `IntegrationProgress.IntegratesWhenAllGoesWell` | agent_taskflow/integration_controller.py:542-991 | a queued Ticket whose every step succeeds ends in review, dequeued, with the updated branch on the remote, the base and its one PR recorded, and only a re-integration counted |
| `CrashReconciliation.NoneStranded` | agent_taskflow/integration_crash_reconciliation.py:193-247 | after a pass no Ticket whose clone or any record is the repository's is `integrating`, and one requeued before publishing has no operation in progress |
| `CrashReconciliation.ReconciledByRecords` | agent_taskflow/integration_crash_reconciliation.py:90-140 | the case, status, checkpoint and operation a stranded Ticket ends with, by its records: elsewhere or unexplained ones go to a human |
| `CrashReconciliation.AttributedMeans` | agent_taskflow/integration_crash_reconciliation.py:165-190 | a Ticket is the repository's exactly when its clone is the lock's or one of its four records names it |
| `CrashReconciliation.ReportsMean` | agent_taskflow/integration_crash_reconciliation.py:193-247 | each report is of a Ticket that was stranded and says where it now is, and each such Ticket has one |
| `CrashReconciliation.OthersUntouched` | agent_taskflow/integration_crash_reconciliation.py:165-190 | a Ticket whose records and clone are all elsewhere is never changed, even by a pass that dies |
| `CrashReconciliation.RerunFinishes` | agent_taskflow/integration_crash_reconciliation.py:250-342 | after a pass that died anywhere, a rerun finishes what that pass decided, or decides with its own abort outcome; the two differ only where git could abort an operation in one pass and not in the other; only the checkpoint of a moved Ticket may differ |
| `CrashReconciliation.AnyNumberOfDeaths` | agent_taskflow/integration_crash_reconciliation.py:250-342 | any number of dying passes, whatever their abort outcomes, is one pass that died |
| `CrashReconciliation.NothingToReport` | agent_taskflow/integration_crash_reconciliation.py:38-39 | a pass reports nothing exactly when nothing is stranded |
| `CrashReconciliation.Mirror.ReconcileOne` | agent_taskflow/integration_crash_reconciliation.py:250-342 | makes a prefix of its writes, all of them if it lives, and touches no other Ticket |
| `CrashReconciliation.Mirror.ReconcileIntegratingTickets` | agent_taskflow/integration_crash_reconciliation.py:193-247 | every Ticket is as the pass defines it or a prefix of that, and the reports are exactly the stranded Tickets' |
| `CrashReconciliation.RecoverAfterDeath` | agent_taskflow/integration_crash_reconciliation.py:193-342 | a pass that may die, a rerun and a further pass: every status is what one uninterrupted pass gives with the abort outcome of one of the two, nothing is stranded, and the further pass reports nothing |
| `ProcessLifecycle.ForwardIsGuardClosure` | agent_taskflow/executor_process_schema.py:124-149 | the forward order is the closure of the trigger's edges and has no way back |
| `ProcessLifecycle.GuardEdges` | agent_taskflow/executor_process_schema.py:124-149 | the trigger allows exactly these twelve moves |
| `ProcessLifecycle.FinalizeKeepsCode` | agent_taskflow/executor_launch.py:547-667 | `finalize` records the exit code it is given, and without one keeps an ended row's; it ends `exited` exactly when verified or already so |
| `ProcessLifecycle.CodesAreReported` | agent_taskflow/executor_launch.py:547-667 | over every run, the exit code a row holds is one some actor reported |
| `ProcessLifecycle.StepKeepsInv` | agent_taskflow/executor_launch.py:404-667 | every transaction, signal and group change keeps the row, log and signal invariant |
| `ProcessLifecycle.RunsGoForward` | agent_taskflow/executor_launch.py:702-772 | under every interleaving the row never moves back, log and signals only grow, and a recorded exit code stays |
| `ProcessLifecycle.LogIsWalk` | agent_taskflow/executor_launch.py:702-772 | the event log without mismatch notes is a continuous walk of guard edges and self-loops that ends at the row's state |
| `ProcessLifecycle.ExitedMeansVerified` | agent_taskflow/executor_launch.py:547-667 | in every reachable state a row is `exited` exactly when it is verified, and its group is empty then |
| `ProcessLifecycle.ExitIsFinal` | agent_taskflow/executor_launch.py:547-667 | an `exited` row stays exited and verified, with its group empty, whatever is written later |
| `ProcessLifecycle.SignalsFollowRecords` | agent_taskflow/executor_launch.py:518-545 | every signal was recorded before it was sent, and a SIGKILL after a recorded SIGTERM |
| `ProcessLifecycle.KillRecordsFollowTerm` | agent_taskflow/executor_launch.py:518-545 | a recorded SIGKILL, sent or not, follows a recorded SIGTERM |
| `ProcessTermination.Host.MarkSignal` | agent_taskflow/executor_launch.py:518-545 | the mark is recorded exactly when the guard allows it from the row the transaction finds, which others may have moved since the last read |
| `ProcessTermination.Host.FinalizeRow` | agent_taskflow/executor_launch.py:547-667 | whatever others do before it, a started row ends `exited` or `exit_unverified`, `exited` exactly when verified, and a late unverified report does not undo an exit |
| `ProcessTermination.Host.WaitGroupExit` | agent_taskflow/executor_launch.py:986-992 | reports exactly whether the group was empty at its last look |
| `ProcessTermination.Host.Signalled` | agent_taskflow/executor_launch.py:1050-1067 | the group is signalled, after the record, unless the row read back has already moved further |
| `ProcessTermination.Host.TerminateRegisteredProcess` | agent_taskflow/executor_launch.py:995-1122 | whoever wins each race between its steps, a row read active with proven identity comes back `exited` or `exit_unverified`; it fails exactly for unproven identity, and then sends nothing; it sends nothing to a group it saw empty, never SIGKILL before its own or a recorded SIGTERM, and SIGKILL only to a group alive after the grace period; with no other actor it sends SIGTERM once and gives up unverified only after both |
| `ProcessTermination.Host.RunManagedProcess` | agent_taskflow/executor_launch.py:1133-1530 | a started process comes back ended, `exited` exactly when verified and never over a live group, with an exit code, its own unless another actor reported one; a failed preflight or start comes back as such; it fails only for an identity it cannot prove, with the started row left in place |
| `IntegrationCleanup.PublishedHistory` | agent_taskflow/integration_cleanup.py:606-623 | what a published commit reaches is published |
| `CommitGraph.ReachesMeansHistory` | agent_taskflow/integration_git.py:415-425 | a commit is in another's history exactly when parents lead from the one to the other |
| `IntegrationCleanup.DeletingLosesNothing` | agent_taskflow/integration_cleanup.py:515-550 | deleting a branch whose tip is published keeps every commit any of its tips reached |
| `IntegrationCleanup.RetryStaysEligible` | agent_taskflow/integration_cleanup.py:289-363 | removing the worktree, or both, leaves the request one a retry carries through |
| `IntegrationCleanup.Workspace.RemoveWorktree` | agent_taskflow/integration_cleanup.py:488-512 | while others commit, the branch only grows, and nothing but the worktree goes |
| `IntegrationCleanup.Workspace.DeleteLocalBranch` | agent_taskflow/integration_cleanup.py:515-550 | the branch goes only at the verified tip, and no commit it ever held is lost |
| `IntegrationCleanup.Workspace.PerformCleanup` | agent_taskflow/integration_cleanup.py:366-485 | stops only at a prefix of its removals and writes, loses no commit, and reports success only in the final state |
| `IntegrationCleanup.Workspace.VerifyMerge` | agent_taskflow/merge_verification.py:84-148 | verified means fetched, the PR merged, and its known merge commit in the fetched target's history; where git works it is exactly that |
| `IntegrationCleanup.Workspace.RunIntegrationCleanup` | agent_taskflow/integration_cleanup.py:174-363 | it acts only with every permission, written out in `Permitted`, and answers otherwise as `Answered` says; refusals and previews change nothing but the fetched ref; no commit is lost; completed means merged into the target, worktree and branch gone, from the status the attempt read, and it raises exactly when others moved that first; every row it writes is true when written; any earlier stop leaves the same final state to reach, and a permitted request permitted if nobody interfered; after the completed write only the queue row and the final event can be missing |
| `IntegrationCleanup.Workspace.CleanUpWithRetries` | agent_taskflow/integration_cleanup.py:366-485 | after any attempts that died or were left incomplete, whatever git did, with nobody interfering a permitted cleanup is still permitted and an attempt in which git succeeds reaches the state an uninterrupted run reaches, unless the Ticket is already completed, and then it is refused |
| `AttemptLedger.StepKeepsInv` | agent_taskflow/attempt_schema.py:89-193 | each call keeps `active_attempt_id`, numbers and logs in agreement |
| `AttemptLedger.OneActiveAttempt` | agent_taskflow/attempt_store.py:245-336 | over every sequence of calls a Task's `active_attempt_id` is null with no active Attempt, or names its only active one |
| `AttemptLedger.NumbersAreDense` | agent_taskflow/attempt_store.py:262-270 | over every sequence of calls a Task's Attempts are numbered exactly 1 to n, each once |
| `AttemptLedger.LogOnlyGrows` | agent_taskflow/attempt_schema.py:156-170 | over every sequence of calls the log only grows and no Attempt changes its Task or number |
| `AttemptStore.Store.NextNumber` | agent_taskflow/attempt_store.py:262-270 | one more than the highest number of the Task, 1 when it has none |
| `AttemptStore.Store.CreateAttempt` | agent_taskflow/attempt_store.py:211-340 | success writes the Task's active id, a row with the status asked for, and its event; a refusal changes nothing; the invariant holds |
| `AttemptStore.Store.CloseAttempt` | agent_taskflow/attempt_store.py:342-416 | success clears the Task's active id, closes the row with the status asked for, and appends the event from the old status to it; a refusal changes nothing; the invariant holds |
| `AttemptStore.CreatedMeans` | agent_taskflow/attempt_store.py:211-340 | a creation succeeds exactly for an allowed status, readable texts, a new id and a known Task with nothing active, and numbers the Attempt next |
| `AttemptStore.ClosedMeans` | agent_taskflow/attempt_store.py:342-416 | a close succeeds exactly for an allowed status, a readable reason and an active Attempt |
| `LifecycleReplay.ReplayAttempt` | agent_taskflow/concurrency_rehearsal.py:466-497 | finds nothing exactly when the events are a legal walk from a creation status to the row's status, for any graph, and otherwise finds exactly the broken links, illegal steps and wrong ends |
| `LifecycleReplay.LifecycleLogErrors` | agent_taskflow/concurrency_rehearsal.py:445-498 | reports nothing exactly when every Attempt's log is a legal walk, and otherwise names exactly the Attempts at fault |
| `LifecycleReplay.WalkExtends` | agent_taskflow/concurrency_rehearsal.py:476-492 | appending a continuing event keeps a walk exactly when its edge is legal |
| `LifecycleReplay.ReplayJudgesRuns` | agent_taskflow/concurrency_rehearsal.py:445-498 | for every graph and every sequence of creations and closes, the replay is clean exactly when every call that succeeded took a legal edge |
| `AttemptResources.StepKeepsInv` | agent_taskflow/attempt_resources.py:115-142 | every step by any process keeps the lock, PID file and row in agreement, and never brings a departed owner back |
| `AttemptResources.ReapedMeansGone` | agent_taskflow/attempt_resources.py:669-733 | in every interleaving a row is `reaped` only after its allocator died or released its flock, and from then on nobody, and no other allocator, owns that Attempt's lock |
| `AttemptResources.LiveOwnerIsKept` | agent_taskflow/attempt_resources.py:316-393 | in every interleaving a live owner keeps its flock and its PID file and is never marked `released` or `reaped` |
| `AttemptResources.OneOwnerEver` | agent_taskflow/attempt_resources.py:316-316 | the process whose `mkdir` made the directory is the only owner the Attempt ever has |
| `AttemptResources.ReleasedIsFinalUnlessSelected` | agent_taskflow/attempt_resources.py:669-744 | in every reachable state a `released` row stays released in every continuation if and only if no live reaper holds a selection of the Attempt |
| `AttemptResources.ReleasedIsNotFinal` | agent_taskflow/attempt_resources.py:735-744 | a reachable run in which a reaper's block overwrites `released` |
| `AttemptResourceManager.Manager.Allocate` | agent_taskflow/attempt_resources.py:316-393 | success holds flock, PID file and row; a taken directory changes nothing; any other failure leaves the flock free and no PID file |
| `AttemptResourceManager.Manager.BeatHeart` | agent_taskflow/attempt_resources.py:602-613 | writes the caller's PID into an allocated or active row and nothing else |
| `AttemptResourceManager.Manager.ActivateRow` | agent_taskflow/attempt_resources.py:524-545 | the owner's row becomes active and nothing else changes |
| `AttemptResourceManager.Manager.Release` | agent_taskflow/attempt_resources.py:615-633 | returns with the PID file gone and the flock released before the row says `released`, whoever reaped meanwhile |
| `AttemptResourceManager.Manager.ReapOne` | agent_taskflow/attempt_resources.py:698-732 | ends `reaped` with the owner gone, or blocked, whatever others do between its steps; with no other actor it reaps exactly when the PID it reads is dead and the flock is free |
| `AttemptResourceManager.Manager.ReapStaleResources` | agent_taskflow/attempt_resources.py:669-733 | exactly the given Attempts whose row is allocated, active or blocked are reaped or blocked, none both, and the reaped ones have no owner |
| `GhApiGuard.OwnPullIsPositive` | agent_taskflow/github_pr_adapter.py:289-293 | the endpoint pattern matches exactly the decimal endpoints of positive PR numbers in the adapter's repository |
| `GhApiGuard.LoopAcceptsUpdates` | agent_taskflow/github_pr_adapter.py:256-295 | the index-driven loop accepts exactly the argument lists that are, in any order, one `-X PATCH`, one own pull request and one or two distinct title and body fields |
| `GitHubPrAdapter.FindExecutable` | agent_taskflow/github_pr_adapter.py:97-102 | the first token with that basename, or none |
| `GitHubPrAdapter.CollectPositionals` | agent_taskflow/github_pr_adapter.py:105-119 | the skip-next loop computes the positionals of the recursive definition, all of them non-flag tokens of the argv |
| `GitHubPrAdapter.ScanMethodAndEndpoints` | agent_taskflow/github_pr_adapter.py:126-157 | the index loop computes the method and endpoints of the recursive definition |
| `GitHubPrAdapter.ScanReadsGroups` | agent_taskflow/github_pr_adapter.py:126-157 | on an update the scan reads exactly the method and the endpoints and never a field's text |
| `GitHubPrAdapter.AssertNotAMergeCommand` | agent_taskflow/github_pr_adapter.py:167-206 | refuses exactly the argv the merge rules name |
| `GitHubPrAdapter.PrMergeIsRefused` | agent_taskflow/github_pr_adapter.py:167-183 | `gh ... pr merge` is refused whatever the executable's path and whatever global flags, with their values, precede or split it |
| `GhMergeRules.AdjacentPrMergeIsRefused` | agent_taskflow/github_pr_adapter.py:180-183 | so is any `gh` command whose positionals hold `pr` directly before `merge`, wherever |
| `GhMergeRules.MergePathMeans` | agent_taskflow/github_pr_adapter.py:68-72 | the three patterns match exactly `pulls/<digits>/merge`, `merges` and `graphql` in whole segments, with an optional slash and final newline |
| `GhMergeRules.RestMergeIsRefused` | agent_taskflow/github_pr_adapter.py:184-199 | `gh api` with such a path anywhere among its flags and fields is refused |
| `GhMergeRules.GitMergeIsRefused` | agent_taskflow/github_pr_adapter.py:200-206 | `git merge`, and `git push` with a colon in a later argument, are refused whatever path and global flags precede |
| `GhMergeRules.OwnerNameMeans` | agent_taskflow/github_pr_adapter.py:244-254 | a repository is `owner/name` exactly with two non-empty parts and one slash |
| `GhMergeRules.BasenameOfPath` | agent_taskflow/github_pr_adapter.py:97-102 | an executable is known by its last path component, whatever directory, trailing slash or dot |
| `GitHubPrAdapter.AssertGhApiAllowed` | agent_taskflow/github_pr_adapter.py:209-295 | admits exactly non-`api` commands and the adapter's own updates, and otherwise gives the first objection |
| `GitHubPrAdapter.AdmittedIsNoMerge` | agent_taskflow/github_pr_adapter.py:184-206 | the allowlist alone refuses every `gh` merge vector: an admitted `gh api` argv is refused by the merge guard only for a `git` found before `gh` |
| `GitHubPrAdapter.UpdatePasses` | agent_taskflow/github_pr_adapter.py:418-451 | for every executable and all title and body texts, what `update_pr` builds passes both guards exactly for an owner/name repository and a positive number, or an executable not named `gh` |
| `GitHubPrAdapter.UpdatePr` | agent_taskflow/github_pr_adapter.py:418-451 | runs exactly in that case the PATCH of that pull request with the title and the body under their own names, and nothing when neither field is given |
| `CodexAdvisory.NormalizeTaskKey` | agent_taskflow/tasks.py:10-20 | gives a legal key or none, and leaves a legal key alone |
| `CodexAdvisory.TaskKeysMayBePadded` | agent_taskflow/tasks.py:10-20 | gives a key exactly for that legal key with any white space around it |
| `CodexReview.ValidatedChecklist` | agent_taskflow/codex_advisory_review.py:1016-1058 | accepts exactly well-formed contributions and merges them over the default areas |
| `CodexReview.ValidatedPriorities` | agent_taskflow/codex_advisory_review.py:1061-1113 | accepts exactly non-empty lists of well-formed entries, cleaned in order |
| `CodexReview.MergeCodexFindings` | agent_taskflow/codex_advisory_review.py:949-1013 | refuses exactly unacceptable output and then leaves the payload unchanged; otherwise contributes only the fields Codex may set |
| `CodexReview.ApplyToolError` | agent_taskflow/codex_advisory_review.py:1116-1142 | the payload and the invocation record after a tool error |
| `CodexReview.BuildConfirmRunPayload` | agent_taskflow/codex_advisory_review.py:1145-1246 | the payload is the specified one for every outcome of the call |
| `CodexContract.CheckChecklist` | agent_taskflow/codex_advisory_artifact_contract_validator.py:362-414 | errors name exactly the areas missing or malformed |
| `CodexContract.Validate` | agent_taskflow/codex_advisory_artifact_contract_validator.py:126-359 | passes exactly the artifacts that meet the contract |
| `CodexMeaning.ContractMeans` | agent_taskflow/codex_advisory_artifact_contract_validator.py:224-359 | the contract, field by field, with every allowed value listed |
| `CodexMeaning.AcceptableMeans` | agent_taskflow/codex_advisory_review.py:949-1000 | what Codex may contribute, field by field |
| `CodexMeaning.MergedMeans` | agent_taskflow/codex_advisory_review.py:1003-1013 | ten fields are copied when given; every other field, apart from the two lists, keeps its value |
| `CodexMeaning.MergedChecklistMeans` | agent_taskflow/codex_advisory_review.py:1016-1058 | an area Codex covers becomes exactly its status, summary and findings; the others keep their entry |
| `CodexMeaning.CleanPrioritiesMean` | agent_taskflow/codex_advisory_review.py:1061-1113 | priorities are kept one for one with exactly their number, area, reason and checks |
| `CodexMeaning.FailuresMean` | agent_taskflow/codex_advisory_review.py:1195-1242 | a call fails exactly unless it exits 0 with acceptable output, and each failure has its own category |
| `CodexMeaning.ToolErroredMeans` | agent_taskflow/codex_advisory_review.py:1116-1142 | a tool error forces the status, the unknown risk and the invariants, and states its category and message |
| `CodexMeaning.InvocationMeans` | agent_taskflow/codex_advisory_review.py:1116-1142 | the invocation record carries the tool error, and a parse error only when there was one |
| `CodexMeaning.CallIsRecorded` | agent_taskflow/codex_advisory_review.py:1171-1176 | whatever came of the call, the payload written records that it was made |
| `CodexContract.MergeAdvises` | agent_taskflow/codex_advisory_review.py:1003-1013 | merging acceptable output keeps the advisory invariants, the enums, the coverage and the priorities |
| `CodexContract.ConfirmPayloadPasses` | agent_taskflow/codex_advisory_review.py:1195-1246 | for every call outcome and output, the written payload meets the contract exactly with its companions present, its own task expected, and no accepted claim of `tool_error` |
| `CodexContract.DryRunPasses` | agent_taskflow/codex_advisory_review.py:532-616 | a dry run's payload meets the contract exactly with its markdown present and its own task expected |
| `CodexContract.WritesAlways` | agent_taskflow/codex_advisory_review.py:619-654 | the check before writing never fires, whatever Codex answered |
| `CodexContract.ToolErrorClaimIsAccepted` | agent_taskflow/codex_advisory_review.py:982-987 | an output that is accepted and breaks the contract |
| `CodexContract.ReviewThenValidate` | agent_taskflow/codex_advisory_review.py:1145-1246 | building the payload and validating it finds errors exactly when an accepted output claims a tool error |

## Left out

Integration:

- Human moves out of `needs_decision`, and the code that supersedes a PR, are not part of the model; at most one PR is a statement about automated runs.
- The repository lock is seen from one Ticket: a holder working on another Ticket is a free lock that others' moves pass by. Waiting for the lock, dry runs and the refusals before it are not modelled.
- The watcher's requeue writes the status and the queue row in two transactions; the model takes them as one.
- A PR's `open` or `closed` state is not modelled, so the watcher may poll a PR it would no longer pick up.
- The records of a Ticket are taken to name one repository in the step system; `CrashReconciliation` models conflicting records.
- A git update that reports success contains the target it was given. Others may move the worktree or the remote at any time, and `RecordedBaseIsPublished` says what holds when they did not.
- Reports come in table order; the source sorts them by key. An exception inside the reconciler counts as its death.
- Event rows, evidence files, validators' contents, reviewer hints and PR bodies carry no protocol state.

Processes:

- `/proc`, signals and SQLite are atomic looks and transactions; a group seen empty stays empty. Reuse of a PID between the identity check and the signal is not excluded by the code and not claimed.
- The launcher's direct `terminate` of a child whose identity it could not record is outside the signal claim. The one-active-process index over several rows of an Attempt is not modelled.

Cleanup:

- Others move the Ticket's status just before the completed write, the one place that reads it again, and only a cleanup completes a Ticket. Fetches see the remote as it is when the attempt runs. A worktree removal cut short inside git itself is not modelled.
- On the cancelled route nothing is fetched: what is published is judged by the remote-tracking ref as it stands, as the source does.

Attempts:

- Legacy identities, result columns and the closeout ledger are not modelled; nor are the runtime's own status changes and heartbeats between a creation and a close, so in `LifecycleReplay` those events occur only in the arbitrary logs `LifecycleLogErrors` accepts.
- PIDs are not reused in `AttemptResources`, and children do not inherit the flock. Worktree provisioning is one status write. The reaper's lease condition is the choice of the Attempts it is given.

Guards and Codex:

- JSON text, fenced blocks and the file system are not modelled: output is an object or nothing, and an object's keys are the names the code reads or other names. The paths, review dimensions and evidence a payload copies in are one given `context`.
- `MergeCodexFindings`: refusal texts do not name the offending area or entry, because the order of a dictionary would show in them.

Dispatching, approval and admission leases call executors and gates one after another; issue ingestion, observability and the rehearsal harness read, normalise and report. None of them is part of this model.
