# Verification model of jelly-agent

jelly-agent runs language-model agents that may execute commands on a person's behalf. This project models the
parts of it that carry state from step to step and proves what they promise. To verify it, use
`dafny verify dfyconfig.toml` with Dafny 4.11.

## The parts

**Executing approved commands** (`Execution*.dfy`). Two database tables, one container daemon and one directory of
workspaces are shared by any number of servers and cleaners. `ExecutionTables` has one function per SQL statement;
`ExecutionProtocol` is the transition system over them, in which any process may run between two steps of another,
the clock may advance, a process may stop for good, and the daemon may act late on a create or start request.
`ExecutionInvariant` and `ExecutionTheorems` hold the whole-run results, `ExecutionAgreement` the relation between
what an approval shows and how its run ended, `ExecutionConsent` who let a command run, told by the actions of a run
alone, `ExecutionEffects` what each step does to each field, `ExecutionWitnesses` concrete runs that show where a
stronger claim would be false. `ExecutionContainers` says what a cleaned row means for the container it names.
`ExecutionHost`, `ExecutionWorker` and `ExecutionRecovery` are the code that issues the statements: each method is
proved to be a path of that transition system.

**Code projects** (`Sync*.dfy`). Project list, reservations and snapshot directories, with pulls in the background,
edits in the foreground, disk faults and crashes. `SyncHistory` says field by field what each step writes and what a
project's fields tell about the pulls before. `SyncStore` is the store that works on the list.

**Searching a stored delivery** (`Search.dfy`). One pass with a ring and a list of waiting hits against
"all lines, then slice".

**Compacting a conversation** (`Tokens`, `HistorySpec`, `HistoryTheorems`, `History`). The estimate, the grouping
and the three stages; `History` works on message objects of the caller without writing to them.

**Restricted shell and policy** (`Shell*.dfy`, `Policy.dfy`). Parser and printer against the quoting rules of
section 2.2 of the POSIX.1-2017 Shell Command Language, and the decision over segments and rules. `ShellAcceptance`
says exactly which texts are accepted and as what, `ShellRefusals` why the others are not, and `ShellSpellings` that
the ways to write a command agree.

**Copying a database** (`Decimals`, `Migrate*.dfy`). Batched insert-or-skip, key encoding and content comparison.

**Prompt-side bookkeeping** (`Budget*.dfy`, `Admit*.dfy`, `Health`, `Listing`). The ledger that parallel tool calls
draw on, the tool set from turn to turn, and the shared tool-list fetch with its verdicts.

**Handles and backoff** (`Handles.dfy`, `StoredTimes.dfy`, `Backoff.dfy`). Numbering of deliveries, the order of the
times they are stored with, and the wait before a retry.

## Where a plainer claim is false

- An approval's outcome is not always the image of its run's end. When Finish errors or matches no row, and the read
  after it fails or shows a row still in flight, the worker reports what it saw, and a cleaner may make the row
  unknown later (`ExecutionWitnesses.LostResultCanDisagree`). `ExecutionAgreement.OutcomeIsImageOfState` covers every
  other run, and `ExecutionAgreement.LostResultAgreesIff` says when the two agree all the same.
- "Cleaned" does not mean that the recorded container is gone. The scan's statement does not look at the cleanup
  state, so it can record a late container while a cleanup that found none is on its way, or long after it
  (`ExecutionWitnesses.AdoptedContainerCanSurviveCleaned`, `AdoptedContainerCanComeAfterCleaned`).
  `ExecutionContainers.CleanedContainerLivesIff` says that there is no other way. Such a container never ran and never
  will (`ExecutionTheorems.NoStartAfterCleaned`), and the next scan removes it (`ExecutionRecovery.Recover`).
- A project can stay queued with nobody pulling, after one of exactly two kinds of disk fault (`SyncTheorems.StuckExactlyByFault`).
- Extra rules can lower one thing: a segment that nothing matched, which is asked about by default
  (`Policy.LoweredIff`, `Policy.OneRuleCanAllow`).
- The queue of rounds is not always equal to the rounds with an allowance (`BudgetQueue.NewestCanLoseItsAllowance`).
  `BudgetQueue.QueueIsKeysIff` says exactly when it is.
- A handle has more than one spelling (`Handles.LabelOfParse`). Rows from before numbering existed get distinct
  numbers exactly when no two of one session have the same time and call id (`Handles.BackfillIsUnique`).
- Those rows are not always numbered in order of arrival, contrary to the comment in internal/record/store.go: their
  times are compared as texts, and trimming zeros lets a later text sort first (`Handles.LaterRowCanGetSmallerNumber`).
  `Handles.NumberedByArrivalIff` has the exact condition.
- Adapting a value to a boolean column changes an integer other than 0 and 1 (`MigrateValues.CoerceKeepsCanon`).

## Conventions

A SQL statement is one atomic step that applies or reports zero rows. One that errors is the statement, or no
statement, followed by the process giving up; only after Finish does a worker go on, so that step has its own actions.
Ids, nonces and container ids are drawn once and never reused. Clocks, daemon answers, disk faults, cancellations
and lost connections are parameters of the methods and actions of the transition systems. A statement with a time
uses the clock value its process read before, never a later one.

## Model

| member | source | states |
|---|---|---|
| ExecutionInvariant.InvReachable | internal/execution/journal.go:139-325 | every world that any interleaving of servers, workers, cleaners, scans, crashes and late daemon answers can reach satisfies the invariant |
| ExecutionInvariant.SoundKept | internal/execution/journal.go:139-325 | every single step keeps what the invariant says about any one id, in whichever role the id appears |
| ExecutionTheorems.RowsOnlyAdvance | internal/execution/journal.go:212-262 | over a whole run a row keeps its identity and its container id, goes prepared, running, terminal and never leaves a terminal state; an approval follows its state order, and its run id and outcome are written at most once |
| ExecutionTheorems.StepAdvances | internal/execution/approval.go:294-384 | no single step takes anything back in either table |
| ExecutionTheorems.CleanupMeansTerminal | internal/execution/journal.go:250 | a row under cleanup or cleaned is terminal |
| ExecutionTheorems.ConsumingNeedsConsent | internal/execution/approval.go:321-363 | the step that consumes an approval found it approved and unexpired, for the exact agent, session, call, request and configuration hash |
| ExecutionTheorems.ApprovalConsumedOnce | internal/execution/approval.go:294-363 | in any run an approval is consumed at most once, and then by the caller it was given to |
| ExecutionTheorems.OneRunPerApproval | internal/execution/approval.go:335-362 | at most one run row ever names an approval row, and the approval names that run back |
| ExecutionTheorems.OneStartPerApproval | internal/execution/journal.go:212-221 | the command an approval pays for passes Starting at most once, and the daemon starts it at most once |
| ExecutionTheorems.ShownPendingIffApprovable | internal/execution/approval.go:248-256 | a pending row is shown as pending exactly while approving it would succeed |
| ExecutionTheorems.NoStartAfterCleaned | internal/execution/journal.go:212-325 | once a run is recorded cleaned no Starting commits for it and no container of it is started, whatever create or start is still on its way; the container of a run that had passed Starting is gone and stays gone |
| ExecutionTheorems.ClosedForever | internal/execution/journal.go:232-325 | a run that is over without a startable container stays so to the end of the run, with the same starts |
| ExecutionTheorems.WorkspaceOutlivesContainer | internal/execution/journal.go:277-318 | a container the daemon started never outlives its private workspace |
| ExecutionTheorems.OneCleanerAtATime | internal/execution/journal.go:239-257 | at any clock value at most one cleaner of a run holds an unexpired claim, and the row names it |
| ExecutionTheorems.OnlyClaimantsChangeCleanup | internal/execution/journal.go:250-320 | only the cleaner the row names writes cleaned or pending, and only a claim on a free or lapsed row writes cleaning |
| ExecutionAgreement.OutcomeIsImageOfState | internal/execution/runtime.go:562-584 | unless the worker settles for a result the row does not hold (Finish errored or was refused, and the read after it failed or showed a row in flight), the outcome an approval records for a run is the image of the terminal state the run is in, whoever wrote first |
| ExecutionAgreement.LostForever | internal/execution/runtime.go:565-572 | after such a report the row never gets a known end state, and the worker has nothing else to say |
| ExecutionAgreement.LostResultAgreesIff | internal/execution/runtime.go:562-572 | after such a report, record and ended row agree exactly when the result was unknown itself or a cleaner wrote the outcome before the worker did |
| ExecutionAgreement.UnreportedMeansCleaner | internal/execution/journal.go:262-276 | an outcome recorded while the worker of the run has not reported was written by a cleaner |
| ExecutionAgreement.ImageIsExact | internal/execution/approval.go:364-371 | of the states a run can end in only success is recorded as succeeded, only unknown as unknown, and the other three as failed |
| ExecutionWitnesses.LostResultCanDisagree | internal/execution/runtime.go:562-572 | a concrete run in which Finish errs, the read works and shows a row in flight, and outcome succeeded ends up recorded for a run in state unknown |
| ExecutionWitnesses.AdoptedContainerCanSurviveCleaned | internal/execution/journal.go:402-405 | a concrete run in which a container recorded by a scan during a cleanup still exists when the row says cleaned |
| ExecutionWitnesses.AdoptedContainerCanComeAfterCleaned | internal/execution/journal.go:402-405 | a concrete run in which the scan records a live container under a row that was cleaned before, which stays cleaned |
| ExecutionContainers.AllFitReachable | internal/execution/journal.go:232-325 | over any run: only recorded containers are removed, a claim that went past its inspection knows its container gone unless it inspected in vain, and under a claim that read the row without a container nobody is about to remove one |
| ExecutionContainers.CleanedContainerLivesIff | internal/execution/journal.go:232-407 | in every reachable world the container a cleaned row names still exists exactly when the scan recorded it after the inspection of the cleanup that holds the row had found the run without any |
| ExecutionContainers.CleanedMeansGone | internal/execution/journal.go:277-325 | any other container of a cleaned row is gone for good |
| ExecutionContainers.RecordedBeforeClaimIsGone | internal/execution/journal.go:277-287 | a container recorded before the cleanup claimed the row is gone for good once the row is cleaned |
| ExecutionContainers.FoundContainerIsGone | internal/execution/journal.go:277-287 | so is one that the cleanup found by name and recorded itself |
| ExecutionContainers.WhoAdopted | internal/execution/journal.go:402-405 | after an inspection in vain by the claim that holds the row, only the scan can have recorded a container |
| ExecutionConsent.DecisionIsWritten | internal/execution/approval.go:294-317 | an answer that finds its request pending is written as the person gave it: yes approves, no rejects, with time and author; yes needs the session, the configuration and the time to fit; any other answer writes nothing |
| ExecutionConsent.ShownStateIs | internal/execution/approval.go:248-256 | a pending request is shown expired when its time is over, invalidated when its configuration is not the loaded one, and every other state as it is stored |
| ExecutionConsent.StateIsNextState | internal/execution/approval.go:294-384 | every change of the state of an approval by any step, and when it happens: by a yes, by a no, by being spent, by being abandoned, and in no other way |
| ExecutionConsent.NewRowsArePending | internal/execution/approval.go:172-201 | a request begins pending and unanswered, with the terms of its caller and ten minutes to live |
| ExecutionConsent.DecidedByAPerson | internal/execution/approval.go:294-317 | over every run: an approval is approved, spent or abandoned exactly when a person said yes while it was pending, unexpired and under its configuration; it is rejected exactly when a person said no while it was pending |
| ExecutionConsent.RefusedIsNeverSpent | internal/execution/approval.go:294-363 | what was refused is rejected for good, and no later step spends or approves it |
| ExecutionConsent.NoRunWithoutConsent | internal/execution/approval.go:294-363 | before any step that spends an approval a person had approved this very agent, session, call and request, with the same configuration when it was asked for, decided on and run, and in time |
| ExecutionConsent.ConsumeIs | internal/execution/approval.go:321-363 | the transaction spends the approval exactly for its caller and for a run that names it, and writes both tables or neither |
| ExecutionConsent.SpendingBeginsTheRun | internal/execution/approval.go:321-363 | the step that spends an approval leaves it consumed and linked to a prepared run of its caller with a worker; when it does not spend, no table changes |
| ExecutionEffects.RowIs | internal/execution/journal.go:212-407 | every field of a run row after any step, told from the step and what it finds: who records a container, lets the command through, ends the run, claims it, gives the verdict, and that nothing else ever writes |
| ExecutionEffects.NewRowIs | internal/execution/journal.go:139-164 | rows come from a spent approval or from a run that needs none, prepared and empty, with half a minute more than the timeout |
| ExecutionEffects.DirectRunBegins | internal/execution/journal.go:186-197 | a run without an approval row begins unless its id is taken |
| ExecutionEffects.NativeBegins | internal/execution/approval.go:318-363 | an approval spent without a run row leaves a worker that has only its outcome to report |
| ExecutionEffects.EvidenceIs | internal/execution/journal.go:262-276 | an outcome is written only over none: by the worker the approval paid for, or by a cleaner as the exact image of the state it read |
| ExecutionEffects.OutsideIs | internal/sandbox/managed_docker.go:153-211 | what each step does to the daemon, its pending requests, the workspaces, the list of starts and the clock |
| ExecutionEffects.WorkerIs | internal/execution/runtime.go:279-584 | where a worker goes from each step, and that it reports success only for success and unknown only for unknown |
| ExecutionEffects.CleanerIs | internal/execution/journal.go:232-325 | where a cleaner goes from each step and what it reads under its claim |
| ExecutionEffects.ClaimIs | internal/execution/journal.go:232-257 | a claim makes a cleaner with a lease of half a minute exactly when the row is over or out of time and nobody holds it |
| ExecutionEffects.ProcessesStay | internal/execution/runtime.go:218-265 | no other step makes or moves a worker or a cleaner |
| ExecutionEffects.ApprovalStatementsTell | internal/execution/approval.go:294-384 | a statement on approvals reports exactly whether its guard matched, and one that did not match changed nothing |
| ExecutionEffects.CleanupStatementsTell | internal/execution/journal.go:250-407 | the same for the statements of a cleanup and of the scan |
| ExecutionHost.Store.Create | internal/execution/approval.go:172-201 | inserts a pending row with the caller, the configuration hash and ten minutes to live |
| ExecutionHost.Store.Resolve | internal/execution/approval.go:294-317 | one guarded UPDATE: approves only an unexpired pending row of the session under the same configuration, rejects any pending one |
| ExecutionHost.Store.ConsumeIntent | internal/execution/approval.go:321-363 | the transaction: consumed, run inserted and linked, or both tables as they were |
| ExecutionHost.Store.ConsumeNative | internal/execution/approval.go:318-363 | the same without a run row |
| ExecutionHost.Store.InsertRun | internal/execution/journal.go:161-164 | inserts the row unless the id is taken |
| ExecutionHost.Store.FinishApproval | internal/execution/approval.go:364-377 | writes the outcome only over an empty one, and only for the run the row names or none |
| ExecutionHost.Store.Abandon | internal/execution/approval.go:380-384 | an approved row that was never used becomes abandoned, nothing else changes |
| ExecutionHost.Store.Created | internal/execution/journal.go:212-217 | records the container once, for the owner, while prepared, unclaimed and before the deadline |
| ExecutionHost.Store.Starting | internal/execution/journal.go:218-221 | commits running only over a recorded container, while prepared, unclaimed and before the deadline |
| ExecutionHost.Store.Finish | internal/execution/journal.go:222-225 | writes a terminal state only over an unclaimed row in flight |
| ExecutionHost.Store.Claim | internal/execution/journal.go:250 | takes an ended or expired row that nobody holds; one in flight becomes unknown in the same statement |
| ExecutionHost.Store.RecordOutcome | internal/execution/journal.go:262-276 | completes the evidence of a consumed approval without outcome |
| ExecutionHost.Store.Adopt | internal/execution/journal.go:280 | records a found container under a row without one while the claim is current |
| ExecutionHost.Store.AdoptByScan | internal/execution/journal.go:403 | the same by the scan, without a claim but only for a row that is over |
| ExecutionHost.Store.Settle | internal/execution/journal.go:320 | only the claim the row names writes the verdict |
| ExecutionHost.Host.EnterCleanup | internal/execution/journal.go:232-276 | claim, read back, evidence: refused without a change, or the claimed row is terminal and its evidence written, with the state another worker committed in between kept |
| ExecutionHost.Host.ReleaseContainer | internal/execution/journal.go:277-287 | inspects by id or name, adopts, removes; without faults the run has no recorded container left |
| ExecutionHost.Host.Ask | internal/execution/approval.go:172-201 | a request for consent as a step of the protocol |
| ExecutionHost.Host.Decide | internal/execution/approval.go:294-317 | a decision as a step of the protocol: effective exactly when the guard of the statement holds |
| ExecutionHost.Host.Abandon | internal/execution/approval.go:380-384 | an abandoned approval as a step of the protocol |
| ExecutionHost.Host.SpendNative | internal/execution/approval.go:318-363 | an approval spent without a run row, as a step of the protocol |
| ExecutionHost.Host.BeginRun | internal/execution/journal.go:186-197 | a run without an approval row, as a step of the protocol |
| ExecutionHost.Host.Reclaim | internal/execution/journal.go:277-325 | container, workspace, verdict in that order: cleaned exactly when the answer is success, then container and workspace are gone |
| ExecutionHost.Host.Cleanup | internal/execution/journal.go:232-325 | one whole cleanup as a path of the protocol: refused it changes no row; else the run is terminal, a known result is kept, and it ends cleaned exactly on success; every other run, container and workspace is untouched |
| ExecutionWorker.Admit | internal/execution/journal.go:165-185 | passes exactly while the row is prepared, unclaimed, of this owner and before its deadline |
| ExecutionWorker.CreateContainer | internal/sandbox/managed_docker.go:153-175 | docker create up to its answer: a container is reported exactly when one was made and the answer arrived; it may exist although nobody was told |
| ExecutionWorker.Commit | internal/sandbox/managed_docker.go:176-187 | Created, identity check, Starting, in that order: the command is let through exactly when the row is untouched, its deadline is not over and the daemon is the same one; then the row says running with this container and a new deadline |
| ExecutionWorker.OpenWorkspace | internal/execution/runtime.go:407-470 | passes exactly when the checks, the read guard, the directory and its contents all do; then the workspace exists |
| ExecutionWorker.RunContainer | internal/sandbox/managed_docker.go:153-211 | from docker create to the end of the command: started exactly when the container is made and reported in time, the row is untouched and the daemon the same one |
| ExecutionWorker.Drive | internal/sandbox/managed_docker.go:153-211 | the attempt with all its early exits: the command is started exactly when the row is untouched, every call works and docker create answers before the deadline; then workspace, running row, container and start request are there and the result is the verdict of the container; otherwise it is failed or cancelled and nothing started |
| ExecutionWorker.Settle | internal/execution/runtime.go:562-572 | Finish, and unless it is confirmed the row read again: the own result is reported except when the read works and shows unknown, whether the statement errored, applied all the same, or matched no row |
| ExecutionWorker.Finish | internal/execution/runtime.go:562-584 | the deferred part: when the row takes the result and the daemon answers, the run ends as observed, is cleaned, and the outcome is recorded |
| ExecutionWorker.Execute | internal/execution/runtime.go:279-542 | a whole run: a path of the protocol with one start exactly under the condition of Drive; when the row takes the result it ends in the verdict of the container, or in failed or cancelled without a start; success is reported exactly for a started command that succeeded, and it is what the approval records |
| ExecutionWorker.ExecuteApproved | internal/execution/runtime.go:218-265 | from approval to outcome: without valid consent no table changes and nothing starts; otherwise the approval is spent on this run, the command starts exactly when every call works and docker create answers within the timeout and half a minute, and the outcome recorded and returned is succeeded exactly when the started command succeeded |
| ExecutionWorker.BeginApproved | internal/execution/approval.go:321-363 | spends the approval on a prepared row of the caller, or changes nothing |
| ExecutionRecovery.Candidates | internal/execution/journal.go:353-369 | exactly the rows that are over and not leased, and the cleaned ones with a workspace left |
| ExecutionRecovery.Consider | internal/execution/journal.go:383-407 | one listed container against the row its labels name: a problem exactly when there is no row, or the run is over and the container cannot be read or the row names another one; otherwise the container of a run that is over is on record and the run is to be cleaned |
| ExecutionRecovery.Discover | internal/execution/journal.go:376-408 | without a problem every listed container has a row, and one whose run is over is the recorded container of a run to clean; so is every readable container that is its own run's, whatever is wrong with others |
| ExecutionRecovery.CleanAll | internal/execution/journal.go:411-424 | one cleanup per run, repeats skipped, other runs untouched, successes and problems counted |
| ExecutionRecovery.Recover | internal/execution/journal.go:330-424 | running work is spared whatever fails; a readable container of its own claimable run is gone once that cleanup works, whatever is wrong with others; with no problem reported everything due is clean and no listed container outlives its run, however late it appeared; and when nothing is in the way no problem is reported |
| ExecutionRecovery.RowsAreTied | internal/execution/journal.go:212-217 | in every reachable world a recorded container carries the labels of its run |
| SyncTheorems.GoodReachable | internal/codeproject/sync.go:99-216 | the invariant over every interleaving of pulls, edits, deletes, crashes and restarts, disk faults included |
| SyncTheorems.OneSyncPerProject | internal/codeproject/sync.go:101-128 | two pulls that are still to publish are never for the same project |
| SyncTheorems.SnapshotsAreSound | internal/codeproject/sync.go:141-199 | a stored snapshot is always a complete directory of the stored revision of the stored repository, and no other project shares it |
| SyncTheorems.PublishFindsItsSource | internal/codeproject/sync.go:141-199 | when a pull publishes, its project is there with the address, branch and snapshot it began from and under its reservation, and what it publishes is its own tree |
| SyncTheorems.StaleReleaseIsNoOp | internal/codeproject/sync.go:130-136 | the deferred release after a pull never frees a newer one |
| SyncTheorems.StuckExactlyByFault | internal/codeproject/store.go:337-356 | a project comes to be shown in flight with nobody pulling exactly when the outcome could not be written or a restart could not mark it |
| SyncTheorems.FailedWriteStrands | internal/codeproject/sync.go:175-199 | that fault is possible: one failed write does it |
| SyncTheorems.InFlightIffReserved | internal/codeproject/sync.go:101-136 | a reservation always shows on disk under its own pull; without those faults the converse holds too |
| SyncTheorems.NeverStuck | internal/codeproject/sync.go:141-199 | without those faults no project is ever stuck |
| SyncTheorems.NoOrphans | internal/codeproject/store.go:873-877 | with no crash and no failed removal every directory is stored by a project or about to be published |
| SyncTheorems.GrantsSurviveEdits | internal/codeproject/store.go:645-776 | configuration edits and syncs never undo a grant update, however they interleave |
| SyncTheorems.WholeSync | internal/codeproject/sync.go:85-199 | an uninterrupted pull concludes the project, frees the reservation, puts the new tree in place and removes the old one |
| SyncHistory.ProjectIs | internal/codeproject/sync.go:101-216 | every field of a project after any step, told from the step and what it finds: phase, task and error of a pull, snapshot and revision, card, request and grants |
| SyncHistory.ProjectsAre | internal/codeproject/store.go:645-807 | projects come by saving and go by deleting; a new one was never pulled |
| SyncHistory.OthersStay | internal/codeproject/store.go:645-903 | a step reaches only the project it names; revoking an agent and a restart reach all |
| SyncHistory.ReservationIs | internal/codeproject/sync.go:101-173 | a project is reserved when a pull is queued and free when it publishes, written or not, or stops, and after a crash |
| SyncHistory.DirectoriesAre | internal/codeproject/sync.go:141-199 | directories are made by pulls; one is removed only as the replaced one, as the one of another repository or of a deleted project, or as the tree of a pull that could not publish |
| SyncHistory.WithoutKeepsOthers | internal/codeproject/store.go:880-903 | taking an agent off a list leaves exactly the grants of the others, as often as they were there |
| SyncHistory.PullBegins | internal/codeproject/sync.go:101-128 | a pull begins with its reservation, from the project as it is stored then |
| SyncHistory.PullMoves | internal/codeproject/sync.go:85-199 | a pull goes through its stages one by one and keeps the project it began with |
| SyncHistory.EveryPullCanMove | internal/codeproject/sync.go:85-199 | no pull is held up: its next stage can always come, with any error or any revision, and the unchanged revision reuses its directory |
| SyncHistory.BeginTells | internal/codeproject/sync.go:101-128 | who is told what: already running exactly under a reservation, begun exactly when free, stored and written, and then with the project as stored |
| SyncHistory.SaveTells | internal/codeproject/store.go:645-708 | refused as invalid, busy or for the disk exactly in those cases, and then nothing changed |
| SyncHistory.DeleteTells | internal/codeproject/store.go:777-807 | the same for deleting |
| SyncHistory.EditTells | internal/codeproject/store.go:759-776 | the same for grants and edits |
| SyncHistory.EndIsRecorded | internal/codeproject/sync.go:141-199 | over every run: a pull that ends with the disk at work is recorded in one step. A failed one shows failed and its error and leaves card, grants, snapshot and directories alone; one that worked shows succeeded, its tree and no error |
| SyncHistory.WholeFailure | internal/codeproject/sync.go:85-199 | a failed pull from end to end changes nothing but phase, task and error |
| SyncHistory.ShownAsPulled | internal/codeproject/sync.go:141-199 | over every run: a project shown as succeeded or failed is so because the last pull recorded for it ended that way, with that revision and directory or that error |
| SyncStore.Store.Begin | internal/codeproject/sync.go:101-128 | reserves and queues, or reports who is running, or fails without a trace |
| SyncStore.Store.SetPhase | internal/codeproject/sync.go:202-216 | changes the phase only for the pull that the row names |
| SyncStore.Store.Release | internal/codeproject/sync.go:130-136 | frees only its own reservation |
| SyncStore.Store.Publish | internal/codeproject/sync.go:141-199 | the last locked section: outcome written, old tree removed on success, own tree removed on failure |
| SyncStore.Store.MarkInterrupted | internal/codeproject/store.go:337-356 | every project left in flight becomes interrupted in one write |
| SyncStore.Store.Save | internal/codeproject/store.go:645-708 | refused while busy; another address or branch clears the snapshot; grants are never edited here |
| SyncStore.Store.Delete | internal/codeproject/store.go:777-807 | refused while busy; the project goes first, its directory after |
| SyncStore.Store.SetGrants | internal/codeproject/store.go:759-776 | replaces the grants of one project and nothing else |
| SyncStore.Store.RevokeAgent | internal/codeproject/store.go:880-903 | removes every grant of one agent from every project and nothing else |
| SyncStore.Store.Sync | internal/codeproject/sync.go:85-199 | begin, phase, pull, publication and release, composed in that order |
| SyncStore.UsableIs | internal/codeproject/sync.go:360-405 | a remembered failure counts for half a minute at most, a remembered answer while one of its two revisions is the stored one; behind means a stored revision that differs |
| SyncStore.Store.CheckRemoteCached | internal/codeproject/sync.go:360-405 | a remembered answer is used only while young and comparable with the stored revision, and the verdict always compares the stored revision with the head last seen |
| Search.CountsAgree | internal/ops/lines.go:16-25 | the line counter and the line scanner agree on every payload |
| Search.RawLinesReassemble | internal/record/search.go:177-188 | the raw lines with their newlines are the payload |
| Search.RawLinesAreUnique | internal/record/search.go:177-188 | they are the only way to cut the payload at its newlines |
| Search.ClipShows | internal/record/search.go:235-241 | a line of at most 400 runes is shown whole, a longer one as its first 400 and an ellipsis |
| Search.HitShowsRaw | internal/record/search.go:190-225 | a hit of the specification shows its own raw line and as many raw lines on each side as asked for and there |
| Search.BoundsAre | internal/record/search.go:86-153 | at most 200 hits, 20 unless the caller says, and at most 20 lines around each |
| Search.LineIsRawLine | internal/record/search.go:177-188 | a raw line is the delivered line, or the delivered line and one carriage return; it holds no newline |
| Search.MatchingIsExact | internal/record/search.go:205-212 | the specification lists every matching position once, in order |
| Search.NextLine | internal/record/search.go:177-188 | the scanner delivers the next line and where to go on |
| Search.FillAfter | internal/record/search.go:190-203 | exactly the waiting hits get the line, and those that need more stay in the list |
| Search.TakeLine | internal/record/search.go:185-225 | one turn of the loop keeps ring, waiting list, counters and hits equal to what the lines so far justify |
| Search.ScanMatches | internal/record/search.go:167-232 | one pass equals the plain reading: first matches in order with exact neighbours, total, exactness, truncation and line count; every hit shows the raw lines of the payload; an error exactly when the caller left |
| Search.Search | internal/record/search.go:86-153 | the same for any limit and context a tool may ask for, within the fixed bounds |
| Tokens.EstimateTokens | internal/tokens/tokens.go:12-22 | one token per wide character and one per started four of the others |
| Tokens.EstimateIs | internal/tokens/tokens.go:12-22 | a wide character is one token, and so are any four others, with what is left of them one more |
| Tokens.WideIs | internal/tokens/tokens.go:24-37 | which characters are wide |
| Tokens.EstimateConcat | internal/tokens/tokens.go:12-22 | monotone and subadditive in concatenation |
| Tokens.PrefixMonotone | internal/history/compact.go:271-283 | the estimate grows with the prefix |
| Tokens.SuffixMonotone | internal/history/compact.go:285-297 | the estimate grows with the suffix |
| Tokens.PrefixWithinTokens | internal/history/compact.go:272-283 | binary search finds the largest number of leading runes that fits |
| Tokens.SuffixWithinTokens | internal/history/compact.go:286-297 | the same from the end |
| Tokens.HeadAndTailApart | internal/history/compact.go:248-269 | head and tail of an oversized text never meet: the text is head, a non-empty middle, tail |
| HistoryTheorems.GroupsTile | internal/history/compact.go:173-190 | the groups are consecutive slices of the history with nothing left over |
| HistoryTheorems.RunsStayTogether | internal/history/compact.go:173-190 | no group boundary falls between a call and a response that directly follows |
| HistoryTheorems.GroupIs | internal/history/compact.go:173-190 | a group is one content, or a call with every response that directly follows |
| HistoryTheorems.EligibleIff | internal/history/compact.go:195-208 | the groups that may be compacted are all the leading ones that leave the recent contents alone |
| HistorySpec.ContentCosts | internal/history/compact.go:300-334 | a content costs four tokens and what goes on the wire of each part: its call, else its response, else its text |
| HistorySpec.HistoryCosts | internal/history/compact.go:300-334 | a history costs what its contents cost |
| HistorySpec.PartsTell | internal/history/compact.go:336-353 | a content has a call or a response exactly when one of its parts is one |
| HistorySpec.DefaultsAre | internal/history/compact.go:59-70 | a setting that is not positive means its default |
| HistoryTheorems.ContentCounts | internal/history/compact.go:213-242 | a content counts for as many truncated results as it has oversized ones |
| HistoryTheorems.FittingIsKept | internal/history/compact.go:94-110 | a history that fits is left alone, and the report says so |
| HistoryTheorems.ReportIs | internal/history/compact.go:94-149 | the report of a history over budget counts the contents before the cut and the oversized results of the groups that were shortened |
| HistoryTheorems.RecentIsSafe | internal/history/compact.go:195-208 | whatever is eligible leaves the last KeepRecent contents alone |
| HistoryTheorems.CutTrims | internal/history/compact.go:248-269 | a shortened result keeps id and name and both ends of its text with something cut out between |
| HistoryTheorems.TextTrims | internal/history/compact.go:248-297 | head and tail are the largest that fit and do not overlap |
| HistoryTheorems.ShortEntryTrims | internal/history/compact.go:213-242 | shortening a content trims oversized results and changes nothing else |
| HistoryTheorems.EscalatesOnlyWhenNeeded | internal/history/compact.go:111-138 | each stage stops at the first history that fits and starts only when the one before did all it could, so the dropped groups are the fewest, or all that are eligible |
| HistoryTheorems.CompactKeeps | internal/history/compact.go:94-149 | the result is at most one note and then everything from the dropped prefix on, at most trimmed; dropped plus kept is everything, no call is split from its responses, the recent contents stay, and a history that fits is returned as it is |
| History.Shorten | internal/history/compact.go:248-269 | None exactly when the text fits; otherwise id and name kept, with the largest head that fits two thirds of the cap and the largest tail that fits the rest |
| History.TruncateToolResults | internal/history/compact.go:213-242 | a shortened copy; every object in it is the one passed in or new |
| History.BuildGroups | internal/history/compact.go:173-190 | the slices tile the contents and end exactly where the groups of the specification end |
| History.ProtectedFrom | internal/history/compact.go:195-208 | the number of groups that end before the protected contents |
| History.RunStages | internal/history/compact.go:111-138 | the loops reach the first history that fits, stage by stage, and count what they dropped and shortened |
| History.Compact | internal/history/compact.go:94-149 | result and report are the specified ones for every policy, and no object of the caller is written |
| ShellTheorems.ParseAgreesWithPosix | internal/execution/parser.go:16-125 | a command the parser accepts is, token by token, what the quoting rules of section 2.2 of the POSIX.1-2017 Shell Command Language make of the text |
| ShellTheorems.ParsedIsWellFormed | internal/execution/parser.go:16-125 | accepted commands have 1 to 16 segments, plain names, printable arguments and known operators |
| ShellTheorems.ParsePrinted | internal/execution/parser.go:129-143 | parsing the printed script gives the command back, unless it is over 32 KiB |
| ShellTheorems.ScriptMeansCommand | internal/execution/parser.go:129-143 | however long, the POSIX reading of the printed script is exactly the argument lists and operators |
| ShellAcceptance.AcceptedIff | internal/execution/parser.go:16-125 | the parser returns a command exactly when the text is within 32 KiB, no character of it is refused where it stands, the command has 1 to 16 segments with plain names and known operators, and the POSIX reading of the text is that command |
| ShellRefusals.RefusalHasItsCause | internal/execution/parser.go:16-125 | each of the twelve refusals has its cause in the text: a character with its quoting, an unclosed quote, a lone ampersand, a segment without words or with a bad name at the end of what was read, a length or a number of segments |
| ShellSpellings.TypedIsParsed | internal/execution/parser.go:16-125 | a command typed without quoting, with blanks or tabs between words and operators, is read as it stands |
| ShellSpellings.TypedExample | internal/execution/parser.go:16-125 | kubectl get pods is read as its three words |
| ShellSpellings.QuotingsAgree | internal/execution/parser.go:44-94 | every argument written in single quotes, in double quotes or with backslashes is read as the argument itself |
| ShellSpellings.NameIsAscii | internal/execution/policy.go:127 | a name is ASCII letters, digits, underscores and dashes, and does not begin with a digit or a dash |
| Shell.Step | internal/execution/parser.go:44-117 | one turn of the byte loop takes one or two bytes and leaves a state from which the rest of the input reads to the same result, or gives the error the whole input gives |
| Shell.Parse | internal/execution/parser.go:16-125 | the byte loop computes the specified result: an accepted command is what the text spells, a refusal has its cause in it |
| Shell.Script | internal/execution/parser.go:129-143 | the printer prints what parses back |
| Policy.EvaluateSegment | internal/execution/policy.go:293-312 | a segment gets the strictest of its matches, or a prompt when nothing matches |
| Policy.Evaluate | internal/execution/policy.go:287-318 | the command gets the strictest of its segments, and what does not parse is forbidden |
| Policy.Prefix | internal/execution/policy.go:320-330 | true exactly when the pattern is a prefix of the argument list |
| Policy.MaximumIsMaximum | internal/execution/policy.go:277-283 | the fold is the maximum of the decisions |
| Policy.RuleOrderIsIrrelevant | internal/execution/policy.go:287-318 | the same rules in any order decide the same |
| Policy.ExtraRules | internal/execution/policy.go:287-318 | what a match put at some level stays there or rises; extra rules decide alone only a segment nothing matched |
| Policy.LoweredIff | internal/execution/policy.go:287-318 | extra rules lower a segment exactly when nothing matched it and every extra match allows it |
| Policy.OneRuleCanAllow | internal/execution/policy.go:287-318 | a concrete segment and rule for which they do |
| Policy.MoreSegmentsNeverLower | internal/execution/policy.go:287-318 | more segments never lower the decision |
| Policy.AllowedMeansEverySegment | internal/execution/policy.go:287-318 | a command is allowed exactly when it parses and every segment is allowed |
| Policy.ForbiddenIff | internal/execution/policy.go:287-318 | a command is forbidden exactly when it does not parse or the table or a rule forbids one of its segments |
| Policy.SegmentIs | internal/execution/policy.go:293-312 | a segment is forbidden when anything forbids it, and allowed when something allows it and nothing says otherwise |
| Policy.TableIsNamed | internal/execution/policy.go:293-299 | a match of the table is named first, after the command |
| Policy.NamesAre | internal/execution/policy.go:293-312 | the names reported for a segment are those of the rules about it |
| Policy.ScriptGetsTheSameDecision | internal/execution/parser.go:129-143 | the printed script, within 32 KiB, gets the decision of the original |
| Decimals.NumeralOfDecimal | internal/migrate/conflict.go:91-100 | reading a printed number gives it back |
| MigrateValues.EncodeInjective | internal/migrate/conflict.go:91-100 | no two lists of key texts have the same encoding |
| MigrateValues.KeyOf | internal/migrate/conflict.go:91-100 | the loop builds the encoding of the canonical key texts |
| MigrateValues.CoerceKeepsCanon | internal/migrate/coerce.go:16-30 | adapting a value keeps its canonical text except for an integer other than 0 and 1 in a boolean column |
| MigrateValues.SameCanonIff | internal/migrate/conflict.go:213-250 | what the comparison tells apart: texts exactly when folding leaves a difference, numbers always, null from every number |
| MigrateSpec.SameKeyIff | internal/migrate/conflict.go:91-100 | two rows have the same key exactly when their key columns have the same canonical texts one by one |
| MigrateTheorems.KeyCameBack | internal/migrate/copy.go:217-254 | a key that came back belongs to a row of the batch that was added |
| MigrateTheorems.CountIsExact | internal/migrate/copy.go:217-254 | the number of keys that came back is the number of rows added |
| MigrateTheorems.BatchIsPresent | internal/migrate/conflict.go:108-165 | a batch that raised no conflict is in the target row by row, under its key, with canonically equal content |
| MigrateTheorems.BatchIsAccounted | internal/migrate/conflict.go:108-165 | whatever the target makes of the rows it takes: each row of a batch without an objection has an equal row in the target, or its key is that of a row just added |
| MigrateTheorems.ObjectionIff | internal/migrate/conflict.go:108-165 | for a target that refuses rows for their key alone, a batch raises a conflict exactly when one of its rows meets another content under its key |
| MigrateTheorems.TextClash | internal/migrate/conflict.go:141-151 | rows with the same number and different texts clash exactly when folding the texts leaves a difference |
| MigrateTheorems.SecondTime | internal/migrate/copy.go:188-254 | a batch that is there already adds nothing and raises no conflict |
| MigrateTheorems.UniqueStays | internal/migrate/copy.go:188-254 | the target keeps one row per key |
| Migrate.KeyIndexes | internal/migrate/copy.go:259-276 | the positions of the key columns, or none unless all are copied |
| Migrate.InsertBatch | internal/migrate/copy.go:188-254 | the target grows by exactly the rows the statement adds; with a key, the count is the number of keys that came back and the refused rows are those whose key did not |
| Migrate.CompareExisting | internal/migrate/conflict.go:108-165 | the number of differing rows and the first few of them |
| Migrate.Flush | internal/migrate/copy.go:110-130 | a batch inserted and its refused rows compared, or the right error |
| Migrate.CoerceRowAt | internal/migrate/coerce.go:16-30 | in a boolean column an integer becomes whether it is not zero; nothing else changes |
| Migrate.CopyTable | internal/migrate/copy.go:21-172 | on success every source row has an equal row in the target or the key of a row this run added; if the target keeps what it takes and keys are distinct, every source row is present under its key; rows already there are unchanged, copied plus skipped is the number of source rows; an error is somebody's fault, and with source and connection at work a regular copy fails exactly when a source row meets another content under its key |
| Migrate.CopyTwice | internal/migrate/copy.go:21-172 | a second run copies nothing, skips every row and finds no conflict |
| Budget.ObserveKeepsSound | internal/engine/budget.go:81-111 | every round with an allowance is queued and the queue is bounded |
| Budget.RoomIsGreatest | internal/engine/budget.go:81-111 | the room of a round is the most that fits beside prompt and reply in a quarter of the window, or nothing |
| Budget.ReplyIs | internal/engine/budget.go:81-111 | what is set aside for the reply is what is asked for, or 15 percent of the window |
| Budget.ObservedIs | internal/engine/budget.go:81-111 | a look at a round sets or clears its allowance and queues it if it had none; every other round keeps its own unless it was the oldest of 256 |
| Budget.ClearedRoundIsEvictedEarly | internal/engine/budget.go:81-111 | a cleared round seen again is queued twice, and its older entry takes the new allowance away before its turn |
| BudgetQueue.QueueIsKeysIff | internal/engine/budget.go:81-111 | in every run the queue holds exactly the rounds with an allowance, each once, if and only if no round that was seen without a window while it had an allowance has been queued ever since |
| BudgetQueue.NewestCanLoseItsAllowance | internal/engine/budget.go:81-111 | a run from the empty ledger in which the newest entry of the queue loses its allowance when the next round is seen |
| Budget.ResultBudget.Observe | internal/engine/budget.go:81-111 | resets the allowance of the round, evicting the oldest rounds when 256 are queued; a round without a window loses its allowance |
| Budget.ResultBudget.Fits | internal/engine/budget.go:120-143 | admits and pays at once, or changes nothing |
| Budget.ResultBudget.Charge | internal/engine/budget.go:153-163 | pays whether it fits or not |
| Budget.FitResponse | internal/gateway/budget.go:135-173 | the first shape that fits, else a cheapest one, paid for exactly |
| BudgetRounds.RoomIsConserved | internal/engine/budget.go:81-171 | under any interleaving of calls between two looks at a round, the room left is the room there was less everything sent, and what was admitted never exceeds it |
| BudgetRounds.ObservedRoom | internal/engine/budget.go:81-111 | a round starts between zero and a quarter of the window |
| BudgetRounds.SentOnce | internal/gateway/budget.go:135-173 | a call sends once and never changes it |
| BudgetRounds.CallMoves | internal/gateway/budget.go:135-173 | one step of a call: a shape that fits is sent and paid for, one that does not is passed over, after the last one the cheapest goes out; nothing else changes |
| BudgetRounds.ChargedIsCheapest | internal/gateway/budget.go:162-173 | what goes out unfitted is a cheapest shape, charged exactly |
| BudgetRounds.TriedInOrder | internal/gateway/budget.go:156-160 | a call still trying or charging has every earlier shape refused at its own turn |
| BudgetRounds.SentInOrder | internal/gateway/budget.go:156-173 | a call that has sent a shape sent one that fitted at its turn, every earlier one refused at its own, or a cheapest one after all were refused |
| BudgetRounds.CallsStayGood | internal/gateway/budget.go:135-173 | every call stands where its refusals put it |
| AdmitTheorems.TurnIsComplete | internal/engine/admit.go:91-158 | a turn offers only catalogue tools, and all live baseline and required ones |
| AdmitTheorems.MatchedComeFirst | internal/engine/admit.go:91-158 | matched tools get their slots whenever they fit beside the required ones |
| AdmitTheorems.StrongerClaimsFirst | internal/engine/admit.go:91-158 | a tool with a claim goes without a slot only when the budget is used up, and then every slot went to a claim at least as strong |
| AdmitTheorems.RoomForAll | internal/engine/admit.go:91-158 | without a budget every claim is met |
| AdmitTheorems.TakeInOrder | internal/engine/admit.go:91-158 | within one claim slots go in order: when one is refused, no later one is granted |
| AdmitTheorems.TurnWithoutSession | internal/engine/admit.go:91-158 | a turn without a session shows everything asked for that exists and remembers nothing |
| AdmitTheorems.ShownIsRemembered | internal/engine/admit.go:91-158 | what is shown beside the baseline is exactly what is remembered |
| AdmitTheorems.OthersRemember | internal/engine/admit.go:160-184 | the memory of another session is untouched unless it is the oldest of 512 and a new one comes |
| AdmitTheorems.ForgetIs | internal/engine/admit.go:171-176 | forgetting takes one session and leaves the others |
| AdmitTheorems.NothingRememberedIsLost | internal/engine/admit.go:91-158 | when the question needs nothing new and the remembered tools fit, all of them stay |
| AdmitTheorems.FullPromptStaysTheSame | internal/engine/admit.go:91-158 | and when they filled the budget, the set is the same |
| AdmitTheorems.TurnKeepsThePrompt | internal/engine/admit.go:91-158 | the same turn by turn, through what is remembered |
| AdmitTheorems.TurnRendersTheSame | internal/engine/admit.go:91-197 | a full prompt is presented as the same sequence again |
| AdmitTheorems.EqualSetsRenderEqually | internal/engine/admit.go:191-197 | equal sets are presented as equal sequences |
| AdmitTheorems.ScoredMembers | internal/engine/admit.go:91-158 | slots go only to tools with a claim, all required ones get one, and the budget is kept beyond them |
| AdmitTheorems.AdmitKeepsSound | internal/engine/admit.go:91-184 | the queue stays duplicate-free, equal to the remembered sessions, and at most 512 long |
| AdmitTheorems.ForgetKeepsSound | internal/engine/admit.go:171-184 | also when a session is forgotten |
| Admit.Score | internal/engine/admit.go:105-140 | required, matched, remembered, filler, in that order |
| Admit.Admissions.Admit | internal/engine/admit.go:91-158 | the tool set offered and what of it is remembered: only catalogue tools, all live baseline and required ones, the memory kept sound |
| Admit.Admissions.Forget | internal/engine/admit.go:171-176 | removes the session and its place in the queue |
| Admit.DropRepeats | internal/engine/admit.go:160-168 | first occurrences only |
| Listing.GoodReachable | internal/engine/toolsethealth.go:169-223 | the invariant over every interleaving of callers, fetches and cancellations |
| Listing.OneFetchPerServer | internal/engine/toolsethealth.go:169-206 | at most one fetch per server is under way |
| Listing.AnswerIsFinal | internal/engine/toolsethealth.go:169-206 | the answer of a fetch never changes |
| Listing.EveryWaiterGetsTheAnswer | internal/engine/toolsethealth.go:209-223 | every waiter of a fetch gets the same answer |
| Listing.WaiterIsFinal | internal/engine/toolsethealth.go:209-223 | a caller that has its answer or has left is done |
| Listing.NobodyIsHeldUp | internal/engine/toolselect.go:78-112 | a fetch can always take its next step, a caller can receive what is published, and leave once it is cancelled |
| Listing.GoneMeansCancelled | internal/engine/toolsethealth.go:209-223 | a caller leaves without the answer only after its own cancellation |
| Listing.CancellationIsPrivate | internal/engine/toolselect.go:78-112 | a cancellation touches no fetch, no verdict and no other caller |
| Listing.FreeSlotMeansJudged | internal/engine/toolselect.go:85-101 | a server with no fetch in flight is on record with the verdict of its last fetch |
| Listing.VerdictIsLastAnswer | internal/engine/toolselect.go:85-101 | and that verdict is the answer judged last, with its time |
| Health.ShownAsJudged | internal/engine/toolsethealth.go:66-97 | a server is shown down from a failure until a fetch succeeds, and skipped exactly during the cooldown |
| Health.ToolsetHealth.Skip | internal/engine/toolsethealth.go:92-97 | skips exactly within the cooldown |
| Health.ToolsetHealth.MarkFailed | internal/engine/toolsethealth.go:100-106 | records the failure, its text and the cooldown |
| Health.ToolsetHealth.MarkUp | internal/engine/toolsethealth.go:109-115 | removes the failure and the cooldown and records the time |
| Handles.Parse | internal/record/store.go:102-117 | the number after the letter, for digits only, positive and within 64 bits; nothing for any other text |
| Handles.ParseOfLabel | internal/record/store.go:93-117 | an issued handle resolves to its number |
| Handles.LabelOfParse | internal/record/store.go:93-117 | a readable handle is the one issued exactly when it has no leading zero |
| Handles.LeadingZeroIsASecondName | internal/record/store.go:102-117 | e01 reads as 1 |
| Handles.GoodReachable | internal/record/store.go:255-398 | numbers unique and below the counter over any deliveries, deletions and reopenings |
| Handles.PutIsGood | internal/record/store.go:352-398 | a delivery keeps that; a new call gets the highest number yet, a repeated one keeps its own |
| Handles.DeliveryIsStored | internal/record/store.go:352-398 | a delivery is stored as it came under its number, and nothing else changes but the counter, by one |
| Handles.NumberStays | internal/record/store.go:352-398 | a row keeps its number until the session is deleted |
| Handles.HandlesIdentify | internal/record/store.go:352-398 | two deliveries get the same handle exactly when they are the same call, and a new call a greater one |
| Handles.BackfillIsUnique | internal/record/store.go:265-285 | numbering old rows gives distinct numbers exactly when no two have the same time and call id |
| Handles.BackfillCounts | internal/record/store.go:265-285 | and then they are 1 to n |
| Handles.BackfilledOpens | internal/record/store.go:255-301 | so the store opens with its counter ahead of every number |
| Handles.BackfillKeepsOrder | internal/record/store.go:265-285 | in the order of the stored times, compared as texts, and by call id within one time |
| StoredTimes.StoredInOrderIff | internal/record/store.go:385 | the stored texts of two times are in the order of the times exactly when the places of the earlier one do not go on in the later one within the same second |
| StoredTimes.StoredOrder | internal/record/store.go:265-285 | the order of the texts is total and transitive |
| Handles.NumberedByArrivalIff | internal/record/store.go:265-285 | two old rows are numbered in order of arrival under exactly that condition, and the other way round otherwise |
| Handles.LaterRowCanGetSmallerNumber | internal/record/store.go:265-285 | a row of a full second gets a greater number than one that arrived a tenth of a second later |
| Handles.Store.Put | internal/record/store.go:352-398 | a new call gets the next number, a repeated one keeps its own, a clash undoes both statements, and no other session changes |
| Handles.Store.Delete | internal/record/store.go:516-538 | rows and counter go together |
| Backoff.BackoffDelay | internal/model/retry.go:67-73 | with a wrapping 64-bit shift the wait is min(500 ms times 2 to the attempt, 8 s) for every attempt |
| Backoff.ShiftNeverShort | internal/model/retry.go:67-73 | no wrapped product is positive and below the cap unless it is exact |
| Backoff.WaitsNeverShrink | internal/model/retry.go:67-73 | a later attempt never waits less |

## Left out

- ExecutionHost.Host.Cleanup: one cleanup that nothing interrupts; interrupted and concurrent cleanups are covered by the transition system only.
- ExecutionWorker.Execute: one run that nothing interrupts, with its own cleanup; a worker that stops or is overtaken is covered by the transition system only. Which ending a started command is observed with is a parameter.
- ExecutionRecovery.Recover: one scan that nothing interrupts and one daemon; the branch for a missing state root is not modelled.
- ExecutionWorker.ExecuteApproved: the checks before anything is written (policy, enabled profiles, one shared database, daemon and nonce available) are one parameter.
- ExecutionHost.Store.Create: the policy check and the refusals before the insert are not modelled.
- SyncStore.Store.Delete: removing the git cache, the credential and the annotations of the project is not modelled.
- Search.Search: looking the handle up, expired payloads and the refusal of oversized ones are not modelled.
- Handles.BackfillKeepsOrder: texts compare byte by byte, as SQLite compares them; a database with another collation is not modelled, and call ids are any totally ordered values.
- SyncStore.Store.Sync: one pull that nothing interrupts; interleavings are covered by the transition system only.
- SyncStore.Store.Save: normalising and validating a form, and its annotations, are one flag.
- Budget.ResultBudget.Observe: the shares of the window are exact fractions rounded down, not floating-point products.
- Migrate.CopyTable: the columns to copy are given; choosing them, refusing a dropped column with values, and advancing identity sequences are not part of this model.
- Policy.Evaluate: the texts that explain a decision are not modelled, and the built-in table of verbs and flags is an arbitrary function.
- Search.ScanMatches: a payload is a sequence of runes and the pattern an arbitrary predicate; reading the payload does not fail.
- History.Compact: marshalling a result or a call to text is an arbitrary function, and so is the wording of the note.
- Budget.FitResponse: the shapes of a response are given by their costs; how a preview is cut is not modelled.
- State root, scope, daemon identity and owner labels: a check of one of them that fails counts as a failed call.
- Backends other than containers: only the consumption of their approvals and the outcome they report.
- Git transport, checkout limits, history and annotations of code projects; the unused name of a new snapshot directory is an assumption.
- Rendering of instants, floats, timestamps and JSON in the copier: arbitrary functions.
- Ranking of tools before admission, and the list the console logs about it.
- Deadlines, byte limits, redaction, logging, HTTP, chat platforms, the front end and configuration files.
