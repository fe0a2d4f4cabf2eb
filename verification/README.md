# Horde: verified models of its durable state machines

Horde keeps its orchestration state in SQLite rows that ticks, retries, crashes and remote
peers change one transaction at a time. This project models those transactions in Dafny and
proves what they keep over every run: progress budgets, delegation and federation, the fleet
operation queue, automatic delivery, account admission, execution policies, and four small
self-contained cores (the AX worker and its Docker supervisor, the firewall compiler, and the
process-record parser).

Check everything with `dafny verify dfyconfig.toml` (Dafny 4.11).

## How the model is built

Each component is one module. A `State` holds the rows (and whatever outside the process the
property speaks of: commands issued, messages in flight, processes started), an `Action` is one
atomic block, and `Apply` or `Step` is its effect. Every await, crash and lost reply is a point
where another action may come in between, and what is read before a transaction opens may be out
of date when the transaction uses it. `Run` is any sequence of actions; a predicate `Good`
is kept by each of them; the theorems are read off `Good`. Beside them, a class holds the same
rows as fields, and its methods make the program's own step-by-step updates and loops. Each
method is proved to produce exactly the state its action gives, and its contract also spells out
that state, branch by branch, in the rows' own terms.

Assumptions used throughout: rows are named by their position, so a new id is always unused;
times are integer milliseconds (seconds where the program counts seconds); `store::hash` is
injective; a failed store call aborts its transaction; JSON of the wrong shape is excluded by
types.

| module | component |
|---|---|
| Budget, BudgetSupervisor | the budget log and the supervising loop |
| TaskTree, Delegation, Acceptance | bounded trees, shared context, questions, child acceptance |
| Federation | submission between two runtimes |
| FleetQueue, ContainerUpdate | durable runtime operations, phased image update |
| Delivery, DeliveryEvidence | authorize, intent, merge, reconcile; reviews and check runs |
| Accounts, Fallbacks, ExecutionSelection | reservations, fallback chains, permission pools |
| AxWorker, AxDocker | the threaded worker and its Docker service |
| Firewall | the egress list as an nftables chain |
| StatRecord | process identity from the kernel's record |
| Options, Text | shared vocabulary |

## Where the code does less than one would expect

Six properties hold only under a condition. For each, one lemma states the condition and another
reaches a failure from the initial state.

- A verdict of exhaustion needs a workspace sample begun after a full budget without progress, but
  a report that lands while that sample is in flight moves the deadline without renewing the
  sample. The sample postdates the deadline finally enforced if and only if no such report landed
  (`BudgetSupervisor.SampleFreshIff`; for every budget there is such a run, `StaleSampleExists`).
- `delegate` copies the parent's context version as it read it before its transaction. The tree
  keeps one shared version if and only if that version is still current when it commits
  (`Delegation.DelegateSharesIff`); every revision in between splits the version
  (`RaceSplitsVersion`, `SplitVersionIsReachable`), and the next revision repairs it
  (`RevisionHeals`). The pin check is sound all the same (`PassingPinMeansCurrentContext`).
- A resubmission of an accepted task is answered if and only if the handler's first read saw the task
  and the snapshot is encoded as the first one was (`Federation.ResendAnsweredIff`). A handler running
  beside the one that creates the task is refused by the unique owner column; a retry after the
  worker's features changed the encoding is refused as another assignment (`EarlyReadIsRefused`,
  `ChangedEncodingIsRefused`).
- A tick rules on a status reply by what it read before its transaction. Success is recorded at the
  version current at the commit if and only if the version did not move after it was read, and a
  cancellation is overwritten if and only if it was committed after the status was read and the worker
  had not been cancelled either (`Federation.ClosedOnCurrentRowsIff`, `RulingRaceIsReachable`).
- A packet that passes the worker's check but cannot be put in an environment ends the worker if and
  only if its launch had to wait for Docker and is then due (`AxWorker.ObserveCrashesIff`). No other
  packet can (`OnlyUnpassableCrashes`), and every such packet does in some run (`UnpassableCrashes`).
- A clean-up of the Docker service reaps every process only while each dies within its last wait. A
  process that does not makes the clean-up drop all those after it. At the end all processes are
  reaped if and only if those dropped were reaped elsewhere (`AxDocker.EveryChildIsReaped`,
  `OneTimeoutLosesTheRest`).

## Model

| member | source | states |
|---|---|---|
| Budget.Status | src/budget.rs:86-141 | for any log with non-decreasing stamps, the report's elapsed, paused, idle and remaining time equal counts of single milliseconds on a pointwise active clock; a finished log returns the timing it closed with; one never started returns nothing |
| Budget.PausedAtMeans | src/budget.rs:103-111 | a millisecond is suspended exactly when some pause at or before it has no later resume at or before it |
| Budget.CountsMilliseconds | src/budget.rs:126-137 | the paused and running totals are the numbers of suspended and running milliseconds of the window |
| Budget.LatestDecides | src/budget.rs:96-101 | idleness is counted from the latest start or report, and the report is about the latest start |
| Budget.PausedSince | src/budget.rs:126-131 | the closure's sum is the total overlap of the recorded pauses with the window |
| Budget.SumIsCount | src/budget.rs:126-132 | clipping pauses and adding lengths counts exactly the suspended milliseconds of the window |
| Budget.TrackStep | src/budget.rs:92-111 | folding one event keeps the recorded pauses in agreement with the pointwise clock |
| Budget.IdleAndPausedFit | src/budget.rs:122-140 | idle plus paused never exceeds elapsed, with equality exactly when nothing ran before the last progress |
| Budget.IdleOverWindow | src/budget.rs:136-140 | between two reports with no progress, idle is frozen while paused and otherwise grows one for one |
| Budget.HistoryIsStable | src/budget.rs:86-141 | events stamped now or later never change what was counted before now |
| BudgetSupervisor.ExhaustionIsEarned | src/budget.rs:228-280 | whatever the schedule, exhaustion is ruled only when a full budget of running time separates the re-read log's last report from the instant ruled on, and a sample was begun a full budget after the progress then known |
| BudgetSupervisor.WorkInTimeCompletes | src/budget.rs:257-277 | work polled complete with budget left completes at once, even with a sample in flight |
| BudgetSupervisor.LateWorkIsExhausted | src/budget.rs:257-277 | in every run, work that returns after a full idle budget waits for a sample, and unless a report lands before the sample is in it is ruled exhausted, whatever else happens meanwhile |
| BudgetSupervisor.IdleAttemptIsExhausted | src/budget.rs:238-256 | in every run, once a full budget has run with nothing reported the timer begins a sample, and if nothing is reported and no work returns before it is in, the attempt is ruled exhausted exactly when the host has not suspended it |
| BudgetSupervisor.LateSampleChargesNothing | src/budget.rs:257-277 | late work is ruled on the moment it finished, however long the sample then takes |
| BudgetSupervisor.SampleFreshIff | src/budget.rs:236-256 | the verdict's sample postdates the enforced deadline if and only if no report landed while it was in flight |
| BudgetSupervisor.StaleSampleExists | src/budget.rs:236-256 | for every budget there is a run ruled exhausted on a sample begun before its own deadline |
| BudgetSupervisor.RenewedGood | src/budget.rs:315-341 | renewing puts the loop's progress instant exactly where the log's idle time says it is |
| BudgetSupervisor.Supervision.Renew | src/budget.rs:315-341 | the loop ends on the newest report, placed on the active clock so that the time since it is the log's idle time |
| BudgetSupervisor.Supervision.Environment | src/budget.rs:37-84 | a workspace change is recorded whenever it is seen; the worker's own report is recorded exactly while idle time is below the budget; the log gets one event for each change of suspension |
| BudgetSupervisor.Supervision.OnTimer | src/budget.rs:238-247 | with no sample in flight, the deadline branch begins one now exactly when the attempt is not suspended and its idle time has reached the budget |
| BudgetSupervisor.Supervision.OnSample | src/budget.rs:248-256 | the sample's return rules exhaustion exactly when the budget is used up by the log's count: to now, and not while suspended, for running work; to the finish for late work, which otherwise completes |
| BudgetSupervisor.Supervision.OnWork | src/budget.rs:257-277 | work completes at once exactly when idle time is below the budget; otherwise it is held as finished now, with the sample in flight or one begun now |
| BudgetSupervisor.Supervision.Serve | src/budget.rs:228-280 | serving one ready branch of the select equals its action |
| BudgetSupervisor.Supervision.Supervise | src/budget.rs:150-285 | the loop under any schedule is the run the theorems speak of |
| TaskTree.AboveIsChain | src/delegation.rs:407-478 | the strict ancestors of a task form a chain |
| TaskTree.AboveIsPath | src/delegation.rs:434-442 | whatever a path of parents leads to is above its first task |
| TaskTree.PathToAbove | src/delegation.rs:434-442 | and such a path leads from every task to everything above it |
| TaskTree.MembersIsCount | src/delegation.rs:306-306 | the query counts every row of the tree |
| TaskTree.ChildKeepsGrown | src/delegation.rs:305-341 | a child admitted while the rows of the tree, but for the root, are fewer than the child limit and its parent is above the depth limit keeps every limit of the whole tree |
| TaskTree.OneSetOfLimits | src/delegation.rs:85-97 | every task of a tree carries its root's limits |
| Delegation.TreesStayWithinLimits | src/delegation.rs:30-341 | in every reachable state every task is one deeper than its parent, in its tree and under its limits; no task is deeper than the depth limit, at most 8, and the rows of no tree, but for its root, exceed its child limit, at most 256 |
| Delegation.QuestionsClimb | src/delegation.rs:387-478 | in every reachable state a question is addressed to a strict ancestor of its origin or to nobody, and exactly the ancestors it has left behind have escalated it |
| Delegation.ObjectiveStaysMandatory | src/delegation.rs:85-97 | the objective a tree was submitted with stays mandatory context in every later state |
| Delegation.BranchIsOnTheWay | src/delegation.rs:434-442 | the walk from a question's origin ends, and finds the branch exactly when the caller is above the origin |
| Delegation.AdmitsIff | src/delegation.rs:425-451 | a question admits the task it is addressed to, or the root once addressed to nobody; a worker only for the addressed task, only if it made the delegation on the way to the origin, and to answer only if the question is not for a human |
| Delegation.EscalationMovesOneUp | src/delegation.rs:407-460 | an escalation moves the question from the caller to the caller's parent, however old the route it read, and can be made once per caller, ever |
| Delegation.AnswersAreFinal | src/delegation.rs:461-474 | a written answer never changes, even against writers that read the row too early |
| Delegation.HumanOnlyAnswersAreExternal | src/delegation.rs:447-465 | in no run is a question for a human answered by a worker |
| Delegation.VersionNamesContext | src/delegation.rs:161-186 | a tree's version never decreases, and equal root versions mean identical mandatory records |
| Delegation.DelegateSharesIff | src/delegation.rs:305-341 | adding a child keeps one shared version if and only if the version read before the transaction is still current |
| Delegation.RaceSplitsVersion | src/delegation.rs:305-341 | every revision that commits between a delegation's read and its transaction leaves the tree on two versions |
| Delegation.SplitVersionIsReachable | src/delegation.rs:305-341 | a run from the empty store ends with a tree on two versions |
| Delegation.RevisionHeals | src/delegation.rs:161-186 | the next revision or answer puts the whole tree on one version, one above the root's |
| Delegation.RevisionAdmittedIff | src/delegation.rs:161-180 | a revision is admitted exactly at a root, under a new name, superseding only records of that root other than an objective |
| Delegation.RevisionWrites | src/delegation.rs:173-186 | a revision adds its record, demotes the superseded ones, moves every task of the tree to the root's next version and leaves none of them succeeded |
| Delegation.VersionsStayShared | src/delegation.rs:161-341 | all tasks of a tree share one version over every run whose delegations commit on the version they read |
| Delegation.TaskVersionNamesContext | src/delegation.rs:161-341 | over every run, also one that splits versions, each task's own version never decreases and names its tree's mandatory context for as long as it stands still |
| Delegation.PassingPinMeansCurrentContext | src/delegation.rs:187-211 | in every run an attempt passes its pin check exactly when its task's version is the one it began at, and then the tree's mandatory records are the ones it began with |
| Delegation.Store.Submit | src/delegation.rs:85-97 | refused exactly for limits over 256 children or a depth of 8; otherwise one root at version 1 with its mandatory objective |
| Delegation.Store.Delegate | src/delegation.rs:220-341 | a repeated request id changes nothing and succeeds only for its first assignment; a new one is refused exactly when the other rows of the tree reach the child limit or the parent is at the depth limit, and otherwise adds the child at the version read |
| Delegation.EarlierIsFirst | src/delegation.rs:225-236 | the search finds the oldest child delegated under the request id |
| Delegation.Store.Adopt | src/delegation.rs:305-341 | the child, first submitted as a root of its own, is moved under its parent and its own objective record dropped |
| Delegation.Store.UpdateContext | src/delegation.rs:161-186 | revising the context bumps every task of the tree in one transaction |
| Delegation.Store.PinAttempt | src/delegation.rs:187-194 | an attempt is pinned, once, at the root and the version of its own task |
| Delegation.Store.Ask | src/delegation.rs:387-406 | a repeated request id changes nothing and succeeds only for its first question; a new one is addressed to the origin's parent, and a running task that asks for itself waits |
| Delegation.AskedIsFirst | src/delegation.rs:392-395 | the search finds the oldest question asked under the request id |
| Delegation.Store.Walk | src/delegation.rs:434-442 | the while loop over parents returns the caller's child on the way to the origin, if the caller is above it |
| Delegation.Store.Addressed | src/delegation.rs:425-451 | a caller is admitted exactly when the route it read addresses it, and its worker only as the one that delegated the branch, never to answer for a human |
| Delegation.Store.EscalateQuestion | src/delegation.rs:407-460 | a repeated escalation succeeds only with its first commentary; a new one needs an admitted caller and no answer read, and moves the question to the caller's parent |
| Delegation.Store.AnswerQuestion | src/delegation.rs:407-478 | admitted callers only; a question for a human takes only an attested answer, from no worker; a repeated answer succeeds only if equal, and a second one is refused by the first one's record |
| Delegation.Store.RecordAnswer | src/delegation.rs:464-474 | the answer and its author are written, it becomes mandatory context at the root's next version, which every task of the tree moves to; none stays succeeded, and the origin wakes once none of its questions is open |
| Delegation.Store.Serve | src/delegation.rs:85-478 | every operation, made on reads it may make, keeps all invariants of the store |
| Acceptance.CountsDecide | src/delegation.rs:508-515 | comparing two counts decides whether every child is accepted at the parent's version |
| Acceptance.RevisionReopensAncestors | src/delegation.rs:497-507 | after a revision no ancestor-or-self is succeeded and no strict ancestor is complete, even if the revised task succeeds again |
| Acceptance.KeysStayReal | src/federation.rs:567-587 | acceptance rows always name real children, over every run |
| Acceptance.Table.ChildVerified | src/federation.rs:567-587 | acceptance is recorded exactly for an immediate child that has succeeded, at the parent's current version |
| Acceptance.Table.ChildCompletion | src/delegation.rs:508-515 | complete if and only if every child succeeded and is accepted at the parent's current version |
| Acceptance.Table.InvalidateAcceptance | src/delegation.rs:497-507 | the climb terminates, reopens exactly the ancestors-or-self and drops exactly the acceptances on the way |
| Federation.AtMostOneWorkerTask | src/federation.rs:360-481 | whatever is lost, repeated, retried or cut short, an owner task has at most one worker task, every reply names it, and the stored id is it |
| Federation.WorkerTasksAreTracked | src/federation.rs:786-806 | a worker task exists only under a link being sent, running, or closed by a report; a link closed while pending never sent anything |
| Federation.ClosedOnlyWhenSettled | src/federation.rs:807-838 | a link that left pending closes only on a terminal, cleaned-up report; if the owner was read as cancelled, its cancel call completed first; success needs nested children read accepted and then an equal context version read |
| Federation.ClosedOnCurrentRowsIff | src/federation.rs:816-832 | success is recorded at the current version if and only if the version did not move after its read; a cancellation is overwritten if and only if it came after the status was read and the worker was not cancelled |
| Federation.RulingRaceIsReachable | src/federation.rs:816-832 | some run records success over a cancellation and over a revision |
| Federation.ClosedIsFinal | src/federation.rs:786-838 | closing is final and a stored remote id never changes |
| Federation.ResendAnsweredIff | src/federation.rs:393-481 | a resubmission of an accepted task is answered, with its one task, if and only if the handler's read saw the task and the encoding is the first one's; otherwise nothing changes |
| Federation.EarlyReadIsRefused | src/federation.rs:393-481 | some run ends with a duplicate refused for a read older than the task |
| Federation.ChangedEncodingIsRefused | src/federation.rs:393-481 | some run ends with a retry refused for its encoding, on a fresh read |
| Federation.CancelIsNotOvertaken | src/federation.rs:807-838 | once the owner's task is cancelled, with no tick ruling on an earlier read, the link stays open through every run in which no cancel call completes, whatever call was in flight |
| Federation.RevokedGrantCancelsFirst | src/federation.rs:809-815 | a tick that reaches a running link whose grant was revoked asks the worker to cancel; unless cut short it takes no status before that call was handled and has left the owner's task cancelled |
| Federation.CancelledIsNotOverruled | src/federation.rs:809-838 | a cancelled task stays cancelled over every run in which the owner's side gives it no other status, whatever the worker reports |
| Federation.SettledReportIsRecorded | src/federation.rs:815-838 | undisturbed, a settled and clean report is recorded: success with nested children accepted and an equal version, failure and cancellation as they are |
| Federation.Submission.ReadRow | src/federation.rs:717-720 | the tick begins with the rows of a link not yet done, which may be out of date when it reaches the link |
| Federation.Submission.StartTick | src/federation.rs:789-815 | up to its first await: a cancelled task never sent is closed, another is sent if it may be; on a running link a revoked grant comes first, then a cancellation read, then the status |
| Federation.Submission.CapabilitiesReply | src/federation.rs:798-804 | the packet is prepared once, the link marked sending, then the packet sent |
| Federation.Submission.AcceptReply | src/federation.rs:804-806 | the id stored is the worker's one task |
| Federation.Submission.CancelReply | src/federation.rs:809-815 | a completed revoke call cancels the owner's task; a completed cancel call is remembered for the status that follows |
| Federation.Submission.StatusReply | src/federation.rs:815-820 | a task cancelled since the tick began is not ruled on |
| Federation.Submission.ReadNested | src/federation.rs:821-821 | the ruling goes on exactly when every nested child is accepted |
| Federation.Submission.ReadVersion | src/federation.rs:822-824 | the ruling goes on at an equal version; otherwise the task is blocked |
| Federation.Submission.CommitReport | src/federation.rs:825-838 | the link closes exactly on a succeeded, failed or cancelled report with cleanup complete, and the task takes that status, or cancelled if it was read so |
| Federation.Submission.HandleAccept | src/federation.rs:360-481 | the worker's handler answers with its one task even when its first read is stale |
| Federation.Submission.HandleCancel | src/federation.rs:482-537 | the worker's task is cancelled |
| Federation.Submission.HandleStatus | src/federation.rs:538-554 | the worker's row for the stored id is what the reply carries |
| FleetQueue.FirstInFirstOut | src/fleet.rs:491-523 | an operation that has started, unless it reconciles, has every earlier one of its runtime out of pending, waiting and running |
| FleetQueue.SettledStays | src/fleet.rs:577-622 | a settled operation never changes again |
| FleetQueue.InterruptedStaysUncertain | src/fleet.rs:478-489 | an operation interrupted by a crash is never selected again unless it is a skills update; an interrupted update pauses updates |
| FleetQueue.ServedWithinLiveCount | src/fleet.rs:491-523 | in any stretch of steps without arrivals, with any outcomes, crashes and pauses, an eligible operation is taken before as many ticks move the cursor as there are live operations |
| FleetQueue.ServedInEveryRun | src/fleet.rs:491-523 | in any stretch of any run without arrivals, a row pending or waiting that is no paused update and is first of its runtime, or reconciles, is taken before as many ticks as there were rows pending or waiting |
| FleetQueue.StepApproaches | src/fleet.rs:491-523 | no step takes an eligible operation further from its turn, and every tick that moves the cursor brings it closer |
| FleetQueue.StepIsDeterministic | src/fleet.rs:499-505 | the query's order leaves one possible next state |
| FleetQueue.EligibleIff | src/fleet.rs:499-502 | eligible rows are the pending and waiting ones that are no paused update and that reconcile or have every earlier row of their runtime succeeded, failed or uncertain |
| FleetQueue.FindIsFirst | src/fleet.rs:292-293 | the search finds the first row of the request id, and none only when there is none |
| FleetQueue.Store.EnqueueOperation | src/fleet.rs:279-380 | a request id names one operation for ever: repeating it is a receipt or an error |
| FleetQueue.Store.Select | src/fleet.rs:493-505 | the scan returns the first row past the cursor that may be taken, else the first of all, or none when none may; which ones may is spelt out in states |
| FleetQueue.Store.MarkNext | src/fleet.rs:506-514 | the selected row is marked as running, in order |
| FleetQueue.Store.AdvanceCursor | src/fleet.rs:515-523 | a separate write then moves the cursor past it |
| FleetQueue.Store.SettleCurrent | src/fleet.rs:577-622 | the outcome is written to the row in flight and nothing else, but that a failed or uncertain update pauses updates |
| FleetQueue.Store.RecoverOperations | src/fleet.rs:478-489 | rows running become waiting if they update skills and uncertain otherwise, an interrupted update pauses updates, and no other row changes |
| ContainerUpdate.InstallsAtMostOnce | src/fleet.rs:702-791 | over any crashes and retries the new image is installed at most once; the old one at most once, after the new one, when rollback is safe |
| ContainerUpdate.InstallsOnlyAfterDrain | src/fleet.rs:737-758 | in every run an install is preceded by a drained report, answered to a draining tick before anything was installed |
| ContainerUpdate.Update.Drain | src/fleet.rs:737-757 | after 1800 seconds the row fails; undrained it waits; drained, the replacing mark is saved and nothing is installed yet |
| ContainerUpdate.Update.Install | src/fleet.rs:758-758 | the install follows the saved mark |
| ContainerUpdate.Update.Replace | src/fleet.rs:758-761 | an answered replacement is saved with its time and the row waits; one that failed leaves it uncertain |
| ContainerUpdate.Update.Watch | src/fleet.rs:763-790 | a healthy image is resumed and the row succeeds; an unhealthy one waits 120 seconds and then is rolled back if that is safe, and otherwise fails as it is; a replacement never answered is left uncertain |
| ContainerUpdate.Update.Attempt | src/fleet.rs:702-791 | for every saved phase and every reply of the outside world, one tick ends in exactly the row state, saved progress and installed image the update promises |
| Delivery.MergedAtMostOnce | src/delivery.rs:174-251 | over any interrupted and overlapping attempts the merge command is issued at most once, for the authorization of the first recorded intent |
| Delivery.PastMergeOnlyOnAuthorizedBase | src/delivery_policy.rs:592-635 | an attempt goes past the merge only for the recorded intent's pull request and head, with the authorized base as the squash commit's one parent |
| Delivery.LaterAuthorizationsAreRefused | src/delivery_policy.rs:598-635 | once an intent is recorded, a new authorization stops at recording its own |
| Delivery.MergesFollowTheirCheck | src/delivery.rs:199-222 | in every run each merge command is issued by an attempt that, its intent recorded, passed the boundary check under its authorization's own policy while it was active |
| Delivery.Tables.AuthorizeMerge | src/delivery_policy.rs:376-489 | each authorization is a new decision with a new identity |
| Delivery.Tables.RecordMergeIntent | src/delivery_policy.rs:598-635 | insert unless present, read back, compare; the first intent is never replaced |
| Delivery.Tables.ValidateMergeBoundary | src/delivery_policy.rs:509-531 | passes exactly when automatic delivery is on, under the policy the recorded intent was authorized under, and the attempt is still active |
| Delivery.Tables.IssueMerge | src/delivery.rs:207-223 | the merge is issued only where none was before |
| Delivery.Tables.Reconcile | src/delivery.rs:225-251 | passes exactly when the merge is the recorded one, on the authorized base, under an unchanged policy and a decision that still stands |
| Delivery.Tables.MergeOnce | src/delivery.rs:193-223 | stopped anywhere, it issues exactly one merge, for its own new authorization, if no intent was there before and the policy at the boundary is its own, and otherwise none |
| Delivery.Tables.Execute | src/delivery.rs:174-251 | one attempt, stopped anywhere, adds exactly the merge `MergeOnce` allows; undisturbed, it gets past the merge, and past it only on the authorized base |
| DeliveryEvidence.Approvals | src/delivery_policy.rs:110-153 | accepted if and only if the list is complete, nobody's last word objects, and enough reviewers other than the author approve this exact head |
| DeliveryEvidence.CheckRuns | src/delivery_policy.rs:74-108 | accepted if and only if the page is complete and each required name has one run, passed, on the exact head; the evidence is those runs ordered by name |
| DeliveryEvidence.SortByName | src/delivery_policy.rs:106-106 | the sort is a permutation in the order of the names |
| DeliveryEvidence.NameLeIff | src/delivery_policy.rs:106-106 | a name comes before another when it is a prefix of it or smaller at the first difference |
| Accounts.NeverOversubscribed | src/accounts.rs:372-395 | in every reachable state an account's active, revoked and uncertain reservations are at most its concurrency |
| Accounts.LoadCountsHolds | src/accounts.rs:390-390 | an account's load is the number of its active, revoked and uncertain reservations |
| Accounts.RevocationFreesNothing | src/accounts.rs:174-183 | revoking a grant changes no account's load |
| Accounts.ChoiceIsLeastLoaded | src/accounts.rs:271-296 | the selected account has the smallest load to concurrency ratio of all eligible ones |
| Accounts.CandidateIff | src/accounts.rs:271-296 | candidates are the granted, active accounts of the endpoint that are signed in with an unexpired credential, are the one asked for if any is, and have a free slot, an allowing plan and quota |
| Accounts.UnmanagedIff | src/accounts.rs:297-371 | a role runs without an account exactly if it is simulated, or is another kind than ChatGPT in the default project with no account of its own or its endpoint's and with quota |
| Accounts.ChoiceIsReservable | src/accounts.rs:297-395 | a managed choice is always accepted by the reservation in the same transaction, for a step holding nothing |
| Accounts.Store.SelectAccount | src/accounts.rs:271-296 | the scan returns the account that may be bound with the least relative load, the least recent dispatch and the first row, or none when none may be bound |
| Accounts.Store.ChooseForStep | src/accounts.rs:297-371 | after skipping min(failures, chain length) roles, the first role of the chain that offers anything is bound, or none offers; the seen set never cuts the chain short |
| Accounts.Store.ReserveFor | src/accounts.rs:372-395 | an own active reservation is confirmed or refused, any other unreleased one refuses, and otherwise a slot is taken exactly on a granted, signed-in account of that credential with a free slot and quota |
| Accounts.Store.RevokeGrant | src/accounts.rs:174-183 | the grant goes and the project's active reservations become revoked; no slot of any account is freed |
| Accounts.Store.ReleaseStep | src/accounts.rs:396-411 | a reservation is released only when no attempt is live |
| Accounts.Store.CreateAccount | src/accounts.rs:117-152 | an account of 1 to 4096 slots is added, granted to its project and no other |
| Accounts.Store.GrantAccount | src/accounts.rs:157-169 | a grant adds nothing but itself |
| Fallbacks.Validate | src/config.rs:867-888 | settings are accepted if and only if the fallback map is acyclic, joins configured roles, and never leaves ChatGPT for another kind |
| Fallbacks.ChainEnds | src/config.rs:880-888 | following one chain with a seen set tells an ending chain from a cycle |
| Fallbacks.Select | src/capacity.rs:304-320 | the first usable role of the chain, or none only when all are unusable |
| Fallbacks.SkipFailures | src/capacity.rs:648-660 | the loop moves the start one fallback on per failed attempt |
| Fallbacks.SkippedIsHop | src/capacity.rs:648-660 | starts are skipped by min(failures, chain length) |
| Fallbacks.ChatgptStaysChatgpt | src/config.rs:871-879 | a ChatGPT role never falls back to another kind, at any distance |
| ExecutionSelection.PoolsOnlyShrink | src/execution_selection.rs:178-445 | below a task with a policy every descendant has one, with a subset of every ancestor's pinned configurations, all its requirements, its project, and equal allowed and bound pairs |
| ExecutionSelection.PoliciesAreFinal | src/execution_selection.rs:25-53 | a task's policy never changes once the task exists |
| ExecutionSelection.PreparingNarrows | src/execution_selection.rs:178-301 | a prepared policy is valid, its runtimes were seen meeting the requirements, and it narrows its parent |
| ExecutionSelection.PoolIsPinned | src/execution_selection.rs:349-429 | in a valid policy the allowed pairs are exactly the bound pairs, each bound once |
| ExecutionSelection.BindingsAllowed | src/execution_selection.rs:370-414 | the loop accepts exactly allowed bindings with distinct pairs |
| ExecutionSelection.ValidatePolicy | src/execution_selection.rs:349-429 | the loops accept exactly the valid policies |
| ExecutionSelection.ValidIsWellFormed | src/execution_selection.rs:303-429 | the accepted policies are those with permitted requirements, 1 to 64 groups, 1 to 4096 configurations fit to be pinned and named by a group, every named pair pinned once, and a selected one among them |
| ExecutionSelection.FindRuntimeIff | src/execution_selection.rs:72-93 | a selector finds the first runtime of that identifier, or else the only runtime that answers to it as a name |
| ExecutionSelection.FindCapabilityIff | src/execution_selection.rs:128-134 | a capability is found by its identifier, the first of them |
| ExecutionSelection.BindIff | src/execution_selection.rs:95-162 | what can be bound, and what more it takes to be selected: an available capability of a recent, ready runtime with a free slot that is not draining |
| ExecutionSelection.PoolIff | src/execution_selection.rs:228-268 | a pool is pinned exactly when every group can be and no pair comes up twice, and then holds what was found for each capability in order |
| ExecutionSelection.PoolIsNormalized | src/execution_selection.rs:228-268 | its groups are the ones asked for, under the runtimes' own identifiers |
| ExecutionSelection.PreparedAsAsked | src/execution_selection.rs:178-301 | a prepared policy has the requirements, groups and selected pair asked for, or else its parent's |
| ExecutionSelection.GrantedWhenFit | src/execution_selection.rs:178-301 | a request is granted whenever its parent, requirements, pool and wanted pair allow it and the result is well formed |
| ExecutionSelection.PrepareInventory | src/execution_selection.rs:178-301 | labels are normalized and the parent's pool narrowed, or the request refused |
| ExecutionSelection.BindPool | src/execution_selection.rs:228-268 | the nested loops bind every allowed capability once, or refuse |
| ExecutionSelection.BindGroup | src/execution_selection.rs:244-266 | one group's capabilities are bound in order, each inside the parent's pool and not bound before |
| ExecutionSelection.ApplySettings | src/execution_selection.rs:532-588 | applied exactly when the pinned executor is configured here with the recorded provider, kind, model, fingerprint, account, sign-in and endpoint; every role of the settings and steps then resolves to it and no fallback is left |
| ExecutionSelection.RunsOnlyThePinnedConfiguration | src/execution_selection.rs:532-588 | with collision-free fingerprints every role runs the configuration that was inspected, wherever its fallbacks lead |
| ExecutionSelection.Store.Pin | src/execution_selection.rs:25-53 | a policy is stored once, for a task of its own project; repeating it is harmless |
| ExecutionSelection.Store.Inherit | src/execution_selection.rs:431-464 | a child is created exactly on a granted target that is its selected runtime, with its narrowed policy of its project, or plainly when there is neither policy nor request |
| ExecutionSelection.Store.Submit | src/protocol.rs:455-486 | a task that asks for a policy is created exactly with what was prepared for it, on its selected, granted runtime |
| ExecutionSelection.Store.Receive | src/execution_selection.rs:466-510 | a received policy is kept exactly if it is valid, of the project, selects this runtime, has its requirements met here and pins what is still on offer |
| ExecutionSelection.PlacedWhereSelected | src/execution_selection.rs:447-464 | in every run a task with a selected pair was placed on that pair's runtime |
| AxWorker.OneDaemonOnePacket | scripts/ax_runner.py:87-169 | however the threads interleave at most one daemon is live, each started from the stored packet, and a stored packet never changes |
| AxWorker.StopIsFinal | scripts/ax_runner.py:171-179 | once stop has terminated the child it saw, no daemon is live and none ever will be |
| AxWorker.NothingLaunchedAfterStop | scripts/ax_runner.py:113-179 | nothing is launched once stopping is set |
| AxWorker.CleanExitIsFinal | scripts/ax_runner.py:145-169 | a daemon that exited with status 0 is never restarted |
| AxWorker.CrashedDaemonIsRestarted | scripts/ax_runner.py:145-169 | two seconds after a turn found the daemon dead with another status than 0, and no sooner, a turn starts a new one from the stored packet, whatever came between, unless the worker stops or the attempt itself fails |
| AxWorker.ObserveCrashesIff | scripts/ax_runner.py:137-142 | a turn of the loop ends the worker if and only if a launch that waited for Docker is due and its packet cannot be handed on |
| AxWorker.OnlyUnpassableCrashes | scripts/ax_runner.py:137-142 | in every run a worker that ended holds a packet that cannot be handed on |
| AxWorker.UnpassableCrashes | scripts/ax_runner.py:87-142 | every packet that passes the check and cannot be handed on ends the worker in some run, and stays stored |
| AxWorker.Worker.AcceptPacket | scripts/ax_runner.py:113-127 | every outcome: bad packets, a stopping worker and another packet than the stored one change nothing; the first is stored before it is started; the stored one is started unless a daemon was |
| AxWorker.Worker.Launch | scripts/ax_runner.py:87-111 | a child is never replaced; without one, a launch waits for Docker, fails, or starts the packet as the child |
| AxWorker.Worker.RetryPending | scripts/ax_runner.py:136-142 | a launch that waited is made once due; an operating system error puts it off two seconds, and a packet that cannot be handed on ends the worker |
| AxWorker.Worker.Restart | scripts/ax_runner.py:155-169 | nothing before the restart is due; then the stored packet, if good, is started, and a failure keeps the dead child and waits two seconds more |
| AxWorker.Worker.ObserveExit | scripts/ax_runner.py:133-169 | a death is noticed once, and asks for a restart in two seconds exactly when the status is not 0; a living child or a stopping worker is left alone |
| AxWorker.Worker.BeginStop | scripts/ax_runner.py:171-175 | the first half of stop forbids launches and remembers the child to end |
| AxWorker.Worker.FinishStop | scripts/ax_runner.py:171-196 | after the second half of stop no daemon is live |
| AxDocker.StoppedIsFinal | scripts/ax_docker.py:110-210 | the state never goes back, stopped is absorbing, nothing is spawned after it, no child is tracked again once the stop thread took them, and at most one Docker daemon was ever started |
| AxDocker.EveryChildIsReaped | scripts/ax_docker.py:119-210 | when outstanding clean-ups end, all processes are reaped if and only if those given up by timed-out clean-ups were reaped elsewhere; with no timeout none is given up |
| AxDocker.OneTimeoutLosesTheRest | scripts/ax_docker.py:155-160 | a run in which one stubborn process leaves another unreaped |
| AxDocker.Service.Spawn | scripts/ax_docker.py:110-117 | spawning as one critical section, with a cancellation allowed in its middle; nothing is spawned once cancelled or stopped |
| AxDocker.Service.StartThread | scripts/ax_docker.py:134-140 | one prepare thread is started, from idle only, and otherwise nothing changes |
| AxDocker.Service.CheckDaemon | scripts/ax_docker.py:197-202 | a ready service fails exactly when its daemon is found dead, which reaps it |
| AxDocker.Service.MarkReady | scripts/ax_docker.py:187-192 | the service is ready exactly if it was not cancelled before the lock was taken |
| AxDocker.Service.MarkFailed | scripts/ax_docker.py:147-153 | a failed preparation is marked after its clean-up, unless cancelled by then |
| AxDocker.Service.MarkStopped | scripts/ax_docker.py:204-207 | the stop thread marks the state |
| AxDocker.Service.TakeChildren | scripts/ax_docker.py:155-158 | in a second critical section it takes over every tracked child |
| AxDocker.Service.Reap | scripts/ax_docker.py:159-160 | the loop reaps every child exactly when none outlives its wait; otherwise one that outlived it is given up, and each child is reaped or given up |
| Firewall.ChainMeansPolicy | scripts/horde-lima-guard.py:63-78 | first-match evaluation of the generated chain accepts a packet if and only if its UID differs or its destination shares the leading bits of some listed network |
| Firewall.NftRules | scripts/horde-lima-guard.py:63-78 | the loop appends one rule per network and the final drop |
| Firewall.CanonicalIsIdempotent | scripts/horde-lima-guard.py:92-108 | canonicalising twice is canonicalising once |
| Firewall.CanonicalKeepsEffect | scripts/horde-lima-guard.py:92-108 | canonicalising changes no packet's fate |
| Firewall.CheckReadback | scripts/horde-lima-guard.py:111-128 | an accepted readback gives every packet the policy's verdict |
| Firewall.InstalledChainIsAccepted | scripts/horde-lima-guard.py:92-128 | the installed chain is accepted when read back, full-length prefixes shortened or not |
| StatRecord.RecordRoundTrip | src/environment.rs:965-1010 | for every process name of any bytes the printed record yields exactly its PID, group and start, and is refused exactly when one of them or the boot id is out of range |
| StatRecord.IdentityIsGiven | src/environment.rs:965-1010 | there is an identity exactly when the record is of the process asked for, its numbers are in range and the boot id between white space is well formed; it is the digest of those four under the scheme's name |
| StatRecord.AcceptedRecord | src/environment.rs:965-1010 | any record that yields facts holds the digits of the PID up to the first " (", and after the last ") " valid text whose third and twentieth fields are the group and the start |
| StatRecord.EncodedIsValid | src/environment.rs:985-986 | every encoding of Unicode scalar values is valid text |
| StatRecord.ValidIsEncoded | src/environment.rs:985-986 | and valid text is nothing else |
| StatRecord.TrimStops | src/environment.rs:994-994 | trimming drops the white space around the identifier and no more |
| StatRecord.IdentityIsTheProcess | src/environment.rs:965-1010 | the identity does not depend on the name and is shared only by equal boot, PID, start and group |
| StatRecord.ParseDecimal | src/environment.rs:992-996 | a printed number is read back exactly and refused when it does not fit |

## Left out

- Budget: pause events are taken to match the pressure clock; src/storage/pressure.rs is not part of this model. The exempt path of `supervise`, the workspace fingerprint and the deadlines of blocking commands are not modelled.
- Budget.Status: says nothing about idle and paused time for logs whose stamps go backwards; `millis` is a wall clock, and the saturating subtractions then clip.
- Delegation: blank and oversize argument checks, the size cap on mandatory context and the start-authorization question are left out.
- Delegation.Store.Delegate: does not model the refusals for a dirty workspace, an unregistered repository, skills, maintenance and unapproved peers (src/delegation.rs:236-304, 311-333); the execution policy's are in ExecutionSelection.
- Delegation.AnswersAreFinal: covers answers written by `question_action`. `apply_remote_answers` (src/federation.rs:1273-1286) writes an answer without its record, so a caller that read the question before could still overwrite that one.
- Delegation.ObjectiveStaysMandatory: is about trees submitted here. For a root received from another runtime, `sync_context` (src/federation.rs:693-715) deletes and rewrites the records, its own objective included, and the root's version; those writes are not modelled, and the version theorems do not cover such roots.
- TaskTree: imported foreign children (src/federation.rs:1196-1206) do not set a depth and are outside the depth and child limits.
- Federation: one link at a time, without bundles, secrets and environment leases; a request refused for its grants counts as one never handled; completion of remote roots (remote_submit) is not part of this model.
- Federation.ClosedIsFinal: does not model `revise_child` (src/federation.rs:1018-1087), which sends a finished child back to work and reopens its link.
- FleetQueue: a store call that fails inside a tick is taken to end the process; rows of the local runtime and the transport of management commands are left out; an operation's outcome is an arbitrary reply.
- Delivery: merges made with automatic delivery switched off need no authorization and are left out; the checks repeated around the delivery decision are inputs of the authorization, and the preflight checks one input of the reconciliation; deployment and package release after the merge are left out; GitHub's answers are arbitrary.
- DeliveryEvidence: logins are compared as already lower-cased, and timestamps by their order.
- Accounts: quota windows, credits and the clock are inputs of each operation; one authentication profile per account; credential delivery to other runtimes is left out.
- ExecutionSelection: the JSON shape of requests is left out, and the inventory is arbitrary.
- AxWorker: one reading of the clock for each turn of the main loop; a process group is taken to be dead once its final wait returns.
- AxDocker: storing the daemon's handle is one step with spawning it; cgroup and network preparation are commands with arbitrary results.
- Firewall: address text is parsed and printed by a library taken to round-trip; `pf_rules`, other tables and the packet's other fields are left out.
- StatRecord: the digest is taken to be injective on boot, PID, start and group; the historical `ps` format is left out.
- Secret storage, OAuth, inventory reporting, browser and Git drivers, the settings merge, port reservation and the environment lifecycle are not modelled.
