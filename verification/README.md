# Verified model of the openronin scheduler and Director

openronin watches repositories, turns issues into pull requests with coding agents, and has a
Director that proposes and carries out repository decisions under a mode, an authority and a
budget.  This project models the parts of it whose correctness depends on interleavings and
whole runs, and proves what they keep.  `dafny verify dfyconfig.toml` checks everything.

How the model is built:

- Tables are fields or values, a stretch of code without an `await` is one step, and the clock
  is an integer.  Each component is a state machine `Step`/`Run` over sequences of events; an
  event that is not enabled leaves the state alone, so every sequence is a run.
- Where the code updates things in place there is a class with the same fields.  The classes of
  the worker, the run ledger, the scheduler and the decision table carry a ghost `trace` of events
  and `Valid()` says `View() == Run(..., trace)`; each method says which events it adds.  So what is
  proved of runs holds of the fields, as the lemmas at the end of those files state.
- The files named `...Laws` say, event by event and without the names the machines are built of,
  what each operation promises, so that a machine that did something else would fail them.
- The processes crash: the machines have restarts, and what is in hand is then lost.
- The engine, git, the forge and humans are free: their answers are event parameters or
  nondeterministic values.

The files, by component:

- Scheduler: `TaskQueue`, `CrashRecovery`, `QueueLaws`, `Shutdown`, `SchedulerLoop` and `SchedulerLaws`
  (queueing, draining, stopping, booting), `CostCap`, `RollingCap`, `RunLedger` and `CostLaws`
  (admission of engine calls).
- Lanes of one repository: `PrBranches` (the ledger of branches), `Lanes` (the machine),
  `LaneLaws`, `LaneWorker` (worker and poll in place), `Rounds`, `ClosedRounds`, `ActivePr`, `PushBudget`,
  `PushLimits`, `GreenLight`, `Parking`, `LaneRuns` (runs from an empty ledger into the exceptional states), and
  `RebaseLoop` (rebase and conflict resolution over an abstract clone).
- Director: `DecisionPolicy`, `DecisionKeys`, `KeyLaws` and `LabelLaws` (dedup keys), `DecisionLedger` (the
  machine), `LedgerLaws`, `DecisionStore` (the table in place), `EffectSafety`, `Retries`, `SingleRun`,
  `Finality`, `DedupWindow`, `TickCosts`, `Lease`, `TickBudget`, `BudgetCaps`, `BudgetLaws`, `Digest`,
  `Followups`, `DirectorLaws`.
- Shared: `Wrappers`, `Counting`, `Numerals`, `TextOrder`.

Results that differ from what the code's comments or names suggest:

- The crash-loop guard abandons a task after three resets only when its error text has at most
  918 characters; clipping to 1024 loses the stamps of longer ones, and the task is reset for
  ever (`CrashRecovery.AbandonedAfterThreeResets`).
- The daily cost cap counts the current UTC day, not the last 24 hours, because two text
  formats are compared (`CostCap.DateDecides`, `CostCap.WindowIsToday`).  Its bound holds of 24
  hours exactly when they fall on one UTC day (`RollingCap.RollingIff`); otherwise they get up to
  twice as much.
- A stop that reports idle may have drains in flight, exactly when a status page has dropped a
  busy repo from the map of workers (`Shutdown.HiddenIff`).
- A closed round can be reopened by a result in flight (`ClosedRounds.ClosedForGoodIff`), and the
  poll can open the gate of a parked issue, no_changes or guardrail_blocked, through a stale
  listing (`Parking.ParkIsFinalIff`); `LaneRuns` reaches these states from an empty ledger.
- A pull request is served by two rows with counters of their own, so it gets up to 2 * max - 1
  pushes and 2 * max conflict resolutions (`PushLimits.LimitsIff`).
- A decision in the hands of a tick or an approval can be approved or rejected once more; the side
  effect then runs twice, or a rejection is overwritten, or the dedup window is broken.  The exact
  conditions, over all later runs, are `Finality.SecondRunIff`, `Finality.RejectionIff`,
  `DedupWindow.RejectionWindowIff` and `DedupWindow.ApprovalWindowIff`; the theorems about
  orderly runs say what holds when nobody does that.
- The matrix at the head of src/director/executor.ts has `no_op` executed in dry_run and
  `close_issue` queued; the code returns dry_run for everything in that mode and skips what the
  authority forbids.  The model follows the code.
- Title and body of a proposed issue are joined by an unescaped bar, so different issues can
  share a dedup key (`KeyLaws.BarsCollide`); `KeyLaws.CreateIssueIff` says which bars do that.
  Labels are joined by unescaped commas, so a list of two shares its key with the one label that
  is its text; `LabelLaws.LabelIff` says which label decisions are told apart.
- A rebase that the engine aborts against its instructions is reported as a success, and the old
  head is pushed; `RebaseLoop.AttemptRebaseResolve` says exactly when the base is in the push.
- A local date that is returned to gets a second digest, and only such a date does
  (`Digest.OncePerDateIff`).
- The schema of the budget does not order initial and maximal caps, and the caps stay in range
  exactly when they are ordered (`BudgetCaps.RangeIff`).

## Model

| member | source | states |
|---|---|---|
| TaskQueue.PrecedesIsStrictOrder | src/scheduler/queue.ts:57-63 | the dequeue order (priority, no due date first, due date, id) is total, irreflexive and transitive |
| TaskQueue.FirstExists | src/scheduler/queue.ts:42-72 | a repo has a first due pending task exactly when it has a due pending task |
| TaskQueue.TaskTable.Enqueue | src/scheduler/queue.ts:26-40 | a known task becomes pending with the new priority and due date, whatever it was; an unknown id changes nothing |
| TaskQueue.TaskTable.Dequeue | src/scheduler/queue.ts:42-72 | returns the first due pending task of the repo and marks only it running; None exactly when nothing is due |
| TaskQueue.TaskTable.MarkDone | src/scheduler/queue.ts:74-78 | the whole new row, error cleared, every other row untouched |
| TaskQueue.TaskTable.MarkError | src/scheduler/queue.ts:85-90 | the task is pending again after the delay with its error, every other row untouched |
| TaskQueue.TaskTable.RequeuePaused | src/scheduler/queue.ts:80-83 | only the status changes back to pending |
| TaskQueue.TaskTable.DequeueBatch | src/scheduler/worker.ts:232-245 | a drain of n dequeues takes a batch nothing due was passed over for, leaves all other tasks alone, and stops early only when nothing is due |
| TaskQueue.BatchIsPrefix | src/scheduler/queue.ts:42-72 | a batch of n is the first n of the sorted list of due tasks, each once |
| TaskQueue.DueOrderExists | src/scheduler/queue.ts:42-72 | every table has that sorted list |
| QueueLaws.PickedIsNext | src/scheduler/queue.ts:42-72 | no ready task of a higher priority is passed over, and within the priority none without a date for one with a date, none with an earlier date, and no smaller id on a tie |
| CrashRecovery.StampCountIsOccurrences | src/scheduler/index.ts:64-75 | the SQL length arithmetic counts the occurrences of the stamp |
| CrashRecovery.NothingForms | src/scheduler/index.ts:76-87 | appending a stamp, even a clipped one, forms no occurrence across the join |
| CrashRecovery.RestampedText | src/scheduler/index.ts:76-87 | one more occurrence after a recovery exactly when the stamp still fits below 1024 characters |
| CrashRecovery.RecoverStuckTasks | src/scheduler/index.ts:56-99 | the two updates of the sweep and their row counts: abandoned and reset tasks are told apart by the stamps counted before |
| CrashRecovery.NothingRunsAfterASweep | src/scheduler/index.ts:56-99 | no task is running after a sweep |
| QueueLaws.SweptTask | src/scheduler/index.ts:64-87 | a running task with three stamps or more is done for a day; one with fewer is pending, high and due at once; any other task stays as it was |
| QueueLaws.StampOfAReset | src/scheduler/index.ts:76-87 | the text of the stamp, appended whole as long as the error text has at most 980 characters, and a prefix of that otherwise |
| CrashRecovery.CrashLoop | src/scheduler/index.ts:64-87 | over any interleaving of crashes, enqueues, dequeues and pauses: the number of resets is the smaller of the crashes and the resets left in the error text |
| CrashRecovery.AbandonedAfterThreeResets | src/scheduler/index.ts:64-87 | an unstamped task is reset by its first three crashes and abandoned by every later one, exactly when its error text has at most 918 characters; a longer one is reset for ever |
| PrBranches.FindKey | src/storage/pr-branches.ts:19-56 | finds the row of a task and branch, or none has this key |
| PrBranches.NewestOf | src/storage/pr-branches.ts:86-97 | the row of the task with the highest id |
| PrBranches.NewestByPr | src/storage/pr-branches.ts:128-142 | the row of the PR number with the highest id |
| PrBranches.RecordWritesOneRow | src/storage/pr-branches.ts:19-56 | the upsert writes exactly one row, keeps the counters of an existing one, and keeps keys unique |
| PrBranches.OwnKey | src/storage/pr-branches.ts:19-56 | recording under a row's own key writes that row |
| PrBranches.CancellingLifts | src/storage/pr-branches.ts:115-123 | the UPDATE is the one change that leaves no row of the task in the given statuses, moves only those rows and only to cancelled, and keeps all PR numbers and counters; doing it again changes nothing |
| PrBranches.PrBranchTable.RecordPrBranch | src/storage/pr-branches.ts:19-56 | the written row is the only one with its key; its counters are kept, or zero in a new row; all other rows untouched |
| PrBranches.PrBranchTable.BumpIteration | src/storage/pr-branches.ts:58-62 | one counter of one row goes up by one |
| PrBranches.PrBranchTable.BumpConflictResolutions | src/storage/pr-branches.ts:64-71 | the other counter of one row goes up by one |
| PrBranches.PrBranchTable.LiftTransientPark | src/storage/pr-branches.ts:115-123 | no error or dirty row of the task is left, nothing else has changed, PR numbers and counters included; true exactly when the table has changed |
| PrBranches.PrBranchTable.CancelGuardrail | src/scheduler/reconcile.ts:200-205 | no guardrail park of the task is left and nothing else has changed |
| Lanes.OutsideMovesStatus | src/scheduler/reconcile.ts:56-129 | poll, label removal and comments move row statuses and the poll list only, and never reopen a closed row |
| LaneWorker.RepoWorker.TakeIssue | src/scheduler/worker.ts:247-318 | pickLane and the start of a patch, with its round name and active-PR guard, as one event of the lane machine; a closed issue gets no lane, an unlabelled one triage or nothing |
| LaneWorker.RepoWorker.TakePull | src/scheduler/worker.ts:72-150 | a PR seen closed closes our row; an open one goes to the wait for its feedback, with its row, unless the iterations are used up |
| LaneWorker.RepoWorker.ReadFeedback | src/lanes/pr-dialog.ts:108-165 | with new feedback the dialog starts on the row read before the wait; without, the auto-merge or nothing |
| LaneWorker.RepoWorker.FinishAnalyze | src/lanes/analyze.ts:246-260 | the verdict is stored for the issue; a failed analysis stores nothing |
| LaneWorker.RepoWorker.FinishPatch | src/lanes/patch.ts:240-394 | which row and decision each outcome of a patch writes |
| LaneWorker.RepoWorker.FinishDialog | src/lanes/pr-dialog.ts:250-364 | the dirty outcome is recorded under the PR's own task, the others under the row's; a push is counted and reopens the row |
| LaneWorker.RepoWorker.ResolveConflicts | src/lanes/pr-dialog.ts:665-700 | one attempt at most per auto-merge, counted when it engaged, gated by the counter read at the start |
| LaneWorker.RepoWorker.FinishMerge | src/lanes/pr-dialog.ts:818-830 | a merge closes the row in hand |
| LaneWorker.RepoWorker.PollRow | src/scheduler/reconcile.ts:69-126 | closed and missing PRs close their row by id, the rest is left |
| LaneWorker.RepoWorker.PollOurPrs | src/scheduler/reconcile.ts:56-129 | a whole poll: exactly the listed rows answered closed or gone are closed, exactly those with new feedback or under auto-merge are queued, each with its priority, and it is a run of the lane machine |
| LaneWorker.PolledAnswer | src/scheduler/reconcile.ts:75-126 | what each answer of the forge does to a listed row and its task: new feedback queues high, auto-merge alone normal |
| LaneWorker.RepoWorker.CancelGuardrailParks | src/scheduler/reconcile.ts:198-205 | the removed label cancels guardrail parks |
| LaneWorker.RepoWorker.OnComment | src/server/webhooks.ts:164-173 | a comment on an issue lifts error and dirty parks |
| LaneWorker.RepoWorker.Restart | src/scheduler/index.ts:56-99 | a restart of the process drops the job and the poll in progress and keeps the rows |
| LaneWorker.TableHoldsRounds | src/lanes/patch.ts:70-98 | whatever calls have made the table, its rows are exact rounds |
| LaneWorker.TableHoldsBudgets | src/lanes/pr-dialog.ts:88-108 | and its counters are the pushes and conflict resolutions made, within their limits |
| LaneLaws.TakenIssue | src/scheduler/worker.ts:247-318 | which lane an open issue gets, both ways: analyze, a patch or triage exactly under the label, the enabled lanes, the park, the verdict and the open pull request that pickLane looks at |
| LaneLaws.PatchBranch | src/lanes/patch.ts:70-81 | the branch of a round is the base name, with one more than the number of closed rows as suffix from the second round on |
| LaneLaws.WorkBegan | src/scheduler/worker.ts:66-150 | in every run: whatever the worker is doing to an issue began with a look at that issue that found it open, labelled unless it is triage, and not waiting for a human |
| LaneLaws.EndedPatch | src/lanes/patch.ts:240-394 | the status a row reads after each ending of a patch, and when the task has a decision of the lane |
| LaneLaws.EndedDialog | src/lanes/pr-dialog.ts:250-364 | the row and status that each ending of a dialog writes, and that only a push is counted |
| Rounds.RoundNamesDiffer | src/lanes/patch.ts:70-81 | two rounds of an issue have the same branch name only when they are the same round |
| Rounds.RoundsTheorem | src/lanes/patch.ts:70-98 | in every interleaved run without patch_multi the rows of an issue are exactly the closed rounds 1..k and at most one live row, named round k+1; names are pairwise distinct |
| Rounds.RunKeepsRounds | src/lanes/patch.ts:70-98 | the inductive invariant behind it, over every event |
| ClosedRounds.ClosedForGoodIff | src/lanes/patch.ts:285-394 | a closed round is never overwritten in any continuation exactly when no patch or dialog result in flight is about to be recorded on its row |
| ClosedRounds.ClosableUnderwayIff | src/scheduler/reconcile.ts:56-129 | a row can be closed under a waiting worker exactly when it carries a PR number or the poll in progress has it listed |
| LaneRuns.ClosedUnderDialog | src/scheduler/reconcile.ts:75-87 | from an empty ledger some run closes a row under its own dialog |
| LaneRuns.ClosedUnderPatch | src/scheduler/reconcile.ts:75-87 | and some run closes it under the next patch of its issue |
| LaneRuns.ParkedUnderPoll | src/scheduler/reconcile.ts:56-87 | and some run parks an issue, as no_changes or as guardrail_blocked, while the poll in progress lists its row, which then opens the gate |
| ClosedRounds.NextNameIsNew | src/lanes/patch.ts:70-81 | the name chosen for the next round is not the name of a closed one |
| ActivePr.ActivePrTheorem | src/lanes/patch.ts:83-98 | in every reachable state and for whatever happens next, patch_multi included: an open row of an issue keeps its PR number, and no patch is under way on an issue that has one |
| ActivePr.OutsideNeverActivates | src/scheduler/reconcile.ts:56-129 | poll, label removal and comments never make a row active |
| PushBudget.BudgetTheorem | src/lanes/pr-dialog.ts:88-108 | in every run, patch_multi included: iterations equal the pushes made through the row and stay within the limit, likewise conflict resolutions, and a PR gets at most twice either limit |
| PushBudget.AtMostTwoRows | src/lanes/pr-dialog.ts:254-262 | a PR number is served by the row it was opened through and the row of its own task, no other |
| PushBudget.RunKeepsBudget | src/lanes/pr-dialog.ts:354-364 | the inductive invariant behind it, over every event |
| PushLimits.PushBound | src/lanes/pr-dialog.ts:72-108 | a PR gets one push less than twice the limit at most, because the dialog that makes its second row does not push |
| PushLimits.LimitsIff | src/lanes/pr-dialog.ts:72-108 | the least bounds on what one PR gets in all runs: 2 * max - 1 pushes and 2 * max conflict resolutions, and none of either without iterations |
| GreenLight.GreenLightTheorem | src/scheduler/worker.ts:286-318 | in every run, restarts included, with analyze in front an issue never has more recorded patch outcomes than stored ready verdicts |
| GreenLight.AnalyzeIsNeeded | src/scheduler/worker.ts:314-318 | without the analyze lane one dispatch records an outcome with no verdict |
| Parking.ParkingTheorem | src/scheduler/worker.ts:276-284 | an issue whose newest row is parked for a human, has no PR and is not listed by the poll in progress is never worked on again and never picked by analyze, patch or patch_multi; a guardrail_blocked one until it is unblocked |
| Parking.ParkedStaysParked | src/scheduler/worker.ts:247-318 | the same from any reachable state, over any continuation |
| Parking.ParkIsFinalIff | src/scheduler/reconcile.ts:75-87 | a parked issue stays gated in every continuation without an unblock of it exactly when its newest row has no PR and no poll in progress lists it |
| Parking.NoChangesIsFinalIff | src/scheduler/reconcile.ts:75-87 | for no_changes without a PR the same over every continuation, unblocks included |
| CostCap.DateDecides | src/storage/runs.ts:72-81 | SQLite's text time compared with an ISO text: a run of the boundary date never counts |
| CostCap.WindowIsToday | src/supervisor/index.ts:77-85 | so the cap is per UTC day, not per rolling 24 hours |
| CostCap.CapTheorem | src/supervisor/index.ts:77-165 | in every interleaving of K workers with calls of at most c, the recorded cost of the runs started on one UTC day is below cap + K*c |
| CostLaws.AdmittedCall | src/supervisor/index.ts:77-112 | refused exactly when there is a cap and the runs of the current UTC day have cost as much; otherwise there is a running row without a cost |
| CostLaws.EndedCall | src/supervisor/index.ts:117-165 | the row reads ok with the reported cost, or error without one |
| RollingCap.RollingTheorem | src/supervisor/index.ts:77-85 | any 24 hours stay below twice that bound |
| RollingCap.RollingIff | src/supervisor/index.ts:77-85 | the bound of one UTC day holds of the 24 hours up to a given second, in all runs, exactly when they fall on one UTC day, or calls are free, or there is no repo |
| CostCap.RunKeepsWithin | src/supervisor/index.ts:102-165 | the invariant: recorded cost plus the most the calls in flight can add |
| CostCap.RunningTheorem | src/supervisor/index.ts:102-165 | in every run with restarts: a run row reads running exactly while its call is in flight |
| RunLedger.Supervisor.CostSince | src/storage/runs.ts:72-81 | the sum over the rows of the window, NULL costs as zero |
| RunLedger.Supervisor.CheckDailyCostCap | src/supervisor/index.ts:77-85 | refuses exactly when a positive cap is reached |
| RunLedger.Supervisor.BeginJob | src/supervisor/index.ts:102-112 | admission check and run row are one step of the cost machine |
| RunLedger.Supervisor.EndJob | src/supervisor/index.ts:117-165 | the row is closed on both paths, ok with the cost or error with NULL |
| RunLedger.Supervisor.Restart | src/scheduler/index.ts:91-99 | the boot closes every row left running, without a cost, and counts them |
| RunLedger.LedgerKeepsCap | src/supervisor/index.ts:77-165 | whatever calls have made the ledger, the rows of a day cost less than cap + K*c |
| Shutdown.OneDrainPerRepo | src/scheduler/index.ts:235-282 | with a fixed watched set at most one drain per repo is ever in flight |
| Shutdown.CleanShutdownTheorem | src/scheduler/index.ts:333-360 | once stop has seen nobody busy, then and in every continuation no drain is in flight, no task and no run is marked running, and the next sweep changes nothing |
| Shutdown.RunKeepsOwned | src/scheduler/worker.ts:36-205 | whatever is marked running belongs to a drain in flight |
| Shutdown.HiddenIff | src/scheduler/index.ts:307-331 | after a status page, no continuation has stop report idle with a drain in flight, exactly when the watched set of the page has every busy repo |
| Shutdown.HiddenTaskIsReset | src/scheduler/index.ts:316-318 | and then the next boot resets a task that is being worked on |
| Shutdown.ResetFromBoot | src/scheduler/index.ts:307-360 | from boot: fire, take, stop and a status page without the repo; the stop is idle, a task is in hand, and the next sweep resets it |
| SchedulerLoop.Scheduler.TickDrain | src/scheduler/index.ts:235-293 | the loop over watched repos as a run of the scheduler machine; flagged busy exactly when stopped, or when repos are watched and nothing was fired |
| SchedulerLoop.Scheduler.WorkerStatuses | src/scheduler/index.ts:307-331 | newly watched repos get workers, the map is left with exactly the watched ones, and drains and busy flags stay |
| SchedulerLoop.Scheduler.StopAll | src/scheduler/index.ts:347-360 | stops at the first look that finds nobody busy, and otherwise when the timeout is used up; idle exactly when nobody is busy at the end |
| SchedulerLoop.IdleIsClean | src/scheduler/index.ts:333-360 | whatever calls have been made since boot: stopped with nobody busy, nothing is in flight and the next sweep changes nothing |
| RebaseLoop.AttemptRebaseResolve | src/lanes/conflict-resolve.ts:83-305 | for any engine and any concurrent pushes the outcome tells the whole story of clone, fetch, pauses, calls, checks, stagings and steps: a push is tried, once and over the commit synced to, exactly when the last pause leaves the branch ready, and the outcome is rebased or push_failed by its answer; every other ending has its own cause and no push; the pushed branch has the base in it exactly when the last call left the rebase to git or such a branch; at most maxSteps calls; no rebase left in progress; exactly the files of the resolved pauses listed, each once and checked clean |
| RebaseLoop.CheckBatch | src/lanes/conflict-resolve.ts:223-243 | all files of a batch are checked; listed when all are clean, otherwise the list is unchanged |
| RebaseLoop.NextPause | src/lanes/conflict-resolve.ts:168-293 | one pause: the engine is asked, then the files are checked, then staged, then git goes on, each only after the one before; and what the attempt comes to with it |
| RebaseLoop.Clone.GitRebase | src/lib/git.ts:286-313 | done, paused on a non-empty list of conflicts, or aborted |
| RebaseLoop.Clone.ForcePushWithLease | src/lib/git.ts:376-388 | overwrites the expected commit or nothing |
| DecisionPolicy.AllowedCallsArePermitted | src/director/executor.ts:125-165 | every call a permitted decision makes is covered by the authority that permitted it |
| DecisionPolicy.EditsKeepTarget | src/director/executor.ts:446-462 | an edit changes exactly the overridden editable fields, never the issue or PR number |
| DecisionPolicy.RepeatedEditsKeepTarget | src/director/executor.ts:446-462 | nor do any number of edits |
| LedgerLaws.ApprovedDecision | src/director/executor.ts:493-560 | an accepted approval stores the payload with the edits of the fields a human may change and nothing else changed, and runs exactly what it stored unless the authority forbids it |
| LedgerLaws.EditsTheorem | src/director/executor.ts:508-560 | in every run each approved call to the forge acts with the payload that an approval of that decision made of what was stored, edits included, under the director of that approval |
| LedgerLaws.ExecutedDecision | src/director/executor.ts:68-112 | dry_run, skipped, pending or started, in this order: skipped for what the operator has not allowed; asked first for the charter always, and for what touches the repo unless full_auto, or semi_auto and no merge |
| LedgerLaws.RecordedDecision | src/director/tick.ts:443-484 | a proposal is skipped exactly when a pending or executed decision of the last seven days has its key, and is otherwise pending and held |
| LedgerLaws.AttemptedRun | src/director/executor.ts:206-305 | the calls, the outcome and the retry that each result of an attempt leads to, every call with the payload and the director of its run |
| KeyLaws.KindsNeverCollide | src/director/dedup.ts:55-82 | decisions of two kinds never share a key |
| KeyLaws.CsvIff | src/director/dedup.ts:47-50 | label lists with one set of normal forms give one text whatever their order and repetition, and without commas and bars in the labels only those do |
| KeyLaws.CommasCollide | src/director/dedup.ts:47-50 | with commas it fails: the labels a and b give the text of the one label a,b |
| KeyLaws.CloseApproveMergeIff | src/director/dedup.ts:69-74 | these keys are equal exactly for one number |
| KeyLaws.CommentIff | src/director/dedup.ts:61-64 | comment keys are equal exactly for one number and one normalised body |
| KeyLaws.CharterIff | src/director/dedup.ts:75-76 | charter keys are equal exactly for one normalised text of changes |
| KeyLaws.PlainLabelsIff | src/director/dedup.ts:65-68 | among decisions whose labels have neither commas nor bars: keys are equal exactly for one number and the same sets to add and remove |
| LabelLaws.CsvUniqueIff | src/director/dedup.ts:32-50 | over normalised labels: a list is the only one with its text exactly when it has one label at most, without a comma at which the label would cut into two sorted normalised labels |
| LabelLaws.LabelIff | src/director/dedup.ts:32-68 | over normalised labels: a label decision is told apart from all others exactly when it adds one label at most and removes one at most, without such a comma and without a bar with no stripped character before and no space after it |
| KeyLaws.CreateIssueIff | src/director/dedup.ts:32-60 | over normalised texts: an issue proposal is told apart from all others with another title exactly when neither title nor first paragraph has a bar with no stripped character before and no space after it |
| KeyLaws.AnyBarCollides | src/director/dedup.ts:59-60 | any three normalised texts make two issues with one key, by which side of the bar the middle one is on |
| KeyLaws.BarsCollide | src/director/dedup.ts:32-60 | alpha with beta, bar, gamma shares its key with alpha, bar, beta with gamma; all four are normalised texts |
| KeyLaws.HarmlessBar | src/director/dedup.ts:32-60 | a title with a bar between spaces is told apart from all others |
| EffectSafety.EffectsTheorem | src/director/executor.ts:68-202 | in every run with any configuration changes: each call to the forge was permitted by the authority its execution read and acts on the proposed item; unapproved ones only in semi_auto and full_auto, unapproved merges only in full_auto; amend_charter makes no call and is never executed |
| EffectSafety.RunIsSafe | src/director/executor.ts:493-623 | the invariant behind it; recorded rows keep everything but outcome and payload |
| Retries.WithTransientRetry | src/director/executor.ts:403-419 | stops at the first success or terminal error, and after one attempt more than there are delays |
| Retries.RetriesTheorem | src/director/executor.ts:403-419 | in every run each started side effect has at most four attempts, of which only the last can succeed |
| SingleRun.SingleRunTheorem | src/director/executor.ts:493-598 | when humans leave alone what is in hand: a side effect starts at most once, and once more per crash that cut it off; it succeeds at most once, exactly when the row reads executed |
| Finality.SecondRunIff | src/director/executor.ts:493-504 | after a permitted approval that bound holds in every orderly continuation exactly when no run of the decision is in progress and no tick holds it, other than under dry_run or without the authority |
| Finality.HeldRunsAgain | src/director/tick.ts:285-303 | a run that breaks it for a held decision: the tick executes it as well |
| Finality.FinalIff | src/director/executor.ts:309-317 | in any state: an outcome outlives every run, and every orderly run, exactly when it is final |
| Finality.FinalInOrder | src/director/executor.ts:309-317 | where the accounts of orderly runs hold, final means neither pending nor in hand |
| Finality.RejectionIff | src/director/executor.ts:601-612 | a rejection stands in every continuation, and in every orderly one, exactly when neither a run nor a tick had the decision in hand |
| Finality.ApprovedWhileHeld | src/director/tick.ts:285-303 | from an empty ledger: approving a decision a tick still holds makes the issue twice |
| Finality.RejectedWhileFlying | src/director/executor.ts:601-612 | from an empty ledger: a rejection under a running approval is overwritten by its success |
| DedupWindow.DedupTheorem | src/director/dedup.ts:95-112 | in every orderly run two living decisions with one key are at least seven days apart |
| DedupWindow.RejectionWindowIff | src/director/dedup.ts:89-112 | a rejection keeps the window in every orderly continuation exactly when the decision has no key, or is a week old, or is in no hand that can revive it |
| DedupWindow.RefusedApprovalWindowIff | src/director/executor.ts:515-530 | likewise an approval that the authority refuses |
| DedupWindow.ApprovalWindowIff | src/director/executor.ts:493-598 | a permitted approval keeps it exactly when the decision has no key, or is a week old, or is not in hand, or is an amend_charter that no hand can revive |
| DedupWindow.RejectionOpensTheGate | src/director/dedup.ts:89-94 | one tick from an empty ledger leads to a decision whose rejection breaks the window |
| DedupWindow.RunKeepsSpaced | src/director/tick.ts:438-486 | the invariant behind it, expired decisions on the way to execution included |
| DecisionStore.DecisionTable.CheckForDuplicate | src/director/dedup.ts:95-112 | the newest living decision of the window with this key, if there is one |
| DecisionStore.DecisionTable.RecordDecision | src/director/tick.ts:443-484 | one row per decision, skipped exactly when it is a duplicate |
| DecisionStore.DecisionTable.RecordTickDecisions | src/director/tick.ts:412-487 | all decisions of a tick as one step; exactly the non-duplicates go on to the executor |
| DecisionStore.DecisionTable.ExecuteDecision | src/director/executor.ts:68-112 | what is settled at once and what starts to run, under the configuration of the tick |
| DecisionStore.DecisionTable.ApproveDecision | src/director/executor.ts:493-598 | accepted exactly for a pending decision of the repo; the stored payload has the edits, the run that starts has the stored payload, and one starts unless the authority, read again, forbids it; the mode is not read |
| DecisionStore.DecisionTable.AttemptOnce | src/director/executor.ts:206-305 | one attempt, its logged calls, and whether the run is over |
| DecisionStore.DecisionTable.RejectDecision | src/director/executor.ts:601-623 | accepted exactly for a pending decision of the repo |
| DecisionStore.DecisionTable.ExpireStalePending | src/director/decisions.ts:166-179 | exactly the pending rows older than a week expire, and are counted |
| DecisionStore.TableActsWithinAuthority | src/director/executor.ts:68-202 | whatever calls have made the table, every logged call to the forge was permitted |
| DecisionStore.TableKeepsWindow | src/director/dedup.ts:95-112 | and, when humans leave alone what is in hand, living rows of one key are a week apart |
| DecisionStore.SplitCost | src/director/tick.ts:434-441 | the remainder loop computes the slices |
| TickCosts.CostsTheorem | src/director/tick.ts:432-441 | over the reals the costs of all rows of a run, duplicates included, sum to the cost of its schema-valid ticks |
| TickCosts.SlicesAreEven | src/director/tick.ts:434-441 | no slice is negative and the first exceeds the others by less than a micro-dollar per row |
| DirectorLaws.CostShares | src/director/tick.ts:434-441 | each row gets the even share in whole micro-dollars, the first the rest |
| Lease.LeaseTheorem | src/director/active-tick.ts:48-114 | when every body releases within its ttl: at most one holder per repo, and a release removes exactly its own row |
| Lease.SecondHolderIff | src/director/active-tick.ts:78-91 | a second holder gets in after a pause exactly when the pause outlasts the ttl |
| Lease.OverrunLosesTheRow | src/director/active-tick.ts:94-96 | an overrun body's release deletes its successor's row and a third gets in |
| Lease.AbandonedIsReclaimable | src/director/active-tick.ts:78-91 | an abandoned lease can be taken from started + ttl on, and not before |
| Lease.ActiveTicks.GetActiveTick | src/director/active-tick.ts:48-60 | a row is shown exactly when it could not be taken over |
| Lease.ActiveTicks.TryAcquireTick | src/director/active-tick.ts:65-92 | acquired exactly when there is no row or it has expired; the whole new table |
| Lease.ActiveTicks.TickOrSkip | src/director/active-tick.ts:48-92 | what is shown and what could be acquired agree at every instant |
| Lease.ActiveTicks.WithActiveTick | src/director/active-tick.ts:101-114 | the body runs exactly when the lease could be taken, and then no row of the repo is left, whoever wrote it; otherwise nothing changes |
| Followups.FollowupTheorem | src/director/outcome-followup.ts:109-130 | at most 56 observations of a decision in any run, whatever the latency, and none after a final one |
| Followups.FollowupLimitIff | src/director/outcome-followup.ts:109-130 | and 56 is the least such bound, reached by one observation every six hours |
| Followups.FinalEndsIt | src/director/outcome-followup.ts:115-126 | after a closed or merged observation no continuation adds another |
| DirectorLaws.DueForObservation | src/director/outcome-followup.ts:109-130 | due exactly within two weeks of the execution, not within six hours of an observation, and not after one that saw the issue closed |
| DirectorLaws.ObservedKinds | src/director/outcome-followup.ts:150-203 | the kind of observation for each answer of the forge |
| Followups.OneRowEach | src/director/outcome-followup.ts:144-211 | a sweep observes each candidate at most once, with the forge's answer for it |
| Followups.NewestFirst | src/director/outcome-followup.ts:109-130 | at most five candidates, eligible ones only, newest first, and none passed over for an older one or while there is room |
| Followups.SweepIsRun | src/director/outcome-followup.ts:144-211 | the rows a sweep appends are those of a run of the machine the bounds are about |
| Followups.SweepFromSelection | src/director/outcome-followup.ts:144-211 | and so is a whole sweep with its selection |
| Followups.FollowupTable.RunSweep | src/director/outcome-followup.ts:144-211 | selects the candidates, appends their rows and counts them; no error counted exactly when no new row is one |
| Digest.BackoffTable | src/director/digest.ts:134-145 | 1, 2, 4, 8, 16, 32 minutes, then an hour each, never shrinking |
| Digest.RetryTheorem | src/director/digest.ts:244-316 | without a success in between, attempts i and i+1 are at least min(2^(i-1), 60) minutes apart and no 24 hours hold more than 29 failures |
| Digest.TwentyNineFit | src/director/digest.ts:134-145 | 29 fit into a day, 30 do not |
| DirectorLaws.BegunDigest | src/director/digest.ts:78-93 | starts exactly past the configured hour, with the delay after a failure over, and not on the date of the last one |
| DirectorLaws.EndedDigest | src/director/digest.ts:239-316 | a posted or unsupported one settles the date it was started on; a failure is counted and delays the next try from the start of the attempt |
| Digest.OncePerDateIff | src/director/digest.ts:78-102 | for the local dates a run goes through: no date is posted or given up twice, whatever else happens, exactly when no date is returned to after another one |
| Digest.OncePerDateTheorem | src/director/digest.ts:78-102 | so a local date that never goes back gets at most one digest |
| Digest.DateMayNotGoBack | src/director/digest.ts:78-93 | a date that goes back and forth posts twice for one date |
| Digest.DigestRow.TryBegin | src/director/digest.ts:78-93 | starts exactly when the backoff, the hour and the date allow |
| Digest.DigestRow.Finish | src/director/digest.ts:239-316 | the retry state after each kind of ending, timed from the start of the attempt |
| BudgetCaps.CapsTheorem | src/director/retrospective.ts:88-164 | caps stay between initial and max, change at most once per UTC day, leave a chain of history rows, and are at most initial * 1.1^d after d days |
| BudgetCaps.ConvergenceTheorem | src/director/retrospective.ts:100-149 | enough climb days end each cap, daily and weekly, within 0.005 of its maximum when its initial value is at least 0.05 |
| BudgetLaws.RecalibratedCaps | src/director/retrospective.ts:88-164 | both caps go up by ten per cent or down by twenty, within their bounds, once per UTC day, exactly on five decisions or more with four fifths or two fifths executed, unless neither would move by half a cent; what is moved is on record |
| BudgetLaws.ShrinkTheorem | src/director/retrospective.ts:100-149 | bad days in a row bring each cap down to within half a cent of its initial value, from anywhere in the range, when that is at least 0.025 |
| BudgetCaps.RangeIff | src/director/types.ts:100-103 | the schema does not order initial and max; the range holds in all runs exactly when both are ordered |
| BudgetCaps.PositiveIff | src/director/retrospective.ts:118-119 | in every run a cap is positive exactly when its initial value is, in whatever order initial and max are |
| BudgetCaps.StuckIff | src/director/retrospective.ts:121-124 | the caps never move in any run exactly when both initial caps are below five cents or within half a cent of their maximum |
| BudgetCaps.BudgetRow.RecalibrateIfDue | src/director/retrospective.ts:88-164 | one recalibration step; a history row exactly when the caps were written |
| BudgetCaps.DirectionIff | src/director/retrospective.ts:100-116 | in whole numbers: up at four fifths executed, down at two fifths, held on fewer than five decisions |
| BudgetCaps.DirectionIsMonotone | src/director/retrospective.ts:100-116 | one more executed decision never ends a climb, one more failed or rejected one never ends a shrink |
| TickBudget.SpendingTheorem | src/director/budget.ts:69-119 | the streak never passes its limit; since the last rollover thinking costs at most the budget, one tick more, and the digests |
| TickBudget.FullStreakIsFinal | src/director/budget.ts:149-160 | at its limit the streak stays there and no later tick calls the engine |
| TickBudget.CapsCarryOver | src/director/tick.ts:92-97 | the caps the gate reads are those of a run of the recalibration, so they stay in range |
| TickBudget.EngineReachableIff | src/director/tick.ts:118-140 | between two ticks of any run, an engine call is reachable exactly when the streak is below its limit and no budget is zero by configuration |
| TickBudget.PausedIsSilent | src/director/budget.ts:149-152 | a paused director calls no engine in any continuation without an unpause |
| TickBudget.ReachableAsIsIff | src/director/budget.ts:149-172 | between two ticks of any run, an engine call is reachable without an unpause exactly when there is no pause, the streak is below its limit and no budget is zero |
| BudgetLaws.BegunTick | src/director/tick.ts:85-140 | a tick passes the gate exactly when not paused, below the streak limit, and with money left to think with and in both caps, after rollover and recalibration |
| BudgetLaws.AnsweredTick | src/director/tick.ts:154-235 | what each ending of the engine call costs and adds to the failures in a row |
| TickBudget.BudgetState.CheckBudgetGate | src/director/budget.ts:149-172 | shut when paused, at the streak limit, or with the think budget or a cap used up, and open otherwise |
| TickBudget.BudgetState.Begin | src/director/tick.ts:88-140 | rollover, the row if it is missing, the daily recalibration, then the gate |
| TickBudget.BudgetState.Conclude | src/director/tick.ts:154-235 | charging precedes parsing; every failure adds to the streak, a good answer goes on to execution |
| TickBudget.BudgetState.Succeed | src/director/tick.ts:289-317 | only after all decisions are executed is the streak cleared |

## Left out

- Network clients, CLI, MCP, HTTP routes, admin pages and Telegram: a webhook is one event, the
  slash commands that bypass the Director's gates, or create the budget row with default caps, are
  not part of the runs.
- Engine selection (`selectEngine`, `selectThinkEngine`), prompts, diff guardrails and comment
  rendering: branching without state, it would only add easy members.
- Parsing of YAML, JSON and schemas, SHA-256 and the regular expressions of `normaliseText`: the
  stored hash is taken as injective, and a text carries its normal forms as data.
- Timestamp formats and time zones, except for the comparison in `CostCap.DateDecides`: instants
  are integers, the local date comes with the clock, and date texts are taken to sort like dates.
- Float rounding: costs, caps and rates are reals.
- The lane and ledger machines follow one repository; tables of several repositories do not meet
  in any statement of the code that they model.
- Lanes.Step: assumes one worker per repository, which `Shutdown.OneDrainPerRepo` proves for a fixed
  watched set.
- TaskQueue.TaskTable.DequeueBatch: n dequeues with nothing in between, while the drain processes
  each task before the next, which may queue it again.
- CrashRecovery.RecoverStuckTasks: of the tasks; the sweep of the runs is `RunLedger.Supervisor.Restart`,
  that of the deploys is not modelled.
- PrBranches.PrBranchTable.RecordPrBranch: shas, URL and error text are not in the row, and the
  returned lastInsertRowid, which no caller uses, is not modelled.
- LaneWorker.RepoWorker.PollOurPrs: with nothing else between two answers; the machine itself has the
  answers as single events, and its theorems interleave them with the worker.
- Digest.DigestRow.Finish: without the charge to the think budget, which is the `Digest` event of
  `TickBudget`.
- TickBudget.BudgetState.CheckBudgetGate: project spending is the constant zero, since nothing in the
  repository records any.
- KeyLaws.CreateIssueIff: over all normalised texts, whatever lengths the schema allows; likewise
  `LabelLaws.LabelIff` over all labels.
- Rounds.RoundsTheorem: issue titles are fixed and the patch_multi lane is off, because it adds no
  round suffix and a slug ending in a number can collide after a rename.
- PushBudget.BudgetTheorem: a push and the update of its counter are one step, since the code has
  nothing to recover from a crash between them.
- CrashRecovery.CrashLoop: between crashes the task does not finish, because finishing clears the
  error text and starts the count again.
- Shutdown.CleanShutdownTheorem: a failure to write a run's log file, which would leave its row
  open, is not modelled; deploy rows are not modelled either.
- RebaseLoop.AttemptRebaseResolve: `git rebase --abort` is taken to work and a failed push to leave
  the remote alone; a `git status` that throws is its own outcome, for which nothing is claimed
  about a rebase in progress.  A rebase in progress after a call is taken to be the one that was
  started, and not one that the engine began instead.
- SingleRun.SingleRunTheorem: of runs in which approvals and rejections keep off decisions in hand;
  the code does not guard against them.
- DedupWindow.DedupTheorem: the same runs, for the same reason.
- Lease.LeaseTheorem: of runs in which every body releases within its ttl.
- Wake-ups: `enqueue` may turn a running task pending and `markDone` may then overwrite it, and
  `planTask` may delay a due task, so no claim is made that a queued task is eventually worked on.
- Planning of reconciled items (`planTask` beyond the guardrail cancel), cadence, Jira polling,
  deploys, chat and the trust ramp.
