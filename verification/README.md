# OneShot workflow engine: a verified model

OneShot turns a prompt into a built, verified artifact by running a fixed pipeline of stages. Workers take stage
jobs from a queue, keep every decision in Redis so that another worker can continue after a crash, and stop at two
points for a human. Around that engine stand an event log with a live stream to the browser, a cache of run
snapshots shared between processes, a model router, a rate limiter, versioned credentials and two review gates.

This project models that behaviour in Dafny and proves what it keeps. `dafny verify dfyconfig.toml` checks all of it.

## How the model is built

- **The pipeline** (`Stages`, `PipelineState`, `PipelineMachine`). One run is a record of its Redis keys, queue,
  artifacts and snapshot. Worker attempts, reconcile calls, plan confirmations and build approvals are processes
  that take one atomic action at a time: one Redis command or script, one artifact read or write, one queue add.
  Between any two actions a process can throw or crash; leases expire and jobs are redelivered at any moment.
  `Step` is total over actions and `Run` folds any sequence of them, so a theorem about `Run(H, actions)` speaks of
  every interleaving. `H` is the canonical hash, an arbitrary function. History fields record what has happened for
  stating properties; no step reads them.
- **Safety, leases, requests, evidence and finishers** (`PipelineSafety`, `PipelineLeases`, `PipelineRequests`,
  `PipelineEvidence`, `PipelineFinishers`) hold for every run at all. **Recovery and order** (`PipelineRecovery`,
  `PipelineOrder`) hold for runs whose attempts and reconcile calls on one identity do not overlap: they refine a
  crash-free pipeline. For such runs `PipelineVerdicts` says when a stage advanced and a run passed, and
  `PipelineBlame` why one failed. `PipelineProgress` builds them stage by stage and `PipelineRuns` whole, from
  submission to a passed and a failed end; `PipelineBlocking` and `PipelineCompletion` say exactly which of them can
  still queue Planner and finish, and `PipelineLimits` shows what the code does not promise.
- **The worker as code** (`PipelineServices`, `PipelineWorker`). The checkpoint store, the lease, the stage switch,
  runStage, applyTransition, finish, reconcileStage, confirmPlan and the approval step are methods that update one
  object in place. Each is proved to stay on the transition system's path of the same process: its `Valid()` says
  that the present state is one the process alone reaches from where it began, and `EndIsUnique` makes the end
  state exact. `SoloIsAStretchOfARun` places that path inside whole runs.
- **Event log, transport and resume** (`EventBus`, `EventBusProcesses`, `EventNumbers`, `EventBusService`,
  `EventStream`, `EventResume`, `EventMerge`), with the wire format of section 9.2 of the WHATWG HTML Living Standard.
- **Routing** (`WeightedFairness`, `Router`), **run snapshots** (`RunRepository`), **the legacy run job**
  (`RunJob`), **rate limiting** (`RateLimiter`), **credentials** (`Credentials`) and **reviews** (`PlanReview`,
  `PlanDecision`, `BuildReview`). Classes hold the fields the code updates; their methods are proved equal to
  functions of the old state, and the theorems are about those functions over whole runs.

`Wrappers`, `Numerals` and `Whitespace` hold small shared definitions; `PipelineFrames` says what each kind of pipeline
action can change at all.

## Where the code departs from its comments or its standard

The model follows the code in each case.

- The comment above `runStage` says a stage marked executed is never rerun. `runStage` reads the marker, then
  acquires the lease, and does not read the marker again; the completed check inside `acquire` looks under a key
  that nothing writes. Two overlapping attempts can therefore execute one stage twice.
  `PipelineLimits.OverlappingAttemptExecutesAgain` is such a run, `PipelineLeases.CommitOverwritesIffStale` is the
  exact condition, and `PipelineRecovery.OutcomesAreFinal` is what holds without overlap.
- `finish` and `markTerminalPending` are described as agreeing on exactly one issue even if two paths race. The state
  and the issue are written in two commands, and a finisher that loses the first does not wait for the second. Over
  every run a finisher takes the saved issue exactly unless it read before the winner had saved it, and then it takes
  none (`PipelineFinishers.EffectiveIssue`, `FinishersDisagreeIff`, `FinishedSnapshotRecordsTheSavedIssue`).
  `PipelineLimits.FinishersDisagree` is a run without any crash, throw or expiry in which two finishers disagree, and
  `PipelineLimits.CrashBetweenTerminalWritesLosesTheIssue` a run without overlap in which a crash loses the issue.
- `runStage` presents recovery as continuing from the persisted outcome, and `confirmPlan` its gate as durable.
  Recovery does not write the completion marker that a crashed attempt still owed, and for Researcher that marker is
  what plan confirmation waits for; and a confirmation that crashes between taking the gate and queueing Planner leaves
  the gate taken. Either blocks the run for as long as its keys live. `PipelineBlocking.PlannerCanBeQueuedIff` is the
  exact condition, both ways, `CrashAfterCommitLosesTheMarker` and `CrashAfterWinningSticksTheGate` reach it, and
  `PipelineCompletion.RunCanFinishIff` shows that nothing else ever blocks a run.
- The Done event is announced between the finishing write and the terminal commit, and a retry that finds the run
  finished skips it. A finished run still gets its event exactly if it had it or its writer is still about to announce
  it (`PipelineLimits.DoneIsAnnouncedIff`); `FinishedRunWithoutDone` ends committed without one.
- `ModelRouter.complete` is documented to fail over only on retryable provider failures; its loop continues after
  every failure and records only a different health status. Code and documentation choose alike exactly when no route
  succeeds or none before the first success failed unretryably (`Router.FailoverFollowsTheRuleIff`);
  `Router.GoesOnAfterANonRetryableFailure` is an input where they differ.
- Section 9.2 of the WHATWG HTML Living Standard makes every CR a line end, wherever the text was cut. The client turns
  CR LF into LF over what it has buffered, again with each chunk, so a text normalises alike however it was cut exactly
  when it contains no CR CR LF (`EventStream.CutsAgreeIff`); `EventStream.CRCRLFShowsInData` is a text whose data
  depends on the cut.
- `ProcessingEventBus` is documented never to duplicate sequence numbers after a resume. A resumed process alone repeats
  none of the numbers it loaded exactly when the last stored event has the largest (`EventNumbers.ResumeRepeatsIff`;
  out-of-order transport breaks it in `RestartRepeatsANumber`). Over files that other processes append to, it repeats
  none exactly when no line of the file is ahead of it (`SharedFileRepeatsIff`), and two processes that read the same
  file repeat a number with their next emits (`TwoProcessesRepeatANumber`).
- `executeRunJob` is documented never to restart a partially executed run. Its guards read the run's snapshot, and
  the run id `unknown` gets none, so for that id every delivery of a valid job starts the workflow
  (`RunJob.UnkeptRunStartsAgain`); for every other run the promise holds (`RunJob.WorkflowStartsAtMostOnce`).

## Model

| member | source | states |
|---|---|---|
| `Stages.SuccessorDecreases` | backend/workflow/canonical-transition.ts:49-87 | every transition a worker outcome can cause stays in the pipeline and lowers the number of executions left; only Finalize ends the run |
| `Stages.ChainIsBounded` | backend/workflow/canonical-transition.ts:49-87 | from any pipeline identity at most the measured number of stage executions can follow, and all of them stay in the pipeline |
| `Stages.RunFromPlannerTerminates` | backend/workflow/canonical-transition.ts:49-87 | a run from Planner takes at most 18 stage executions and ends only in Finalize's done transition |
| `Stages.BoundIsReached` | backend/workflow/canonical-transition.ts:23-47 | the bound of 18 is attained: three refinements and a passing fourth round |
| `Stages.TableIsBoundedExactlyBelowTheCap` | backend/workflow/canonical-transition.ts:64-71 | the transition table alone keeps a run bounded exactly until GapAnalysis or Evaluation asks for a fourth refinement |
| `Stages.RefinedGapAnalysis` | backend/workflow/canonical-transition.ts:64-67 | past the cap the climb is unbounded: refining GapAnalysis n times reaches iteration n |
| `Stages.PinningKeepsPipelineJobs` | backend/pipeline/stage-scope.ts:50-63 | pinning the iteration never renames a queued pipeline job, and run-level jobs carry iteration 0 |
| `PipelineState.AcquireNeverSeesCompleted` | backend/pipeline/idempotency.ts:67-74 | the completed check inside acquire uses a name no completion marker is written under |
| `PipelineSafety.ReachableInv` | backend/pipeline/worker.ts:54-424 | every state of every run, under any interleaving, crash, expiry and redelivery, satisfies the invariant the safety theorems rest on |
| `PipelineSafety.PassedIsSound` | backend/pipeline/worker.ts:304-347 | a run finished Passed had its plan confirmed, and its one Builder execution ran exactly the valid package and canonical hash a human approved, with a sandbox hash the hash stage recorded |
| `PipelineSafety.FailedHasRootCause` | backend/pipeline/transition-services.ts:131-153 | a run finished Failed always records a root cause and its type |
| `PipelineSafety.PlannerWaitsForConfirmation` | backend/pipeline/confirm-plan.ts:77-116 | no stage after Researcher is queued or has an outcome unless a plan confirmation won its gate |
| `PipelineSafety.BuilderRunsOnceAndApproved` | backend/pipeline/worker.ts:235-279 | over every run the Builder executes at most once, and at that instant its package and hash are recorded, valid and approved |
| `PipelineSafety.BuildReplaysTheRecordedRun` | backend/pipeline/worker.ts:235-303 | an advancing Build outcome, whichever attempt saved it, replays the one recorded Builder execution |
| `PipelineSafety.AtMostEighteenStages` | backend/pipeline/worker.ts:161-207 | over any run at all at most 18 identities after Researcher are ever queued, and only queued ones are executed |
| `PipelineLeases.OutcomesAreFenced` | backend/pipeline/checkpoints.ts:42-63 | from any state an outcome or executed marker changes only when the attempt that stores it owns the lease at that instant, and then becomes that attempt's outcome |
| `PipelineLeases.LeasesAreFenced` | backend/pipeline/idempotency.ts:11-23 | a lease is granted only while free and disappears only through its owner or expiry |
| `PipelineLeases.CommitOverwritesIffStale` | backend/pipeline/run-stage.ts:144-215 | a commit overwrites an outcome exactly when the identity had already been executed in the prefix of the run that ends where this attempt was granted its lease |
| `PipelineLeases.RenewalMeansUnbrokenOwnership` | backend/pipeline/idempotency.ts:89-103 | a renewal that finds its token proves that the lease was stored for the attempt without interruption since it was granted, and that nobody else recorded an outcome in that time |
| `PipelineLeases.TheLeaseAloneDecides` | backend/pipeline/idempotency.ts:67-87 | over every run the completed check inside acquire finds nothing, so the lease alone decides who executes |
| `PipelineRequests.ReachableRequests` | backend/pipeline/confirm-plan.ts:28-124 | over every run every earlier revision is marked, only recorded research is marked, a pending confirmation rests on recorded research, and the plan gate is taken while one holds it |
| `PipelineRequests.OneConfirmationHoldsTheGate` | backend/pipeline/confirm-plan.ts:77-124 | at most one confirmation is between winning the gate and queueing Planner or reopening it, and research cannot be repeated meanwhile |
| `PipelineEvidence.StagesFindTheirInputs` | backend/pipeline/worker.ts:161-351 | over every run the package exists once Confirmation has an outcome, the gate once CreateHash advanced, and a queued Finalize finds a failure intent or both the hash proof and the build result |
| `PipelineFinishers.ReachableFinishers` | backend/pipeline/checkpoints.ts:250-274 | over every run at most one finisher is about to save the terminal issue, and while one is none is saved |
| `PipelineFinishers.IssueIsSavedByTheWinner` | backend/pipeline/checkpoints.ts:254-268 | the saved issue changes only from none to the own issue of the finisher that had won the terminal marker |
| `PipelineFinishers.EffectiveIssue` | backend/pipeline/transition-services.ts:107-113 | over every run, overlapping or not, a finisher's issue differs from the one finally saved if and only if it read while the marker was taken and no issue saved yet |
| `PipelineFinishers.FinishersDisagreeIff` | backend/pipeline/transition-services.ts:107-113 | two finishers take different issues if and only if exactly one of them read before the save and an issue was saved |
| `PipelineFinishers.FinishedSnapshotRecordsTheSavedIssue` | backend/pipeline/transition-services.ts:107-153 | in every run a passed snapshot carries no issue, and a failed one carries the evidence and type of the saved issue, or the absent-evidence pair exactly when its writer read before the save |
| `PipelineRecovery.NonOverlappingInv` | backend/pipeline/run-stage.ts:94-267 | every state of every run without overlapping attempts satisfies the recovery invariant |
| `PipelineRecovery.CrashRefinement` | backend/pipeline/run-stage.ts:94-267 | whatever crashes, throws, expiries, retries and reconcile calls occur, the run is one of the crash-free pipeline, where a queued stage completes once with an outcome it can return, research is repeated after the revision before it, Planner requested after research and Build after its hash stage is queued; each action is one crash-free action or invisible |
| `PipelineRecovery.LaterStagesFollowPlanner` | backend/pipeline/confirm-plan.ts:77-116 | a crash-free run queues a stage after Researcher only once Planner was requested |
| `PipelineOrder.CrashFreeOrder` | backend/workflow/canonical-transition.ts:49-87 | in every crash-free run a stage with a lower one queued is complete, and nothing is queued between a complete stage and its successor |
| `PipelineOrder.OneStageAtATime` | backend/workflow/canonical-transition.ts:49-87 | in every run without overlap at most one stage from Planner to CreateHash is queued and incomplete |
| `PipelineOrder.ConfirmationFindsValidTriple` | backend/pipeline/worker.ts:161-211 | without overlap Confirmation is queued only while the stored validation triple is valid: no later validation replaces it |
| `PipelineRecovery.JobsAreCrashFreeJobs` | backend/pipeline/apply-transition.ts:34-86 | every job in the queue is one the crash-free run queues |
| `PipelineRecovery.SettledJobsAreExact` | backend/pipeline/reconcile.ts:32-77 | once every executed stage has a committed transition the queue holds exactly the crash-free jobs |
| `PipelineRecovery.OutcomesAreFinal` | backend/pipeline/run-stage.ts:89-146 | without overlap a recorded outcome never changes and no attempt executes that stage again |
| `PipelineRecovery.RunFinishesOnce` | backend/pipeline/transition-services.ts:92-169 | the snapshot is finished by one write with the persisted Finalize result and never changes again, and Done is announced at most once |
| `PipelineRecovery.WithoutOverlapTheSnapshotIsDetermined` | backend/pipeline/transition-services.ts:131-153 | without overlap the finished snapshot has the result of the persisted Finalize outcome, and of a failed one its evidence and type exactly when an issue is saved, else the absent-evidence pair |
| `PipelineRecovery.SavedIssueIsFinal` | backend/pipeline/checkpoints.ts:229-241 | what a reader of the terminal issue gets is none or the persisted Finalize outcome's own issue, and once saved it never changes |
| `PipelineRecovery.PassedHashIsTheApprovedHash` | backend/pipeline/processors.ts:519-530 | in a Passed run the sandbox hash is the approved hash, which is the canonical hash of the recorded and confirmed package |
| `PipelineVerdicts.VerdictsAreExact` | backend/pipeline/worker.ts:211-351 | over every run without overlap CreateHash advanced exactly on an equal proof, Build exactly on a passed result, and Finalize, unless a failed finalization was requested, exactly when the build passed with the created hash |
| `PipelineVerdicts.RunPassedIff` | backend/pipeline/transition-services.ts:92-153 | a finished run without overlap and without a requested failure passed if and only if its build result passed with the created hash |
| `PipelineBlame.FailureIsBlamedOnItsStage` | backend/pipeline/apply-transition.ts:34-64 | over every run without overlap the issue Finalize fails with is that of a recorded stage that failed or asked for one refinement too many, or its own hash comparison's, and a saved one is what the snapshot records |
| `PipelineRuns.UndisturbedRunPasses` | backend/pipeline/worker.ts:161-347 | for every valid package and every hash function that gives it a SHA-256 hash, a faultless run from submission through gate, approval, Builder and Finalize ends Passed with one Done event |
| `PipelineRuns.UndisturbedRunFails` | backend/pipeline/transition-services.ts:92-169 | for every hash function a faultless run from submission ends Failed with its hash mismatch as recorded root cause and one Done event |
| `PipelineLimits.OverlappingAttemptExecutesAgain` | backend/pipeline/run-stage.ts:144-176 | a run in which an overlapping attempt executes an already executed stage while owning its lease |
| `PipelineLimits.RedeliveryLosesTheIssue` | backend/pipeline/transition-services.ts:92-153 | from any run left with the terminal state pending and no issue saved, redelivering the job finishes the failed run without its issue |
| `PipelineLimits.CrashBetweenTerminalWritesLosesTheIssue` | backend/pipeline/checkpoints.ts:254-268 | for every hash function a run without overlap, from submission through all stages to a failed Finalize, ends with a snapshot that does not carry the issue that failed it |
| `PipelineLimits.FinishersDisagree` | backend/pipeline/transition-services.ts:104-113 | for every hash function a run without crash, throw or expiry ends with a saved issue and a Failed snapshot that lacks it, because a reconcile call overtook the winner |
| `PipelineLimits.DoneIsAnnouncedIff` | backend/pipeline/transition-services.ts:155-169 | a finished run gets its Done event, now or in some continuation without overlap, if and only if it was announced or the snapshot's writer is about to announce it |
| `PipelineLimits.CrashLosesDone` | backend/pipeline/transition-services.ts:155-169 | from any run whose writer is about to announce, its crash and a retry end with the terminal state committed and no Done event |
| `PipelineLimits.FinishedRunWithoutDone` | backend/pipeline/transition-services.ts:92-169 | a run from submission reaches that end |
| `PipelineProgress.StageCompletes` | backend/pipeline/worker.ts:161-351 | from any run an unstarted stage can complete: its outcome is recorded, its transition committed and its job queued |
| `PipelineProgress.ConfirmationQueuesPlanner` | backend/pipeline/confirm-plan.ts:28-116 | a confirmation of marked research through a free gate queues Planner |
| `PipelineBlocking.PlannerCanBeQueuedIff` | backend/pipeline/confirm-plan.ts:28-124 | for every run without overlap, some continuation queues Planner if and only if Planner is queued or about to be, or the current research has not lost its completion marker and the gate is free or still held |
| `PipelineBlocking.BlockedRunStaysBlocked` | backend/pipeline/run-stage.ts:208-220 | over every further run without overlap a blocked run confirms no plan, repeats no research, queues no later stage and does not finish |
| `PipelineBlocking.UnblockedRunGoesOn` | backend/pipeline/confirm-plan.ts:28-116 | every other run has a continuation that queues Planner, if need be by retrying the research |
| `PipelineBlocking.BeforePlanner` | backend/pipeline/confirm-plan.ts:77-116 | until Planner is queued only research is queued and the run has not finished |
| `PipelineCompletion.StageGetsOutcome` | backend/pipeline/run-stage.ts:94-267 | from any run without overlap, whatever became of its attempts, a queued pipeline stage can get its outcome |
| `PipelineCompletion.OutcomeTakesEffect` | backend/pipeline/apply-transition.ts:34-86 | a recorded outcome whose transition is not committed can be made to queue its job or finish the run |
| `PipelineCompletion.PlannedRunCanFinish` | backend/pipeline/worker.ts:54-424 | from every run without overlap whose Planner is queued, some continuation without overlap finishes the run |
| `PipelineCompletion.RunCanFinishIff` | backend/pipeline/worker.ts:54-424 | a run without overlap can still finish if and only if it is not blocked before Planner |
| `PipelineBlocking.CrashAfterCommitLosesTheMarker` | backend/pipeline/run-stage.ts:208-220 | the first attempt crashing right after its commit blocks the run |
| `PipelineBlocking.CrashAfterWinningSticksTheGate` | backend/pipeline/confirm-plan.ts:77-116 | from any run that waits for its plan, a confirmation that crashes between the gate and the add blocks it |
| `PipelineServices.EndIsUnique` | backend/pipeline/worker.ts:54-424 | a process run alone has one end state, so code that ends where the process ends has its state |
| `PipelineServices.SoloIsAStretchOfARun` | backend/pipeline/worker.ts:54-424 | that lone path is an uninterrupted stretch of a whole run |
| `PipelineServices.PipelineCheckpoints.SaveExecution` | backend/pipeline/checkpoints.ts:42-63 | outcome and marker are written together, and with a token only while the lease stores it |
| `PipelineServices.PipelineCheckpoints.RecordBuilderIntent` | backend/pipeline/checkpoints.ts:100-109 | only the first caller is told to run the Builder |
| `PipelineServices.PipelineCheckpoints.MarkTransition` | backend/pipeline/checkpoints.ts:177-193 | the transition marker of one identity is set and nothing else changes |
| `PipelineServices.PipelineCheckpoints.SaveFinalizationIntent` | backend/pipeline/checkpoints.ts:111-121 | the finalization intent is replaced and nothing else changes |
| `PipelineServices.PipelineCheckpoints.SetTerminalPending` | backend/pipeline/checkpoints.ts:250-260 | the terminal state is claimed by the first caller alone |
| `PipelineServices.PipelineIdempotency.SetLease` | backend/pipeline/idempotency.ts:67-87 | a lease is granted only while none is stored |
| `PipelineServices.PipelineIdempotency.Release` | backend/pipeline/idempotency.ts:109-118 | release deletes the lease exactly for the stored token |
| `PipelineWorker.StageAttempt.Finish` | backend/pipeline/transition-services.ts:92-169 | terminalization ends committed; it changes nothing when already committed, keeps a finished snapshot, and otherwise finishes the run with this result and announces Done once |
| `PipelineWorker.StageAttempt.AgreeOnIssue` | backend/pipeline/checkpoints.ts:250-274 | the effective issue is the own one for the winner of the marker and the saved one for others |
| `PipelineWorker.StageAttempt.FinishRun` | backend/pipeline/transition-services.ts:131-153 | the snapshot becomes Done with the result; a failed one records the issue's evidence and type, or the fallback root cause, and a passed one neither |
| `PipelineWorker.StageAttempt.ApplyTransition` | backend/pipeline/apply-transition.ts:34-86 | a committed transition changes nothing; any other ends committed with its side effect done, on the machine's path |
| `PipelineWorker.StageAttempt.QueueNext` | backend/pipeline/apply-transition.ts:45-64 | the finalization intent is saved before the next stage's job is queued |
| `PipelineWorker.StageAttempt.Execute` | backend/pipeline/worker.ts:161-351 | the stage switch ends in the outcome the machine saves, or in its throw |
| `PipelineWorker.StageAttempt.ProveHash` | backend/pipeline/processors.ts:437-469 | an equal proof opens the build gate before it is saved, and the stage advances exactly on an equal proof |
| `PipelineWorker.StageAttempt.BuildOnce` | backend/pipeline/worker.ts:235-303 | the first intent runs the Builder, a later one replays or reports uncertainty, and the stage advances exactly on a passed result |
| `PipelineWorker.StageAttempt.RequireApproved` | backend/runtime/build-review.ts:158-174 | authorization holds exactly for the recorded package and hash, approved, with the canonical hash unchanged |
| `PipelineWorker.StageAttempt.VerifyHashes` | backend/pipeline/worker.ts:304-347 | a failed intent is replayed; otherwise, where proof and build result exist, Finalize advances exactly on a passed build whose sandbox hash is the created one |
| `PipelineWorker.StageAttempt.Commit` | backend/pipeline/run-stage.ts:200-267 | an outcome is committed exactly while the lease is owned and no renewal failed, together with its marker and completion key; otherwise none of them changes, and the lease is released either way |
| `PipelineWorker.StageAttempt.RunStage` | backend/pipeline/run-stage.ts:94-267 | an already executed stage is not executed again: its persisted outcome is returned and nothing changes; otherwise the stage runs, commits or throws on the machine's path |
| `PipelineWorker.StageAttempt.HandleJob` | backend/pipeline/worker.ts:353-396 | a delivered job run alone ends exactly where the machine's attempt ends, keeps a recorded outcome, and leaves the transition of any outcome committed |
| `PipelineWorker.StageAttempt.ReconcileStage` | backend/pipeline/reconcile.ts:32-77 | recovery happens exactly for an executed stage with an uncommitted transition, and then its side effect is done and committed; otherwise nothing changes |
| `PipelineWorker.StageAttempt.RenewLease` | backend/pipeline/run-stage.ts:174-183 | a refused or failed renewal is remembered until the commit |
| `PipelineWorker.HumanRequest.ConfirmPlan` | backend/pipeline/confirm-plan.ts:13-137 | a request wins exactly when the current research revision is marked completed, the gate is free and the add succeeds, and then Planner is queued; a loser changes nothing |
| `PipelineWorker.HumanRequest.QueuePlannerJob` | backend/pipeline/confirm-plan.ts:102-124 | a failed add reopens the gate whether or not the job landed |
| `PipelineWorker.HumanRequest.ApproveBuild` | backend/runtime/build-review.ts:129-157 | Build is queued exactly for the recorded hash while the recorded package is the confirmed one, after the approval is written |
| `WeightedFairness.Balance` | app/workspace_api/router.py:128-145 | from an empty state the counters always sum to 0 and each stays above minus the total weight |
| `WeightedFairness.NoRouteRunsAhead` | app/workspace_api/router.py:128-145 | after n calls a route was chosen fewer than n * weight / total + 1 times, and is behind by fewer picks than there are routes |
| `WeightedFairness.FirstRoundIsExact` | app/workspace_api/router.py:128-145 | the first total calls choose every route exactly as often as its weight and clear every counter |
| `WeightedFairness.EveryWindowIsExact` | app/workspace_api/router.py:128-145 | any total calls in a row, wherever they start, choose every route exactly as often as its weight |
| `Router.OrderIsPermutation` | app/workspace_api/router.py:119-151 | every candidate is ordered exactly once, lower priority numbers first |
| `Router.SelectedComesFirst` | app/workspace_api/router.py:145-150 | the first route of each priority is the one selected from its tier's counters |
| `Router.HeavierFirst` | app/workspace_api/router.py:146-150 | behind it heavier routes come first, equal weights in the order of their ids |
| `Router.AtMostIff` | app/workspace_api/router.py:146-149 | ids compare as strings: a prefix first, else by the first different character |
| `Router.ModelRouter.ForgetStale` | app/workspace_api/router.py:134-137 | exactly the counters of absent routes are dropped |
| `Router.ModelRouter.AddWeights` | app/workspace_api/router.py:138-143 | every route's counter grows by its weight and the total is summed |
| `Router.ModelRouter.SelectRoute` | app/workspace_api/router.py:133-145 | one choice picks the first largest counter, takes the total back, and touches no other tier |
| `Router.ModelRouter.WeightedOrder` | app/workspace_api/router.py:119-151 | the returned order is tier after tier, selected route first, a permutation of the candidates |
| `Router.RouteRepeatedly` | app/workspace_api/router.py:119-151 | a tier routed n times from an empty router makes exactly the choices the fairness theorems are about |
| `Router.FailoverFindsASuccess` | app/workspace_api/router.py:208-257 | some route succeeds exactly when some candidate would |
| `Router.FailoverFollowsTheRuleIff` | app/workspace_api/router.py:192-257 | the route chosen is the one the documented rule would choose if and only if none succeeds or none before the first success failed unretryably |
| `Router.GoesOnAfterANonRetryableFailure` | app/workspace_api/router.py:208-257 | an input where the code goes on after an unretryable failure |
| `Router.OnlyTriedRoutesChange` | app/workspace_api/router.py:173-190 | a tried route is available after a success, degraded after a retryable failure or a break, unavailable otherwise, and no other route's health changes |
| `Router.ModelRouter.TryInOrder` | app/workspace_api/router.py:208-257 | the first route to succeed is found and exactly the routes up to it have their health recorded |
| `Router.ModelRouter.Complete` | app/workspace_api/router.py:192-257 | the result is the first success in order, and an error only when every candidate fails |
| `EventBus.ReachableInv` | backend/runtime/event-bus.ts:63-203 | over any mix of emit, ingest, registration and restart the bus and its store stay consistent |
| `EventBus.EveryEventOnce` | backend/runtime/event-bus.ts:82-203 | whatever the files held, an event id is at most once in a run's history and in any observer's log, and what is held or announced is on file |
| `EventBus.AnnouncedOnce` | backend/runtime/event-bus.ts:145-203 | however often an event is delivered, and across restarts, it is persisted and announced at most once |
| `EventBus.RedeliveryIsRefused` | backend/runtime/event-bus.ts:175-187 | an event already on file is refused and changes neither files, logs nor history |
| `EventBus.EmitsTheDraft` | backend/runtime/event-bus.ts:83-155 | in every reachable state an emit succeeds exactly for a draft that does not contradict itself under a new id, and what joins the history has the caller's content, id and run and the next number |
| `EventBus.IngestsTheEvent` | backend/runtime/event-bus.ts:175-203 | in every reachable state an ingest succeeds exactly for a well-formed event with a new id, keeps it as it came and raises the number to at least its own |
| `EventBus.RestartRecoversTheRun` | backend/runtime/event-bus.ts:63-80 | a process started anew over a file without repeated ids has the same history, goes on from its last number and keeps its trace |
| `EventBus.AnnouncedToEveryone` | backend/runtime/event-bus.ts:152-154 | every registered observer and subscriber of the run receives an announced event exactly once |
| `EventBus.LoadingEstablishesHighWater` | backend/runtime/event-bus.ts:63-80 | loading puts the sequence at the high-water mark exactly when the last stored event has the largest number |
| `EventBus.EmittedNumbersExceed` | backend/runtime/event-bus.ts:82-203 | from then on every emitted number exceeds all earlier ones, whatever is ingested meanwhile |
| `EventNumbers.CanRepeatIff` | backend/runtime/event-bus.ts:82-152 | going on emitting, a process uses a number of given events again if and only if one of them is ahead of its sequence |
| `EventNumbers.ResumeRepeatsIff` | backend/runtime/event-bus.ts:63-92 | some series of emits after a load uses a loaded number again if and only if the last stored event does not have the largest |
| `EventNumbers.SharedFileRepeatsIff` | backend/task/event/event-store.ts:53-91 | after any interleaving of processes some series of emits of one uses a number on the file again if and only if a line is ahead of it, which at its high-water mark is a line it has not read |
| `EventNumbers.RestartRepeatsANumber` | backend/runtime/event-bus.ts:63-203 | 5 arrives before 3; after a restart the second emit takes 5 again |
| `EventNumbers.TwoProcessesRepeatANumber` | backend/task/event/event-store.ts:53-91 | two processes that read one empty file emit two different events with number 1 |
| `EventBus.EmittedEventsFormOneChain` | backend/runtime/event-bus.ts:82-203 | over any operations of one process each event added to a run's history was ingested as it came, or is one a caller emitted, with that caller's content and id, naming the event before it as its cause under the run's one trace |
| `EventBus.TraceIsKept` | backend/runtime/event-bus.ts:94-97 | a run's trace id never changes within a process |
| `EventBus.FilesStayClean` | backend/task/event/event-store.ts:77-91 | a file without repeated ids stays so over every run of a process |
| `EventBusProcesses.EachProcessAnnouncesOnce` | backend/task/event/event-store.ts:53-91 | over any interleaving of processes that share the files, no process announces an id twice, holds one twice, or passes one twice to an observer |
| `EventBusProcesses.FileRepeatsIff` | backend/task/event/event-store.ts:77-91 | an append puts an id on a file again exactly when the process had read the file and has not met the id |
| `EventBusProcesses.TwoProcessesRepeatAnEvent` | backend/task/event/event-store.ts:53-91 | two processes that read the file before either writes leave the event on it twice |
| `EventBusService.AppendOnlyProcessingEventStore.List` | backend/task/event/event-store.ts:34-75 | loading keeps each unmet id of the file once, in file order |
| `EventBusService.AppendOnlyProcessingEventStore.Add` | backend/task/event/event-store.ts:77-91 | an event is appended to file and cache unless its id was met, which throws |
| `EventBusService.ProcessingEventBus.Notify` | backend/runtime/event-bus.ts:152-154 | observers and then the run's subscribers each receive the event once |
| `EventBusService.ProcessingEventBus.EmitEvent` | backend/runtime/event-bus.ts:83-152 | emit takes its number and trace before it can throw, then persists, keeps and announces an event with the caller's content, id and run |
| `EventBusService.ProcessingEventBus.IngestEvent` | backend/runtime/event-bus.ts:175-203 | ingest drops malformed and duplicate events, else persists, keeps, announces and raises the sequence |
| `EventStream.ChunksDoNotMatter` | app/web/lib/event-stream.ts:32-51 | the client's state is a function of the text received, however it was cut into chunks, for texts without CR CR LF |
| `EventStream.CutsAgreeIff` | app/web/lib/event-stream.ts:35 | every cut of a text normalises alike if and only if it has no CR CR LF |
| `EventStream.CRCRLFShowsInData` | app/web/lib/event-stream.ts:35-48 | with one, two cuts of the same text pass on different data |
| `EventStream.FrameBoundary` | backend/server/http-server.ts:1538-1542 | a server frame ends at its first blank line |
| `EventStream.BlocksOfText` | app/web/lib/event-stream.ts:36-39 | cut anywhere, the server's text yields exactly the blocks of the frames that arrived whole |
| `EventStream.InterpretItem` | app/web/lib/event-stream.ts:40-50 | a frame gives back its payload and sequence, a keep-alive nothing |
| `EventStream.RoundTrip` | app/web/lib/event-stream.ts:29-51 | for any frames, keep-alives, cut and chunking the client passes on exactly the payloads that arrived whole, in order, and holds the last one's id |
| `Numerals.ParseOfDecimal` | backend/server/http-server.ts:1544-1547 | a sequence printed as an id is read back as the same number |
| `EventResume.EventResponse.SendEvent` | backend/server/http-server.ts:1538-1542 | the three writes add one frame carrying the event |
| `EventResume.EventResponse.Heartbeat` | backend/server/http-server.ts:1555-1561 | a keep-alive adds a comment and no event |
| `EventResume.EventResponse.Replay` | backend/server/http-server.ts:1544-1551 | exactly the snapshot's events after the header's sequence are sent, in order |
| `EventResume.EventResponse.Respond` | backend/server/http-server.ts:1544-1565 | a response sends the replay and then every live event in order, with heartbeats anywhere |
| `EventResume.LiveContinuesTheReplayIff` | backend/server/http-server.ts:1544-1555 | replay and live events are together the rest of the whole log if and only if the client is not ahead of the snapshot |
| `EventResume.ResponseServesTheRest` | backend/server/http-server.ts:1544-1555 | a client that holds part of the snapshot is served exactly the rest of the log, as the session theorem assumes |
| `EventResume.StreamClient.Receive` | app/web/lib/event-stream.ts:32-51 | the client's loops over one chunk compute the chunk function the theorems are about |
| `EventResume.ResumesAfter` | backend/server/http-server.ts:1544-1551 | the server resumes with exactly the events the client has not received |
| `EventResume.ResumeIsAPrefix` | app/web/lib/event-stream.ts:12-51 | over any series of connections cut after any byte what the client received decodes to a gap-free, duplicate-free prefix of the log |
| `EventMerge.MergedOnceInOrder` | app/web/lib/projections.ts:21-30 | merging gives every id of either list once, in sequence order, with the incoming value |
| `EventMerge.ReplayMergesIntoPrefix` | app/web/lib/projections.ts:21-30 | a replay overlapping what the client has merges into a longer prefix of the log |
| `RunRepository.Repository.Persist` | backend/runtime/run-repository.ts:44-86 | a write reaches the cache and the file and notes the file's modification time |
| `RunRepository.Repository.GetRun` | backend/runtime/run-repository.ts:99-137 | a missing or outdated cache entry is reloaded and the current one returned |
| `RunRepository.Repository.AddRunEvent` | backend/runtime/run-repository.ts:163-168 | the event is appended to the current snapshot and persisted with nothing else changed, or the call throws |
| `RunRepository.Repository.FinishOnce` | backend/runtime/run-repository.ts:190-213 | contradictory results throw; otherwise the current snapshot becomes Done with exactly these terminal fields, keeps its events and artifacts, and is persisted |
| `RunRepository.CallRefines` | backend/runtime/run-repository.ts:44-213 | one call on a coherent cache returns and stores what the shared map would |
| `RunRepository.ProcessesShareOneMap` | backend/runtime/run-repository.ts:26-213 | any interleaving of calls over any number of processes, restarts included, returns what one shared map would, when each write leaves a later modification time |
| `RunRepository.SpecIsHistory` | backend/runtime/run-repository.ts:88-213 | in the shared map a run exists exactly once created and holds the events added since, the paths last set and not removed, and the last accepted finish |
| `RunRepository.FileIsTheHistory` | backend/runtime/run-repository.ts:44-213 | over any interleaving of processes whose writes leave later modification times, the run's file holds exactly that history |
| `RunRepository.CallsReturnTheHistory` | backend/runtime/run-repository.ts:99-213 | a call throws exactly on a contradictory finish or a write to a run never created, and otherwise returns that history with its own effect |
| `RunRepository.OtherProcessSeesIff` | backend/runtime/run-repository.ts:114-131 | another process sees a write exactly when the modification time moved on |
| `RunRepository.SameTickLosesTheFinish` | backend/runtime/run-repository.ts:114-131 | two writes in one clock tick can undo a finish |
| `RunJob.WorkflowStartsAtMostOnce` | backend/runtime/queue.ts:532-688 | over any deliveries and crashes the workflow of a run that has or gets a snapshot is started at most once |
| `RunJob.UnkeptRunStartsAgain` | backend/runtime/queue.ts:537-546 | for the run id unknown, which gets no snapshot, two deliveries start the workflow twice |
| `RunJob.ReturnLeavesRunDone` | backend/runtime/queue.ts:532-688 | a delivery that returns leaves its run Done exactly when the run has or gets a snapshot |
| `RunJob.BegunRunIsRefused` | backend/runtime/queue.ts:590-618 | a delivery that finds the run done or begun never reaches the provider or the workflow, and keeps a done run's result |
| `RunJob.DoneIsFinal` | backend/runtime/queue.ts:577-688 | once a run is done no further deliveries and crashes change its result or start its workflow |
| `RunJob.WorkflowDecidesTheResult` | backend/runtime/queue.ts:654-666 | over any deliveries and crashes a workflow that ends on a run not yet done decides its result for good, and one that throws fails it |
| `RunJob.CrashedWorkflowIsFailed` | backend/runtime/queue.ts:607-618 | after a crash inside the workflow the next returning delivery finishes the run Failed without a restart |
| `RunJob.RunWorker.ExecuteRunJob` | backend/runtime/queue.ts:532-688 | one delivery as code: an admitted run that binds, creates and starts gets the workflow's result and is completed exactly if that passed, a done run keeps its result and reports it, and every other run fails |
| `RunJob.RunWorker.FinalizeFailure` | backend/runtime/queue.ts:548-569 | a run not yet Done is finished Failed and the failure is announced |
| `RateLimiter.MemoryRateLimiter.CheckRequest` | app/workspace_api/rate_limit.py:50-69 | one check counts the request in its open or a new window, evicts only expired windows, and tells exactly whether and how many checks are left and the whole seconds that cover the window's remaining time |
| `RateLimiter.EvictionChangesNoDecision` | app/workspace_api/rate_limit.py:59-64 | with times in order every decision is that of a limiter that never evicts |
| `RateLimiter.IntervalAdmitsBelowTwiceTheLimit` | app/workspace_api/rate_limit.py:50-69 | any half-open interval as long as the window admits at most 2 * limit - 1 checks of one key |
| `RateLimiter.LimiterBound` | app/workspace_api/rate_limit.py:50-69 | the same bound for the evicting limiter under any traffic on other keys |
| `RateLimiter.BoundIsReached` | app/workspace_api/rate_limit.py:50-69 | for every limit and window some checks in order reach that bound |
| `RateLimiter.NeverAboveLimitIff` | app/workspace_api/rate_limit.py:50-69 | no interval ever exceeds the limit, whatever the traffic, if and only if the limit is at most one |
| `RateLimiter.WaitingOpensANewWindow` | app/workspace_api/rate_limit.py:65-69 | a key that waits the seconds it was told is counted in a new window |
| `Credentials.CredentialService.CreateProviderCredential` | app/workspace_api/services.py:229-264 | an active version one is created, or refused as not found, conflicting or colliding, with nothing changed |
| `Credentials.CredentialService.RotateProviderCredential` | app/workspace_api/services.py:266-300 | in its own workspace an active version is retired, its active successor inserted and exactly its models moved; otherwise nothing changes |
| `Credentials.CredentialService.RevokeProviderCredential` | app/workspace_api/services.py:302-318 | in its own workspace the credential is revoked and exactly its models are detached and unavailable; otherwise it is not found |
| `Credentials.CredentialService.AddModelConfiguration` | app/workspace_api/api.py:634-668 | an available model is created exactly without a credential or on an active one of its own workspace and provider |
| `Credentials.VersionsAreOneToN` | app/workspace_api/services.py:229-318 | the versions of a chain are exactly 1 to n, one row each, and only the newest can be active |
| `Credentials.ModelsUseOwnActiveCredentials` | app/workspace_api/api.py:644-668 | every model's credential is active and in its own workspace and provider |
| `Credentials.RotationNeverCollides` | app/workspace_api/services.py:266-300 | rotating an active credential always succeeds and moves exactly its models |
| `Credentials.NamesAreCreatedOnce` | app/workspace_api/models.py:258-266 | a chain that exists, even wholly revoked, refuses a new version one: by conflict while active, by the unique constraint afterwards |
| `Credentials.RevocationIsFinal` | app/workspace_api/services.py:302-318 | whatever follows, a revoked credential stays revoked and unused, and revoking the active version ends its name for good: no version of it is active again |
| `PlanReview.AcceptedIff` | backend/runtime/plan-review.ts:131-152 | edits are accepted exactly when every original is given once, nothing else is counted and every text is usable |
| `PlanReview.ReviewAcceptedIff` | backend/runtime/plan-review.ts:122-182 | a whole review is accepted exactly when objective, every item and every note are usable, the items fit the draft and the notes are at most fifty |
| `PlanReview.NonemptyIff` | backend/runtime/plan-review.ts:122-129 | a text is accepted exactly when it has at most 20000 characters, not all white space, and is stored trimmed |
| `Whitespace.TrimIsTheCore` | backend/runtime/plan-review.ts:123-128 | trimming removes white space only, and what it leaves neither starts nor ends with any |
| `PlanReview.AcceptedIsPermutationIff` | backend/runtime/plan-review.ts:131-152 | accepted ids are a permutation of the originals exactly when the originals are distinct |
| `PlanReview.RepeatedOriginalAdmitsUnknownId` | backend/runtime/plan-review.ts:131-152 | with a repeated original an unknown id is accepted |
| `PlanReview.EveryEntryWasSubmitted` | backend/runtime/plan-review.ts:140-150 | every entry of an accepted review was submitted, by exactly one item |
| `PlanReview.ReviewKeepsThePlan` | backend/runtime/plan-review.ts:154-205 | a validated review always applies, keeps ids, order and every other field, and carries each submitted text and note |
| `PlanReview.ApplyToEntries` | backend/runtime/plan-review.ts:184-193 | the in-place loop gives each entry the text of its edit, or throws |
| `PlanDecision.OneCallInside` | backend/runtime/plan-review.ts:72-104 | between taking its turn and releasing its lock a decision is alone |
| `PlanDecision.AtMostOneDecisionWins` | backend/runtime/plan-review.ts:72-104 | of any concurrent decisions at most one wins; it was acceptable, and the draft is stored one revision later, approved with its validated edits or cancelled |
| `PlanDecision.SomeAcceptableDecisionWins` | backend/runtime/plan-review.ts:72-104 | once all calls have returned, one has won exactly when some acceptable call met no failure of the artifact store |
| `PlanDecision.DecisionsProgress` | backend/runtime/plan-review.ts:76-83 | the earliest call that has not returned can always move |
| `BuildReview.BuildReviewService.OpenReview` | backend/runtime/build-review.ts:67-116 | the first admitted package and hash are recorded and their status returned, and an open for any other throws |
| `BuildReview.BuildReviewService.DecideReview` | backend/runtime/build-review.ts:129-157 | a decision needs the recorded hash and the unchanged confirmed package; approval is written once, and a return is refused once approved |
| `BuildReview.ArtifactsFollowHistory` | backend/runtime/build-review.ts:67-157 | the record is the first admitted gate of the history and the approval exists exactly when a decision approved it |
| `BuildReview.RequireApprovedIff` | backend/runtime/build-review.ts:158-174 | authorization succeeds exactly for the package and hash opened first, once approved |
| `BuildReview.GateNeverChanges` | backend/runtime/build-review.ts:67-157 | record and approval never change once written, and approved stays approved |

## Left out

- Key expiry after thirty days, and what is lost with an expired key.
- The 20-second renewal timer's own schedule: a renewal is an action that may happen at any moment.
- Fault injection, history entries, progress reports and event notices of the pipeline.
- What the reasoning stages (Researcher to Evaluation) compute: they advance or throw.
- The content of plans, packages and issues beyond the fields named in the model; evidence is one string.
- Research Again's two Redis commands, taken as one action of the environment.
- Edits submitted with a plan confirmation, which are validated as in a plan review and saved before the gate is
  taken.
- The branch of finish for a run whose snapshot is missing, and loading a hash proof for the snapshot there.
- PipelineServices.RunState: one object holds the run's keys, artifacts and snapshot, where the code reaches them
  through Redis, files and a repository.
- PlanDecision.Next: the lock map and its promises are modelled on values, because the calls interleave at every
  await; a draft reopened while decisions are pending is not modelled.
- PlanReview.ApplyEdits: number formatting of note ids is a parameter, and the evidence entry holds the edits rather
  than their JSON text.
- EventResume.Serving: TextDecoder and UTF-8 are not modelled; text arrives as characters and JSON is any codec that
  keeps an event on one line. Header values that are numbers in other notations than plain decimals are read as no
  header.
- EventBus.Emit: the event's fields other than id, sequence, run, cause and trace are one value, and a bus without a
  store, and callbacks that throw or emit in turn, are not modelled; a file line torn by a crash counts as absent.
- EventBus.Lines: two run ids whose file names coincide are not modelled.
- EventBus.Unmet: a line appended right after a torn one, which the file would merge with it, is not modelled.
- RunRepository.Call: files are only written by the repository, so unreadable or foreign files, list, and a repository
  without a directory are left out; so is sharing of one snapshot object between callers.
- RunJob.Next: what the workflow does inside is any sequence of events ending in a result; payload validation is one
  flag.
- RateLimiter.Check: the Redis limiter, its failure modes and the middleware are left out.
- Credentials.CreateModel: the unique constraint on model routes, default flags and availability updates are left out,
  as are secrets and expiry times.
- Router.ModelRouter.Complete: the candidate query, decryption and latency are left out; a response is a function of
  the candidate.
- The React interface, HTTP routing, provider adapters, sandbox runners, configuration and intent parsing.
- Workspace API keys, whose rotation repeats the credential pattern without models.
