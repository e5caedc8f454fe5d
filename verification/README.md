# SimplenessAgent: a verified model of the deterministic shell

SimplenessAgent lets a small language model work on a code base inside a shell that decides everything the model
does not: which plan is accepted, which step may run, what a request to the provider looks like, which file write is
paid for by an approval, when a task counts as completed. This project models that shell in Dafny and proves what it
keeps. What a provider, the clock, the file system, a tool or the user answers is an argument, so each theorem holds
for all answers and, where a run is meant, for every sequence of operations.

| file | models |
|---|---|
| `HorizonModel` | the state of one long-horizon task and the meaning of every public operation on it |
| `HorizonService` | the same operations as the service performs them, field by field, proved equal to that meaning |
| `HorizonInvariant`, `HorizonRuns`, `HorizonMeasure`, `HorizonOutcomes`, `HorizonTheorems` | the invariant, its preservation, what each operation uses up and settles, and the promises over every run |
| `HorizonReports`, `HorizonEffects` | exactly when an Advance stops, where the token usage comes from, when a step may start, and what every operation leaves behind |
| `HorizonEnd` | what becomes of a task that is paused and resumed between its last step and its closing |
| `ReadingSegment` | a segment of one reading step, with which a task that has a step left can always be moved on |
| `HorizonExamples` | runs from a created task into the states in which the engine does not do what a caller expects |
| `Segment`, `SegmentPolicy` | from a model's candidate to a validated segment, and the policy it then keeps |
| `Acceptance`, `TaskTable`, `Contracts` | task verification from evidence, the transition table, shared entities |
| `PlanGraph`, `PlanValidation` | cycle detection, plan validation, the ready set |
| `SinglePlan`, `PlanRunner`, `PlanEffects`, `PlanExamples` | a task with one plan at a time: the operations that may complete it, the service that performs them, and what each leaves behind |
| `Transcript`, `WorkerModel`, `Worker` | the message list, the worker's checks, the bounded conversation of one step |
| `WorkerTelling`, `WorkerCourse` | what a request tells the model, and how each request follows from the one before it |
| `DiffText`, `UnifiedDiff`, `DiffRoundTrip`, `DiffLimits`, `DiffExamples` | the unified-diff applier against a printer of the `diff -u` format (POSIX.1-2017, XCU, `diff`) |
| `JsonScan`, `JsonRoundTrip` | the two JSON object scanners against a printer (strings as in section 7 of RFC 8259) |
| `EventLog` | status rows and numbered events under any interleaving of clients |
| `GuardedWrites`, `WriteBatch`, `WriteExamples` | approval tickets, write intents, hash-guarded replacement, batches |
| `Tokens`, `ContextPack`, `ContextOrder`, `ContextPriority` | token estimates, context budgets, context selection and which sections win |
| `Ordering`, `Strings` | sorting and the few string operations the program takes from its library |

Code that changes things step by step is a class or a method with loops, proved against a specification function;
the theorems are lemmas about those functions.

Where the code does something else than its comments or callers expect, the model follows the code; a lemma says
exactly when the expectation holds, and concrete inputs and runs show that it can fail:

- The diff applier takes context lines from the file without comparing them (`AppliesAsMeantIffContextMatches`, input
  `WrongContextIsAccepted`), reads a left-out old count from the new range (`LeftOutCountsApplyIff`, input
  `LeftOutCountIsMisread`), places hunks without old lines one line early (`ScriptAppliesAsMeantIff`, input
  `InsertionBehindAHunkIsRefused`; all three together: `PrintedScriptAppliesAsMeantIff`) and runs past the end of the file on some deletions (`CrashesIffDeletesPastEnd`,
  input `DeletionPastTheEndCrashes`).
- Compacting an overflowing message makes it longer between 513 and 660 runes (`CompactionShrinksIff`).
- The stop for three cycles without new evidence can never happen (`StepRunsNeverStall`), because every step run adds
  its report as evidence.
- The replan counter passes its limit exactly when a cycle fails or is replaced while it stands there
  (`ReplanCounterOvershootsIff`, runs `ReplanCounterOvershootsAlone` and `ReplanCounterOvershoots`); by how much is
  bounded by the accepted resumes (`ReplanCounterIsBounded`), while the replacements that keep the task ACTIVE stay
  within the limit (`AutomaticReplansAreBounded`).
- A task that is paused and resumed after its last step is READY, and a READY task cannot be closed
  (`LastStageClosesIffRunning`, `EndIsLeftIff`). It can be closed again, by giving the finished segment up after a
  failed assessment, exactly when the budget has a step left (`PausedAtTheEndClosesIff`, `PausedAtTheEndCompletesIff`,
  runs `PauseAtTheEndIsReachable`).
- An approved write settles the whole task even when stages or steps are still open (`CompletionClosesAllStagesIff`,
  run `EarlyCompletionIsReachable`), and so do RunTask and a write approval on a task without a horizon
  (`CompletedPlanIsDoneIff`, run `RunTaskCompletesBesideAnOpenStep`).
- Nothing locks a file between the second check of a write and its rename, so a write can replace a content it was not
  meant for (`ReplacementMeetsExpectationIff`, run `SecondRunOverwritesTheFirst`).
- A batch that passed its checks still fails half-way when a file it creates lies above or below a later target
  (`AcceptedBatchWritesFullyIff`, input `NestedTargetsFailHalfWay`), and an empty proposal for an absent file leaves no
  file (`WrittenEverywhereIff`, input `EmptyProposalLeavesNoFile`).

## Model

| member | source | states |
|---|---|---|
| HorizonTheorems.ActiveReportsAreBounded | internal/app/long_horizon.go:103-178 | over the whole life of a task, whatever is answered and whichever operations are mixed, at most 3 * MaxSteps (at most 120) Advance calls report ACTIVE with an action other than TERMINAL |
| HorizonMeasure.OperationLowers | internal/app/long_horizon.go:106-178 | the measure 3 * unplanned steps + open steps of the unprocessed segment + 1 is never raised by any operation and falls with every ACTIVE report |
| HorizonMeasure.RunStepLowers | internal/app/long_horizon.go:167-176 | running a step lowers the measure, whatever the worker answers |
| HorizonMeasure.PlanningLowers | internal/app/long_horizon.go:282-336 | planning a segment pays for its steps out of the measure, and failing to plan never reports ACTIVE |
| HorizonMeasure.FinishLowers | internal/app/long_horizon.go:405-505 | closing a segment uses up its last unit of the measure |
| HorizonMeasure.AdvancePromises | internal/app/long_horizon.go:103-178 | one Advance keeps the invariant, and its charge is paid out of the measure; the service's Advance is bound to the same |
| HorizonMeasure.OperationPromises | internal/app/long_horizon.go:185-270 | every other operation keeps the invariant and does not raise the measure; the service's methods are bound to the same |
| HorizonReports.AdvanceStopsIff | internal/app/long_horizon.go:118-163 | in every state: an Advance reports TERMINAL exactly for a task that is over, WAITING exactly for another that waits, and a budget stop exactly for the rest when the deadline has passed, input usage has reached a positive input limit, output usage a positive output limit, or no segment is open and the steps are planned out |
| HorizonReports.BudgetStopsLeave | internal/app/long_horizon.go:610-622 | a budget stop blocks the horizon and a RUNNING task, pauses a READY one, and changes nothing else |
| HorizonReports.UsageIsWhatWasHeard | internal/app/long_horizon.go:306-316 | in every run the saved usage is, for input and output apart, the sum of the usages of the planner replies that were read, the steps that were executed and the assessments that closed a stage |
| HorizonReports.StepsWaitForTheirDependencies | internal/app/long_horizon.go:164-176 | in every run a step starts only after every step that its candidate named as a dependency is COMPLETED |
| HorizonReports.SegmentsWereProposed | internal/app/long_horizon.go:282-336 | in every run each segment was built, step by step, from a candidate that a planner reply of an earlier Advance proposed |
| HorizonReports.CancelledIff | internal/app/long_horizon.go:251-270 | a cancellation is refused exactly while the task is being verified; otherwise the horizon becomes CANCELLED, and the task too unless it had ended |
| HorizonReports.ResumedIff | internal/app/long_horizon.go:185-249 | a resume is accepted exactly for a waiting, paused, READY or RUNNING task, and what each field then is |
| HorizonReports.ResumeFailsWaitingSteps | internal/app/long_horizon.go:193-210 | a user's answer fails exactly the steps that wait for it |
| HorizonEffects.CreatedIff | internal/app/long_horizon.go:39-90 | a task is created exactly for a usable request, with the defaults and the unspent state that are spelled out |
| HorizonEffects.AdvanceGoes | internal/app/long_horizon.go:155-178 | an Advance that is not stopped plans without an open segment, runs the first ready step of one, or closes it |
| HorizonEffects.WaitingLeaves | internal/app/long_horizon.go:128-153 | a wait is noted with its reason unless one is there already, and changes nothing else |
| HorizonEffects.FailureLeaves | internal/app/long_horizon.go:532-595 | a failed cycle is replaced exactly if the step ran out of iterations, a replan is left and progress is not lacking; otherwise task and horizon are paused |
| HorizonEffects.ExecutionLeaves | internal/app/long_horizon.go:368-403 | an executed step changes its own status, that of the task, the evidence and the counters in the one way its answer calls for |
| HorizonEffects.CompletedStepsAre | internal/app/long_horizon.go:812-820 | the saved number of completed steps is the number of COMPLETED steps in all segments |
| HorizonEffects.PlannedSegmentLeaves | internal/app/long_horizon.go:282-336 | a persisted segment is a new latest row of pending steps, counted against the budget |
| HorizonEffects.PlanningTakes | internal/app/long_horizon.go:282-336 | planning takes the first acceptable one of two replies, the second being read only if the first is not, and persists it exactly if the mode permits it and its work is new in the stage |
| HorizonEffects.UnfinishedSegmentLeaves | internal/app/long_horizon.go:415-434 | a segment with an unfinished step is replaced, or past the limit blocks horizon and running task |
| HorizonEffects.ClosedStageLeaves | internal/app/long_horizon.go:436-500 | the end of a stage moves the index on by one and waits for a user exactly where the policy asks |
| HorizonEffects.ClosedTaskLeaves | internal/app/long_horizon.go:450-482 | the end of the last stage settles a RUNNING task by the report, and leaves a READY one as it is |
| HorizonEffects.WriteApprovalLeaves | internal/app/service.go:712-812 | exactly which write approvals are refused, fail the task, or settle it, and with which fields |
| HorizonEffects.CommandApprovalLeaves | internal/app/service.go:948-1011 | exactly which command approvals are refused, fail the task, or let it run on with the result as evidence |
| HorizonTheorems.AutomaticReplansAreBounded | internal/app/long_horizon.go:415-434 | in every run the reported replans that keep the task ACTIVE are at most MaxReplans |
| HorizonTheorems.ReplanCounterIsExact | internal/app/long_horizon.go:532-595 | in every run the replan counter is the number of reports that a cycle failed or its segment was replaced |
| HorizonTheorems.ReplanCounterOvershootsIff | internal/app/long_horizon.go:537-550 | in every run the counter is past MaxReplans exactly when some operation reported a failed or replaced cycle while the counter stood at MaxReplans |
| HorizonTheorems.ReplanCounterIsBounded | internal/app/long_horizon.go:532-595 | in every run the counter is at most MaxReplans + 1 + the number of accepted resumes |
| HorizonExamples.ReplanCounterOvershoots | internal/app/long_horizon.go:532-595 | a run from creation in which a failure, a manual resume and a second failure take the replan counter to two under a limit of one |
| HorizonExamples.ReplanCounterOvershootsAlone | internal/app/long_horizon.go:532-595 | a run from creation of three Advance calls without any resume (planned, replaced automatically, failed) that does the same |
| HorizonMeasure.OperationIsCounted | internal/app/long_horizon.go:532-595 | every operation raises the replan counter by one if it reports a failed or replaced cycle and leaves it alone otherwise, and a replacement that keeps the task ACTIVE stays within MaxReplans |
| HorizonMeasure.OperationHalts | internal/app/long_horizon.go:415-434 | a failed or replaced cycle that takes the counter past MaxReplans leaves the horizon stopped, with nothing but a resume to set it going |
| HorizonTheorems.StagesCloseInOrder | internal/app/long_horizon.go:405-505 | in every reachable state the stage index is at most 5, each stage below it has a persisted terminal segment whose steps are all COMPLETED, and a COMPLETED horizon has index 5 and a COMPLETED task |
| HorizonTheorems.EveryStepKeepsPolicy | internal/app/long_horizon.go:774-789 | in every run each planned step has the highest risk of its tools, a risk the mode allows, READ in DISCOVER and DESIGN, and changes anything outside IMPLEMENT only through a project-command tool in VERIFY_REPAIR or FINALIZE |
| HorizonTheorems.EverySegmentKeepsPolicy | internal/horizon/horizon.go:353-439 | in every run each segment is a valid plan of one to four steps, and an EDIT-mode IMPLEMENT segment contains a WRITE step |
| HorizonTheorems.WorkIsNeverPlannedTwice | internal/app/long_horizon.go:338-366 | in every run the steps planned in one stage, in the same segment or across segments, have pairwise different goal-and-tools keys |
| HorizonTheorems.PlansWaitForApproval | internal/app/long_horizon.go:483-500 | in every run each persisted segment has its event, and if its stage lies behind a checkpoint the log holds before that event the closing of the previous stage and after it a resume |
| HorizonTheorems.StagesBehindCheckpoints | internal/app/long_horizon.go:791-793 | the stages behind a checkpoint are IMPLEMENT under KEY_STAGES and all but the first under EVERY_STAGE |
| HorizonTheorems.CompletedTasksWereAccepted | internal/verifier/verifier.go:36-87 | in every reachable state of a long-horizon task, COMPLETED by closing its last stage or by a write approval, the task has criteria and a persisted passing report that names, for each evidence criterion, verified evidence of its kind |
| SinglePlan.CompletedTasksWereAccepted | internal/app/service.go:1354-1430 | the same in every reachable state of a task without a horizon, whichever of RunTask, a completed last step, a write approval or a command approval completed it and however plans are replaced in between |
| SinglePlan.OperationAccepts | internal/app/service.go:1992-2029 | every operation keeps the criteria, only adds evidence and reports, and completes a task only with a passing report |
| SinglePlan.CompletedPlanIsDoneIff | internal/app/service.go:1395-1417 | in every run a COMPLETED task without a horizon has no open step exactly when no RunTask and no write approval completed it beside one and no new plan was stored afterwards |
| SinglePlan.CompletionLeavesOpenIff | internal/app/service.go:787-811 | the operation that completes a task leaves a step open exactly when it is a RunTask or a write approval with another open step |
| PlanEffects.StepRunLeaves | internal/app/service.go:1658-1954 | a task without a horizon runs the first ready step and ends up in the one state each answer leads to, or changes nothing |
| PlanEffects.ReconRunLeaves | internal/app/service.go:1354-1430 | RunTask wants a READY task with exactly one ready step that is PENDING, and has the task judged right after it |
| PlanEffects.WriteApprovalLeaves | internal/app/service.go:712-812 | a write approval wants a waiting WRITE step; success has the task judged at once, failure ends it |
| PlanEffects.CommandApprovalLeaves | internal/app/service.go:948-1011 | a command approval wants a waiting command step; success leaves evidence and has the task judged only if no step is left |
| PlanExamples.RunTaskCompletesBesideAnOpenStep | internal/app/service.go:1395-1417 | a run in which RunTask completes a task whose second step is still open |
| HorizonTheorems.StepRunsNeverStall | internal/app/long_horizon.go:371-398 | no run ever stops for missing new evidence or for a rejection that a step run recorded |
| HorizonTheorems.StepRunsNeverComplete | internal/app/long_horizon.go:368-403 | in every run an executed step leaves the task RUNNING or waiting and its horizon ACTIVE |
| HorizonOutcomes.StepCompletesNothing | internal/app/service.go:1658-1954 | no step run, executed, failed or refused, completes a long-horizon task or its horizon |
| HorizonEnd.LastStageClosesIffRunning | internal/app/long_horizon.go:450-454 | with the last stage done and nothing else in the way a READY or RUNNING task is closed by an Advance exactly when it is RUNNING and the Advance is in time, assessed and verified; a READY one answers an Advance that is in time and assessed with an error and does not change |
| HorizonEnd.PausedAtTheEndStays | internal/app/service.go:2221-2236 | in every run a READY task at its end stays there as long as no operation leaves it |
| HorizonEnd.EndIsLeftIff | internal/app/long_horizon.go:436-454 | a READY task leaves its end exactly by an Advance whose deadline has passed or whose assessment fails, or by a cancellation |
| HorizonEnd.PauseLeavesItReady | internal/app/service.go:2221-2236 | a recovery pause and a resume take a RUNNING task at its end to a READY one |
| HorizonEnd.PausedAtTheEndClosesIff | internal/app/long_horizon.go:436-454 | from a READY end of any run some operations with some answers close the last stage exactly when fewer steps are planned than the budget has; otherwise no operations with any answers complete the task |
| HorizonEnd.PausedAtTheEndCompletesIff | internal/app/long_horizon.go:532-595 | from there Advance and Resume calls alone can complete the task exactly when a step is left and every criterion can be met by the evidence with one more worker report |
| ReadingSegment.ReadSegmentIsPersisted | internal/horizon/horizon.go:353-439 | a task that waits for a plan, with a step left, can always be given an acceptable segment of one reading step |
| ReadingSegment.LongGoalIsNew | internal/app/long_horizon.go:338-366 | for every stage of every plan history there is a goal whose work was not planned before |
| HorizonExamples.PauseAtTheEndIsReachable | internal/app/service.go:2221-2236 | for every step budget from 5 to 40 a run from creation that stands at its end RUNNING with five steps planned, and is then paused by recovery and resumed: with five steps it is stranded, with more it is not |
| HorizonTheorems.WriteApprovalSettlesTheTask | internal/app/service.go:787-811 | approving a write completes the task exactly when its criteria are met; all steps are completed then exactly when all others were before |
| HorizonTheorems.CompletionClosesAllStagesIff | internal/app/service.go:787-811 | in every run a COMPLETED task has closed all five stages exactly when no write approval was accepted before |
| HorizonTheorems.WritesSettleEarly | internal/app/service.go:787-811 | in every run an accepted write approval leaves a settled task short of its last stage, and without one only the closing of the last stage completes it |
| HorizonExamples.EarlyCompletionIsReachable | internal/app/service.go:787-811 | a run from creation that ends COMPLETED by a write approval with a step of its plan still open |
| HorizonTheorems.EverySequenceRuns | internal/app/long_horizon.go:103-105 | every created task can live through every sequence of operations, so the promises are about all of them |
| HorizonTheorems.RunKeepsInv | internal/app/long_horizon.go:103-270 | the whole invariant (budget, policy, novelty, stages, checkpoints, acceptance) holds after any operations |
| HorizonRuns.OperationKeepsInv | internal/app/long_horizon.go:103-270 | every single operation, with any answers, keeps the invariant |
| HorizonRuns.PlanningKeepsInv | internal/app/long_horizon.go:282-336 | planning keeps it: what is persisted is within the budget, within policy, new in its stage and behind its checkpoint |
| HorizonRuns.FinishKeepsInv | internal/app/long_horizon.go:405-505 | closing a segment keeps it: the index moves only over a stage with a completed terminal segment, a completed task has its report |
| HorizonRuns.CreationSatisfiesInv | internal/app/long_horizon.go:39-90 | a created task satisfies the invariant with everything unspent |
| HorizonInvariant.QuietKeepsInv | internal/app/long_horizon.go:664-671 | steps that add no plan and close no stage keep every part of the invariant |
| HorizonInvariant.RunStepIsQuiet | internal/app/service.go:1658-1954 | running a step only moves that step on, adds its report as evidence and never completes a long-horizon task |
| HorizonInvariant.ResumeIsQuiet | internal/app/long_horizon.go:185-249 | resuming reopens no step, forgets no processed plan and leaves a checkpoint only with a logged resume |
| HorizonInvariant.WriteApprovalIsQuiet | internal/app/service.go:712-812 | a write approval keeps completed steps completed and completes the task only with a passing report |
| HorizonInvariant.CommandApprovalIsQuiet | internal/app/service.go:948-1011 | a command approval keeps completed steps completed and never completes the task |
| HorizonService.CreateSegment | internal/horizon/horizon.go:63-105 | the planner loop settles on the first of two replies that builds an acceptable plan and adds up the usage of the replies it read |
| HorizonService.CheckNovelty | internal/app/long_horizon.go:338-360 | accepted exactly when no planned step's key occurs in an earlier segment of the stage or twice in the new one |
| HorizonService.TaskService.Create | internal/app/long_horizon.go:39-90 | a new task starts READY and ACTIVE with the defaulted budget, policy and criteria |
| HorizonService.TaskService.TransitionTask | internal/app/service.go:2386-2395 | the status changes exactly when it is the expected one and the table allows the move |
| HorizonService.TaskService.RecordHorizonFailure | internal/app/long_horizon.go:532-595 | the fields after a failed cycle are those of the failure step: replanned and READY within the limits, otherwise PAUSED |
| HorizonService.TaskService.PauseHorizonForBudget | internal/app/long_horizon.go:610-622 | the fields after a budget stop: BLOCKED, with a RUNNING task blocked and a READY one paused |
| HorizonService.TaskService.PlanNextSegment | internal/app/long_horizon.go:282-336 | the fields after planning are those of the planning step for the same replies |
| HorizonService.TaskService.RecordHorizonProgress | internal/app/long_horizon.go:368-403 | the fields after a step run are those of the progress step |
| HorizonService.TaskService.RunModelStep | internal/app/service.go:1658-1954 | the fields after one step are those of the run step for the same worker answer |
| HorizonService.TaskService.VerifyAndSettle | internal/app/service.go:2269-2299 | a VERIFYING task gets the report of the deterministic verifier and the status that report decides |
| HorizonService.TaskService.FinishHorizonSegment | internal/app/long_horizon.go:405-505 | the fields after closing a segment are those of the closing step, including stage, checkpoint and task closing |
| HorizonService.TaskService.AdvanceLongHorizonTask | internal/app/long_horizon.go:106-178 | the fields and the report after one Advance are those of the advance step |
| HorizonService.TaskService.ResumeLongHorizonTask | internal/app/long_horizon.go:185-249 | the fields after Resume are those of the resume step, with nothing changed on an error |
| HorizonService.TaskService.CancelLongHorizonTask | internal/app/long_horizon.go:251-270 | the fields after Cancel: CANCELLED over any horizon status, refused where the table has no way to CANCELLED |
| HorizonService.TaskService.ApprovePendingWrite | internal/app/service.go:712-812 | the fields after a write approval are those of the approval step |
| HorizonService.TaskService.ApprovePendingCommand | internal/app/service.go:948-1011 | the fields after a command approval are those of the approval step |
| HorizonService.TaskService.RecoverRunningTask | internal/app/service.go:2221-2236 | recovery pauses a RUNNING task and refuses any other |
| Segment.BuildPlan | internal/horizon/horizon.go:353-439 | a plan is built exactly from the acceptable candidates, and it is built from the candidate step by step as the row AcceptedPlansAreBuilt says |
| Segment.BuildSteps | internal/horizon/horizon.go:376-424 | steps are built exactly when each is acceptable and their keys differ pairwise; the mutating flag says whether one of them changes something |
| Segment.AcceptableIff | internal/horizon/horizon.go:353-424 | which candidates pass the checks before plan validation, in terms of the candidate and the offered tools |
| Segment.AcceptedPlansAreBuilt | internal/horizon/horizon.go:376-424 | the plan of an accepted candidate has its steps one for one, each with the candidate's reference, title, goal and exactly its dependencies, its tools (plus every offered read tool exactly when it changes something), and the risk of its most dangerous tool |
| Segment.CollectRefs | internal/horizon/horizon.go:368-374 | accepted exactly when the references are non-blank and pairwise different |
| Segment.RiskOfTools | internal/horizon/horizon.go:389-400 | accepted exactly when the tools are known and pairwise different, and then the risk is the highest among them |
| Segment.GrantedToolsKeepTheMaximum | internal/horizon/horizon.go:389-415 | granting the read tools keeps the step's risk the highest of its tools, and grants nothing unknown |
| Segment.MaxRiskIsMaximum | internal/horizon/horizon.go:458-469 | the accumulated risk bounds every listed tool's risk and is READ or one of them |
| Segment.StageToolsMembers | internal/app/long_horizon.go:774-789 | exactly the tools a stage allows are offered |
| SegmentPolicy.AcceptedSegmentKeepsPolicy | internal/horizon/horizon.go:353-439 | whatever the model proposed, an accepted segment keeps the policy of its stage and mode and fits the step budget |
| SegmentPolicy.PlannerToolRisks | internal/app/service.go:511-538 | every tool offered to the planner has a risk its mode allows, and EDIT and DEVELOPMENT offer a WRITE tool |
| Acceptance.VerifyInWorkspace | internal/verifier/verifier.go:36-50 | the loop produces the report that the next row characterises |
| Acceptance.ReportPassesIffCriteriaMet | internal/verifier/verifier.go:36-87 | a report passes exactly when there are criteria and each is met, and an evidence check names exactly the matching verified evidence |
| TaskTable.TerminalIffNoWayOut | internal/task/state.go:9-35 | a status is terminal exactly when nothing leads out of it; COMPLETED is entered only from VERIFYING and VERIFYING only from RUNNING |
| TaskTable.TableIsMoves | internal/task/state.go:9-35 | the table allows exactly the listed moves |
| PlanGraph.FindCycle | internal/plan/validate.go:90-133 | exact: a reported cycle is a closed walk along dependencies, none is reported exactly when there is none, and then an order respecting all dependencies exists |
| PlanGraph.CycleFinder.Visit | internal/plan/validate.go:96-124 | visiting means on the stack, finished nodes depend only on finished nodes, and a found walk is closed |
| PlanGraph.TopologicalIsAcyclic | internal/plan/validate.go:90-133 | a graph whose nodes can be listed after their dependencies has no closed walk |
| PlanValidation.Validate | internal/plan/validate.go:20-67 | no error exactly for the valid plans: header, complete and distinct steps, known dependencies, no cycle |
| PlanValidation.IndexSteps | internal/plan/validate.go:34-54 | no error exactly when all steps are complete and their ids differ, and then the table is the step graph |
| PlanValidation.ReadySteps | internal/plan/validate.go:69-88 | the loop computes the ready set of the next row |
| PlanValidation.ReadySetIsExact | internal/plan/validate.go:69-88 | ascending ids of exactly the open steps whose dependencies are all COMPLETED |
| PlanValidation.NoDeadlock | internal/plan/validate.go:69-88 | with nothing ready every open step waits, through open steps only, on a step that is neither open nor COMPLETED |
| PlanValidation.ReadyIsEmptyIffAllAreBlocked | internal/plan/validate.go:69-88 | nothing is ready exactly when every open step is blocked in that way |
| PlanRunner.TaskRunner.RunModelPlan | internal/app/service.go:2035-2053 | a fresh valid plan of n steps takes at most n step runs, in an order that respects dependencies, and never meets the no-executable-step error; if it ends on its own, every step was completed |
| PlanRunner.TaskRunner.RunModelStep | internal/app/service.go:1658-1954 | runs exactly the first ready step, with the status, evidence and report each worker answer leads to, changes nothing on an error before the start, and completes the task only with a passing report |
| PlanRunner.TaskRunner.CompleteModelStep | internal/app/service.go:1992-2029 | the last completed step of a single-plan task, and no other, sends it through verification, which persists its report and decides the status |
| PlanRunner.TaskRunner.RunTask | internal/app/service.go:1354-1430 | exactly one ready step of a READY task is run, and the task completes only with a passing report |
| PlanRunner.TaskRunner.ApprovePendingWrite | internal/app/service.go:712-812 | the fields after a write approval are those of the approval operation, and the task completes only with a passing report |
| PlanRunner.TaskRunner.ApprovePendingCommand | internal/app/service.go:948-1011 | the fields after a command approval are those of the approval operation, and the task completes only with a passing report |
| PlanRunner.StepAvailable | internal/app/service.go:1681-1684 | while some step of a valid plan is unfinished and all others are completed or pending, one can start |
| Worker.Run | internal/worker/worker.go:84-233 | every request is protocol-valid and fits the window with the output budget the raises allow; each continues the one before it by the response to it, whole and with its answers, or by one repair instruction of each kind; its n-th tool message shows the n-th answer behind a call for that action, rendered or compacted; every action is carried out at most once, because a response asked for it, and its result is its answer; iterations and output are those of the responses; it waits exactly on a last answer somebody has to decide on, a write-obligated run ends well only after a mutating action or waiting, and every error is explained by the reply, the clock, the tool or the repairs that were left |
| Worker.RunBatch | internal/worker/worker.go:174-213 | all calls of a response are answered, from the cache first, each by its own result as the model may see it, and the exchange keeps the transcript valid and telling |
| Worker.InvokeAccepted | internal/worker/worker.go:185-211 | fresh actions are carried out in order, each once, up to the first error or waiting result; behind each call id stands the rendered result of its own action |
| Worker.ServeReplays | internal/worker/worker.go:177-184 | a repeated read is answered, behind its call id, by the rendered cached result of that action |
| Worker.SendTurn | internal/worker/worker.go:116-135 | a turn compacts every message exactly from 80 percent of the window on, asks for the output budget or what the prompt leaves, and sends nothing exactly when 90 percent or 352 tokens say so |
| Worker.FinalizableReadBatch | internal/worker/worker.go:248-270 | accepted exactly for a non-empty batch of reads with definite outcomes |
| WorkerCourse.TurnFollows | internal/worker/worker.go:408-441 | the requests of one turn repeat it, and only retried replies lie between them |
| WorkerCourse.ExchangeFollows | internal/worker/worker.go:212-213 | the request after an exchange is everything said before, the response, and one tool message for each of its calls |
| WorkerCourse.RepairFollows | internal/worker/worker.go:145-169 | the request after refused calls or a missing write is everything said before and one instruction, and the course still holds each kind of instruction once at most |
| WorkerTelling.ExchangeTells | internal/worker/worker.go:177-213 | a response with its answers keeps the transcript telling: the n-th tool message shows the n-th answer behind a call for its action |
| WorkerTelling.CompactionTells | internal/worker/worker.go:460-479 | compaction keeps what the transcript tells, with contents that descend from the original ones |
| WorkerModel.ValidateToolCalls | internal/worker/worker.go:294-334 | accepted exactly when ids are unique, tools offered, arguments valid, and repetitions are reads of earlier responses; then every call is either fresh work or answered from the cache; otherwise the error is that of the first call that does not fit |
| WorkerModel.ChatWithRetry | internal/worker/worker.go:408-441 | an overflow is retried once and a transient failure twice, no other reply is; each request repeats the first, compacted at most, with its limit; the reply is that of the last |
| WorkerModel.RequestOutputLimit | internal/worker/worker.go:684-708 | a limit exists exactly below 90 percent of the window with 352 tokens left; prompt, limit and 96 never exceed the window; the last check never fails |
| Transcript.AppendBatch | internal/worker/worker.go:212-213 | appending a response with exactly one tool message per call keeps the list protocol-valid |
| Transcript.ShapeDecidesValidity | internal/worker/worker.go:396-402 | rewriting contents keeps a protocol-valid list valid |
| Transcript.CompactOverflowMessages | internal/worker/worker.go:460-479 | compaction keeps roles, ids, calls and system messages and rewrites the others one by one |
| Transcript.CompactionKeepsBothEnds | internal/worker/worker.go:460-479 | from 513 runes on a text keeps a quarter, 256 runes at least, at each end around a note with its hash and the number of runes left out; a shorter one is untouched |
| Transcript.CompactionShrinksIff | internal/worker/worker.go:460-479 | a text gets shorter exactly from 662 runes on, is untouched up to 512, and gets longer from 513 to 660 |
| UnifiedDiff.ApplyUnifiedDiff | internal/tool/patch.go:160-241 | the loop computes the text, the refusal or the out-of-range access that the specification gives |
| UnifiedDiff.UnknownLinesAreRefused | internal/tool/patch.go:160-241 | a patch with a non-empty line that is no hunk header with a readable start and begins with none of the markers is refused, wherever the line stands |
| DiffText.HeaderRoundTrip | internal/tool/patch.go:243-268 | a printed hunk header is read back, except that a left-out old count is read from the new range |
| DiffText.ParseWithoutComma | internal/tool/patch.go:256-266 | without a comma the count is one |
| DiffText.ParseWithComma | internal/tool/patch.go:256-266 | the count is whatever follows the first comma, also a comma of the new range |
| DiffText.RangeIsReadIff | internal/tool/patch.go:252-267 | an old range is an error exactly if no number follows its minus sign, and a count that is missing or unreadable is one |
| Strings.ScanIsExact | internal/tool/patch.go:256-263 | a number is read from spaces, a sign and digits up to the first other character, and fails exactly without a digit or beyond 64 bits |
| DiffText.SplitLinesJoin | internal/tool/patch.go:270-277 | splitting inverts joining of one-line texts |
| DiffText.JoinSplitLines | internal/tool/patch.go:270-277 | joining inverts splitting on text with LF line ends |
| DiffText.JoinIsInjective | internal/tool/patch.go:235-241 | different non-empty lists of lines join to different texts |
| DiffRoundTrip.PrintedPatchApplies | internal/tool/patch.go:160-241 | a printed script of ordered, disjoint hunks with explicit counts is applied at its positions, for every file and script |
| DiffRoundTrip.AppliesAsMeantIffContextMatches | internal/tool/patch.go:200-205 | the result is the new text of the script exactly when every context line equals the file's line |
| DiffLimits.LeftOutCountsApplyIff | internal/tool/patch.go:256-266 | headers in the short style are applied correctly exactly when no hunk removes one line and leaves none |
| DiffLimits.InsertionAppliesIff | internal/tool/patch.go:180-189 | a pure insertion after line p is applied as meant exactly when p is a line of the file that every inserted line repeats |
| DiffLimits.ScriptAppliesAsMeantIff | internal/tool/patch.go:160-241 | a printed script of any placed hunks gives its new text exactly when every context line equals the file's line and each hunk without old lines stands behind a line of the file that all its lines repeat and not directly behind a hunk with old lines |
| DiffLimits.PrintedScriptAppliesAsMeantIff | internal/tool/patch.go:160-241 | for every placed script in either header style, with deletions that match the file: it gives its new text exactly when context lines equal the file's, hunks without old lines sit, and no hunk removes its only line with counts left out |
| DiffLimits.ApplyingIsMeantIff | internal/tool/patch.go:180-209 | the same from any point inside the script |
| DiffLimits.CrashesIffDeletesPastEnd | internal/tool/patch.go:206-208 | a patch with accurate headers runs past the end of the file exactly when no hunk before the last is refused and the last, which starts inside the file behind them, deletes at or behind its end |
| DiffExamples.WrongContextIsAccepted | internal/tool/patch.go:200-205 | a one-line file and a hunk whose context line it does not hold, which is accepted |
| DiffExamples.LeftOutCountIsMisread | internal/tool/patch.go:256-266 | removing the only line, printed with counts left out, is not applied |
| DiffExamples.InsertionBehindAHunkIsRefused | internal/tool/patch.go:180-189 | an insertion right behind a hunk with old lines is not applied |
| DiffExamples.DeletionPastTheEndCrashes | internal/tool/patch.go:206-208 | a deletion behind the end of the file runs past it |
| JsonScan.ExtractJsonObjects | internal/horizon/horizon.go:170-215 | the flag-driven loop finds the objects of the recursive reading of the text |
| JsonScan.ExtractPlanJsonObject | internal/planner/planner.go:178-211 | on every text the first complete object, or the text when there is none |
| JsonRoundTrip.PrintedObjectsAreFound | internal/horizon/horizon.go:170-215 | printed objects between brace-free texts are found unchanged, all of them and in order |
| JsonRoundTrip.WeaveIsScanned | internal/horizon/horizon.go:170-215 | the same for any balanced objects |
| JsonRoundTrip.EveryTextIsAWeave | internal/horizon/horizon.go:170-215 | every text splits into brace-free gaps, the found objects, and a remainder in which no object is complete; the error is raised exactly when a brace is left in it |
| JsonRoundTrip.FoundObjectsAreBalanced | internal/horizon/horizon.go:170-215 | scanning a found object again finds exactly that object |
| JsonRoundTrip.PrintedObjectIsBalanced | internal/horizon/horizon.go:170-215 | a printed object with escaped strings is balanced, whatever its strings contain |
| EventLog.LogAndRowsAgree | internal/storage/store.go:202-223 | under any interleaving of clients the events of a task are numbered 1 to n, replaying its status events stays in the table and ends at the stored status, and the recorded completions are exactly the COMPLETED step rows |
| EventLog.EverySequenceHappens | internal/eventstore/events.go:13-23 | every sequence of preparations and commits by any clients has its session |
| EventLog.StaleNumbersAreTaken | internal/storage/store.go:414-427 | a sequence number that was once the next one is still the next one or is taken |
| EventLog.SecondOnTheSameNumberFails | internal/storage/store.go:414-427 | of two transactions prepared on one number at most one commits, and the other changes nothing |
| EventLog.CommitsIffUndisturbed | internal/storage/store.go:414-427 | in every session a prepared change takes effect exactly if its row is still as expected and no event of its task was committed in the meantime; then its event is the next of the task |
| EventLog.StepRowsFollowTheLog | internal/storage/store.go:328-349 | however clients interleave, every step row is what its events say, PENDING at first and then move by move along the nine moves the service makes |
| EventLog.Store.TransitionTask | internal/storage/store.go:202-223 | status and event change together, guarded by the old status and the sequence number, or not at all |
| EventLog.Store.TransitionStep | internal/storage/store.go:328-349 | the same for a step |
| EventLog.Store.CreatePlan | internal/storage/store.go:225-271 | the steps of a plan appear PENDING together with their event, or not at all |
| EventLog.Store.CreateTask | internal/storage/store.go:134-152 | a task appears as DRAFT together with its event, or not at all |
| EventLog.Store.NextSequenceOf | internal/storage/store.go:414-418 | one more than the highest number of the task |
| EventLog.Store.AppendEvent | internal/storage/store.go:420-427 | the insert is refused exactly when the number is taken |
| GuardedWrites.TicketsAreConserved | internal/storage/intents.go:117-162 | under any interleaving of approvals, write runs, expiry and outside edits each granted use is left or consumed, and no ticket is used twice |
| GuardedWrites.EarliestTicketPays | internal/storage/intents.go:152-162 | a checked run consumes one use of the earliest ticket for its parameters that has uses left and no expiry at or before that time, and gives up exactly if there is none |
| GuardedWrites.ConsumptionsAreInTime | internal/storage/intents.go:152-162 | in every history each consumption is an action at a time before the expiry of its ticket, if it has one |
| GuardedWrites.TicketsWereApproved | internal/storage/intents.go:117-150 | in every history each ticket comes from an approval of its parameters with its expiry |
| GuardedWrites.ReplacementsArePaidFor | internal/app/service.go:638-681 | every file replacement was preceded by its intent, by its own run's consumption of a ticket for the same parameters, and by its own run's second check, which found the expected content at the path |
| GuardedWrites.ReplacementMeetsExpectationIff | internal/tool/write.go:86-111 | in every history a replacement overwrites content with the expected hash exactly when the replacements and outside edits of that path between its second check and its rename left the content as it was |
| WriteExamples.SecondRunOverwritesTheFirst | internal/tool/write.go:86-111 | a history in which two paid runs pass their second checks and the second renames over what the first wrote |
| GuardedWrites.ReplacementsDoNotShare | internal/tool/write.go:36-111 | a run replaces at most once, consumes at most once and passes its second check at most once, and files change only by replacements and outside edits |
| GuardedWrites.EverySequenceHappens | internal/app/service.go:638-681 | every sequence of actions, however runs interleave, also between a second check and its rename, has its history |
| GuardedWrites.ActKeepsLedger | internal/storage/intents.go:32-162 | every atomic action keeps the ledger of tickets, intents, runs and files |
| WriteBatch.RepeatedWriteChangesNothing | internal/tool/write.go:50-56 | writing the same thing again succeeds, changes no file, consumes no ticket and records no event |
| WriteBatch.WriteOnceCases | internal/tool/write.go:36-74 | an undisturbed write leaves everything as it was, finds its content in place, or trades one ticket for one replacement, and exactly which |
| WriteBatch.WriteSucceedsIff | internal/tool/write.go:36-74 | an undisturbed write succeeds exactly if its path can be read and holds the content already, or holds the expected content and some ticket for it has uses left and has not expired |
| WriteBatch.AcceptedBatchWritesFullyIff | internal/app/service.go:742-786 | an accepted batch with live tickets writes fully exactly when no file it creates lies above or below a later target; then each target has its content and the consumptions are as many as the changed targets |
| WriteBatch.ApprovedBatchTickets | internal/app/service.go:742-786 | after a full batch each changed target has used one ticket of its own, each unchanged one keeps its ticket, and the tickets of other requests are untouched |
| WriteExamples.NestedTargetsFailHalfWay | internal/app/service.go:742-786 | an accepted batch of a file and a file below it that does not write fully |
| WriteBatch.AllWrittenIsExact | internal/tool/write.go:86-111 | after a full batch each target has its proposed content and no other path changed |
| WriteBatch.WrittenEverywhereIff | internal/tool/write.go:113-126 | the result is the old files overridden by all proposals exactly when nothing empty was proposed for an absent file |
| WriteExamples.EmptyProposalLeavesNoFile | internal/tool/write.go:113-126 | an accepted empty proposal for an absent file after which there is no file |
| WriteBatch.ValidateProposalRequest | internal/tool/proposal.go:187-207 | accepted exactly for one to sixteen targets, different without regard to case, each readable and with the expected content |
| WriteBatch.CheckExpectedContent | internal/tool/write.go:113-126 | the desired content wins over a stale expectation, and only the expected content may be replaced |
| WriteBatch.WriteDesk.ConsumeApproval | internal/storage/intents.go:152-162 | takes one use of the earliest ticket for the same parameters with uses left and no expiry at or before now, or changes nothing exactly if there is none |
| WriteBatch.WriteDesk.WriteFile | internal/app/service.go:638-681 | a write that nothing interrupts, intent first, second check before the replacement; it succeeds and pays as the rows WriteSucceedsIff and WriteOnceCases say |
| WriteBatch.WriteDesk.SecondCheckOf | internal/tool/write.go:86-90 | the check after payment clears the run exactly when the path still holds the expected content |
| WriteBatch.WriteDesk.RenameOver | internal/tool/write.go:91-111 | a cleared run replaces whatever the path then holds |
| WriteBatch.WriteDesk.ApprovePendingBatch | internal/app/service.go:742-786 | an approval succeeds exactly for an accepted batch without conflicts, changes nothing when the batch is refused, and accounts for every ticket, request by request |
| Tokens.EstimateText | internal/tokenbudget/tokenbudget.go:16-33 | the loop computes the estimate, and its floor of one token is never needed |
| Tokens.EstimateIsExact | internal/tokenbudget/tokenbudget.go:16-33 | one token for each wide rune and one for every four others, rounded up, and 15 percent on top, rounded up |
| Tokens.EstimateIsSubadditive | internal/tokenbudget/tokenbudget.go:16-33 | a concatenation costs at most the sum and at least each part, and only the empty text is free |
| Tokens.UsableContextBudget | internal/app/service.go:2146-2170 | the largest context that keeps the prompt within 80 percent of the window and leaves the response reserve and 256 tokens, given exactly when 128 tokens fit |
| ContextPack.Compile | internal/contextpack/compiler.go:32-79 | the loops compute the package that the next rows characterise, addressed as asked, and refuse as invalid exactly the incomplete inputs |
| ContextPack.CompileSelectsWell | internal/contextpack/compiler.go:57-78 | selected and omitted sections are exactly the normalised input; the budget and the cap per source hold; nothing omitted could still be added |
| ContextPriority.SelectedStandInOrder | internal/contextpack/compiler.go:51-59 | the selected sections have falling priorities, and at equal priority rising costs |
| ContextPriority.OmittedGiveWay | internal/contextpack/compiler.go:57-74 | every omitted section gives way to selected ones that rank before it by priority, then cost, then key, and that fill its source's share or leave less room than it costs |
| ContextPriority.SameSourceIff | internal/contextpack/compiler.go:85-90 | plain sections share a source exactly if they have the same references, or none and one kind |
| ContextPriority.NormalFormIs | internal/contextpack/compiler.go:41-50 | references are trimmed, freed of blanks and repetitions and sorted, a given cost is kept and a missing one estimated |
| ContextPack.OverflowIff | internal/contextpack/compiler.go:75-77 | a valid input is refused exactly when it has sections and each alone exceeds the budget |
| ContextPack.ValidateContextPackage | internal/worker/worker.go:571-592 | accepts exactly the complete packages for the step whose token counts add up within the budget |
| ContextPack.WorkerAcceptsCompiledPackages | internal/worker/worker.go:571-592 | the worker accepts every package compiled for its step |
| ContextPack.CompiledContextFits | internal/app/service.go:2064-2087 | whatever is compiled under the limit modelContext derives from the usable budget keeps the prompt within 80 percent of the window and leaves the response reserve and 256 tokens |
| ContextPack.ModelContext | internal/app/service.go:1838-1845 | budget and compilation together: sections are compiled exactly when 128 tokens fit, and a compiled package keeps those bounds and is accepted by the worker |
| ContextOrder.CompileIgnoresOrder | internal/contextpack/compiler.go:32-109 | permuting the sections changes nothing in the result, if no field holds a NUL and no single reference is spelled like the key of a section without references |
| ContextOrder.KeysTellSectionsApart | internal/contextpack/compiler.go:85-94 | under that condition the sort key identifies a section |

## Left out

- HTTP, streaming, credentials, the CLI, the desktop shell, SQLite, git and operating-system processes: input and output.
- Prompt texts, summaries, alias decoding of candidate fields and `goalRequiresWorkspaceAction`: string tables.
- Hashes and generated ids: hashes are taken to be injective and ids to be fresh; a step's id is its candidate's reference, which is unique within its plan, and a plan's id is made from its revision.
- Lexical path cleaning, symbolic links and empty directories: a path is a resolved list of components, and a directory exists when a file lies below it.
- HorizonModel.CreateTask: takes the parsed permission mode; the spelling variants that the mode parser accepts, duration limits and deadlines as times are not modelled. The invariant and the measure hold for DEVELOPMENT tasks too.
- `GeneratePlan`, `ReplanTask`, `RunTask`, the subagent coordinator and direct `RunModelStep` calls, all on a long-horizon task: not operations of the horizon model; nothing in the program guards against mixing them in.
- Failures of the store inside one public operation: each operation is one atomic step, so plan creation and the horizon save that follows it are not separated. Unreachable deployments, refused steps and an unavailable verifier are modelled.
- HorizonService.TaskService.RunModelStep: the intermediate step statuses READY, RUNNING and VERIFYING are passed through within the call, the event for recompiled context is not kept, and a provider failure is never an exhausted iteration budget.
- Worker.Run: the wording of the two repair instructions and the final evidence summary are left open, and what the model may see of a tool result is a function of the result and of whether it is replayed; the iteration limit of the step and that of its effective budget are the same number, as the service sets them, and the budget tool only raises the output budget.
- WorkerModel.ChatWithRetry: a cancellation while waiting for a retry is counted as one more request that expired.
- WorkerModel.ValidateToolCalls: argument schemas are reduced to whether canonical arguments exist.
- Segment.IntentKey: lower-casing covers ASCII letters only, as in the batch target keys.
- ContextPack.ModelContext: a package that the caller supplies is passed on without being compiled.
- SinglePlan.CompletedTasksWereAccepted: a task is followed from READY_TO_RUN, as creation leaves it; the events and the store's transactions are in `EventLog`.
- ContextPack.Compile: which runes count as wide is a parameter.
- The scheduler, `validateStepPolicy`, `CompressHistory`, `scopeWithinStep`, skills, memory search, checkpoints and the diagnostics log: they would only add easy members.
