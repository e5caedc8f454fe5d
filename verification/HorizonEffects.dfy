/** What each operation on a long-horizon task leaves behind, field by field (internal/app/long_horizon.go;
    RunModelStep, the two approvals and recovery of internal/app/service.go). */
module HorizonEffects {
  import opened Contracts
  import opened Strings
  import PlanValidation
  import opened Segment
  import opened Acceptance
  import opened HorizonModel
  import opened HorizonInvariant
  import opened HorizonReports

  // Creation.

  predicate DefaultedWithin(given: int, low: int, high: int) {
    given == 0 || low <= given <= high
  }

  function Defaulted(given: int, default: int): int {
    if given == 0 then default else given
  }

  /** A task is created exactly for a usable request, READY and ACTIVE in its first stage with nothing spent; missing
      budgets become 40 steps, 4 replans and 4 steps a segment, a missing policy asks before key stages, and missing
      criteria ask for a worker report. */
  lemma CreatedIff(r: Request, initial: PlanVersion)
    ensures CreateTask(r, initial).Some? <==>
      && r.mode in {PlanMode, EditMode} && r.deploymentEnabled && r.window >= 8192 && r.named
      && DefaultedWithin(r.budget.maxSteps, 1, 40) && DefaultedWithin(r.budget.maxReplans, 1, 4)
      && DefaultedWithin(r.budget.maxSegmentSteps, 1, 4)
    ensures CreateTask(r, initial).Some? ==>
      var w := CreateTask(r, initial).value;
      && w.spec.taskId == "tsk_" + r.suffix && w.spec.mode == r.mode
      && w.spec.budget.maxSteps == Defaulted(r.budget.maxSteps, 40)
      && w.spec.budget.maxReplans == Defaulted(r.budget.maxReplans, 4)
      && w.spec.budget.maxSegmentSteps == Defaulted(r.budget.maxSegmentSteps, 4)
      && w.spec.budget.maxInputTokens == r.budget.maxInputTokens
      && w.spec.budget.maxOutputTokens == r.budget.maxOutputTokens
      && w.spec.policy == (match r.policy case None => KeyStages case Some(policy) => policy)
      && (r.criteria != [] ==> w.spec.criteria == r.criteria)
      && (r.criteria == [] ==>
           |w.spec.criteria| == 1 && w.spec.criteria[0].kindOfCheck == EvidenceExists
           && w.spec.criteria[0].evidenceKind == "AGENT_REPORT" && w.spec.criteria[0].id != "")
      && w.status == ReadyToRun && w.evidence == [] && w.reports == [] && |w.plans| == 1
      && w.plans[0].plan == initial && !w.plans[0].horizon
      && w.plans[0].statuses.Keys == PlanValidation.GraphOf(initial.steps).Keys
      && (forall id :: id in w.plans[0].statuses ==> w.plans[0].statuses[id] == StepPending)
      && w.h.status == HorizonActive && w.h.stageIndex == 0 && w.h.segmentIndex == 0 && w.h.stepsPlanned == 0
      && w.h.stepsCompleted == 0 && w.h.replansUsed == 0 && w.h.noProgress == 0 && w.h.lastEvidenceCount == 0
      && !w.h.hasFailure && w.h.lastProcessed == None && !w.h.awaiting && w.h.reason == NoReason
      && w.h.usage.input == 0 && w.h.usage.output == 0
  {
    hide PlanValidation.GraphOf;
    assert WithinLimits(BudgetOf(r.budget)) <==>
      && DefaultedWithin(r.budget.maxSteps, 1, 40) && DefaultedWithin(r.budget.maxReplans, 1, 4)
      && DefaultedWithin(r.budget.maxSegmentSteps, 1, 4);
    assert r.mode in {PlanMode, EditMode} <==> r.mode !in {DevelopmentMode, UnknownMode} by { ModesAre(r.mode); }
  }

  lemma ModesAre(mode: PermissionMode)
    ensures mode.PlanMode? || mode.EditMode? || mode.DevelopmentMode? || mode.UnknownMode?
  {
  }

  // Where an Advance goes.

  /** A wait that ended outside makes the horizon ACTIVE again. */
  function Woken(w: World): World {
    if w.h.status == HorizonWaiting && !w.h.awaiting && w.status in {ReadyToRun, Running} then
      w.(h := w.h.(status := HorizonActive, reason := NoReason), log := w.log + [Saved(WaitResolved, w.h.stageIndex)])
    else w
  }

  predicate Moves(w: World, a: Answers)
    requires w.plans != []
  {
    !IsOver(w) && !IsWaiting(w) && !a.deadlinePassed && !TokensSpent(w) && !StepsSpent(w)
  }

  /** An Advance that is not stopped plans without an open segment, runs the first step that is ready, or closes. */
  lemma AdvanceGoes(w: World, a: Answers)
    requires w.plans != [] && Moves(w, a)
    ensures AdvanceTask(w, a) ==
      if !SegmentOpen(w) then PlanNext(Woken(w), a)
      else if Ready(w) != [] then RunStep(Woken(w), Ready(w)[0], a.step)
      else FinishSegment(Woken(w), a)
  {
    hide PlanNext, RunStep, FinishSegment, Ready;
    assert ResolveWait(w) == Woken(w);
    assert Ready(Woken(w)) == Ready(w) by { SameReady(w, Woken(w)); }
  }

  lemma SameReady(w: World, v: World)
    requires w.plans != [] && v.plans == w.plans
    ensures Ready(v) == Ready(w)
  {
    hide PlanValidation.ReadySet;
  }

  /** A task that waits is noted as waiting or paused, with the reason it waits for unless one is there already. */
  lemma WaitingLeaves(w: World, a: Answers)
    requires w.plans != [] && !IsOver(w) && IsWaiting(w)
    ensures var v := AdvanceTask(w, a).0;
      if w.status in {WaitingApproval, WaitingUser, Paused} then
        && v.h.status == (if w.status == Paused then HorizonPaused else HorizonWaiting)
        && v.h.reason == (if w.h.reason != NoReason then w.h.reason
                          else if w.status == WaitingApproval then ApprovalPending
                          else if w.status == WaitingUser then UserPending else ExecutionPaused)
        && v == w.(h := w.h.(status := v.h.status, reason := v.h.reason), log := v.log)
      else v == w
    ensures AdvanceTask(w, a).1 == Reported(AdvanceTask(w, a).0.h.status, Waiting)
  {
    hide Work;
  }

  // Failures.

  /** A failed cycle is replaced exactly if its step ran out of iterations, a replan is left and the last two cycles did
      not lack progress; otherwise task and horizon are paused. Either way the segment is given up and one more replan
      counted. */
  lemma FailureLeaves(w: World, exhausted: bool)
    requires w.plans != []
    ensures var (v, o) := RecordFailure(w, exhausted);
      var again := exhausted && w.h.replansUsed < w.spec.budget.maxReplans && w.h.noProgress <= 1
        && w.status in {ReadyToRun, Running, Paused};
      && v.h == w.h.(hasFailure := true, replansUsed := w.h.replansUsed + 1, status := v.h.status, reason := v.h.reason,
                     lastProcessed := Some(|w.plans| - 1))
      && v == w.(h := v.h, status := v.status, log := v.log) && |v.log| == |w.log| + 1
      && (again ==> v.status == ReadyToRun && v.h.status == HorizonActive && v.h.reason == NoReason
                    && o == Reported(HorizonActive, Replan))
      && (!again ==>
           && v.status == (if w.status in {ReadyToRun, Running} then Paused else w.status)
           && v.h.status == HorizonPaused && v.h.reason == CycleFailed && o == Reported(HorizonPaused, FailedPaused))
  {
  }

  // Running a step.

  /** What a step becomes, and its task. */
  function StepAfter(reply: StepReply): StepStatus {
    match reply
    case AsksUser(_) => StepWaitingUser
    case ProposesChange(_) => StepWaitingApproval
    case Succeeds(_) => StepCompleted
    case Fails(_) => StepFailed
    case Refused => StepPending
  }

  function TaskAfter(reply: StepReply): TaskStatus {
    match reply
    case AsksUser(_) => WaitingUser
    case ProposesChange(_) => WaitingApproval
    case Succeeds(_) => Running
    case Fails(_) => Paused
    case Refused => ReadyToRun
  }

  predicate StepAllowed(w: World, id: string)
    requires w.plans != []
  {
    && w.status in {ReadyToRun, Running}
    && exists s :: s in Latest(w).plan.steps && s.stepId == id && AllowsRisk(w.spec.mode, s.risk)
  }

  ghost function DoneSteps(plans: seq<PlanRow>): set<(int, string)> {
    set p, id | 0 <= p < |plans| && id in plans[p].statuses && plans[p].statuses[id] == StepCompleted :: (p, id)
  }

  lemma {:induction false} PairsCount(p: int, ids: set<string>)
    ensures |set id | id in ids :: (p, id)| == |ids|
  {
    var pairs := set id | id in ids :: (p, id);
    if ids == {} {
      assert pairs == {};
    } else {
      var one :| one in ids;
      PairsCount(p, ids - {one});
      assert pairs == (set id | id in ids - {one} :: (p, id)) + {(p, one)};
    }
  }

  lemma DoneStepsGrow(plans: seq<PlanRow>, n: nat)
    requires n + 1 == |plans|
    ensures |DoneSteps(plans)| == |DoneSteps(plans[..n])| + CompletedIn(plans[n])
  {
    var ids := set id | id in plans[n].statuses && plans[n].statuses[id] == StepCompleted;
    PairsCount(n, ids);
    var latest := set id | id in ids :: (n, id);
    assert DoneSteps(plans) == DoneSteps(plans[..n]) + latest;
    assert DoneSteps(plans[..n]) !! latest;
  }

  /** The saved number of completed steps counts them in all segments. */
  lemma {:induction false} CompletedStepsAre(plans: seq<PlanRow>)
    ensures CompletedSteps(plans) == |DoneSteps(plans)|
  {
    if plans == [] {
      assert DoneSteps(plans) == {};
    } else {
      hide DoneSteps, CompletedIn;
      CompletedStepsAre(plans[..|plans| - 1]);
      DoneStepsGrow(plans, |plans| - 1);
    }
  }

  /** Whatever the evidence: three cycles without any stop the horizon, a settled task settles it. */
  lemma ProgressLeaves(w: World, usage: Usage)
    ensures var (v, o) := RecordProgress(w, usage);
      var lacking := if |w.evidence| > w.h.lastEvidenceCount then 0 else w.h.noProgress + 1;
      && v.h.noProgress == lacking && v.h.lastEvidenceCount == |w.evidence|
      && v.h.stepsCompleted == |DoneSteps(w.plans)|
      && v.h.status == (if w.status == Completed then HorizonCompleted
                        else if w.status in {Failed, Blocked} then HorizonBlocked
                        else if lacking >= 3 then HorizonPaused else w.h.status)
      && v.h.reason == (if w.status in {Failed, Blocked} then AcceptanceFailed
                        else if lacking >= 3 then NoNewEvidence else w.h.reason)
      && v.status == (if lacking >= 3 && w.status == Running then Paused else w.status)
      && v == w.(h := v.h, status := v.status, log := v.log) && o == Reported(v.h.status, StepExecuted)
  {
    CompletedStepsAre(w.plans);
    hide CompletedSteps;
  }

  /** A step that was started leaves its own status, that of its task and its report as evidence; the count of evidence
      is brought up to date, and with new evidence no cycle lacks progress. */
  lemma ExecutionLeaves(w: World, id: string, reply: StepReply)
    requires w.plans != [] && w.h.lastEvidenceCount <= |w.evidence|
    requires StepAllowed(w, id) && (reply.AsksUser? || reply.ProposesChange? || reply.Succeeds?)
    ensures var (v, o) := RunStep(w, id, reply);
      var last := |w.plans| - 1;
      && v.status == TaskAfter(reply) && v.evidence == w.evidence + [AGENT_REPORT]
      && v.plans == w.plans[last := w.plans[last].(statuses := w.plans[last].statuses[id := StepAfter(reply)])]
      && v.h == w.h.(noProgress := 0, lastEvidenceCount := |w.evidence| + 1, usage := v.h.usage,
                     stepsCompleted := |DoneSteps(v.plans)|)
      && v == w.(status := v.status, evidence := v.evidence, plans := v.plans, h := v.h, log := v.log)
      && o == Reported(w.h.status, StepExecuted)
  {
    CompletedStepsAre(RunStep(w, id, reply).0.plans);
    hide CompletedSteps;
    StartsWhereAllowed(w, id);
  }

  lemma StartsWhereAllowed(w: World, id: string)
    requires w.plans != []
    ensures StepAllowed(w, id) <==> MayRun(w, id)
  {
    if StepAllowed(w, id) {
      var s :| s in Latest(w).plan.steps && s.stepId == id && AllowsRisk(w.spec.mode, s.risk);
      var i :| 0 <= i < |Latest(w).plan.steps| && Latest(w).plan.steps[i] == s;
    }
  }

  /** A step that is not allowed or was refused fails its cycle and stays as it is; one that failed is FAILED, has left
      its report, and may be replaced. */
  lemma FailedExecutionLeaves(w: World, id: string, reply: StepReply)
    requires w.plans != []
    ensures !StepAllowed(w, id) || reply.Refused? ==> RunStep(w, id, reply) == RecordFailure(w, false)
    ensures StepAllowed(w, id) && reply.Fails? ==>
      var last := |w.plans| - 1;
      RunStep(w, id, reply) == RecordFailure(
        w.(status := Paused, evidence := w.evidence + [AGENT_REPORT],
           plans := w.plans[last := w.plans[last].(statuses := w.plans[last].statuses[id := StepFailed])]),
        reply.iterationsExhausted)
  {
    hide RecordFailure;
    StartsWhereAllowed(w, id);
  }

  // Closing.

  predicate AllStepsCompleted(row: PlanRow) {
    forall s :: s in row.plan.steps ==> s.stepId in row.statuses && row.statuses[s.stepId] == StepCompleted
  }

  /** The end of the checkpointed stages: DESIGN under KEY_STAGES, every one under EVERY_STAGE. */
  predicate AsksAfter(policy: CheckpointPolicy, stageIndex: nat) {
    policy == EveryStage || (policy == KeyStages && stageIndex == 1)
  }

  lemma CompletedAlike(row: PlanRow)
    ensures AllStepsCompleted(row) <==> AllCompleted(row)
  {
    if AllStepsCompleted(row) {
      forall i | 0 <= i < |row.plan.steps|
        ensures PlanValidation.StatusIs(row.statuses, row.plan.steps[i].stepId, StepCompleted)
      {
        assert row.plan.steps[i] in row.plan.steps;
      }
    }
    if AllCompleted(row) {
      forall s | s in row.plan.steps ensures s.stepId in row.statuses && row.statuses[s.stepId] == StepCompleted {
        var i :| 0 <= i < |row.plan.steps| && row.plan.steps[i] == s;
        assert PlanValidation.StatusIs(row.statuses, row.plan.steps[i].stepId, StepCompleted);
      }
    }
  }

  /** A segment with an unfinished step is given up for a replan; past the limit that blocks horizon and running
      task. */
  lemma UnfinishedSegmentLeaves(w: World, a: Answers)
    requires w.plans != [] && !AllStepsCompleted(Latest(w))
    ensures var (v, o) := FinishSegment(w, a);
      var spent := w.h.replansUsed >= w.spec.budget.maxReplans;
      && v.h.status == (if spent then HorizonBlocked else HorizonActive)
      && v.h.reason == (if spent then ReplansSpent else w.h.reason)
      && v.h == w.h.(lastProcessed := Some(|w.plans| - 1), replansUsed := w.h.replansUsed + 1, status := v.h.status,
                     reason := v.h.reason)
      && v.status == (if spent && w.status == Running then Blocked else w.status)
      && v == w.(h := v.h, status := v.status, log := v.log) && o == Reported(v.h.status, Replan)
  {
    hide AllCompleted, CloseTask, CloseStage, RecordFailure;
    CompletedAlike(Latest(w));
  }

  /** A finished segment that does not end its stage is processed, and nothing else. */
  lemma FinishedSegmentLeaves(w: World, a: Answers)
    requires w.plans != [] && AllStepsCompleted(Latest(w)) && !Latest(w).terminal
    ensures var (v, o) := FinishSegment(w, a);
      && v == w.(h := w.h.(lastProcessed := Some(|w.plans| - 1)), log := v.log)
      && o == Reported(w.h.status, SegmentClosed)
  {
    hide AllCompleted, CloseTask, CloseStage, RecordFailure, ReplanSegment;
    CompletedAlike(Latest(w));
  }

  /** The end of a stage moves the index on; where the policy asks, the horizon waits at a checkpoint and a running task
      for its user. */
  lemma ClosedStageLeaves(w: World, a: Answers)
    requires w.plans != [] && AllStepsCompleted(Latest(w)) && Latest(w).terminal && w.h.stageIndex < 4
    ensures a.stage == NotAssessed ==> FinishSegment(w, a) == RecordFailure(w, false)
    ensures a.stage != NotAssessed ==>
      var (v, o) := FinishSegment(w, a);
      var asks := AsksAfter(w.spec.policy, w.h.stageIndex);
      && v.h.status == (if asks then HorizonWaiting else w.h.status) && v.h.awaiting == (asks || w.h.awaiting)
      && v.h.reason == (if asks then StageCompleted else w.h.reason)
      && v.h == w.h.(lastProcessed := Some(|w.plans| - 1), stageIndex := w.h.stageIndex + 1, usage := v.h.usage,
                     status := v.h.status, awaiting := v.h.awaiting, reason := v.h.reason)
      && v.status == (if asks && w.status == Running then WaitingUser else w.status)
      && v == w.(h := v.h, status := v.status, log := w.log + [Saved(StageAdvanced, w.h.stageIndex + 1)])
      && o == Reported(v.h.status, StageClosed)
  {
    hide AllCompleted, CloseTask, RecordFailure, ReplanSegment;
    CompletedAlike(Latest(w));
    assert STAGES[0] != Design && STAGES[1] == Design && STAGES[2] != Design && STAGES[3] != Design;
  }

  /** The end of the last stage verifies a RUNNING task at once: it and its horizon are COMPLETED if the criteria are
      met, otherwise it is FAILED and its horizon BLOCKED; without a verdict it is left VERIFYING. */
  lemma ClosedTaskLeaves(w: World, a: Answers)
    requires w.plans != [] && AllStepsCompleted(Latest(w)) && Latest(w).terminal && w.h.stageIndex == 4
    requires a.stage != NotAssessed
    ensures var (v, o) := FinishSegment(w, a);
      if w.status != Running then v == w && o == OperationError
      else if a.verification == Unavailable then v == w.(status := Verifying) && o == OperationError
      else
        var report := ReportOf(w.spec.criteria, w.evidence, a.verification.passing);
        && v.reports == w.reports + [report] && v.status == (if report.passed then Completed else Failed)
        && v.h.status == (if report.passed then HorizonCompleted else HorizonBlocked)
        && v.h.reason == (if report.passed then w.h.reason else FinalAcceptanceFailed)
        && v.h == w.h.(lastProcessed := Some(|w.plans| - 1), stageIndex := 5, usage := v.h.usage,
                       status := v.h.status, reason := v.h.reason)
        && v == w.(h := v.h, status := v.status, reports := v.reports, log := v.log)
        && o == Reported(v.h.status, if report.passed then TaskClosed else AcceptanceRejected)
  {
    hide AllCompleted, RecordFailure, ReplanSegment, CloseStage, ReportOf;
    CompletedAlike(Latest(w));
  }

  // Approvals and recovery.

  predicate Pending(w: World, id: string)
    requires w.plans != []
  {
    && w.status == WaitingApproval && id in Latest(w).statuses && Latest(w).statuses[id] == StepWaitingApproval
  }

  function WithLatest(w: World, id: string, step: StepStatus, status: TaskStatus): World
    requires w.plans != []
  {
    var last := |w.plans| - 1;
    w.(plans := w.plans[last := w.plans[last].(statuses := w.plans[last].statuses[id := step])], status := status)
  }

  /** A write approval is refused unless the step waits for one and only writes; a write that fails ends the task, and
      one that succeeds completes the step and has the task verified at once. */
  lemma WriteApprovalLeaves(w: World, id: string, reply: WriteReply)
    requires w.plans != []
    ensures var (v, o) := ApproveWriteStep(w, id, reply);
      var writes := exists s :: s in Latest(w).plan.steps && s.stepId == id && s.risk == Write;
      if !Pending(w, id) || !writes || reply == ProposalRefused then v == w && o == OperationError
      else if reply == WriteFailed then v == WithLatest(w, id, StepFailed, Failed) && o == OperationError
      else if reply.verification == Unavailable then
        v == WithLatest(w, id, StepCompleted, Verifying) && o == OperationError
      else
        var report := ReportOf(w.spec.criteria, w.evidence, reply.verification.passing);
        && v == WithLatest(w, id, StepCompleted, if report.passed then Completed else Failed)
                  .(reports := w.reports + [report])
        && o == Accepted
  {
    hide ReportOf, IsWriteStep;
    WritesAlike(Latest(w).plan.steps, id);
  }

  lemma WritesAlike(steps: seq<StepSpec>, id: string)
    ensures IsWriteStep(steps, id) <==> exists s :: s in steps && s.stepId == id && s.risk == Write
    ensures IsCommandStep(steps, id) <==>
      exists s :: s in steps && s.stepId == id && "propose_project_command" in s.allowedTools
  {
    if s :| s in steps && s.stepId == id && s.risk == Write {
      var i :| 0 <= i < |steps| && steps[i] == s;
    }
    if s :| s in steps && s.stepId == id && "propose_project_command" in s.allowedTools {
      var i :| 0 <= i < |steps| && steps[i] == s;
    }
  }

  /** A command approval is refused unless the step waits for one and may propose commands; a command that fails ends
      the task, and one that succeeds completes the step, leaves its result as evidence and lets the task run on. */
  lemma CommandApprovalLeaves(w: World, id: string, reply: CommandReply)
    requires w.plans != []
    ensures var (v, o) := ApproveCommandStep(w, id, reply);
      var commands := exists s ::
        s in Latest(w).plan.steps && s.stepId == id && "propose_project_command" in s.allowedTools;
      if !Pending(w, id) || !commands || reply == CommandRefused then v == w && o == OperationError
      else if reply == CommandFailed then v == WithLatest(w, id, StepFailed, Failed) && o == OperationError
      else
        && v == WithLatest(w, id, StepCompleted, Running).(evidence := w.evidence + [COMMAND_RESULT])
        && o == Accepted
  {
    hide IsCommandStep;
    WritesAlike(Latest(w).plan.steps, id);
  }

  /** Recovery pauses a RUNNING task, refuses any other, and touches nothing else. */
  lemma RecoveryLeaves(w: World)
    ensures RecoverTask(w) == if w.status == Running then (w.(status := Paused), Accepted) else (w, OperationError)
  {
  }

  // Planning.

  /** A persisted segment is a new latest row of the current stage whose steps all wait, paid for out of the budget. */
  lemma PlannedSegmentLeaves(w: World, a: Answers)
    requires w.plans != [] && Reports(PlanNext(w, a).1, SegmentPlanning)
    ensures var (v, o) := PlanNext(w, a);
      && a.servicesAvailable && |v.plans| == |w.plans| + 1
      && var row := v.plans[|w.plans|];
      && v.plans == w.plans + [row] && row.horizon && row.stage == StageAt(w.h.stageIndex)
      && row.segment == w.h.segmentIndex + 1
      && row.statuses.Keys == PlanValidation.GraphOf(row.plan.steps).Keys
      && (forall id :: id in row.statuses ==> row.statuses[id] == StepPending)
      && v.h == w.h.(segmentIndex := w.h.segmentIndex + 1, stepsPlanned := w.h.stepsPlanned + |row.plan.steps|,
                     noProgress := w.h.noProgress + 1, usage := v.h.usage)
      && v == w.(plans := v.plans, h := v.h, log := v.log)
      && o == Reported(w.h.status, SegmentPlanning)
  {
    hide SegmentAccepted, PlanOf, Novel, PermissionHolds, InputFor, PlanValidation.GraphOf, Planned, StageAt;
    var (usage, candidate) := Planned(a.firstPlan, a.secondPlan, InputFor(w));
    FailureNeverPlans(Charged(w, a));
    FailureNeverPlans(w);
    if candidate.Some? { PersistLeaves(Charged(w, a), PlanOf(candidate.value, InputFor(w)), candidate.value.terminal); }
    hide RecordFailure, Persist;
  }

  lemma FailureNeverPlans(w: World)
    requires w.plans != []
    ensures !Reports(RecordFailure(w, false).1, SegmentPlanning)
  {
  }

  lemma PersistLeaves(w: World, plan: PlanVersion, terminal: bool)
    ensures var (v, o) := Persist(w, plan, terminal);
      && |v.plans| == |w.plans| + 1
      && var row := v.plans[|w.plans|];
      && v.plans == w.plans + [row] && row.horizon && row.stage == StageAt(w.h.stageIndex) && row.plan == plan
      && row.segment == w.h.segmentIndex + 1 && row.terminal == terminal
      && row.statuses.Keys == PlanValidation.GraphOf(plan.steps).Keys
      && (forall id :: id in row.statuses ==> row.statuses[id] == StepPending)
      && v.h == w.h.(segmentIndex := w.h.segmentIndex + 1, stepsPlanned := w.h.stepsPlanned + |plan.steps|,
                     noProgress := w.h.noProgress + 1)
      && v == w.(plans := v.plans, h := v.h, log := v.log)
      && o == Reported(w.h.status, SegmentPlanning)
  {
    hide PlanValidation.GraphOf, StageAt;
    var v := Persist(w, plan, terminal).0;
    assert v.plans == w.plans + [v.plans[|w.plans|]];
  }

  /** Planning takes the first of the two replies that builds a segment, the second being read only if the first does
      not, and keeps it only if its work is new in the stage. */
  lemma PlanningTakes(w: World, a: Answers)
    requires w.plans != [] && a.servicesAvailable && w.spec.mode != UnknownMode
    ensures var input := InputFor(w);
      var first := a.firstPlan.Reply? && a.firstPlan.candidate.Some?
        && SegmentAccepted(a.firstPlan.candidate.value, input);
      var second := a.firstPlan.Reply? && !first && a.secondPlan.Reply? && a.secondPlan.candidate.Some?
        && SegmentAccepted(a.secondPlan.candidate.value, input);
      var taken := if first then a.firstPlan.candidate else if second then a.secondPlan.candidate else None;
      && Planned(a.firstPlan, a.secondPlan, input).1 == taken
      && (input.tools == [] || taken == None || (taken.Some? && PermissionHolds(PlanOf(taken.value, input), w.spec.mode)
            && !Novel(w.plans, input.stage, PlanOf(taken.value, input))) ==>
           Reports(PlanNext(w, a).1, FailedPaused) && PlanNext(w, a).0.plans == w.plans)
      && (input.tools != [] && taken.Some? && PermissionHolds(PlanOf(taken.value, input), w.spec.mode)
           && Novel(w.plans, input.stage, PlanOf(taken.value, input)) ==>
           && Reports(PlanNext(w, a).1, SegmentPlanning)
           && Latest(PlanNext(w, a).0).plan == PlanOf(taken.value, input)
           && Latest(PlanNext(w, a).0).terminal == taken.value.terminal)
  {
    hide SegmentAccepted, PlanOf, Novel, PermissionHolds, InputFor;
    var candidate := Planned(a.firstPlan, a.secondPlan, InputFor(w)).1;
    FailureKeepsPlans(Charged(w, a));
    FailureKeepsPlans(w);
    if candidate.Some? { PersistLeaves(Charged(w, a), PlanOf(candidate.value, InputFor(w)), candidate.value.terminal); }
    hide RecordFailure, Persist;
  }

  lemma FailureKeepsPlans(w: World)
    requires w.plans != []
    ensures Reports(RecordFailure(w, false).1, FailedPaused) && RecordFailure(w, false).0.plans == w.plans
  {
  }
}
