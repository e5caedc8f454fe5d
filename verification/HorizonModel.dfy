/** One long-horizon task and the meaning of every public operation on it (internal/app/long_horizon.go,
    with RunModelStep, the two approvals and recovery from internal/app/service.go).
    What a provider, the clock, the workspace or the user answers is an argument. */
module HorizonModel {
  import opened Contracts
  import opened Strings
  import PlanValidation
  import opened Segment
  import SegmentPolicy
  import TaskTable
  import opened Acceptance

  // The persisted state.

  datatype HorizonStatus =
    HorizonActive | HorizonWaiting | HorizonPaused | HorizonBlocked | HorizonCompleted | HorizonCancelled

  datatype CheckpointPolicy = NoCheckpoints | KeyStages | EveryStage

  datatype Reason =
    | NoReason | ApprovalPending | UserPending | ExecutionPaused | CycleFailed | BudgetSpent | NoNewEvidence
    | AcceptanceFailed | ReplansSpent | StageCompleted | FinalAcceptanceFailed

  datatype Budget = Budget(maxSteps: int, maxReplans: int, maxSegmentSteps: int, maxInputTokens: int,
      maxOutputTokens: int)

  datatype Usage = Usage(input: int, output: int)

  datatype TaskSpec = TaskSpec(
    taskId: string, mode: PermissionMode, budget: Budget, policy: CheckpointPolicy, criteria: seq<Criterion>)

  datatype Horizon = Horizon(
    status: HorizonStatus,
    stageIndex: nat,
    segmentIndex: nat,
    stepsPlanned: nat,
    stepsCompleted: nat,
    replansUsed: nat,
    noProgress: nat,
    lastEvidenceCount: nat,
    hasFailure: bool,
    lastProcessed: Option<nat>,
    awaiting: bool,
    reason: Reason,
    usage: Usage)

  /** A persisted plan revision with the status of each of its steps. */
  datatype PlanRow = PlanRow(
    plan: PlanVersion, horizon: bool, stage: StageId, segment: nat, terminal: bool, statuses: PlanValidation.Statuses)

  datatype SaveName =
    | Created | WaitResolved | WaitNoted | Resumed | StateCancelled | SegmentReady | ProgressRecorded | ReplanRequired
    | SegmentCompleted | HorizonCompletedSaved | FinalAcceptanceRejected | StageAdvanced | FailureRecorded
    | BudgetBlocked

  /** The horizon events of the task's log; `Saved` carries the stage index that was saved. */
  datatype LogEvent = SegmentPlanned(plan: nat, stage: nat) | Saved(name: SaveName, stage: nat)

  /** Plans are numbered by revision; the first one is the initial plan of every task. */
  datatype World = World(
    spec: TaskSpec, status: TaskStatus, h: Horizon, plans: seq<PlanRow>,
    evidence: seq<Evidence>, reports: seq<Report>, log: seq<LogEvent>)

  // Answers of the outside, and results.

  datatype PlannerReply = NoReply | Reply(candidate: Option<Candidate>, usage: Usage)

  datatype StepReply =
    | Refused                                  // no step is started
    | AsksUser(usage: Usage)
    | ProposesChange(usage: Usage)
    | Fails(iterationsExhausted: bool)
    | Succeeds(usage: Usage)

  datatype StageReply = NotAssessed | Assessed(usage: Usage)

  datatype Answers = Answers(
    deadlinePassed: bool, servicesAvailable: bool, firstPlan: PlannerReply, secondPlan: PlannerReply,
    step: StepReply, stage: StageReply, verification: Verification)

  datatype Action =
    | Terminal | Waiting | BudgetBlocks | SegmentPlanning | StepExecuted | Replan | FailedPaused
    | SegmentClosed | StageClosed | TaskClosed | AcceptanceRejected

  datatype Outcome = Reported(status: HorizonStatus, action: Action) | Accepted | OperationError

  datatype Operation =
    | Advance(answers: Answers)
    | Resume
    | Cancel
    | ApproveWrite(stepId: string, write: WriteReply)
    | ApproveCommand(stepId: string, command: CommandReply)
    | Recover

  // Small readings of the state.

  const STAGES := [Discover, Design, Implement, VerifyRepair, Finalize]

  function StageAt(index: nat): StageId {
    if index < 5 then STAGES[index] else Finalize
  }

  predicate RequiresCheckpoint(policy: CheckpointPolicy, completed: StageId) {
    policy.EveryStage? || (policy.KeyStages? && completed.Design?)
  }

  function Latest(w: World): PlanRow
    requires w.plans != []
  {
    w.plans[|w.plans| - 1]
  }

  /** The latest plan is a segment that was not closed yet. */
  predicate Unprocessed(w: World) {
    w.plans != [] && Latest(w).horizon && w.h.lastProcessed != Some(|w.plans| - 1)
  }

  predicate AllCompleted(row: PlanRow) {
    forall i :: 0 <= i < |row.plan.steps| ==>
        PlanValidation.StatusIs(row.statuses, row.plan.steps[i].stepId, StepCompleted)
  }

  predicate HasFailedStep(row: PlanRow) {
    exists id :: id in row.statuses && row.statuses[id] in {StepFailed, StepBlocked}
  }

  function Ready(w: World): seq<string>
    requires w.plans != []
  {
    PlanValidation.ReadySet(Latest(w).plan.steps, Latest(w).statuses)
  }

  function CompletedIn(row: PlanRow): nat {
    |set id | id in row.statuses && row.statuses[id] == StepCompleted|
  }

  function CompletedSteps(plans: seq<PlanRow>): nat {
    if plans == [] then 0 else CompletedSteps(plans[..|plans| - 1]) + CompletedIn(plans[|plans| - 1])
  }

  predicate TokensExhausted(budget: Budget, usage: Usage) {
    || (budget.maxInputTokens > 0 && usage.input >= budget.maxInputTokens)
    || (budget.maxOutputTokens > 0 && usage.output >= budget.maxOutputTokens)
  }

  function Plus(a: Usage, b: Usage): Usage {
    Usage(a.input + b.input, a.output + b.output)
  }

  function Save(w: World, name: SaveName): World {
    w.(log := w.log + [Saved(name, w.h.stageIndex)])
  }

  function WithRow(w: World, row: PlanRow): World
    requires w.plans != []
  {
    w.(plans := w.plans[|w.plans| - 1 := row])
  }

  function WithStep(w: World, id: string, status: StepStatus): World
    requires w.plans != []
  {
    WithRow(w, Latest(w).(statuses := Latest(w).statuses[id := status]))
  }

  function WithEvidence(w: World, e: Evidence): World {
    w.(evidence := w.evidence + [e])
  }

  // Failures and budget stops.

  /** Whether a failed cycle is replaced by a new segment without asking the user. */
  predicate ReplansItself(w: World, iterationsExhausted: bool) {
    iterationsExhausted && w.h.replansUsed + 1 <= w.spec.budget.maxReplans && w.h.noProgress < 2
  }

  function RecordFailure(w: World, iterationsExhausted: bool): (World, Outcome)
    requires w.plans != []
  {
    var h := w.h.(hasFailure := true, status := HorizonPaused, reason := CycleFailed,
                  replansUsed := w.h.replansUsed + 1, lastProcessed := Some(|w.plans| - 1));
    if ReplansItself(w, iterationsExhausted) && w.status in {Running, Paused, ReadyToRun} then
      (Save(w.(status := ReadyToRun, h := h.(status := HorizonActive, reason := NoReason)), ReplanRequired),
       Reported(HorizonActive, Replan))
    else
      var status := if w.status in {ReadyToRun, Running} then Paused else w.status;
      (Save(w.(status := status, h := h), FailureRecorded), Reported(HorizonPaused, FailedPaused))
  }

  function PauseForBudget(w: World): (World, Outcome) {
    var status := if w.status.Running? then Blocked else if w.status.ReadyToRun? then Paused else w.status;
    (Save(w.(status := status, h := w.h.(status := HorizonBlocked, reason := BudgetSpent)), BudgetBlocked),
     Reported(HorizonBlocked, BudgetBlocks))
  }

  // Planning the next segment.

  function FreshPlanId(w: World): string {
    "pln_" + Decimal(|w.plans|)
  }

  function InputFor(w: World): SegmentInput {
    var stage := StageAt(w.h.stageIndex);
    SegmentInput(w.spec.taskId, FreshPlanId(w), stage, SegmentPolicy.SegmentTools(stage, w.spec.mode),
                 w.h.stepsPlanned, w.spec.budget.maxSteps, w.spec.budget.maxSegmentSteps)
  }

  ghost predicate Usable(candidate: Option<Candidate>, input: SegmentInput) {
    candidate.Some? && SegmentAccepted(candidate.value, input)
  }

  /** The planner's two tries: the usage it cost and the candidate it settled on. */
  ghost function Planned(first: PlannerReply, second: PlannerReply, input: SegmentInput): (Usage, Option<Candidate>) {
    if first.NoReply? then (Usage(0, 0), None)
    else if Usable(first.candidate, input) then (first.usage, first.candidate)
    else if second.NoReply? then (first.usage, None)
    else (Plus(first.usage, second.usage), if Usable(second.candidate, input) then second.candidate else None)
  }

  predicate PermissionHolds(plan: PlanVersion, mode: PermissionMode) {
    forall i :: 0 <= i < |plan.steps| ==> AllowsRisk(mode, plan.steps[i].risk)
  }

  /** The step's goal and tools were not planned in this stage before. */
  ghost predicate KeyIsNew(plans: seq<PlanRow>, stage: StageId, key: string) {
    forall p, i :: 0 <= p < |plans| && plans[p].horizon && plans[p].stage == stage && 0 <= i < |plans[p].plan.steps| ==>
      KeyOf(plans[p].plan.steps[i]) != key
  }

  ghost predicate Novel(plans: seq<PlanRow>, stage: StageId, plan: PlanVersion) {
    && (forall i :: 0 <= i < |plan.steps| ==> KeyIsNew(plans, stage, KeyOf(plan.steps[i])))
    && DistinctKeys(plan.steps)
  }

  function FreshRow(w: World, plan: PlanVersion, terminal: bool): PlanRow {
    PlanRow(plan, true, StageAt(w.h.stageIndex), w.h.segmentIndex + 1, terminal,
            map id | id in PlanValidation.GraphOf(plan.steps) :: StepPending)
  }

  function Persist(w: World, plan: PlanVersion, terminal: bool): (World, Outcome) {
    var h := w.h.(segmentIndex := w.h.segmentIndex + 1, stepsPlanned := w.h.stepsPlanned + |plan.steps|,
                  noProgress := w.h.noProgress + 1);
    (w.(plans := w.plans + [FreshRow(w, plan, terminal)], h := h,
        log := w.log + [SegmentPlanned(|w.plans|, w.h.stageIndex), Saved(SegmentReady, w.h.stageIndex)]),
     Reported(w.h.status, SegmentPlanning))
  }

  ghost function PlanNext(w: World, a: Answers): (World, Outcome)
    requires w.plans != []
  {
    var input := InputFor(w);
    if !a.servicesAvailable || w.spec.mode.UnknownMode? then (w, OperationError)
    else if input.tools == [] then RecordFailure(w, false)
    else
      var (usage, candidate) := Planned(a.firstPlan, a.secondPlan, input);
      var w1 := w.(h := w.h.(usage := Plus(w.h.usage, usage)));
      if candidate.None? then RecordFailure(w1, false)
      else
        var plan := PlanOf(candidate.value, input);
        if !PermissionHolds(plan, w.spec.mode) then (w, OperationError)
        else if !Novel(w.plans, input.stage, plan) then RecordFailure(w1, false)
        else Persist(w1, plan, candidate.value.terminal)
  }

  // Running one step.

  predicate MayRun(w: World, id: string)
    requires w.plans != []
  {
    && w.status in {ReadyToRun, Running}
    && exists i :: 0 <= i < |Latest(w).plan.steps| && Latest(w).plan.steps[i].stepId == id
                   && AllowsRisk(w.spec.mode, Latest(w).plan.steps[i].risk)
  }

  function RecordProgress(w: World, usage: Usage): (World, Outcome) {
    var noProgress := if |w.evidence| > w.h.lastEvidenceCount then 0 else w.h.noProgress + 1;
    var stalled := noProgress >= 3;
    var paused := if stalled then w.h.(status := HorizonPaused, reason := NoNewEvidence) else w.h;
    var closed :=
      if w.status.Completed? then paused.(status := HorizonCompleted)
      else if w.status in {Failed, Blocked} then paused.(status := HorizonBlocked, reason := AcceptanceFailed)
      else paused;
    var h := closed.(stepsCompleted := CompletedSteps(w.plans), noProgress := noProgress,
                     lastEvidenceCount := |w.evidence|, usage := Plus(w.h.usage, usage));
    (Save(w.(h := h, status := if stalled && w.status.Running? then Paused else w.status), ProgressRecorded),
     Reported(h.status, StepExecuted))
  }

  /** The world after the worker stopped on a step, with its report persisted. */
  function AfterWorker(w: World, id: string, step: StepStatus, status: TaskStatus): World
    requires w.plans != []
  {
    WithEvidence(WithStep(w, id, step), AGENT_REPORT).(status := status)
  }

  function RunStep(w: World, id: string, reply: StepReply): (World, Outcome)
    requires w.plans != []
  {
    if !MayRun(w, id) then RecordFailure(w, false)
    else match reply
      case Refused => RecordFailure(w, false)
      case AsksUser(usage) => RecordProgress(AfterWorker(w, id, StepWaitingUser, WaitingUser), usage)
      case ProposesChange(usage) => RecordProgress(AfterWorker(w, id, StepWaitingApproval, WaitingApproval), usage)
      case Fails(exhausted) => RecordFailure(AfterWorker(w, id, StepFailed, Paused), exhausted)
      case Succeeds(usage) => RecordProgress(AfterWorker(w, id, StepCompleted, Running), usage)
  }

  // Closing a segment, a stage, the task.

  /** Verification of a task that is VERIFYING. */
  function Verify(w: World, verification: Verification): World {
    match verification
    case Unavailable => w
    case Verified(passing) =>
      var report := ReportOf(w.spec.criteria, w.evidence, passing);
      w.(reports := w.reports + [report], status := if report.passed then Completed else Failed)
  }

  /** The end of the last stage; `closed` is the horizon with that stage counted. */
  function CloseTask(w: World, closed: Horizon, verification: Verification): (World, Outcome) {
    if !w.status.Running? then (w, OperationError)
    else
      var v := Verify(w.(status := Verifying), verification);
      match v.status
      case Completed =>
        (Save(v.(h := closed.(status := HorizonCompleted)), HorizonCompletedSaved),
            Reported(HorizonCompleted, TaskClosed))
      case Failed =>
        (Save(v.(h := closed.(status := HorizonBlocked, reason := FinalAcceptanceFailed)), FinalAcceptanceRejected),
         Reported(HorizonBlocked, AcceptanceRejected))
      case _ => (v, OperationError)
  }

  function CloseStage(w: World, closed: Horizon): (World, Outcome) {
    if RequiresCheckpoint(w.spec.policy, StageAt(w.h.stageIndex)) then
      var h := closed.(status := HorizonWaiting, awaiting := true, reason := StageCompleted);
      (Save(w.(h := h, status := if w.status.Running? then WaitingUser else w.status), StageAdvanced),
       Reported(HorizonWaiting, StageClosed))
    else (Save(w.(h := closed), StageAdvanced), Reported(closed.status, StageClosed))
  }

  function ReplanSegment(w: World): (World, Outcome) {
    var spent := w.h.replansUsed + 1 > w.spec.budget.maxReplans;
    var h := w.h.(replansUsed := w.h.replansUsed + 1, status := if spent then HorizonBlocked else HorizonActive,
                  reason := if spent then ReplansSpent else w.h.reason);
    (Save(w.(h := h, status := if spent && w.status.Running? then Blocked else w.status), ReplanRequired),
     Reported(h.status, Replan))
  }

  function FinishSegment(w: World, a: Answers): (World, Outcome)
    requires w.plans != []
  {
    var processed := w.h.(lastProcessed := Some(|w.plans| - 1));
    if !AllCompleted(Latest(w)) then ReplanSegment(w.(h := processed))
    else if !Latest(w).terminal then
      (Save(w.(h := processed), SegmentCompleted), Reported(w.h.status, SegmentClosed))
    else match a.stage
      case NotAssessed => RecordFailure(w, false)
      case Assessed(usage) =>
        var closed := processed.(usage := Plus(w.h.usage, usage), stageIndex := w.h.stageIndex + 1);
        if closed.stageIndex >= 5 then CloseTask(w, closed, a.verification) else CloseStage(w, closed)
  }

  // The operations.

  predicate HorizonOver(status: HorizonStatus) {
    status in {HorizonCompleted, HorizonCancelled, HorizonBlocked}
  }

  function ResolveWait(w: World): World {
    if w.h.status.HorizonWaiting? && !w.h.awaiting && w.status in {ReadyToRun, Running} then
      Save(w.(h := w.h.(status := HorizonActive, reason := NoReason)), WaitResolved)
    else w
  }

  predicate TaskWaits(status: TaskStatus) {
    status in {WaitingApproval, WaitingUser, Paused}
  }

  function NoteWait(w: World): (World, Outcome) {
    var wanted := if w.status.Paused? then HorizonPaused else HorizonWaiting;
    var reason := if w.status.WaitingApproval? then ApprovalPending else if w.status.Paused? then ExecutionPaused
        else UserPending;
    if w.h.status != wanted || w.h.reason.NoReason? then
      (Save(w.(h := w.h.(status := wanted, reason := if w.h.reason.NoReason? then reason else w.h.reason)), WaitNoted),
       Reported(wanted, Waiting))
    else (w, Reported(w.h.status, Waiting))
  }

  ghost function Work(w: World, a: Answers): (World, Outcome)
    requires w.plans != []
  {
    if !Unprocessed(w) then
      if w.h.stepsPlanned >= w.spec.budget.maxSteps then PauseForBudget(w) else PlanNext(w, a)
    else if Ready(w) != [] then RunStep(w, Ready(w)[0], a.step)
    else FinishSegment(w, a)
  }

  ghost function AdvanceTask(w: World, a: Answers): (World, Outcome)
    requires w.plans != []
  {
    if w.status.Terminal() || HorizonOver(w.h.status) then (w, Reported(w.h.status, Terminal))
    else
      var r := ResolveWait(w);
      if TaskWaits(r.status) then NoteWait(r)
      else if r.h.status.HorizonPaused? || r.h.awaiting then (r, Reported(r.h.status, Waiting))
      else if a.deadlinePassed || TokensExhausted(r.spec.budget, r.h.usage) then PauseForBudget(r)
      else Work(r, a)
  }

  function FailWaitingSteps(row: PlanRow): PlanRow {
    row.(statuses := map id | id in row.statuses :: if row.statuses[id].StepWaitingUser? then StepFailed
        else row.statuses[id])
  }

  function ResumeTask(w: World): (World, Outcome)
    requires w.plans != []
  {
    if w.status !in {WaitingUser, Paused, ReadyToRun, Running} then (w, OperationError)
    else
      var w1 :=
        match w.status
        case WaitingUser => (if w.h.awaiting then w else WithRow(w, FailWaitingSteps(Latest(w)))).(status := Running)
        case Paused =>
          var h := if w.h.hasFailure && HasFailedStep(Latest(w)) then w.h.(lastProcessed := Some(|w.plans| - 1))
              else w.h;
          w.(h := h, status := ReadyToRun)
        case _ => w;
      (Save(w1.(h := w1.h.(status := HorizonActive, awaiting := false, reason := NoReason)), Resumed), Accepted)
  }

  function CancelTask(w: World): (World, Outcome) {
    if !w.status.Terminal() && !TaskTable.CanTransition(w.status, Cancelled) then (w, OperationError)
    else
      var status := if w.status.Terminal() then w.status else Cancelled;
      (Save(w.(status := status, h := w.h.(status := HorizonCancelled)), StateCancelled), Accepted)
  }

  /** The step an approval names waits for it in the latest plan. */
  predicate AwaitsApproval(w: World, id: string)
    requires w.plans != []
  {
    w.status.WaitingApproval? && PlanValidation.StatusIs(Latest(w).statuses, id, StepWaitingApproval)
  }

  function ApproveWriteStep(w: World, id: string, reply: WriteReply): (World, Outcome)
    requires w.plans != []
  {
    if !AwaitsApproval(w, id) || !IsWriteStep(Latest(w).plan.steps, id) then (w, OperationError)
    else match reply
      case ProposalRefused => (w, OperationError)
      case WriteFailed => (WithStep(w, id, StepFailed).(status := Failed), OperationError)
      case Written(verification) =>
        (Verify(WithStep(w, id, StepCompleted).(status := Verifying), verification),
         if verification.Unavailable? then OperationError else Accepted)
  }

  function ApproveCommandStep(w: World, id: string, reply: CommandReply): (World, Outcome)
    requires w.plans != []
  {
    if !AwaitsApproval(w, id) || !IsCommandStep(Latest(w).plan.steps, id) then (w, OperationError)
    else match reply
      case CommandRefused => (w, OperationError)
      case CommandFailed => (WithStep(w, id, StepFailed).(status := Failed), OperationError)
      case CommandSucceeded =>
        (WithEvidence(WithStep(w, id, StepCompleted), COMMAND_RESULT).(status := Running), Accepted)
  }

  function RecoverTask(w: World): (World, Outcome) {
    if w.status.Running? then (w.(status := Paused), Accepted) else (w, OperationError)
  }

  ghost function Perform(w: World, op: Operation): (World, Outcome)
    requires w.plans != []
  {
    match op
    case Advance(answers) => AdvanceTask(w, answers)
    case Resume => ResumeTask(w)
    case Cancel => CancelTask(w)
    case ApproveWrite(id, reply) => ApproveWriteStep(w, id, reply)
    case ApproveCommand(id, reply) => ApproveCommandStep(w, id, reply)
    case Recover => RecoverTask(w)
  }

  // Creation.

  const DEFAULT_CRITERION := Criterion("long-horizon-report", EvidenceExists, "AGENT_REPORT")

  /** `suffix` is the random part of the new task's id. */
  datatype Request = Request(
    suffix: string, mode: PermissionMode, budget: Budget, policy: Option<CheckpointPolicy>, criteria: seq<Criterion>,
    deploymentEnabled: bool, window: int, named: bool)

  function BudgetOf(b: Budget): Budget {
    b.(maxSteps := if b.maxSteps == 0 then 40 else b.maxSteps,
       maxReplans := if b.maxReplans == 0 then 4 else b.maxReplans,
       maxSegmentSteps := if b.maxSegmentSteps == 0 then 4 else b.maxSegmentSteps)
  }

  predicate WithinLimits(b: Budget) {
    1 <= b.maxSteps <= 40 && 0 <= b.maxReplans <= 4 && 1 <= b.maxSegmentSteps <= 4
  }

  function SpecOf(r: Request): TaskSpec {
    TaskSpec("tsk_" + r.suffix, r.mode, BudgetOf(r.budget),
             if r.policy.None? then KeyStages else r.policy.value,
             if r.criteria == [] then [DEFAULT_CRITERION] else r.criteria)
  }

  const FRESH_HORIZON := Horizon(HorizonActive, 0, 0, 0, 0, 0, 0, 0, false, None, false, NoReason, Usage(0, 0))

  function CreateTask(r: Request, initial: PlanVersion): Option<World> {
    if r.mode in {DevelopmentMode, UnknownMode} || !r.deploymentEnabled || r.window < 8192 || !r.named
        || !WithinLimits(BudgetOf(r.budget)) then None
    else
      var statuses := map id | id in PlanValidation.GraphOf(initial.steps) :: StepPending;
      var first := PlanRow(initial, false, Discover, 0, false, statuses);
      Some(World(SpecOf(r), ReadyToRun, FRESH_HORIZON, [first], [], [], [Saved(Created, 0)]))
  }
}
