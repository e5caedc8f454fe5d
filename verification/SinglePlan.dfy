/** A task with one plan at a time and the operations that may complete it (internal/app/service.go, CreateTask,
    RunModelStep, RunTask, the two approvals, recovery, GeneratePlan and ReplanTask). */
module SinglePlan {
  import opened Contracts
  import opened PlanValidation
  import opened Acceptance

  /** What the model, the user gate and the verifier answer for one step. */
  datatype StepAnswer =
    | Refused                      // an error before the step starts
    | Interrupted                  // an error after it started; it stays RUNNING
    | AsksUser
    | ProposesChange
    | Fails
    | Succeeds(verification: Verification)   // the verification counts if it is reached

  datatype ReconAnswer = ReconFails | ReconSucceeds(verification: Verification)

  datatype RunError =
    | NotRunnable | NoExecutableStep | StepRefused | StepInterrupted | StepRunFailed
    | NotApprovable | ChangeFailed | NotVerified

  datatype Outcome = Ok | Err(error: RunError)

  datatype Single = Single(
    plan: PlanVersion, criteria: seq<Criterion>, status: TaskStatus, statuses: Statuses,
    evidence: seq<Evidence>, reports: seq<Report>)

  predicate AllTerminal(statuses: Statuses) {
    forall id :: id in statuses ==> statuses[id].Terminal()
  }

  function FreshStatuses(plan: PlanVersion): Statuses {
    map id | id in GraphOf(plan.steps) :: StepPending
  }

  // The operations.

  function WithStep(t: Single, id: string, step: StepStatus, status: TaskStatus): Single {
    t.(statuses := t.statuses[id := step], status := status)
  }

  function Reported(t: Single, e: Evidence): Single {
    t.(evidence := t.evidence + [e])
  }

  /** Verification of a running task that has nothing left to do. */
  function Settle(t: Single, verification: Verification): (Single, Outcome) {
    match verification
    case Unavailable => (t.(status := Verifying), Err(NotVerified))
    case Verified(passing) =>
      var report := ReportOf(t.criteria, t.evidence, passing);
      (t.(reports := t.reports + [report], status := if report.passed then Completed else Failed), Ok)
  }

  /** The last completed step sends its task through verification. */
  function CompleteStep(t: Single, id: string, verification: Verification): (Single, Outcome) {
    var u := WithStep(t, id, StepCompleted, Running);
    if AllTerminal(u.statuses) then Settle(u, verification) else (u, Ok)
  }

  function RunStep(t: Single, answer: StepAnswer): (Single, Outcome) {
    var ready := ReadySet(t.plan.steps, t.statuses);
    if t.status !in {ReadyToRun, Running} then (t, Err(NotRunnable))
    else if ready == [] then (t, Err(NoExecutableStep))
    else
      var id := ready[0];
      match answer
      case Refused => (t, Err(StepRefused))
      case Interrupted => (WithStep(t, id, StepRunning, Running), Err(StepInterrupted))
      case AsksUser => (WithStep(Reported(t, AGENT_REPORT), id, StepWaitingUser, WaitingUser), Ok)
      case ProposesChange => (WithStep(Reported(t, AGENT_REPORT), id, StepWaitingApproval, WaitingApproval), Ok)
      case Fails => (WithStep(Reported(t, AGENT_REPORT), id, StepFailed, Failed), Err(StepRunFailed))
      case Succeeds(verification) => CompleteStep(Reported(t, AGENT_REPORT), id, verification)
  }

  /** RunTask: one deterministic reconnaissance step, after which the task is verified at once. */
  function RunRecon(t: Single, answer: ReconAnswer): (Single, Outcome) {
    var ready := ReadySet(t.plan.steps, t.statuses);
    if !t.status.ReadyToRun? then (t, Err(NotRunnable))
    else if |ready| != 1 then (t, Err(NoExecutableStep))
    else if !StatusIs(t.statuses, ready[0], StepPending) then (t.(status := Running), Err(NotRunnable))
    else match answer
      case ReconFails => (WithStep(t, ready[0], StepRunning, Failed), Err(StepRunFailed))
      case ReconSucceeds(verification) =>
        Settle(WithStep(Reported(t, RECON_REPORT), ready[0], StepCompleted, Running), verification)
  }

  predicate AwaitsApproval(t: Single, id: string) {
    t.status.WaitingApproval? && StatusIs(t.statuses, id, StepWaitingApproval)
  }

  function ApproveWrite(t: Single, id: string, reply: WriteReply): (Single, Outcome) {
    if !AwaitsApproval(t, id) || !IsWriteStep(t.plan.steps, id) then (t, Err(NotApprovable))
    else match reply
      case ProposalRefused => (t, Err(NotApprovable))
      case WriteFailed => (WithStep(t, id, StepFailed, Failed), Err(ChangeFailed))
      case Written(verification) => Settle(WithStep(t, id, StepCompleted, Running), verification)
  }

  function ApproveCommand(t: Single, id: string, reply: CommandReply, verification: Verification): (Single, Outcome) {
    if !AwaitsApproval(t, id) || !IsCommandStep(t.plan.steps, id) then (t, Err(NotApprovable))
    else match reply
      case CommandRefused => (t, Err(NotApprovable))
      case CommandFailed => (WithStep(t, id, StepFailed, Failed), Err(ChangeFailed))
      case CommandSucceeded => CompleteStep(Reported(t, COMMAND_RESULT), id, verification)
  }

  function Recover(t: Single): (Single, Outcome) {
    if t.status.Running? then (t.(status := Paused), Ok) else (t, Err(NotRunnable))
  }

  /** A new plan revision; a local replan also makes a paused task ready again. A plan without steps does not pass the
      planner's validation. */
  function ReplacePlan(t: Single, plan: PlanVersion, replan: bool): (Single, Outcome) {
    if plan.steps == [] || (replan && !t.status.Paused?) then (t, Err(NotRunnable))
    else
      (t.(plan := plan, statuses := FreshStatuses(plan), status := if replan then ReadyToRun else t.status), Ok)
  }

  datatype Operation =
    | StepRun(answer: StepAnswer)
    | ReconRun(recon: ReconAnswer)
    | WriteApproval(stepId: string, write: WriteReply)
    | CommandApproval(stepId: string, command: CommandReply, verification: Verification)
    | Recovery
    | NewPlan(plan: PlanVersion, replan: bool)

  function Perform(t: Single, op: Operation): (Single, Outcome) {
    match op
    case StepRun(answer) => RunStep(t, answer)
    case ReconRun(answer) => RunRecon(t, answer)
    case WriteApproval(id, reply) => ApproveWrite(t, id, reply)
    case CommandApproval(id, reply, verification) => ApproveCommand(t, id, reply, verification)
    case Recovery => Recover(t)
    case NewPlan(plan, replan) => ReplacePlan(t, plan, replan)
  }

  const DEFAULT_CRITERION := Criterion("ac_evidence", EvidenceExists, "RECON_REPORT")

  function Create(plan: PlanVersion, criteria: seq<Criterion>): Single {
    Single(plan, if criteria == [] then [DEFAULT_CRITERION] else criteria, ReadyToRun, FreshStatuses(plan), [], [])
  }

  // Every completed task was accepted.

  ghost predicate CompletedByReport(t: Single) {
    t.status.Completed? ==> PassedBy(t.reports, t.criteria, t.evidence)
  }

  /** Evidence and reports are only added, and completion comes with a passing report. */
  ghost predicate Accepts(t: Single, u: Single) {
    && u.criteria == t.criteria && t.evidence <= u.evidence && t.reports <= u.reports
    && (u.status.Completed? ==> t.status.Completed? || PassedBy(u.reports, u.criteria, u.evidence))
  }

  lemma SettleAccepts(t: Single, verification: Verification)
    ensures Accepts(t, Settle(t, verification).0)
  {
    hide ReportOf, PassedBy;
    if verification.Verified? && ReportOf(t.criteria, t.evidence, verification.passing).passed {
      NewReportPasses(t.reports, t.criteria, t.evidence, verification.passing);
    }
  }

  lemma SettlingAfter(t: Single, u: Single, verification: Verification)
    requires u.criteria == t.criteria && t.evidence <= u.evidence && u.reports == t.reports && !u.status.Completed?
    ensures Accepts(t, Settle(u, verification).0)
  {
    hide Settle, PassedBy;
    SettleAccepts(u, verification);
  }

  lemma OperationAccepts(t: Single, op: Operation)
    ensures Accepts(t, Perform(t, op).0)
  {
    hide Settle, PassedBy, ReadySet, AllTerminal, IsWriteStep, IsCommandStep, FreshStatuses;
    var ready := ReadySet(t.plan.steps, t.statuses);
    match op
    case StepRun(answer) =>
      if ready != [] && answer.Succeeds? {
        SettlingAfter(t, WithStep(Reported(t, AGENT_REPORT), ready[0], StepCompleted, Running), answer.verification);
      }
    case ReconRun(answer) =>
      if ready != [] && answer.ReconSucceeds? {
        SettlingAfter(t, WithStep(Reported(t, RECON_REPORT), ready[0], StepCompleted, Running), answer.verification);
      }
    case WriteApproval(id, reply) =>
      if reply.Written? { SettlingAfter(t, WithStep(t, id, StepCompleted, Running), reply.verification); }
    case CommandApproval(id, reply, verification) =>
      SettlingAfter(t, WithStep(Reported(t, COMMAND_RESULT), id, StepCompleted, Running), verification);
    case _ =>
  }

  /** The states before, between and after a sequence of operations on a task. */
  datatype Run = Run(states: seq<Single>, ops: seq<Operation>)

  ghost predicate IsStep(run: Run, i: nat) {
    i + 1 < |run.states| && i < |run.ops| && run.states[i + 1] == Perform(run.states[i], run.ops[i]).0
  }

  ghost predicate IsCreated(t: Single) {
    exists plan, criteria :: t == Create(plan, criteria)
  }

  ghost predicate IsRun(run: Run) {
    && |run.states| == |run.ops| + 1 && IsCreated(run.states[0])
    && forall i :: 0 <= i < |run.ops| ==> IsStep(run, i)
  }

  lemma {:induction false} RunIsAccepted(run: Run, n: nat)
    requires IsRun(run) && n <= |run.ops|
    ensures CompletedByReport(run.states[n])
  {
    hide Perform, PassedBy;
    if n > 0 {
      RunIsAccepted(run, n - 1);
      assert IsStep(run, n - 1);
      var t, u := run.states[n - 1], run.states[n];
      OperationAccepts(t, run.ops[n - 1]);
      if t.status.Completed? && u.status.Completed? {
        PassedStays(t.reports, t.criteria, t.evidence, u.reports, u.evidence);
      }
    }
  }

  /** Whichever operation completed it: a completed task has criteria and a persisted passing report that justifies
      it by evidence it still has. */
  lemma CompletedTasksWereAccepted(run: Run, n: nat)
    requires IsRun(run) && n <= |run.ops| && run.states[n].status.Completed?
    ensures Justified(run.states[n].reports, run.states[n].criteria, run.states[n].evidence)
  {
    var t := run.states[n];
    hide IsRun, PassedBy, Justified;
    RunIsAccepted(run, n);
    PassedIsJustified(t.reports, t.criteria, t.evidence);
  }

  // Which completed tasks have finished their plan.

  predicate OthersOpen(t: Single, id: string) {
    exists other :: other in t.statuses && other != id && !t.statuses[other].Terminal()
  }

  /** RunTask and a write approval complete the task beside open steps, and a new plan brings new ones. */
  predicate LeavesOpen(t: Single, op: Operation) {
    match op
    case ReconRun(_) =>
      var ready := ReadySet(t.plan.steps, t.statuses);
      ready != [] && OthersOpen(t, ready[0])
    case WriteApproval(id, _) => OthersOpen(t, id)
    case NewPlan(_, _) => true
    case _ => false
  }

  /** An accepted operation after which the task is completed and has an open step. */
  ghost predicate LeftOpen(run: Run, i: nat) {
    && i < |run.ops| && i + 1 < |run.states| && run.states[i + 1].status.Completed?
    && Perform(run.states[i], run.ops[i]).1.Ok? && LeavesOpen(run.states[i], run.ops[i])
  }

  lemma FreshPlanIsOpen(plan: PlanVersion)
    requires plan.steps != []
    ensures !AllTerminal(FreshStatuses(plan))
  {
    GraphKeys(plan.steps);
    assert plan.steps[0].stepId in FreshStatuses(plan);
  }

  lemma LastStepDecides(statuses: Statuses, id: string)
    ensures AllTerminal(statuses[id := StepCompleted]) <==>
      !exists other :: other in statuses && other != id && !statuses[other].Terminal()
  {
    var done := statuses[id := StepCompleted];
    if other :| other in statuses && other != id && !statuses[other].Terminal() {
      assert other in done && !done[other].Terminal();
    }
  }

  /** What an operation that completes a task leaves open. */
  lemma CompletionLeavesOpenIff(t: Single, op: Operation)
    requires !t.status.Completed? && Perform(t, op).0.status.Completed?
    ensures Perform(t, op).1.Ok? && (AllTerminal(Perform(t, op).0.statuses) <==> !LeavesOpen(t, op))
  {
    hide ReportOf, ReadySet, AllTerminal, IsWriteStep, IsCommandStep, FreshStatuses;
    var ready := ReadySet(t.plan.steps, t.statuses);
    match op
    case ReconRun(_) => LastStepDecides(t.statuses, ready[0]);
    case WriteApproval(id, _) => LastStepDecides(t.statuses, id);
    case _ =>
  }

  /** A completed task stays completed, and only a new plan changes it. */
  lemma CompletedStays(t: Single, op: Operation)
    requires t.status.Completed?
    ensures Perform(t, op).0.status.Completed?
    ensures Perform(t, op).1.Ok? ==> op.NewPlan? && !AllTerminal(Perform(t, op).0.statuses)
    ensures !Perform(t, op).1.Ok? ==> Perform(t, op).0 == t
  {
    hide ReadySet, AllTerminal, IsWriteStep, IsCommandStep, FreshStatuses;
    if op.NewPlan? && op.plan.steps != [] { FreshPlanIsOpen(op.plan); }
  }

  lemma {:induction false} NotCompletedBefore(run: Run, i: nat, n: nat)
    requires IsRun(run) && i <= n <= |run.ops| && !run.states[n].status.Completed?
    ensures !run.states[i].status.Completed?
  {
    hide Perform, IsCreated;
    if i < n {
      assert IsStep(run, n - 1);
      if run.states[n - 1].status.Completed? { CompletedStays(run.states[n - 1], run.ops[n - 1]); }
      NotCompletedBefore(run, i, n - 1);
    }
  }

  /** In every run a completed task has no open step exactly when no operation completed it beside one and no new plan
      was stored after its completion. */
  lemma {:induction false} CompletedPlanIsDoneIff(run: Run, n: nat)
    requires IsRun(run) && n <= |run.ops| && run.states[n].status.Completed?
    ensures AllTerminal(run.states[n].statuses) <==> forall i: nat :: i < n ==> !LeftOpen(run, i)
  {
    hide Perform, IsCreated, AllTerminal, LeavesOpen;
    assert n > 0 by { CreatedIsNotCompleted(run); }
    assert IsStep(run, n - 1);
    var t, op := run.states[n - 1], run.ops[n - 1];
    if t.status.Completed? {
      CompletedPlanIsDoneIff(run, n - 1);
      CompletedStays(t, op);
      NewPlansLeaveOpen(t, op);
    } else {
      CompletionLeavesOpenIff(t, op);
      forall i: nat | i < n - 1 ensures !LeftOpen(run, i) { NotCompletedBefore(run, i + 1, n - 1); }
    }
    assert AllTerminal(run.states[n].statuses) <==>
      !LeftOpen(run, n - 1) && forall i: nat :: i < n - 1 ==> !LeftOpen(run, i);
  }

  lemma NewPlansLeaveOpen(t: Single, op: Operation)
    ensures op.NewPlan? ==> LeavesOpen(t, op)
  {
  }

  lemma CreatedIsNotCompleted(run: Run)
    requires IsRun(run)
    ensures !run.states[0].status.Completed?
  {
  }
}
