/** What each operation on a task without a horizon leaves behind (internal/app/service.go: RunTask, RunModelStep,
    completeModelStep, the two approvals, recovery and new plans). */
module PlanEffects {
  import opened Contracts
  import opened PlanValidation
  import opened Acceptance
  import opened SinglePlan

  /** The task with one step and its own status changed. */
  function Changed(t: Single, id: string, step: StepStatus, status: TaskStatus): Single {
    Single(t.plan, t.criteria, status, t.statuses[id := step], t.evidence, t.reports)
  }

  function WithNew(t: Single, e: Evidence): Single {
    Single(t.plan, t.criteria, t.status, t.statuses, t.evidence + [e], t.reports)
  }

  /** A verdict: the report is kept and decides between COMPLETED and FAILED; without one the task is left VERIFYING. */
  ghost predicate Judged(t: Single, verification: Verification, v: Single, o: Outcome) {
    match verification
    case Unavailable => v == t.(status := Verifying) && o == Err(NotVerified)
    case Verified(passing) =>
      var report := ReportOf(t.criteria, t.evidence, passing);
      && v.reports == t.reports + [report] && v.status == (if report.passed then Completed else Failed)
      && v == t.(reports := v.reports, status := v.status) && o == Ok
  }

  predicate IsOver(status: StepStatus) {
    status in {StepCompleted, StepFailed, StepBlocked, StepSkipped, StepSuperseded, StepCancelled}
  }

  /** With the step completed: judged if no step is left, running otherwise. */
  ghost predicate Finishes(t: Single, id: string, verification: Verification, v: Single, o: Outcome) {
    var done := Changed(t, id, StepCompleted, Running);
    if forall other :: other in t.statuses && other != id ==> IsOver(t.statuses[other]) then
      Judged(done, verification, v, o)
    else v == done && o == Ok
  }

  lemma SettlingJudges(t: Single, verification: Verification)
    ensures var (v, o) := Settle(t, verification); Judged(t, verification, v, o)
  {
    hide ReportOf;
  }

  lemma CompletingFinishes(t: Single, id: string, verification: Verification)
    ensures var (v, o) := CompleteStep(t, id, verification); Finishes(t, id, verification, v, o)
  {
    hide Settle, Judged;
    var u := WithStep(t, id, StepCompleted, Running);
    SettlingJudges(u, verification);
    if AllTerminal(u.statuses) {
      forall other | other in t.statuses && other != id ensures IsOver(t.statuses[other]) {
        assert u.statuses[other] == t.statuses[other];
      }
    }
  }

  /** A READY or RUNNING task runs the first step that is ready, and nothing happens without one. */
  lemma StepRunLeaves(t: Single, answer: StepAnswer)
    ensures var (v, o) := RunStep(t, answer);
      var ready := ReadySet(t.plan.steps, t.statuses);
      if t.status !in {ReadyToRun, Running} then v == t && o == Err(NotRunnable)
      else if ready == [] then v == t && o == Err(NoExecutableStep)
      else
        match answer
        case Refused => v == t && o == Err(StepRefused)
        case Interrupted => v == Changed(t, ready[0], StepRunning, Running) && o == Err(StepInterrupted)
        case AsksUser => v == Changed(WithNew(t, AGENT_REPORT), ready[0], StepWaitingUser, WaitingUser) && o == Ok
        case ProposesChange =>
          v == Changed(WithNew(t, AGENT_REPORT), ready[0], StepWaitingApproval, WaitingApproval) && o == Ok
        case Fails =>
          v == Changed(WithNew(t, AGENT_REPORT), ready[0], StepFailed, Failed) && o == Err(StepRunFailed)
        case Succeeds(verification) => Finishes(WithNew(t, AGENT_REPORT), ready[0], verification, v, o)
  {
    hide ReadySet, CompleteStep, Finishes;
    var ready := ReadySet(t.plan.steps, t.statuses);
    if ready != [] && answer.Succeeds? { CompletingFinishes(WithNew(t, AGENT_REPORT), ready[0], answer.verification); }
  }

  /** RunTask wants a READY task with exactly one ready step, which was not started before, and has the task judged
      right after it. */
  lemma ReconRunLeaves(t: Single, answer: ReconAnswer)
    ensures var (v, o) := RunRecon(t, answer);
      var ready := ReadySet(t.plan.steps, t.statuses);
      if t.status != ReadyToRun then v == t && o == Err(NotRunnable)
      else if |ready| != 1 then v == t && o == Err(NoExecutableStep)
      else if ready[0] !in t.statuses || t.statuses[ready[0]] != StepPending then
        v == t.(status := Running) && o == Err(NotRunnable)
      else
        match answer
        case ReconFails => v == Changed(t, ready[0], StepRunning, Failed) && o == Err(StepRunFailed)
        case ReconSucceeds(verification) =>
          Judged(Changed(WithNew(t, RECON_REPORT), ready[0], StepCompleted, Running), verification, v, o)
  {
    hide ReadySet, Settle, Judged;
    var ready := ReadySet(t.plan.steps, t.statuses);
    if |ready| == 1 && answer.ReconSucceeds? {
      SettlingJudges(Changed(WithNew(t, RECON_REPORT), ready[0], StepCompleted, Running), answer.verification);
    }
  }

  predicate Pending(t: Single, id: string) {
    t.status == WaitingApproval && id in t.statuses && t.statuses[id] == StepWaitingApproval
  }

  /** A write approval wants a step that waits for one and only writes; its success completes the step and has the task
      judged at once, its failure ends the task. */
  lemma WriteApprovalLeaves(t: Single, id: string, reply: WriteReply)
    ensures var (v, o) := ApproveWrite(t, id, reply);
      var writes := exists s :: s in t.plan.steps && s.stepId == id && s.risk == Write;
      if !Pending(t, id) || !writes || reply == ProposalRefused then v == t && o == Err(NotApprovable)
      else if reply == WriteFailed then v == Changed(t, id, StepFailed, Failed) && o == Err(ChangeFailed)
      else Judged(Changed(t, id, StepCompleted, Running), reply.verification, v, o)
  {
    hide Settle, Judged;
    if reply.Written? { SettlingJudges(Changed(t, id, StepCompleted, Running), reply.verification); }
  }

  /** A command approval wants a step that waits for one and may propose commands; its success leaves the result as
      evidence and completes the step. */
  lemma CommandApprovalLeaves(t: Single, id: string, reply: CommandReply, verification: Verification)
    ensures var (v, o) := ApproveCommand(t, id, reply, verification);
      var commands := exists i ::
        0 <= i < |t.plan.steps| && t.plan.steps[i].stepId == id
        && "propose_project_command" in t.plan.steps[i].allowedTools;
      if !Pending(t, id) || !commands || reply == CommandRefused then v == t && o == Err(NotApprovable)
      else if reply == CommandFailed then v == Changed(t, id, StepFailed, Failed) && o == Err(ChangeFailed)
      else Finishes(WithNew(t, COMMAND_RESULT), id, verification, v, o)
  {
    hide CompleteStep, Finishes;
    CompletingFinishes(WithNew(t, COMMAND_RESULT), id, verification);
  }

  /** Recovery pauses a RUNNING task; a new plan starts with all its steps waiting, and a replan wants a PAUSED task,
      which becomes READY. */
  lemma OtherOperationsLeave(t: Single, plan: PlanVersion, replan: bool)
    ensures Recover(t) == if t.status == Running then (t.(status := Paused), Ok) else (t, Err(NotRunnable))
    ensures var (v, o) := ReplacePlan(t, plan, replan);
      if plan.steps == [] || (replan && t.status != Paused) then v == t && o == Err(NotRunnable)
      else
        && o == Ok && v.plan == plan && v.statuses.Keys == GraphOf(plan.steps).Keys
        && (forall id :: id in v.statuses ==> v.statuses[id] == StepPending)
        && v.status == (if replan then ReadyToRun else t.status)
        && v == t.(plan := plan, statuses := v.statuses, status := v.status)
  {
    hide GraphOf;
  }

  /** A new task is READY with all steps waiting; without criteria it asks for a reconnaissance report. */
  lemma CreationLeaves(plan: PlanVersion, criteria: seq<Criterion>)
    ensures var t := Create(plan, criteria);
      && t.plan == plan && t.status == ReadyToRun && t.evidence == [] && t.reports == []
      && t.statuses.Keys == GraphOf(plan.steps).Keys
          && (forall id :: id in t.statuses ==> t.statuses[id] == StepPending)
      && (criteria != [] ==> t.criteria == criteria)
      && (criteria == [] ==>
           |t.criteria| == 1 && t.criteria[0].kindOfCheck == EvidenceExists && t.criteria[0].id != ""
           && t.criteria[0].evidenceKind == "RECON_REPORT")
  {
    hide GraphOf;
  }
}
