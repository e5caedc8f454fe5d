/** What each operation uses up. The measure counts three reports for each step the budget still allows, the open
    steps of the segment that is not processed yet, and one more for closing that segment. No operation raises it, and
    every Advance that reports ACTIVE lowers it; planning pays for the steps it adds, running a step and closing a
    segment use up what is left. Likewise no operation gives back a replan,
    and each cycle that fails or is replaced uses one. */
module HorizonMeasure {
  import opened Contracts
  import Strings
  import opened PlanValidation
  import opened Segment
  import Acceptance
  import opened HorizonModel
  import opened HorizonInvariant
  import HorizonRuns

  // A measure that no operation raises.

  function CountOpen(steps: seq<StepSpec>, statuses: Statuses): (n: nat)
    ensures n <= |steps|
  {
    if steps == [] then 0
    else CountOpen(steps[..|steps| - 1], statuses) + if Open(statuses, steps[|steps| - 1].stepId) then 1 else 0
  }

  lemma {:induction false} FewerOpen(steps: seq<StepSpec>, before: Statuses, later: Statuses)
    requires forall id :: Open(later, id) ==> Open(before, id)
    ensures CountOpen(steps, later) <= CountOpen(steps, before)
    ensures (exists i :: 0 <= i < |steps| && Open(before, steps[i].stepId) && !Open(later, steps[i].stepId)) ==>
      CountOpen(steps, later) < CountOpen(steps, before)
  {
    if steps != [] {
      var init := steps[..|steps| - 1];
      FewerOpen(init, before, later);
      if i :| 0 <= i < |steps| && Open(before, steps[i].stepId) && !Open(later, steps[i].stepId) {
        if i < |init| { assert init[i] == steps[i]; }
      }
    }
  }

  /** What is left to report: three reports for each step the budget still allows, and the open steps
      of the current segment with its closing. */
  function Measure(w: World): int {
    3 * (w.spec.budget.maxSteps - w.h.stepsPlanned)
    + if Unprocessed(w) then 1 + CountOpen(Latest(w).plan.steps, Latest(w).statuses) else 0
  }

  predicate ReportsActive(o: Outcome) {
    o.Reported? && o.status.HorizonActive? && !o.action.Terminal?
  }

  function Charge(o: Outcome): nat {
    if ReportsActive(o) then 1 else 0
  }

  lemma QuietNeverRaises(w: World, v: World)
    requires Quiet(w, v)
    ensures Measure(v) <= Measure(w)
    ensures Unprocessed(w) && v.h.lastProcessed == Strings.Some(|v.plans| - 1) ==> Measure(v) < Measure(w)
  {
    hide HasPassingReport, SavesAdded;
    assert MovedOn(Latest(w), Latest(v));
    FewerOpen(Latest(w).plan.steps, Latest(w).statuses, Latest(v).statuses);
  }

  lemma FailureProcesses(w: World, exhausted: bool)
    requires w.plans != []
    ensures RecordFailure(w, exhausted).0.h.lastProcessed == Strings.Some(|w.plans| - 1)
    ensures RecordFailure(w, exhausted).0.plans == w.plans
    ensures !exhausted ==> !ReportsActive(RecordFailure(w, exhausted).1)
  {
  }

  lemma StepLowers(w: World, v: World, id: string, status: StepStatus)
    requires Unprocessed(w) && Open(Latest(w).statuses, id) && status !in {StepPending, StepReady}
    requires exists i :: 0 <= i < |Latest(w).plan.steps| && Latest(w).plan.steps[i].stepId == id
    requires v.spec == w.spec && v.plans == WithStep(w, id, status).plans
    requires v.h.stepsPlanned == w.h.stepsPlanned && v.h.lastProcessed == w.h.lastProcessed
    ensures Measure(v) < Measure(w)
  {
    FewerOpen(Latest(w).plan.steps, Latest(w).statuses, Latest(v).statuses);
  }

  lemma RunStepLowers(w: World, id: string, reply: StepReply)
    requires Shape(w) && !w.h.awaiting && Unprocessed(w) && Open(Latest(w).statuses, id)
    requires exists i :: 0 <= i < |Latest(w).plan.steps| && Latest(w).plan.steps[i].stepId == id
    ensures Measure(RunStep(w, id, reply).0) < Measure(w)
  {
    hide RecordFailure, RecordProgress, MayRun, Quiet, Measure;
    var v := RunStep(w, id, reply).0;
    RunStepIsQuiet(w, id, reply);
    if !MayRun(w, id) || reply.Refused? {
      FailureProcesses(w, false);
      QuietNeverRaises(w, v);
    } else {
      match reply
      case Fails(exhausted) =>
        FailureProcesses(AfterWorker(w, id, StepFailed, Paused), exhausted);
        QuietNeverRaises(w, v);
      case AsksUser(usage) =>
        ProgressIsQuiet(w, id, StepWaitingUser, WaitingUser, usage);
        ProgressLowers(w, id, StepWaitingUser, WaitingUser, usage);
      case ProposesChange(usage) =>
        ProgressIsQuiet(w, id, StepWaitingApproval, WaitingApproval, usage);
        ProgressLowers(w, id, StepWaitingApproval, WaitingApproval, usage);
      case Succeeds(usage) =>
        ProgressIsQuiet(w, id, StepCompleted, Running, usage); ProgressLowers(w, id, StepCompleted, Running, usage);
    }
  }

  lemma ProgressLowers(w: World, id: string, step: StepStatus, status: TaskStatus, usage: Usage)
    requires Unprocessed(w) && Open(Latest(w).statuses, id) && step !in {StepPending, StepReady}
    requires exists i :: 0 <= i < |Latest(w).plan.steps| && Latest(w).plan.steps[i].stepId == id
    ensures Measure(RecordProgress(AfterWorker(w, id, step, status), usage).0) < Measure(w)
  {
    hide CompletedSteps, Measure;
    StepLowers(w, RecordProgress(AfterWorker(w, id, step, status), usage).0, id, step);
  }

  lemma PersistLowers(w: World, plan: PlanVersion, terminal: bool)
    requires w.plans != [] && plan.steps != []
    requires !Unprocessed(w)
    ensures Measure(Persist(w, plan, terminal).0) < Measure(w)
  {
    var v := Persist(w, plan, terminal).0;
    assert CountOpen(Latest(v).plan.steps, Latest(v).statuses) <= |plan.steps|;
  }

  lemma UsageKeepsMeasure(w: World, usage: Usage)
    ensures Measure(w.(h := w.h.(usage := usage))) == Measure(w)
  {
    hide CountOpen;
  }

  lemma PlanningLowers(w: World, a: Answers)
    requires Inv(w) && !w.h.awaiting && !Unprocessed(w)
    ensures Measure(PlanNext(w, a).0) + Charge(PlanNext(w, a).1) <= Measure(w)
  {
    hide SegmentAccepted, PlanOf, Novel, RecordFailure, Persist, Planned, InputFor, PermissionHolds, Measure, Quiet,
         Budgeted, KeepsPolicy, NeverRepeats, StagesInOrder, Checkpointed, CompletedOnlyByReport;
    var (usage, candidate) := Planned(a.firstPlan, a.secondPlan, InputFor(w));
    var w1 := w.(h := w.h.(usage := Plus(w.h.usage, usage)));
    UsageKeepsMeasure(w, Plus(w.h.usage, usage));
    FailureIsQuiet(w, false);
    FailureProcesses(w, false);
    QuietNeverRaises(w, RecordFailure(w, false).0);
    FailureIsQuiet(w1, false);
    FailureProcesses(w1, false);
    QuietNeverRaises(w1, RecordFailure(w1, false).0);
    if candidate.Some? {
      var plan := PlanOf(candidate.value, InputFor(w));
      HorizonRuns.PlannedIsAccepted(w, a);
      AcceptedHasSteps(candidate.value, InputFor(w));
      PersistLowers(w1, plan, candidate.value.terminal);
    }
  }

  lemma AcceptedHasSteps(c: Candidate, input: SegmentInput)
    requires SegmentAccepted(c, input)
    ensures PlanOf(c, input).steps != []
  {
    hide ValidPlan;
  }

  lemma FinishLowers(w: World, a: Answers)
    requires Inv(w) && !w.h.awaiting && Unprocessed(w)
    ensures Measure(FinishSegment(w, a).0) + Charge(FinishSegment(w, a).1) <= Measure(w)
  {
    hide Budgeted, KeepsPolicy, NeverRepeats, StagesInOrder, Checkpointed, CompletedOnlyByReport, AllCompleted,
         RecordFailure, Quiet, Acceptance.ReportOf, CountOpen;
    FailureProcesses(w, false);
    FailureIsQuiet(w, false);
    QuietNeverRaises(w, RecordFailure(w, false).0);
  }

  lemma WorkLowers(w: World, a: Answers)
    requires Inv(w) && !w.h.awaiting
    ensures Measure(Work(w, a).0) + Charge(Work(w, a).1) <= Measure(w)
  {
    hide Budgeted, KeepsPolicy, NeverRepeats, StagesInOrder, Checkpointed, CompletedOnlyByReport, Ready,
         PlanNext, RunStep, FinishSegment, Quiet, Measure;
    if !Unprocessed(w) {
      BudgetPauseIsQuiet(w);
      QuietNeverRaises(w, PauseForBudget(w).0);
      PlanningLowers(w, a);
    } else if Ready(w) != [] {
      ReadyIsOpen(w);
      RunStepLowers(w, Ready(w)[0], a.step);
    } else {
      FinishLowers(w, a);
    }
  }

  /** Every Advance that reports ACTIVE uses up some of the measure, and no Advance raises it. */
  lemma AdvanceLowers(w: World, a: Answers)
    requires Inv(w)
    ensures Measure(AdvanceTask(w, a).0) + Charge(AdvanceTask(w, a).1) <= Measure(w)
  {
    hide Budgeted, KeepsPolicy, NeverRepeats, StagesInOrder, Checkpointed, CompletedOnlyByReport, Work, Quiet, Measure;
    if w.status.Terminal() || HorizonOver(w.h.status) { return; }
    var r := ResolveWait(w);
    WaitsAreQuiet(w);
    QuietNeverRaises(w, r);
    QuietKeepsInv(w, r);
    if TaskWaits(r.status) {
      WaitsAreQuiet(r);
      QuietNeverRaises(r, NoteWait(r).0);
    } else if !r.h.status.HorizonPaused? && !r.h.awaiting {
      BudgetPauseIsQuiet(r);
      QuietNeverRaises(r, PauseForBudget(r).0);
      WorkLowers(r, a);
    }
  }

  lemma OperationLowers(w: World, op: Operation)
    requires Inv(w)
    ensures Measure(Perform(w, op).0) + Charge(Perform(w, op).1) <= Measure(w)
  {
    hide AdvanceTask, ResumeTask, CancelTask, ApproveWriteStep, ApproveCommandStep, RecoverTask, Quiet, Measure,
         Budgeted, KeepsPolicy, NeverRepeats, StagesInOrder, Checkpointed, CompletedOnlyByReport;
    match op
    case Advance(answers) => AdvanceLowers(w, answers);
    case Resume => ResumeIsQuiet(w); OtherOperationsReportNothing(w, op); QuietNeverRaises(w, ResumeTask(w).0);
    case Cancel => CancelIsQuiet(w); OtherOperationsReportNothing(w, op); QuietNeverRaises(w, CancelTask(w).0);
    case ApproveWrite(id, reply) =>
      WriteApprovalIsQuiet(w, id, reply); OtherOperationsReportNothing(w, op);
      QuietNeverRaises(w, ApproveWriteStep(w, id, reply).0);
    case ApproveCommand(id, reply) =>
      CommandApprovalIsQuiet(w, id, reply); OtherOperationsReportNothing(w, op);
      QuietNeverRaises(w, ApproveCommandStep(w, id, reply).0);
    case Recover => RecoveryIsQuiet(w); OtherOperationsReportNothing(w, op); QuietNeverRaises(w, RecoverTask(w).0);
  }

  lemma OtherOperationsReportNothing(w: World, op: Operation)
    requires w.plans != [] && !op.Advance?
    ensures !Perform(w, op).1.Reported?
  {
    hide Verify, WithStep, IsWriteStep, IsCommandStep, HasFailedStep;
  }

  /** An Advance keeps the invariant and pays for what it reports. */
  lemma AdvancePromises(w: World, a: Answers)
    requires Inv(w)
    ensures w.plans != [] && Inv(AdvanceTask(w, a).0)
    ensures Measure(AdvanceTask(w, a).0) + Charge(AdvanceTask(w, a).1) <= Measure(w)
  {
    hide Budgeted, KeepsPolicy, NeverRepeats, StagesInOrder, Checkpointed, CompletedOnlyByReport, AdvanceTask, Measure;
    HorizonRuns.AdvanceKeepsInv(w, a);
    AdvanceLowers(w, a);
  }

  /** So does every other operation. */
  lemma OperationPromises(w: World, op: Operation)
    requires Inv(w) && !op.Advance?
    ensures w.plans != [] && Inv(Perform(w, op).0) && Measure(Perform(w, op).0) <= Measure(w)
  {
    hide Budgeted, KeepsPolicy, NeverRepeats, StagesInOrder, Checkpointed, CompletedOnlyByReport, Perform, Measure;
    HorizonRuns.OperationKeepsInv(w, op);
    OperationLowers(w, op);
  }

  // Replans.

  function ReplanCharge(o: Outcome): nat {
    if o == Reported(HorizonActive, Replan) then 1 else 0
  }

  /** A cycle that fails or whose segment is replaced. */
  function FailureCharge(o: Outcome): nat {
    if o.Reported? && o.action in {Replan, FailedPaused} then 1 else 0
  }

  /** The task stays the same one, its counter counts exactly the cycles that fail or are replaced, and a replacement
      that keeps it ACTIVE stays within the limit. */
  ghost predicate Counted(w: World, r: (World, Outcome)) {
    && r.0.spec == w.spec && r.0.plans != []
    && r.0.h.replansUsed == w.h.replansUsed + FailureCharge(r.1)
    && (ReplanCharge(r.1) == 1 ==> r.0.h.replansUsed <= w.spec.budget.maxReplans)
  }

  lemma FailureIsCounted(w: World, exhausted: bool)
    requires w.plans != []
    ensures Counted(w, RecordFailure(w, exhausted))
  {
  }

  lemma PlanningIsCounted(w: World, a: Answers)
    requires w.plans != []
    ensures Counted(w, PlanNext(w, a))
  {
    hide RecordFailure, Planned, PlanOf, Novel, PermissionHolds, InputFor, FreshRow;
    var w1 := w.(h := w.h.(usage := Plus(w.h.usage, Planned(a.firstPlan, a.secondPlan, InputFor(w)).0)));
    FailureIsCounted(w, false);
    FailureIsCounted(w1, false);
  }

  lemma RunStepIsCounted(w: World, id: string, reply: StepReply)
    requires w.plans != []
    ensures Counted(w, RunStep(w, id, reply))
  {
    hide RecordFailure, MayRun, CompletedSteps;
    FailureIsCounted(w, false);
    if reply.Fails? { FailureIsCounted(AfterWorker(w, id, StepFailed, Paused), reply.iterationsExhausted); }
  }

  lemma FinishIsCounted(w: World, a: Answers)
    requires w.plans != []
    ensures Counted(w, FinishSegment(w, a))
  {
    hide RecordFailure, AllCompleted, Acceptance.ReportOf;
    FailureIsCounted(w, false);
  }

  lemma AdvanceIsCounted(w: World, a: Answers)
    requires w.plans != []
    ensures Counted(w, AdvanceTask(w, a))
  {
    hide PlanNext, RunStep, FinishSegment, Ready;
    var r := ResolveWait(w);
    PlanningIsCounted(r, a);
    FinishIsCounted(r, a);
    if Ready(r) != [] { RunStepIsCounted(r, Ready(r)[0], a.step); }
  }

  lemma OperationIsCounted(w: World, op: Operation)
    requires w.plans != []
    ensures Counted(w, Perform(w, op))
  {
    hide AdvanceTask, Acceptance.ReportOf, HasFailedStep, IsWriteStep, IsCommandStep, FailWaitingSteps;
    if op.Advance? { AdvanceIsCounted(w, op.answers); }
  }

  /** Nothing is counted here until a Resume is accepted: the horizon does not move on by itself, and no wait of the
      task can set it going again. */
  ghost predicate Halted(w: World) {
    && w.plans != [] && w.h.status in {HorizonPaused, HorizonBlocked, HorizonCancelled, HorizonCompleted}
    && w.status !in {WaitingUser, WaitingApproval}
  }

  predicate IsResume(op: Operation, o: Outcome) {
    op.Resume? && o.Accepted?
  }

  lemma HaltedStays(w: World, op: Operation)
    requires Halted(w)
    ensures FailureCharge(Perform(w, op).1) == 0
    ensures !IsResume(op, Perform(w, op).1) ==> Halted(Perform(w, op).0)
  {
    hide Work, IsWriteStep, IsCommandStep, HasFailedStep, FailWaitingSteps;
  }

  /** A counted cycle that uses more than the limit halts the task. */
  ghost predicate HaltsPastLimit(w: World, r: (World, Outcome)) {
    FailureCharge(r.1) == 1 && r.0.h.replansUsed > w.spec.budget.maxReplans ==> Halted(r.0)
  }

  lemma FailureHalts(w: World, exhausted: bool)
    requires w.plans != [] && !TaskWaits(w.status)
    ensures HaltsPastLimit(w, RecordFailure(w, exhausted))
  {
  }

  lemma PlanningHalts(w: World, a: Answers)
    requires w.plans != [] && !TaskWaits(w.status)
    ensures HaltsPastLimit(w, PlanNext(w, a))
  {
    hide RecordFailure, Planned, PlanOf, Novel, PermissionHolds, InputFor, FreshRow;
    var w1 := w.(h := w.h.(usage := Plus(w.h.usage, Planned(a.firstPlan, a.secondPlan, InputFor(w)).0)));
    FailureHalts(w, false);
    FailureHalts(w1, false);
  }

  lemma RunStepHalts(w: World, id: string, reply: StepReply)
    requires w.plans != [] && !TaskWaits(w.status)
    ensures HaltsPastLimit(w, RunStep(w, id, reply))
  {
    hide MayRun, CompletedSteps;
  }

  lemma FinishHalts(w: World, a: Answers)
    requires w.plans != [] && !TaskWaits(w.status)
    ensures HaltsPastLimit(w, FinishSegment(w, a))
  {
    hide RecordFailure, AllCompleted, Acceptance.ReportOf;
    FailureHalts(w, false);
  }

  lemma OperationHalts(w: World, op: Operation)
    requires w.plans != []
    ensures HaltsPastLimit(w, Perform(w, op))
  {
    hide PlanNext, RunStep, FinishSegment, Ready, Acceptance.ReportOf, HasFailedStep, IsWriteStep, IsCommandStep,
         FailWaitingSteps, TokensExhausted;
    if op.Advance? && !TaskWaits(w.status) {
      var r, a := ResolveWait(w), op.answers;
      PlanningHalts(r, a);
      FinishHalts(r, a);
      if Ready(r) != [] { RunStepHalts(r, Ready(r)[0], a.step); }
    }
  }

  /** What the counter may have used after `resumes` accepted resumes. */
  ghost predicate WithinResumes(w: World, resumes: nat) {
    && w.plans != [] && w.h.replansUsed <= w.spec.budget.maxReplans + resumes + 1
    && (!Halted(w) ==> w.h.replansUsed <= w.spec.budget.maxReplans + resumes)
  }

  lemma OperationKeepsWithinResumes(w: World, op: Operation, resumes: nat)
    requires WithinResumes(w, resumes)
    ensures WithinResumes(Perform(w, op).0, resumes + if IsResume(op, Perform(w, op).1) then 1 else 0)
  {
    hide Perform, Halted;
    OperationIsCounted(w, op);
    if Halted(w) { HaltedStays(w, op); }
    OperationHalts(w, op);
  }
}
