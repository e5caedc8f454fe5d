/** What one operation on a long-horizon task reports and settles. A step run leaves the task running or waiting and its
    horizon active; neither planning a segment nor closing one reports an executed step. Nothing leaves a terminal
    status. A task is completed by an Advance only when its last stage closes, by an accepted write approval, which
    settles it short of that stage, and by nothing else: no step run, no planning, no command approval, no resume, no
    cancellation and no recovery. These are the steps of the inductions over runs. */
module HorizonOutcomes {
  import opened Contracts
  import opened Acceptance
  import Segment
  import opened HorizonModel
  import opened HorizonInvariant

  lemma ExecutedStepLeavesTheTaskOpen(w: World, a: Answers)
    requires Inv(w) && AdvanceTask(w, a).1.Reported? && AdvanceTask(w, a).1.action.StepExecuted?
    ensures AdvanceTask(w, a).0.status in {Running, WaitingUser, WaitingApproval}
    ensures AdvanceTask(w, a).0.h.status.HorizonActive? && AdvanceTask(w, a).1 == Reported(HorizonActive, StepExecuted)
  {
    hide Budgeted, KeepsPolicy, NeverRepeats, StagesInOrder, Checkpointed, CompletedOnlyByReport, Ready, PlanNext,
         FinishSegment, RecordProgress, AfterWorker, Quiet;
    var r := ResolveWait(w);
    PlanningExecutesNothing(r, a);
    FinishExecutesNothing(r, a);
    ReadyIsOpen(r);
    var id := Ready(r)[0];
    assert MayRun(r, id);
    match a.step
    case AsksUser(usage) => ProgressIsQuiet(r, id, StepWaitingUser, WaitingUser, usage);
    case ProposesChange(usage) => ProgressIsQuiet(r, id, StepWaitingApproval, WaitingApproval, usage);
    case Succeeds(usage) => ProgressIsQuiet(r, id, StepCompleted, Running, usage);
    case _ =>
  }

  lemma PlanningExecutesNothing(w: World, a: Answers)
    requires w.plans != []
    ensures PlanNext(w, a).1.Reported? ==> !PlanNext(w, a).1.action.StepExecuted?
  {
    hide Planned, Segment.PlanOf, Novel, PermissionHolds, InputFor, FreshRow;
  }

  lemma FinishExecutesNothing(w: World, a: Answers)
    requires w.plans != []
    ensures FinishSegment(w, a).1.Reported? ==> !FinishSegment(w, a).1.action.StepExecuted?
  {
    hide AllCompleted, ReportOf;
  }

  lemma TerminalStays(w: World, op: Operation)
    requires Inv(w) && w.status.Terminal()
    ensures Perform(w, op).0.status == w.status && Perform(w, op).0.h.stageIndex == w.h.stageIndex
    ensures op.ApproveWrite? ==> !Perform(w, op).1.Accepted?
  {
    hide Budgeted, KeepsPolicy, NeverRepeats, Checkpointed, CompletedOnlyByReport, IsWriteStep, IsCommandStep,
         HasFailedStep, Verify;
  }

  lemma AcceptedWriteSettles(w: World, id: string, reply: WriteReply)
    requires Inv(w) && ApproveWriteStep(w, id, reply).1.Accepted?
    ensures ApproveWriteStep(w, id, reply).0.status in {Completed, Failed}
    ensures ApproveWriteStep(w, id, reply).0.h.stageIndex < 5
  {
    hide Budgeted, KeepsPolicy, NeverRepeats, Checkpointed, CompletedOnlyByReport, IsWriteStep, ReportOf;
  }

  /** An Advance completes a task only by closing its last stage. */
  lemma AdvanceCompletesByClosing(w: World, a: Answers)
    requires Inv(w) && !w.status.Completed? && AdvanceTask(w, a).0.status.Completed?
    ensures AdvanceTask(w, a).0.h.stageIndex == 5
  {
    hide Budgeted, KeepsPolicy, NeverRepeats, Checkpointed, CompletedOnlyByReport, Ready,
         PlanNext, RunStep, FinishSegment, StageClosedIn;
    var r := ResolveWait(w);
    PlanningCompletesNothing(r, a);
    if Ready(r) != [] { StepCompletesNothing(r, Ready(r)[0], a.step); }
    FinishCompletesByClosing(r, a);
  }

  lemma PlanningCompletesNothing(w: World, a: Answers)
    requires w.plans != [] && !w.status.Completed?
    ensures !PlanNext(w, a).0.status.Completed?
  {
    hide Planned, Segment.PlanOf, Novel, PermissionHolds, InputFor, FreshRow;
  }

  /** Executed, failed or refused: a step run settles neither the task nor its horizon. */
  lemma StepCompletesNothing(w: World, id: string, reply: StepReply)
    requires w.plans != [] && !w.status.Completed?
    ensures !RunStep(w, id, reply).0.status.Completed?
    ensures !w.h.status.HorizonCompleted? ==> !RunStep(w, id, reply).0.h.status.HorizonCompleted?
  {
    hide CompletedSteps, MayRun;
  }

  lemma FinishCompletesByClosing(w: World, a: Answers)
    requires w.plans != [] && !w.status.Completed?
    ensures FinishSegment(w, a).0.status.Completed? && w.h.stageIndex <= 4 ==> FinishSegment(w, a).0.h.stageIndex == 5
    ensures FinishSegment(w, a).0.status.Completed? ==> FinishSegment(w, a).0.h.stageIndex >= 5
  {
    hide AllCompleted, ReportOf;
  }

  lemma OtherOperationsCompleteNothing(w: World, op: Operation)
    requires Inv(w) && !w.status.Completed? && !op.Advance? && !(op.ApproveWrite? && Perform(w, op).1.Accepted?)
    ensures !Perform(w, op).0.status.Completed?
  {
    hide Budgeted, KeepsPolicy, NeverRepeats, StagesInOrder, Checkpointed, CompletedOnlyByReport, IsWriteStep,
         IsCommandStep, HasFailedStep, ReportOf;
  }
}
