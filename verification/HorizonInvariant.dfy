/** What every operation on a long-horizon task keeps: the step budget, the policy of every persisted segment, that no
    work is planned twice in a stage, that stages close in order over completed terminal segments, that plans behind a
    checkpoint wait for a logged resume, and that a completed task has a passing report. A step from one state to the
    next is quiet if it adds no plan and closes no stage; quiet steps keep all of it, and running a step, resuming and
    the two approvals are quiet. */
module HorizonInvariant {
  import opened Contracts
  import Strings
  import opened PlanValidation
  import Segment
  import SegmentPolicy
  import Acceptance
  import opened HorizonModel

  // The invariant, part by part.

  ghost predicate Shape(w: World) {
    && w.plans != [] && !w.plans[0].horizon
    && (forall p :: 1 <= p < |w.plans| ==> w.plans[p].horizon)
    && (w.h.lastProcessed.Some? ==> w.h.lastProcessed.value < |w.plans|)
    && w.spec.mode != UnknownMode && 1 <= w.spec.budget.maxSteps
    && (w.h.awaiting ==> !w.h.status.HorizonActive?)
    && w.h.lastEvidenceCount <= |w.evidence|
    && w.h.reason !in {NoNewEvidence, AcceptanceFailed}
  }

  function StepsIn(plans: seq<PlanRow>): nat {
    if plans == [] then 0
    else
      var last := plans[|plans| - 1];
      StepsIn(plans[..|plans| - 1]) + if last.horizon then |last.plan.steps| else 0
  }

  /** Every planned step is paid for by the budget. */
  ghost predicate Budgeted(w: World) {
    w.h.stepsPlanned == StepsIn(w.plans) <= w.spec.budget.maxSteps
  }

  ghost predicate KeepsPolicy(w: World) {
    forall p :: 0 <= p < |w.plans| && w.plans[p].horizon ==>
        SegmentPolicy.SegmentKeepsPolicy(w.plans[p].plan, w.plans[p].stage, w.spec.mode)
  }

  /** No two segments of a stage contain the same work. */
  ghost predicate NeverRepeats(w: World) {
    forall p, q, i, j ::
      && 0 <= p < q < |w.plans| && w.plans[p].horizon && w.plans[q].horizon && w.plans[p].stage == w.plans[q].stage
      && 0 <= i < |w.plans[p].plan.steps| && 0 <= j < |w.plans[q].plan.steps|
      ==> Segment.KeyOf(w.plans[p].plan.steps[i]) != Segment.KeyOf(w.plans[q].plan.steps[j])
  }

  /** A persisted terminal segment of the stage with every step completed. */
  ghost predicate ClosedBy(row: PlanRow, stage: nat) {
    row.horizon && row.stage == StageAt(stage) && row.terminal && AllCompleted(row)
  }

  ghost predicate StageClosedIn(plans: seq<PlanRow>, stage: nat) {
    exists p :: 0 <= p < |plans| && ClosedBy(plans[p], stage)
  }

  ghost predicate StagesInOrder(w: World) {
    && w.h.stageIndex <= 5
    && (forall k :: 0 <= k < w.h.stageIndex ==> StageClosedIn(w.plans, k))
    && (Unprocessed(w) ==> w.h.stageIndex < 5 && Latest(w).stage == StageAt(w.h.stageIndex))
    && (w.h.stageIndex == 5 ==> w.status in {Completed, Failed})
    && (w.h.status.HorizonCompleted? ==> w.h.stageIndex == 5 && w.status.Completed?)
  }

  ghost predicate AdvancedTo(log: seq<LogEvent>, stage: nat) {
    exists a :: 0 <= a < |log| && log[a] == Saved(StageAdvanced, stage)
  }

  /** The stage before `stage` was closed and a Resume followed. */
  ghost predicate ApprovedInLog(log: seq<LogEvent>, stage: nat) {
    exists a, b :: 0 <= a < b < |log| && log[a] == Saved(StageAdvanced, stage) && log[b] == Saved(Resumed, stage)
  }

  predicate NeedsApproval(policy: CheckpointPolicy, stage: nat) {
    1 <= stage < 5 && RequiresCheckpoint(policy, StageAt(stage - 1))
  }

  ghost predicate PlannedAfterApproval(w: World) {
    forall p :: 0 <= p < |w.log| && w.log[p].SegmentPlanned? && NeedsApproval(w.spec.policy, w.log[p].stage) ==>
      ApprovedInLog(w.log[..p], w.log[p].stage)
  }

  ghost predicate EveryPlanIsLogged(w: World) {
    forall r :: 0 <= r < |w.plans| && w.plans[r].horizon ==>
      exists p :: 0 <= p < |w.log| && w.log[p].SegmentPlanned? && w.log[p].plan == r
          && StageAt(w.log[p].stage) == w.plans[r].stage && w.log[p].stage < 5
  }

  ghost predicate Checkpointed(w: World) {
    && (w.h.awaiting ==> AdvancedTo(w.log, w.h.stageIndex))
    && (NeedsApproval(w.spec.policy, w.h.stageIndex) && !w.h.awaiting ==> ApprovedInLog(w.log, w.h.stageIndex))
    && PlannedAfterApproval(w)
    && EveryPlanIsLogged(w)
  }

  /** A persisted passing report over evidence the task still has. */
  ghost predicate HasPassingReport(w: World) {
    Acceptance.PassedBy(w.reports, w.spec.criteria, w.evidence)
  }

  ghost predicate CompletedOnlyByReport(w: World) {
    w.status.Completed? ==> HasPassingReport(w)
  }

  ghost predicate Inv(w: World) {
    && Shape(w) && Budgeted(w) && KeepsPolicy(w) && NeverRepeats(w) && StagesInOrder(w) && Checkpointed(w)
    && CompletedOnlyByReport(w)
  }

  // Steps that add no plan and close no stage.

  /** A row whose steps moved on: completed steps stay completed and no step opens again. */
  ghost predicate MovedOn(a: PlanRow, b: PlanRow) {
    && b == a.(statuses := b.statuses)
    && (forall id :: StatusIs(a.statuses, id, StepCompleted) ==> StatusIs(b.statuses, id, StepCompleted))
    && (forall id :: Open(b.statuses, id) ==> Open(a.statuses, id))
  }

  ghost predicate RowsMoveOn(a: seq<PlanRow>, b: seq<PlanRow>) {
    |a| == |b| && forall p :: 0 <= p < |a| ==> MovedOn(a[p], b[p])
  }

  /** The log grew by saves only. */
  ghost predicate SavesAdded(a: seq<LogEvent>, b: seq<LogEvent>) {
    a <= b && forall p :: |a| <= p < |b| ==> b[p].Saved?
  }

  ghost predicate QuietData(w: World, v: World) {
    && v.spec == w.spec && RowsMoveOn(w.plans, v.plans) && SavesAdded(w.log, v.log)
    && w.evidence <= v.evidence && w.reports <= v.reports
    && v.h.stageIndex == w.h.stageIndex && v.h.stepsPlanned == w.h.stepsPlanned
    && v.h.lastProcessed in {w.h.lastProcessed, Strings.Some(|w.plans| - 1)}
  }

  ghost predicate QuietStatus(w: World, v: World) {
    && (w.status.Terminal() ==> v.status == w.status)
    && (v.status.Completed? ==> w.status.Completed? || HasPassingReport(v))
    && (v.h.status.HorizonCompleted? ==> w.h.status.HorizonCompleted?)
    && (v.h.awaiting ==> w.h.awaiting && !v.h.status.HorizonActive?)
    && (w.h.awaiting && !v.h.awaiting ==> |w.log| < |v.log| && v.log[|v.log| - 1] == Saved(Resumed, w.h.stageIndex))
    && v.h.lastEvidenceCount <= |v.evidence|
    && v.h.reason !in {NoNewEvidence, AcceptanceFailed}
  }

  ghost predicate Quiet(w: World, v: World) {
    w.plans != [] && QuietData(w, v) && QuietStatus(w, v)
  }

  lemma {:induction false} RowsKeepTheirSteps(a: seq<PlanRow>, b: seq<PlanRow>)
    requires RowsMoveOn(a, b)
    ensures StepsIn(a) == StepsIn(b)
  {
    if a != [] {
      var last := |a| - 1;
      assert MovedOn(a[last], b[last]);
      forall p | 0 <= p < last ensures MovedOn(a[..last][p], b[..last][p]) {
        assert MovedOn(a[p], b[p]);
      }
      RowsKeepTheirSteps(a[..last], b[..last]);
    }
  }

  lemma RowKeepsCompletion(a: PlanRow, b: PlanRow)
    requires MovedOn(a, b) && AllCompleted(a)
    ensures AllCompleted(b)
  {
  }

  lemma ClosedStagesStayClosed(a: seq<PlanRow>, b: seq<PlanRow>, stage: nat)
    requires RowsMoveOn(a, b) && StageClosedIn(a, stage)
    ensures StageClosedIn(b, stage)
  {
    var p :| 0 <= p < |a| && ClosedBy(a[p], stage);
    assert MovedOn(a[p], b[p]);
    RowKeepsCompletion(a[p], b[p]);
    assert ClosedBy(b[p], stage);
  }

  lemma ApprovalStays(a: seq<LogEvent>, b: seq<LogEvent>, stage: nat)
    requires a <= b && ApprovedInLog(a, stage)
    ensures ApprovedInLog(b, stage)
  {
    var i, j :| 0 <= i < j < |a| && a[i] == Saved(StageAdvanced, stage) && a[j] == Saved(Resumed, stage);
    assert b[i] == a[i] && b[j] == a[j];
  }

  lemma AdvanceStays(a: seq<LogEvent>, b: seq<LogEvent>, stage: nat)
    requires a <= b && AdvancedTo(a, stage)
    ensures AdvancedTo(b, stage)
  {
    var i :| 0 <= i < |a| && a[i] == Saved(StageAdvanced, stage);
    assert b[i] == a[i];
  }

  lemma QuietKeepsRows(w: World, v: World)
    requires Shape(w) && Quiet(w, v)
    ensures Shape(v)
    ensures KeepsPolicy(w) ==> KeepsPolicy(v)
    ensures NeverRepeats(w) ==> NeverRepeats(v)
    ensures Budgeted(w) ==> Budgeted(v)
  {
    hide SegmentPolicy.SegmentKeepsPolicy, Segment.KeyOf, HasPassingReport, SavesAdded;
    RowsKeepTheirSteps(w.plans, v.plans);
    assert forall p :: 0 <= p < |w.plans| ==> MovedOn(w.plans[p], v.plans[p]);
    assert forall p :: 0 <= p < |w.plans| ==>
      v.plans[p].plan == w.plans[p].plan && v.plans[p].horizon == w.plans[p].horizon
          && v.plans[p].stage == w.plans[p].stage;
  }

  lemma QuietKeepsStages(w: World, v: World)
    requires Shape(w) && Quiet(w, v) && StagesInOrder(w)
    ensures StagesInOrder(v)
  {
    hide HasPassingReport, SavesAdded, AllCompleted;
    forall k | 0 <= k < v.h.stageIndex ensures StageClosedIn(v.plans, k) {
      ClosedStagesStayClosed(w.plans, v.plans, k);
    }
    assert MovedOn(Latest(w), Latest(v));
  }

  lemma SavesKeepTheHistory(w: World, v: World)
    requires v.spec == w.spec && SavesAdded(w.log, v.log) && RowsMoveOn(w.plans, v.plans)
    requires PlannedAfterApproval(w) && EveryPlanIsLogged(w)
    ensures PlannedAfterApproval(v) && EveryPlanIsLogged(v)
  {
    forall p | 0 <= p < |v.log| && v.log[p].SegmentPlanned? && NeedsApproval(v.spec.policy, v.log[p].stage)
      ensures ApprovedInLog(v.log[..p], v.log[p].stage)
    {
      assert p < |w.log| && v.log[p] == w.log[p];
      assert v.log[..p] == w.log[..p];
    }
    forall r | 0 <= r < |v.plans| && v.plans[r].horizon
      ensures exists p ::
          0 <= p < |v.log| && v.log[p].SegmentPlanned? && v.log[p].plan == r
          && StageAt(v.log[p].stage) == v.plans[r].stage && v.log[p].stage < 5
    {
      assert MovedOn(w.plans[r], v.plans[r]);
      var p :| 0 <= p < |w.log| && w.log[p].SegmentPlanned? && w.log[p].plan == r
          && StageAt(w.log[p].stage) == w.plans[r].stage && w.log[p].stage < 5;
      assert v.log[p] == w.log[p];
    }
  }

  lemma QuietKeepsCheckpoints(w: World, v: World)
    requires Shape(w) && Quiet(w, v) && Checkpointed(w)
    ensures Checkpointed(v)
  {
    hide HasPassingReport, RowsMoveOn, PlannedAfterApproval, EveryPlanIsLogged, NeedsApproval;
    SavesKeepTheHistory(w, v);
    var k := w.h.stageIndex;
    if v.h.awaiting {
      AdvanceStays(w.log, v.log, k);
    } else if NeedsApproval(w.spec.policy, k) {
      if w.h.awaiting {
        var a :| 0 <= a < |w.log| && w.log[a] == Saved(StageAdvanced, k);
        var b := |v.log| - 1;
        assert v.log[a] == w.log[a];
        assert v.log[b] == Saved(Resumed, k);
      } else {
        ApprovalStays(w.log, v.log, k);
      }
    }
  }

  lemma PassingReportStays(w: World, v: World)
    requires v.spec == w.spec && w.evidence <= v.evidence && w.reports <= v.reports && HasPassingReport(w)
    ensures HasPassingReport(v)
  {
    Acceptance.PassedStays(w.reports, w.spec.criteria, w.evidence, v.reports, v.evidence);
  }

  /** Quiet steps keep the whole invariant. */
  lemma QuietKeepsInv(w: World, v: World)
    requires Inv(w) && Quiet(w, v)
    ensures Inv(v)
  {
    hide KeepsPolicy, NeverRepeats, Budgeted, StagesInOrder, Checkpointed, Shape, HasPassingReport, RowsMoveOn,
         SavesAdded;
    QuietKeepsRows(w, v);
    QuietKeepsStages(w, v);
    QuietKeepsCheckpoints(w, v);
    if v.status.Completed? && w.status.Completed? {
      PassingReportStays(w, v);
    }
  }

  // Most operations are quiet.

  lemma SameRows(plans: seq<PlanRow>)
    ensures RowsMoveOn(plans, plans)
  {
  }

  /** Overwriting the status of a step that is not completed with one that is not open. */
  lemma StepMovesOn(w: World, id: string, status: StepStatus)
    requires w.plans != []
    requires !StatusIs(Latest(w).statuses, id, StepCompleted) && status !in {StepPending, StepReady}
    ensures RowsMoveOn(w.plans, WithStep(w, id, status).plans)
  {
    var v := WithStep(w, id, status);
    assert MovedOn(Latest(w), Latest(v));
    forall p | 0 <= p < |w.plans| ensures MovedOn(w.plans[p], v.plans[p]) {
      if p < |w.plans| - 1 { assert v.plans[p] == w.plans[p]; }
    }
  }

  lemma FailureIsQuiet(w: World, exhausted: bool)
    requires Shape(w) && !w.h.awaiting
    ensures Quiet(w, RecordFailure(w, exhausted).0)
  {
    SameRows(w.plans);
  }

  lemma BudgetPauseIsQuiet(w: World)
    requires Shape(w) && !w.h.awaiting
    ensures Quiet(w, PauseForBudget(w).0)
  {
    SameRows(w.plans);
  }

  lemma WaitsAreQuiet(w: World)
    requires Shape(w)
    ensures Quiet(w, ResolveWait(w))
    ensures TaskWaits(w.status) ==> Quiet(w, NoteWait(w).0)
  {
    SameRows(w.plans);
  }

  lemma ReadyIsOpen(w: World)
    requires w.plans != [] && Ready(w) != []
    ensures Open(Latest(w).statuses, Ready(w)[0])
    ensures exists i :: 0 <= i < |Latest(w).plan.steps| && Latest(w).plan.steps[i].stepId == Ready(w)[0]
  {
    hide ReadySet;
    var row := Latest(w);
    ReadySetIsExact(row.plan.steps, row.statuses);
    assert Ready(w)[0] in ReadySet(row.plan.steps, row.statuses);
    var s :| s in row.plan.steps && s.stepId == Ready(w)[0] && IsReady(s, row.statuses);
  }

  /** A step run always adds evidence, so it is never counted as a cycle without progress. */
  lemma ProgressIsQuiet(w: World, id: string, step: StepStatus, status: TaskStatus, usage: Usage)
    requires Shape(w) && !w.h.awaiting && Open(Latest(w).statuses, id) && MayRun(w, id)
    requires step in {StepWaitingUser, StepWaitingApproval, StepCompleted}
        && status in {WaitingUser, WaitingApproval, Running}
    ensures Quiet(w, RecordProgress(AfterWorker(w, id, step, status), usage).0)
    ensures RecordProgress(AfterWorker(w, id, step, status), usage).1 == Reported(w.h.status, StepExecuted)
    ensures RecordProgress(AfterWorker(w, id, step, status), usage).0.plans == WithStep(w, id, step).plans
    ensures RecordProgress(AfterWorker(w, id, step, status), usage).0.h.lastProcessed == w.h.lastProcessed
    ensures RecordProgress(AfterWorker(w, id, step, status), usage).0.h.status == w.h.status
    ensures RecordProgress(AfterWorker(w, id, step, status), usage).0.status == status
  {
    hide CompletedSteps;
    StepMovesOn(w, id, step);
  }

  lemma RunStepIsQuiet(w: World, id: string, reply: StepReply)
    requires Shape(w) && !w.h.awaiting && Open(Latest(w).statuses, id)
    ensures Quiet(w, RunStep(w, id, reply).0)
  {
    hide RecordFailure, RecordProgress, MayRun, Quiet, AfterWorker;
    if !MayRun(w, id) || reply.Refused? {
      FailureIsQuiet(w, false);
    } else {
      match reply
      case AsksUser(usage) => ProgressIsQuiet(w, id, StepWaitingUser, WaitingUser, usage);
      case ProposesChange(usage) => ProgressIsQuiet(w, id, StepWaitingApproval, WaitingApproval, usage);
      case Succeeds(usage) => ProgressIsQuiet(w, id, StepCompleted, Running, usage);
      case Fails(exhausted) => FailedStepIsQuiet(w, id, exhausted);
    }
  }

  lemma FailedStepIsQuiet(w: World, id: string, exhausted: bool)
    requires Shape(w) && !w.h.awaiting && Open(Latest(w).statuses, id) && MayRun(w, id)
    ensures Quiet(w, RecordFailure(AfterWorker(w, id, StepFailed, Paused), exhausted).0)
  {
    StepMovesOn(w, id, StepFailed);
  }

  lemma ReplanIsQuiet(w: World)
    requires Shape(w) && !w.h.awaiting
    ensures Quiet(w, ReplanSegment(w.(h := w.h.(lastProcessed := Strings.Some(|w.plans| - 1)))).0)
  {
    SameRows(w.plans);
  }

  lemma ResumeIsQuiet(w: World)
    requires Shape(w)
    ensures Quiet(w, ResumeTask(w).0)
  {
    hide HasFailedStep;
    SameRows(w.plans);
    if w.status.WaitingUser? && !w.h.awaiting {
      var v := ResumeTask(w).0;
      assert MovedOn(Latest(w), FailWaitingSteps(Latest(w)));
      forall p | 0 <= p < |w.plans| ensures MovedOn(w.plans[p], v.plans[p]) {
        if p < |w.plans| - 1 { assert v.plans[p] == w.plans[p]; }
      }
    }
  }

  lemma CancelIsQuiet(w: World)
    requires Shape(w)
    ensures Quiet(w, CancelTask(w).0)
  {
    SameRows(w.plans);
  }

  lemma RecoveryIsQuiet(w: World)
    requires Shape(w)
    ensures Quiet(w, RecoverTask(w).0)
  {
    SameRows(w.plans);
  }

  lemma VerifyReports(w: World, verification: Acceptance.Verification)
    requires w.status.Verifying?
    ensures Verify(w, verification)
        == w.(reports := Verify(w, verification).reports, status := Verify(w, verification).status)
    ensures w.reports <= Verify(w, verification).reports
    ensures Verify(w, verification).status in {Verifying, Completed, Failed}
    ensures Verify(w, verification).status.Completed? ==> HasPassingReport(Verify(w, verification))
  {
    hide Acceptance.ReportOf;
    if verification.Verified? {
      var v := Verify(w, verification);
      if v.status.Completed? {
        Acceptance.NewReportPasses(w.reports, w.spec.criteria, w.evidence, verification.passing);
      }
    }
  }

  lemma WriteApprovalIsQuiet(w: World, id: string, reply: Acceptance.WriteReply)
    requires Shape(w)
    ensures Quiet(w, ApproveWriteStep(w, id, reply).0)
  {
    hide IsWriteStep, Verify, HasPassingReport;
    SameRows(w.plans);
    if AwaitsApproval(w, id) {
      StepMovesOn(w, id, StepFailed);
      StepMovesOn(w, id, StepCompleted);
      if reply.Written? {
        VerifyReports(WithStep(w, id, StepCompleted).(status := Verifying), reply.verification);
      }
    }
  }

  lemma CommandApprovalIsQuiet(w: World, id: string, reply: Acceptance.CommandReply)
    requires Shape(w)
    ensures Quiet(w, ApproveCommandStep(w, id, reply).0)
  {
    hide IsCommandStep, HasPassingReport;
    SameRows(w.plans);
    if AwaitsApproval(w, id) {
      StepMovesOn(w, id, StepFailed);
      StepMovesOn(w, id, StepCompleted);
    }
  }
}
