/** Every public operation on a long-horizon task keeps the invariant, whatever it is answered. Most operations are
    quiet: they add no plan and close no stage (see HorizonInvariant). The others are taken one by one: persisting a
    segment appends one row that is within the budget, within policy, new in its stage and behind its checkpoint;
    closing a stage moves the index over a stage whose last segment is terminal and completed; closing the task
    completes it only with a passing report of the verifier, and blocks the horizon otherwise. */
module HorizonRuns {
  import opened Contracts
  import Strings
  import PlanValidation
  import opened Segment
  import opened SegmentPolicy
  import Acceptance
  import opened HorizonModel
  import opened HorizonInvariant

  // The steps that are not quiet: a new segment, a closed stage, a closed task.

  lemma PlannedIsAccepted(w: World, a: Answers)
    requires Planned(a.firstPlan, a.secondPlan, InputFor(w)).1.Some?
    ensures SegmentAccepted(Planned(a.firstPlan, a.secondPlan, InputFor(w)).1.value, InputFor(w))
  {
    hide SegmentAccepted, InputFor;
  }

  lemma NewRowKeepsPlanFacts(w: World, row: PlanRow)
    requires Shape(w) && KeepsPolicy(w) && NeverRepeats(w) && row.horizon
    requires SegmentKeepsPolicy(row.plan, row.stage, w.spec.mode) && Novel(w.plans, row.stage, row.plan)
    ensures KeepsPolicy(w.(plans := w.plans + [row])) && NeverRepeats(w.(plans := w.plans + [row]))
    ensures StepsIn(w.plans + [row]) == StepsIn(w.plans) + |row.plan.steps|
  {
    hide SegmentKeepsPolicy, KeyOf;
    var plans := w.plans + [row];
    assert plans[..|plans| - 1] == w.plans;
    forall p, q, i, j |
      && 0 <= p < q < |plans| && plans[p].horizon && plans[q].horizon && plans[p].stage == plans[q].stage
      && 0 <= i < |plans[p].plan.steps| && 0 <= j < |plans[q].plan.steps|
      ensures KeyOf(plans[p].plan.steps[i]) != KeyOf(plans[q].plan.steps[j])
    {
      if q == |w.plans| {
        assert KeyIsNew(w.plans, row.stage, KeyOf(row.plan.steps[j]));
      }
    }
  }

  lemma NewRowKeepsStages(w: World, v: World, row: PlanRow)
    requires Shape(w) && StagesInOrder(w) && w.h.stageIndex < 5
    requires row.horizon && row.stage == StageAt(w.h.stageIndex)
    requires v.plans == w.plans + [row] && v.h.stageIndex == w.h.stageIndex && v.h.status == w.h.status
        && v.status == w.status
    ensures StagesInOrder(v)
  {
    hide AllCompleted;
    forall k | 0 <= k < v.h.stageIndex ensures StageClosedIn(v.plans, k) {
      assert StageClosedIn(w.plans, k);
      var p :| 0 <= p < |w.plans| && ClosedBy(w.plans[p], k);
      assert v.plans[p] == w.plans[p];
    }
  }

  lemma NewRowKeepsCheckpoints(w: World, v: World, row: PlanRow)
    requires Shape(w) && Checkpointed(w) && w.h.stageIndex < 5 && !w.h.awaiting
    requires row.horizon && row.stage == StageAt(w.h.stageIndex)
    requires v.spec == w.spec && v.plans == w.plans + [row] && v.h.stageIndex == w.h.stageIndex && !v.h.awaiting
    requires v.log == w.log + [SegmentPlanned(|w.plans|, w.h.stageIndex), Saved(SegmentReady, w.h.stageIndex)]
    ensures Checkpointed(v)
  {
    hide NeedsApproval;
    var k := w.h.stageIndex;
    if NeedsApproval(w.spec.policy, k) { ApprovalStays(w.log, v.log, k); }
    forall p | 0 <= p < |v.log| && v.log[p].SegmentPlanned? && NeedsApproval(v.spec.policy, v.log[p].stage)
      ensures ApprovedInLog(v.log[..p], v.log[p].stage)
    {
      if p < |w.log| {
        assert v.log[p] == w.log[p] && v.log[..p] == w.log[..p];
      } else {
        assert v.log[..p] == w.log;
      }
    }
    forall r | 0 <= r < |v.plans| && v.plans[r].horizon
      ensures exists p ::
          0 <= p < |v.log| && v.log[p].SegmentPlanned? && v.log[p].plan == r
          && StageAt(v.log[p].stage) == v.plans[r].stage && v.log[p].stage < 5
    {
      if r < |w.plans| {
        assert v.plans[r] == w.plans[r];
        var p :| 0 <= p < |w.log| && w.log[p].SegmentPlanned? && w.log[p].plan == r
            && StageAt(w.log[p].stage) == w.plans[r].stage && w.log[p].stage < 5;
        assert v.log[p] == w.log[p];
      } else {
        assert v.log[|w.log|] == SegmentPlanned(|w.plans|, k);
      }
    }
  }

  /** A segment was appended and nothing else happened but bookkeeping. */
  ghost predicate Extended(w: World, v: World, row: PlanRow) {
    && v == w.(plans := w.plans + [row], h := v.h,
               log := w.log + [SegmentPlanned(|w.plans|, w.h.stageIndex), Saved(SegmentReady, w.h.stageIndex)])
    && v.h == w.h.(segmentIndex := v.h.segmentIndex, stepsPlanned := w.h.stepsPlanned + |row.plan.steps|,
                   noProgress := v.h.noProgress, usage := v.h.usage)
  }

  lemma SamePlansSameFacts(w: World, v: World)
    requires v.plans == w.plans && v.spec == w.spec && KeepsPolicy(w) && NeverRepeats(w)
    ensures KeepsPolicy(v) && NeverRepeats(v)
  {
    hide SegmentKeepsPolicy, KeyOf;
  }

  lemma NewRowKeepsInv(w: World, v: World, row: PlanRow)
    requires Inv(w) && Extended(w, v, row) && !w.h.awaiting && w.h.stageIndex < 5 && !w.status.Terminal()
    requires row.horizon && row.stage == StageAt(w.h.stageIndex)
    requires SegmentKeepsPolicy(row.plan, row.stage, w.spec.mode) && Novel(w.plans, row.stage, row.plan)
    requires w.h.stepsPlanned + |row.plan.steps| <= w.spec.budget.maxSteps
    ensures Inv(v)
  {
    hide SegmentKeepsPolicy, Novel, KeepsPolicy, NeverRepeats, StagesInOrder, Checkpointed, HasPassingReport;
    NewRowKeepsPlanFacts(w, row);
    NewRowKeepsStages(w, v, row);
    NewRowKeepsCheckpoints(w, v, row);
    SamePlansSameFacts(w.(plans := w.plans + [row]), v);
  }

  lemma PersistExtends(w: World, usage: Usage, plan: PlanVersion, terminal: bool)
    ensures Extended(w, Persist(w.(h := w.h.(usage := usage)), plan, terminal).0, FreshRow(w, plan, terminal))
    ensures FreshRow(w, plan, terminal).horizon && FreshRow(w, plan, terminal).plan == plan
    ensures FreshRow(w, plan, terminal).stage == StageAt(w.h.stageIndex) == InputFor(w).stage
  {
    hide PlanValidation.GraphOf;
  }

  /** Persisting an accepted, novel segment. */
  lemma PersistKeepsInv(w: World, usage: Usage, c: Candidate)
    requires Inv(w) && !w.h.awaiting && w.h.stageIndex < 5 && !w.status.Terminal()
    requires SegmentAccepted(c, InputFor(w)) && Novel(w.plans, StageAt(w.h.stageIndex), PlanOf(c, InputFor(w)))
    ensures Inv(Persist(w.(h := w.h.(usage := usage)), PlanOf(c, InputFor(w)), c.terminal).0)
  {
    hide SegmentAccepted, SegmentKeepsPolicy, PlanOf, Novel, KeepsPolicy, NeverRepeats, StagesInOrder, Checkpointed,
         CompletedOnlyByReport, Budgeted, Persist, FreshRow, Extended, SegmentTools;
    var plan := PlanOf(c, InputFor(w));
    AcceptedSegmentKeepsPolicy(c, InputFor(w), w.spec.mode);
    PersistExtends(w, usage, plan, c.terminal);
    NewRowKeepsInv(w, Persist(w.(h := w.h.(usage := usage)), plan, c.terminal).0, FreshRow(w, plan, c.terminal));
  }

  lemma FailedPlanningKeepsInv(w: World, usage: Usage)
    requires Inv(w) && !w.h.awaiting
    ensures Inv(RecordFailure(w.(h := w.h.(usage := usage)), false).0)
  {
    hide RecordFailure, KeepsPolicy, NeverRepeats, StagesInOrder, Checkpointed, CompletedOnlyByReport, Budgeted, Quiet;
    var w1 := w.(h := w.h.(usage := usage));
    UsageIsQuiet(w, usage);
    QuietKeepsInv(w, w1);
    FailureIsQuiet(w1, false);
    QuietKeepsInv(w1, RecordFailure(w1, false).0);
  }

  lemma PlanningKeepsInv(w: World, a: Answers)
    requires Inv(w) && !w.h.awaiting && w.h.stageIndex < 5 && !w.status.Terminal()
    ensures Inv(PlanNext(w, a).0)
  {
    hide SegmentAccepted, PlanOf, Novel, RecordFailure, Persist, Planned, PermissionHolds, SegmentTools,
         KeepsPolicy, NeverRepeats, StagesInOrder, Checkpointed, CompletedOnlyByReport, Budgeted, Shape;
    var (usage, candidate) := Planned(a.firstPlan, a.secondPlan, InputFor(w));
    var total := Plus(w.h.usage, usage);
    FailedPlanningKeepsInv(w, w.h.usage);
    assert w.(h := w.h.(usage := w.h.usage)) == w;
    FailedPlanningKeepsInv(w, total);
    if candidate.Some? && Novel(w.plans, InputFor(w).stage, PlanOf(candidate.value, InputFor(w))) {
      PlannedIsAccepted(w, a);
      PersistKeepsInv(w, total, candidate.value);
    }
  }

  lemma UsageIsQuiet(w: World, usage: Usage)
    requires Shape(w)
    ensures Quiet(w, w.(h := w.h.(usage := usage)))
  {
    SameRows(w.plans);
  }

  // Closing.

  /** The latest segment, terminal and completed, closes the current stage. */
  lemma StageIsClosed(w: World)
    requires Unprocessed(w) && StagesInOrder(w) && AllCompleted(Latest(w)) && Latest(w).terminal
    ensures forall k :: 0 <= k <= w.h.stageIndex ==> StageClosedIn(w.plans, k)
  {
    hide AllCompleted;
    forall k | 0 <= k <= w.h.stageIndex ensures StageClosedIn(w.plans, k) {
      if k == w.h.stageIndex { assert ClosedBy(w.plans[|w.plans| - 1], k); }
    }
  }

  /** The current stage is closed: one more on the index, the segment processed. */
  ghost predicate ClosesStage(w: World, v: World) {
    && v == w.(h := v.h, status := v.status, reports := v.reports, log := v.log)
    && v.h.stageIndex == w.h.stageIndex + 1 && v.h.stepsPlanned == w.h.stepsPlanned
    && v.h.lastProcessed == Strings.Some(|w.plans| - 1) && v.h.lastEvidenceCount == w.h.lastEvidenceCount
    && v.h.reason !in {NoNewEvidence, AcceptanceFailed}
    && w.reports <= v.reports
  }

  lemma ClosedStageKeepsPlanFacts(w: World, v: World)
    requires Inv(w) && Unprocessed(w) && AllCompleted(Latest(w)) && Latest(w).terminal
    requires ClosesStage(w, v)
    requires v.h.awaiting ==> !v.h.status.HorizonActive?
    requires v.h.stageIndex == 5 ==> v.status in {Completed, Failed}
    requires v.h.status.HorizonCompleted? ==> v.h.stageIndex == 5 && v.status.Completed?
    ensures Shape(v) && Budgeted(v) && KeepsPolicy(v) && NeverRepeats(v) && StagesInOrder(v)
  {
    hide SegmentKeepsPolicy, KeyOf, AllCompleted, HasPassingReport, Checkpointed;
    StageIsClosed(w);
  }

  lemma ClosedTaskKeepsInv(w: World, v: World)
    requires Inv(w) && Unprocessed(w) && AllCompleted(Latest(w)) && Latest(w).terminal && !w.h.awaiting
    requires ClosesStage(w, v) && !v.h.awaiting
    requires v.h.stageIndex == 5 && SavesAdded(w.log, v.log)
    requires v.status == Failed || (v.status == Completed && HasPassingReport(v))
    requires v.h.status.HorizonCompleted? ==> v.status.Completed?
    ensures Inv(v)
  {
    hide Shape, Budgeted, KeepsPolicy, NeverRepeats, StagesInOrder, HasPassingReport, PlannedAfterApproval,
         EveryPlanIsLogged, AllCompleted;
    ClosedStageKeepsPlanFacts(w, v);
    SameRows(w.plans);
    SavesKeepTheHistory(w, v);
  }

  lemma InterruptedCloseKeepsInv(w: World)
    requires Inv(w) && w.status.Running? && !w.h.awaiting
    ensures Inv(w.(status := Verifying))
  {
    hide Budgeted, KeepsPolicy, NeverRepeats, StagesInOrder, Checkpointed, CompletedOnlyByReport, HasPassingReport;
    SameRows(w.plans);
    QuietKeepsInv(w, w.(status := Verifying));
  }

  /** The verdict on a task whose last stage was just closed. */
  lemma VerdictKeepsInv(w: World, verified: World, h: Horizon, name: SaveName)
    requires Inv(w) && Unprocessed(w) && AllCompleted(Latest(w)) && Latest(w).terminal && !w.h.awaiting
        && w.h.stageIndex == 4
    requires verified == w.(reports := verified.reports, status := verified.status) && w.reports <= verified.reports
    requires verified.status == Failed || (verified.status == Completed && HasPassingReport(verified))
    requires h == w.h.(lastProcessed := Strings.Some(|w.plans| - 1), usage := h.usage, stageIndex := 5,
        status := h.status, reason := h.reason)
    requires h.reason !in {NoNewEvidence, AcceptanceFailed}
        && (h.status.HorizonCompleted? ==> verified.status.Completed?)
    ensures Inv(Save(verified.(h := h), name))
  {
    hide Budgeted, KeepsPolicy, NeverRepeats, StagesInOrder, Checkpointed, HasPassingReport, AllCompleted;
    var v := Save(verified.(h := h), name);
    if HasPassingReport(verified) { PassingReportStays(verified, v); }
    ClosedTaskKeepsInv(w, v);
  }

  lemma CloseTaskKeepsInv(w: World, usage: Usage, verification: Acceptance.Verification)
    requires Inv(w) && Unprocessed(w) && AllCompleted(Latest(w)) && Latest(w).terminal && !w.h.awaiting
        && w.h.stageIndex == 4
    requires !HorizonOver(w.h.status)
    ensures var closed := w.h.(lastProcessed := Strings.Some(|w.plans| - 1), usage := usage, stageIndex := 5);
      Inv(CloseTask(w, closed, verification).0)
  {
    hide Budgeted, KeepsPolicy, NeverRepeats, StagesInOrder, Checkpointed, CompletedOnlyByReport, HasPassingReport,
         AllCompleted, Verify;
    if w.status.Running? {
      var closed := w.h.(lastProcessed := Strings.Some(|w.plans| - 1), usage := usage, stageIndex := 5);
      var verified := Verify(w.(status := Verifying), verification);
      VerifyReports(w.(status := Verifying), verification);
      match verified.status
      case Completed => VerdictKeepsInv(w, verified, closed.(status := HorizonCompleted), HorizonCompletedSaved);
      case Failed =>
        VerdictKeepsInv(w, verified, closed.(status := HorizonBlocked, reason := FinalAcceptanceFailed),
            FinalAcceptanceRejected);
      case _ => UnverifiedIsUnchanged(w.(status := Verifying), verification); InterruptedCloseKeepsInv(w);
    }
  }

  lemma UnverifiedIsUnchanged(w: World, verification: Acceptance.Verification)
    requires Verify(w, verification).status.Verifying?
    ensures Verify(w, verification) == w
  {
  }

  lemma CloseStageKeepsInv(w: World, usage: Usage)
    requires Inv(w) && Unprocessed(w) && AllCompleted(Latest(w)) && Latest(w).terminal && !w.h.awaiting
        && w.h.stageIndex < 4
    requires !HorizonOver(w.h.status) && !w.status.Terminal()
    ensures var closed := w.h.(lastProcessed := Strings.Some(|w.plans| - 1), usage := usage,
        stageIndex := w.h.stageIndex + 1);
      Inv(CloseStage(w, closed).0)
  {
    hide Budgeted, KeepsPolicy, NeverRepeats, StagesInOrder, HasPassingReport, AllCompleted, PlannedAfterApproval,
         EveryPlanIsLogged;
    var k := w.h.stageIndex + 1;
    var closed := w.h.(lastProcessed := Strings.Some(|w.plans| - 1), usage := usage, stageIndex := k);
    var v := CloseStage(w, closed).0;
    ClosedStageKeepsPlanFacts(w, v);
    SameRows(w.plans);
    SavesKeepTheHistory(w, v);
    assert v.log[|w.log|] == Saved(StageAdvanced, k);
  }

  lemma FinishKeepsInv(w: World, a: Answers)
    requires Inv(w) && Unprocessed(w) && !w.h.awaiting && !HorizonOver(w.h.status) && !w.status.Terminal()
    ensures Inv(FinishSegment(w, a).0)
  {
    hide Budgeted, KeepsPolicy, NeverRepeats, Checkpointed, CompletedOnlyByReport, HasPassingReport, AllCompleted,
         RecordFailure, ReplanSegment, CloseTask, CloseStage, Quiet;
    if !AllCompleted(Latest(w)) {
      ReplanIsQuiet(w);
      QuietKeepsInv(w, FinishSegment(w, a).0);
    } else if !Latest(w).terminal {
      SegmentCloseIsQuiet(w);
      QuietKeepsInv(w, FinishSegment(w, a).0);
    } else {
      match a.stage
      case NotAssessed =>
        FailureIsQuiet(w, false);
        QuietKeepsInv(w, FinishSegment(w, a).0);
      case Assessed(usage) =>
        if w.h.stageIndex == 4 {
          CloseTaskKeepsInv(w, Plus(w.h.usage, usage), a.verification);
        } else {
          CloseStageKeepsInv(w, Plus(w.h.usage, usage));
        }
    }
  }

  lemma SegmentCloseIsQuiet(w: World)
    requires Shape(w) && !w.h.awaiting
    ensures Quiet(w, Save(w.(h := w.h.(lastProcessed := Strings.Some(|w.plans| - 1))), SegmentCompleted))
  {
    SameRows(w.plans);
  }

  // Every operation.

  lemma AdvanceKeepsInv(w: World, a: Answers)
    requires Inv(w)
    ensures Inv(AdvanceTask(w, a).0)
  {
    hide Budgeted, KeepsPolicy, NeverRepeats, Checkpointed, CompletedOnlyByReport, Ready,
         PlanNext, RunStep, FinishSegment, NoteWait, PauseForBudget, Quiet;
    if w.status.Terminal() || HorizonOver(w.h.status) { return; }
    var r := ResolveWait(w);
    WaitsAreQuiet(w);
    QuietKeepsInv(w, r);
    if TaskWaits(r.status) {
      WaitsAreQuiet(r);
      QuietKeepsInv(r, NoteWait(r).0);
      return;
    }
    if r.h.awaiting { return; }
    BudgetPauseIsQuiet(r);
    QuietKeepsInv(r, PauseForBudget(r).0);
    if !Unprocessed(r) {
      PlanningKeepsInv(r, a);
    } else if Ready(r) != [] {
      ReadyIsOpen(r);
      RunStepIsQuiet(r, Ready(r)[0], a.step);
      QuietKeepsInv(r, RunStep(r, Ready(r)[0], a.step).0);
    } else {
      FinishKeepsInv(r, a);
    }
  }

  /** One operation, any answers: the invariant is kept. */
  lemma OperationKeepsInv(w: World, op: Operation)
    requires Inv(w)
    ensures Inv(Perform(w, op).0)
  {
    hide AdvanceTask, ResumeTask, CancelTask, ApproveWriteStep, ApproveCommandStep, RecoverTask, Quiet,
         Budgeted, KeepsPolicy, NeverRepeats, StagesInOrder, Checkpointed, CompletedOnlyByReport;
    match op
    case Advance(answers) => AdvanceKeepsInv(w, answers);
    case Resume => ResumeIsQuiet(w); QuietKeepsInv(w, ResumeTask(w).0);
    case Cancel => CancelIsQuiet(w); QuietKeepsInv(w, CancelTask(w).0);
    case ApproveWrite(id, reply) =>
      WriteApprovalIsQuiet(w, id, reply); QuietKeepsInv(w, ApproveWriteStep(w, id, reply).0);
    case ApproveCommand(id, reply) =>
      CommandApprovalIsQuiet(w, id, reply); QuietKeepsInv(w, ApproveCommandStep(w, id, reply).0);
    case Recover => RecoveryIsQuiet(w); QuietKeepsInv(w, RecoverTask(w).0);
  }

  lemma CreationSatisfiesInv(r: Request, initial: PlanVersion)
    requires CreateTask(r, initial).Some?
    ensures Inv(CreateTask(r, initial).value)
  {
    hide PlanValidation.GraphOf;
    var w := CreateTask(r, initial).value;
    assert w.plans[..|w.plans| - 1] == [];
    assert StepsIn([]) == 0;
    assert StepsIn(w.plans) == StepsIn(w.plans[..|w.plans| - 1]) + 0;
  }
}
