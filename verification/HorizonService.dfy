/** The long-horizon operations as the service performs them: fields of one task, changed step by step
    (internal/app/long_horizon.go; RunModelStep, approvals and recovery of internal/app/service.go). */
module HorizonService {
  import opened Contracts
  import opened Strings
  import PlanValidation
  import opened Segment
  import SegmentPolicy
  import TaskTable
  import opened Acceptance
  import opened HorizonModel
  import HorizonInvariant
  import HorizonRuns
  import opened HorizonMeasure

  /** The planner's prompt-and-repair loop. */
  method CreateSegment(first: PlannerReply, second: PlannerReply, input: SegmentInput)
    returns (plan: Option<PlanVersion>, terminal: bool, usage: Usage)
    ensures usage == Planned(first, second, input).0
    ensures plan == match Planned(first, second, input).1 { case None => None case Some(c) => Some(PlanOf(c, input)) }
    ensures plan.Some? ==> terminal == Planned(first, second, input).1.value.terminal
  {
    hide SegmentAccepted, PlanOf;
    plan, terminal, usage := None, false, Usage(0, 0);
    for attempt := 0 to 2
      invariant attempt == 0 ==> usage == Usage(0, 0)
      invariant attempt == 1 ==> first.Reply? && !Usable(first.candidate, input) && usage == first.usage
      invariant attempt == 2 ==> first.Reply? && !Usable(first.candidate, input)
      invariant attempt == 2 ==>
          second.Reply? && !Usable(second.candidate, input) && usage == Plus(first.usage, second.usage)
    {
      var reply := if attempt == 0 then first else second;
      if reply.NoReply? {
        return None, false, usage;
      }
      usage := Usage(usage.input + reply.usage.input, usage.output + reply.usage.output);
      if reply.candidate.Some? {
        var built := BuildPlan(reply.candidate.value, input);
        if built.Some? {
          return built, reply.candidate.value.terminal, usage;
        }
      }
    }
  }

  /** The keys of all work planned in a stage. */
  method KeysOfStage(plans: seq<PlanRow>, stage: StageId) returns (seen: set<string>)
    ensures forall key :: key in seen <==> !KeyIsNew(plans, stage, key)
  {
    hide KeyOf;
    seen := {};
    for p := 0 to |plans|
      invariant forall q, i ::
        0 <= q < p && plans[q].horizon && plans[q].stage == stage && 0 <= i < |plans[q].plan.steps| ==>
        KeyOf(plans[q].plan.steps[i]) in seen
      invariant forall key :: key in seen ==> !KeyIsNew(plans, stage, key)
    {
      if !plans[p].horizon || plans[p].stage != stage {
        continue;
      }
      ghost var before := seen;
      for i := 0 to |plans[p].plan.steps|
        invariant before <= seen
        invariant forall j :: 0 <= j < i ==> KeyOf(plans[p].plan.steps[j]) in seen
        invariant forall key :: key in seen ==> !KeyIsNew(plans, stage, key)
      {
        seen := seen + {KeyOf(plans[p].plan.steps[i])};
      }
    }
  }

  /** Whether the planned work is new in its stage. */
  method CheckNovelty(plans: seq<PlanRow>, stage: StageId, plan: PlanVersion) returns (novel: bool)
    ensures novel == Novel(plans, stage, plan)
  {
    hide KeyOf, KeyIsNew;
    var known := KeysOfStage(plans, stage);
    var seen := known;
    for i := 0 to |plan.steps|
      invariant forall j :: 0 <= j < i ==> KeyIsNew(plans, stage, KeyOf(plan.steps[j]))
      invariant forall j, k :: 0 <= j < k < i ==> KeyOf(plan.steps[j]) != KeyOf(plan.steps[k])
      invariant forall key :: key in seen ==> key in known || exists j :: 0 <= j < i && KeyOf(plan.steps[j]) == key
      invariant known <= seen && forall j :: 0 <= j < i ==> KeyOf(plan.steps[j]) in seen
    {
      var key := KeyOf(plan.steps[i]);
      if key in seen {
        return false;
      }
      seen := seen + {key};
    }
    novel := true;
  }

  lemma StepTwice(w: World, id: string, first: StepStatus, second: StepStatus)
    requires w.plans != []
    ensures WithStep(WithStep(w, id, first), id, second) == WithStep(w, id, second)
  {
    var last := |w.plans| - 1;
    assert WithStep(WithStep(w, id, first), id, second).plans[last] == WithStep(w, id, second).plans[last];
    assert WithStep(WithStep(w, id, first), id, second).plans == WithStep(w, id, second).plans;
  }

  class TaskService {
    const spec: TaskSpec
    var status: TaskStatus
    var h: Horizon
    var plans: seq<PlanRow>
    var evidence: seq<Evidence>
    var reports: seq<Report>
    var log: seq<LogEvent>

    function View(): World reads this {
      World(spec, status, h, plans, evidence, reports, log)
    }

    constructor Create(r: Request, initial: PlanVersion)
      requires CreateTask(r, initial).Some?
      ensures CreateTask(r, initial) == Some(View()) && HorizonInvariant.Inv(View())
    {
      spec := SpecOf(r);
      status := ReadyToRun;
      h := FRESH_HORIZON;
      var statuses := map id | id in PlanValidation.GraphOf(initial.steps) :: StepPending;
      plans := [PlanRow(initial, false, Discover, 0, false, statuses)];
      evidence := [];
      reports := [];
      log := [Saved(Created, 0)];
      new;
      HorizonRuns.CreationSatisfiesInv(r, initial);
    }

    method SaveHorizonState(name: SaveName)
      modifies this`log
      ensures View() == Save(old(View()), name)
    {
      log := log + [Saved(name, h.stageIndex)];
    }

    method TransitionTask(from: TaskStatus, to: TaskStatus) returns (ok: bool)
      modifies this`status
      ensures ok <==> TaskTable.CanTransition(from, to) && old(status) == from
      ensures status == if ok then to else old(status)
    {
      ok := TaskTable.CanTransition(from, to) && status == from;
      if ok {
        status := to;
      }
    }

    method TransitionStep(id: string, to: StepStatus)
      requires plans != []
      modifies this`plans
      ensures View() == WithStep(old(View()), id, to)
    {
      var row := plans[|plans| - 1];
      plans := plans[|plans| - 1 := row.(statuses := row.statuses[id := to])];
    }

    method RecordHorizonFailure(iterationsExhausted: bool) returns (o: Outcome)
      requires plans != []
      modifies this`status, this`h, this`log
      ensures (View(), o) == RecordFailure(old(View()), iterationsExhausted)
    {
      var next := h.replansUsed + 1;
      var autoReplan := iterationsExhausted && next <= spec.budget.maxReplans && h.noProgress < 2;
      h := h.(hasFailure := true, status := HorizonPaused, reason := CycleFailed, replansUsed := next,
          lastProcessed := Some(|plans| - 1));
      if autoReplan {
        if status.Running? {
          var _ := TransitionTask(Running, Paused);
        }
        if status.Paused? {
          var _ := TransitionTask(Paused, ReadyToRun);
        }
        if status.ReadyToRun? {
          h := h.(status := HorizonActive, reason := NoReason);
          SaveHorizonState(ReplanRequired);
          return Reported(h.status, Replan);
        }
      }
      if status.ReadyToRun? || status.Running? {
        var _ := TransitionTask(status, Paused);
      }
      SaveHorizonState(FailureRecorded);
      return Reported(h.status, FailedPaused);
    }

    method PauseHorizonForBudget() returns (o: Outcome)
      modifies this`status, this`h, this`log
      ensures (View(), o) == PauseForBudget(old(View()))
    {
      h := h.(status := HorizonBlocked, reason := BudgetSpent);
      if status.Running? {
        var _ := TransitionTask(Running, Blocked);
      } else if status.ReadyToRun? {
        var _ := TransitionTask(ReadyToRun, Paused);
      }
      SaveHorizonState(BudgetBlocked);
      return Reported(h.status, BudgetBlocks);
    }

    method CreatePlan(plan: PlanVersion, terminal: bool) returns (o: Outcome)
      modifies this`plans, this`h, this`log
      ensures (View(), o) == Persist(old(View()), plan, terminal)
    {
      hide PlanValidation.GraphOf, StageAt;
      ghost var w := View();
      log := log + [SegmentPlanned(|plans|, h.stageIndex)];
      plans := plans + [PlanRow(plan, true, StageAt(h.stageIndex), h.segmentIndex + 1, terminal,
                                map id | id in PlanValidation.GraphOf(plan.steps) :: StepPending)];
      h := h.(segmentIndex := h.segmentIndex + 1);
      h := h.(stepsPlanned := h.stepsPlanned + |plan.steps|);
      h := h.(noProgress := h.noProgress + 1);
      SaveHorizonState(SegmentReady);
      assert log == w.log + [SegmentPlanned(|w.plans|, w.h.stageIndex), Saved(SegmentReady, w.h.stageIndex)];
      return Reported(h.status, SegmentPlanning);
    }

    method PlanNextSegment(a: Answers) returns (o: Outcome)
      requires plans != []
      modifies this
      ensures (View(), o) == PlanNext(old(View()), a)
    {
      hide SegmentAccepted, PlanOf, Novel, SegmentPolicy.SegmentTools, RecordFailure, Persist, Planned;
      if !a.servicesAvailable || spec.mode.UnknownMode? {
        return OperationError;
      }
      var input := InputFor(View());
      if |input.tools| == 0 {
        o := RecordHorizonFailure(false);
        return;
      }
      var segment, terminal, usage := CreateSegment(a.firstPlan, a.secondPlan, input);
      var before := h;
      h := h.(usage := Plus(h.usage, usage));
      if segment.None? {
        o := RecordHorizonFailure(false);
        return;
      }
      if exists i :: 0 <= i < |segment.value.steps| && !AllowsRisk(spec.mode, segment.value.steps[i].risk) {
        h := before;
        return OperationError;
      }
      var novel := CheckNovelty(plans, input.stage, segment.value);
      if !novel {
        o := RecordHorizonFailure(false);
        return;
      }
      o := CreatePlan(segment.value, terminal);
    }

    method RecordHorizonProgress(usage: Usage) returns (o: Outcome)
      modifies this`status, this`h, this`log
      ensures (View(), o) == RecordProgress(old(View()), usage)
    {
      hide CompletedSteps;
      var seenStatus := status;
      var noProgress := h.noProgress + 1;
      if |evidence| > h.lastEvidenceCount {
        noProgress := 0;
      }
      h := h.(stepsCompleted := CompletedSteps(plans), noProgress := noProgress, lastEvidenceCount := |evidence|,
              usage := Plus(h.usage, usage));
      if h.noProgress >= 3 {
        h := h.(status := HorizonPaused, reason := NoNewEvidence);
        if seenStatus.Running? {
          var _ := TransitionTask(Running, Paused);
        }
      }
      if seenStatus.Completed? {
        h := h.(status := HorizonCompleted);
      } else if seenStatus.Failed? || seenStatus.Blocked? {
        h := h.(status := HorizonBlocked, reason := AcceptanceFailed);
      }
      SaveHorizonState(ProgressRecorded);
      return Reported(h.status, StepExecuted);
    }

    method StartStep(id: string)
      requires plans != [] && status in {ReadyToRun, Running}
      modifies this`status, this`plans
      ensures View() == WithStep(old(View()), id, StepRunning).(status := Running)
    {
      if status.ReadyToRun? {
        var _ := TransitionTask(ReadyToRun, Running);
      }
      StepTwice(View(), id, StepReady, StepRunning);
      TransitionStep(id, StepReady);
      TransitionStep(id, StepRunning);
    }

    method StopStep(id: string, step: StepStatus, to: TaskStatus)
      requires plans != [] && status == Running && to in {WaitingUser, WaitingApproval, Paused}
      modifies this`status, this`plans, this`evidence
      ensures View() == AfterWorker(old(View()), id, step, to)
    {
      evidence := evidence + [AGENT_REPORT];
      TransitionStep(id, step);
      var _ := TransitionTask(Running, to);
    }

    method CompleteModelStep(id: string)
      requires plans != [] && status == Running
      modifies this`plans
      ensures View() == WithStep(old(View()), id, StepCompleted)
    {
      StepTwice(View(), id, StepVerifying, StepCompleted);
      TransitionStep(id, StepVerifying);
      TransitionStep(id, StepCompleted);
    }

    method RunModelStep(id: string, reply: StepReply) returns (o: Outcome)
      requires plans != []
      modifies this
      ensures (View(), o) == RunStep(old(View()), id, reply)
    {
      hide RecordFailure, RecordProgress;
      if !MayRun(View(), id) || reply.Refused? {
        o := RecordHorizonFailure(false);
        return;
      }
      ghost var w := View();
      StartStep(id);
      StepTwice(w, id, StepRunning, StepWaitingUser);
      StepTwice(w, id, StepRunning, StepWaitingApproval);
      StepTwice(w, id, StepRunning, StepFailed);
      StepTwice(w, id, StepRunning, StepCompleted);
      match reply
      case AsksUser(usage) =>
        StopStep(id, StepWaitingUser, WaitingUser);
        o := RecordHorizonProgress(usage);
      case ProposesChange(usage) =>
        StopStep(id, StepWaitingApproval, WaitingApproval);
        o := RecordHorizonProgress(usage);
      case Fails(exhausted) =>
        StopStep(id, StepFailed, Paused);
        o := RecordHorizonFailure(exhausted);
      case Succeeds(usage) =>
        evidence := evidence + [AGENT_REPORT];
        CompleteModelStep(id);
        o := RecordHorizonProgress(usage);
    }

    /** Deterministic verification of a VERIFYING task; false when it cannot be carried out. */
    method VerifyAndSettle(verification: Verification) returns (settled: bool)
      requires status == Verifying
      modifies this`status, this`reports
      ensures View() == Verify(old(View()), verification)
      ensures settled <==> verification.Verified?
    {
      if verification.Unavailable? {
        return false;
      }
      var report := VerifyInWorkspace(spec.criteria, evidence, verification.passing);
      reports := reports + [report];
      if report.passed {
        var _ := TransitionTask(Verifying, Completed);
      } else {
        var _ := TransitionTask(Verifying, Failed);
      }
      settled := true;
    }

    method CloseLastStage(closed: Horizon, verification: Verification) returns (o: Outcome)
      modifies this`status, this`h, this`reports, this`log
      ensures (View(), o) == CloseTask(old(View()), closed, verification)
    {
      hide ReportOf;
      if !status.Running? {
        return OperationError;
      }
      var _ := TransitionTask(Running, Verifying);
      var settled := VerifyAndSettle(verification);
      if !settled {
        return OperationError;
      }
      if status.Completed? {
        h := closed.(status := HorizonCompleted);
        SaveHorizonState(HorizonCompletedSaved);
        return Reported(HorizonCompleted, TaskClosed);
      }
      h := closed.(status := HorizonBlocked, reason := FinalAcceptanceFailed);
      SaveHorizonState(FinalAcceptanceRejected);
      return Reported(HorizonBlocked, AcceptanceRejected);
    }

    method CloseCurrentStage(closed: Horizon) returns (o: Outcome)
      modifies this`status, this`h, this`log
      ensures (View(), o) == CloseStage(old(View()), closed)
    {
      var stage := StageAt(h.stageIndex);
      h := closed;
      if RequiresCheckpoint(spec.policy, stage) {
        h := h.(status := HorizonWaiting, awaiting := true, reason := StageCompleted);
        if status.Running? {
          var _ := TransitionTask(Running, WaitingUser);
        }
      }
      SaveHorizonState(StageAdvanced);
      return Reported(h.status, StageClosed);
    }

    method FinishHorizonSegment(a: Answers) returns (o: Outcome)
      requires plans != []
      modifies this
      ensures (View(), o) == FinishSegment(old(View()), a)
    {
      hide RecordFailure, CloseTask, CloseStage, PlanValidation.StatusIs;
      var row := plans[|plans| - 1];
      var allCompleted := true;
      for i := 0 to |row.plan.steps|
        invariant allCompleted && forall k :: 0 <= k < i ==>
            PlanValidation.StatusIs(row.statuses, row.plan.steps[k].stepId, StepCompleted)
      {
        if !PlanValidation.StatusIs(row.statuses, row.plan.steps[i].stepId, StepCompleted) {
          allCompleted := false;
          break;
        }
      }
      if !allCompleted {
        h := h.(lastProcessed := Some(|plans| - 1), replansUsed := h.replansUsed + 1);
        if h.replansUsed > spec.budget.maxReplans {
          h := h.(status := HorizonBlocked, reason := ReplansSpent);
          if status.Running? {
            var _ := TransitionTask(Running, Blocked);
          }
        } else {
          h := h.(status := HorizonActive);
        }
        SaveHorizonState(ReplanRequired);
        return Reported(h.status, Replan);
      }
      if !row.terminal {
        h := h.(lastProcessed := Some(|plans| - 1));
        SaveHorizonState(SegmentCompleted);
        return Reported(h.status, SegmentClosed);
      }
      if a.stage.NotAssessed? {
        o := RecordHorizonFailure(false);
        return;
      }
      var closed := h.(lastProcessed := Some(|plans| - 1), usage := Plus(h.usage, a.stage.usage),
          stageIndex := h.stageIndex + 1);
      if closed.stageIndex >= 5 {
        o := CloseLastStage(closed, a.verification);
      } else {
        o := CloseCurrentStage(closed);
      }
    }

    method NoteTaskWait() returns (o: Outcome)
      requires TaskWaits(status)
      modifies this`h, this`log
      ensures (View(), o) == NoteWait(old(View()))
    {
      var wanted := HorizonWaiting;
      var reason := UserPending;
      if status.WaitingApproval? {
        reason := ApprovalPending;
      }
      if status.Paused? {
        wanted, reason := HorizonPaused, ExecutionPaused;
      }
      if h.status != wanted || h.reason.NoReason? {
        h := h.(status := wanted);
        if h.reason.NoReason? {
          h := h.(reason := reason);
        }
        SaveHorizonState(WaitNoted);
      }
      return Reported(h.status, Waiting);
    }

    /** One durable action: plan a segment, run a step, or close a segment or stage. */
    method AdvanceLongHorizonTask(a: Answers) returns (o: Outcome)
      requires HorizonInvariant.Inv(View())
      modifies this
      ensures (View(), o) == AdvanceTask(old(View()), a)
      ensures HorizonInvariant.Inv(View()) && Measure(View()) + Charge(o) <= old(Measure(View()))
    {
      hide HorizonInvariant.Inv, Measure, PlanNext, RunStep, FinishSegment, PauseForBudget, PlanValidation.ReadySet;
      AdvancePromises(View(), a);
      if status.Terminal() || h.status in {HorizonCompleted, HorizonCancelled, HorizonBlocked} {
        return Reported(h.status, Terminal);
      }
      if h.status.HorizonWaiting? && !h.awaiting && (status.ReadyToRun? || status.Running?) {
        h := h.(status := HorizonActive, reason := NoReason);
        SaveHorizonState(WaitResolved);
      }
      if status.WaitingApproval? || status.WaitingUser? || status.Paused? {
        o := NoteTaskWait();
        return;
      }
      if h.status.HorizonPaused? || h.awaiting {
        return Reported(h.status, Waiting);
      }
      if a.deadlinePassed || TokensExhausted(spec.budget, h.usage) {
        o := PauseHorizonForBudget();
        return;
      }
      var latest := plans[|plans| - 1];
      if !latest.horizon || h.lastProcessed == Some(|plans| - 1) {
        if h.stepsPlanned >= spec.budget.maxSteps {
          o := PauseHorizonForBudget();
        } else {
          o := PlanNextSegment(a);
        }
        return;
      }
      var ready := PlanValidation.ReadySteps(latest.plan, latest.statuses);
      if |ready| > 0 {
        o := RunModelStep(ready[0], a.step);
      } else {
        o := FinishHorizonSegment(a);
      }
    }

    method ResumeLongHorizonTask() returns (o: Outcome)
      requires HorizonInvariant.Inv(View())
      modifies this
      ensures (View(), o) == ResumeTask(old(View()))
      ensures HorizonInvariant.Inv(View()) && Measure(View()) <= old(Measure(View()))
    {
      hide HorizonInvariant.Inv, Measure, HasFailedStep;
      OperationPromises(View(), Resume);
      var row := plans[|plans| - 1];
      match status {
        case WaitingUser =>
          if !h.awaiting {
            plans := plans[|plans| - 1 := FailWaitingSteps(row)];
          }
          var _ := TransitionTask(WaitingUser, Running);
        case Paused =>
          if h.hasFailure && HasFailedStep(row) {
            h := h.(lastProcessed := Some(|plans| - 1));
          }
          var _ := TransitionTask(Paused, ReadyToRun);
        case ReadyToRun =>
        case Running =>
        case _ =>
          return OperationError;
      }
      h := h.(status := HorizonActive, awaiting := false, reason := NoReason);
      SaveHorizonState(Resumed);
      return Accepted;
    }

    method CancelLongHorizonTask() returns (o: Outcome)
      requires HorizonInvariant.Inv(View())
      modifies this`status, this`h, this`log
      ensures (View(), o) == CancelTask(old(View()))
      ensures HorizonInvariant.Inv(View()) && Measure(View()) <= old(Measure(View()))
    {
      hide HorizonInvariant.Inv, Measure;
      OperationPromises(View(), Cancel);
      if !status.Terminal() {
        var ok := TransitionTask(status, Cancelled);
        if !ok {
          return OperationError;
        }
      }
      h := h.(status := HorizonCancelled);
      SaveHorizonState(StateCancelled);
      return Accepted;
    }

    method StartApprovedStep(id: string)
      requires plans != [] && status == WaitingApproval
      modifies this`status, this`plans
      ensures View() == WithStep(old(View()), id, StepRunning).(status := Running)
    {
      var _ := TransitionTask(WaitingApproval, Running);
      TransitionStep(id, StepRunning);
    }

    /** Writes an approved change batch and verifies the task at once. */
    method ApprovePendingWrite(id: string, reply: WriteReply) returns (o: Outcome)
      requires HorizonInvariant.Inv(View())
      modifies this
      ensures (View(), o) == ApproveWriteStep(old(View()), id, reply)
      ensures HorizonInvariant.Inv(View()) && Measure(View()) <= old(Measure(View()))
    {
      hide HorizonInvariant.Inv, Measure, IsWriteStep, Verify;
      OperationPromises(View(), ApproveWrite(id, reply));
      if !AwaitsApproval(View(), id) || !IsWriteStep(plans[|plans| - 1].plan.steps, id) || reply.ProposalRefused? {
        return OperationError;
      }
      StepTwice(View(), id, StepRunning, StepFailed);
      StepTwice(View(), id, StepRunning, StepCompleted);
      StartApprovedStep(id);
      if reply.WriteFailed? {
        TransitionStep(id, StepFailed);
        var _ := TransitionTask(Running, Failed);
        return OperationError;
      }
      CompleteModelStep(id);
      var _ := TransitionTask(Running, Verifying);
      var settled := VerifyAndSettle(reply.verification);
      return if settled then Accepted else OperationError;
    }

    method ApprovePendingCommand(id: string, reply: CommandReply) returns (o: Outcome)
      requires HorizonInvariant.Inv(View())
      modifies this
      ensures (View(), o) == ApproveCommandStep(old(View()), id, reply)
      ensures HorizonInvariant.Inv(View()) && Measure(View()) <= old(Measure(View()))
    {
      hide HorizonInvariant.Inv, Measure, IsCommandStep;
      OperationPromises(View(), ApproveCommand(id, reply));
      if !AwaitsApproval(View(), id) || !IsCommandStep(plans[|plans| - 1].plan.steps, id) || reply.CommandRefused? {
        return OperationError;
      }
      StepTwice(View(), id, StepRunning, StepFailed);
      StepTwice(View(), id, StepRunning, StepCompleted);
      StartApprovedStep(id);
      if reply.CommandFailed? {
        TransitionStep(id, StepFailed);
        var _ := TransitionTask(Running, Failed);
        return OperationError;
      }
      evidence := evidence + [COMMAND_RESULT];
      CompleteModelStep(id);
      return Accepted;
    }

    method RecoverRunningTask() returns (o: Outcome)
      requires HorizonInvariant.Inv(View())
      modifies this`status
      ensures (View(), o) == RecoverTask(old(View()))
      ensures HorizonInvariant.Inv(View()) && Measure(View()) <= old(Measure(View()))
    {
      hide HorizonInvariant.Inv, Measure;
      OperationPromises(View(), Recover);
      if !status.Running? {
        return OperationError;
      }
      var _ := TransitionTask(Running, Paused);
      return Accepted;
    }
  }
}
