/** The promises of the long-horizon engine, over every run of a created task. */
module HorizonTheorems {
  import opened Contracts
  import Strings
  import PlanGraph
  import PlanValidation
  import opened Segment
  import opened SegmentPolicy
  import opened Acceptance
  import opened HorizonModel
  import opened HorizonInvariant
  import HorizonRuns
  import opened HorizonMeasure
  import opened HorizonOutcomes

  // Runs.

  /** The worlds before, between and after a sequence of operations, and what each operation returned. */
  datatype Run = Run(worlds: seq<World>, ops: seq<Operation>, outcomes: seq<Outcome>)

  ghost predicate IsStep(run: Run, i: nat) {
    && i + 1 < |run.worlds| && i < |run.ops| && i < |run.outcomes| && run.worlds[i].plans != []
    && (run.worlds[i + 1], run.outcomes[i]) == Perform(run.worlds[i], run.ops[i])
  }

  ghost predicate IsRun(run: Run) {
    && |run.worlds| == |run.ops| + 1 && |run.outcomes| == |run.ops|
    && forall i :: 0 <= i < |run.ops| ==> IsStep(run, i)
  }

  ghost predicate IsCreated(w: World) {
    exists r, initial :: CreateTask(r, initial) == Strings.Some(w)
  }

  /** Any operations with any answers, from the creation of the task. */
  ghost predicate TaskRun(run: Run) {
    IsRun(run) && IsCreated(run.worlds[0])
  }

  lemma CreatedSatisfiesInv(w: World)
    requires IsCreated(w)
    ensures Inv(w) && |w.plans| == 1 && !w.plans[0].horizon && w.h == FRESH_HORIZON
    ensures 1 <= w.spec.budget.maxSteps <= 40 && w.spec.budget.maxReplans >= 0 && w.spec.taskId != ""
  {
    hide Inv;
    var r, initial :| CreateTask(r, initial) == Strings.Some(w);
    HorizonRuns.CreationSatisfiesInv(r, initial);
  }

  lemma ExtendRun(run: Run, ops: seq<Operation>, op: Operation) returns (longer: Run)
    requires IsRun(run) && run.worlds[|run.ops|].plans != [] && run.ops == ops
    ensures IsRun(longer) && longer.ops == ops + [op] && longer.worlds[0] == run.worlds[0]
    ensures longer.worlds[|longer.ops|] == Perform(run.worlds[|run.ops|], op).0
        && longer.worlds[|longer.ops|].plans != []
    ensures longer.outcomes == run.outcomes + [Perform(run.worlds[|run.ops|], op).1]
    ensures longer.worlds[..|run.worlds|] == run.worlds
  {
    hide Perform;
    var n := |run.ops|;
    var r := Perform(run.worlds[n], op);
    OperationIsCounted(run.worlds[n], op);
    longer := Run(run.worlds + [r.0], run.ops + [op], run.outcomes + [r.1]);
    forall i | 0 <= i < |longer.ops| ensures IsStep(longer, i) {
      if i < n { assert IsStep(run, i); }
    }
  }

  /** A run from creation up to a given world. */
  ghost predicate EndsIn(run: Run, w: World) {
    TaskRun(run) && run.worlds[|run.ops|] == w
  }

  lemma Continue(run: Run, w: World, op: Operation) returns (longer: Run)
    requires EndsIn(run, w) && w.plans != []
    ensures EndsIn(longer, Perform(w, op).0) && longer.ops == run.ops + [op] && Perform(w, op).0.plans != []
    ensures longer.outcomes == run.outcomes + [Perform(w, op).1] && longer.worlds == run.worlds + [Perform(w, op).0]
    ensures run.worlds != [] && longer.worlds[0] == run.worlds[0]
  {
    hide Perform, IsCreated, IsStep;
    longer := ExtendRun(run, run.ops, op);
    assert longer.worlds == longer.worlds[..|run.worlds|] + [longer.worlds[|longer.ops|]];
  }

  lemma RunShape(run: Run, w: World)
    requires EndsIn(run, w)
    ensures TaskRun(run) && |run.worlds| == |run.ops| + 1 && |run.outcomes| == |run.ops| && run.worlds[|run.ops|] == w
  {
  }

  /** Every created task can live through every sequence of operations. */
  lemma {:induction false} EverySequenceRuns(w: World, ops: seq<Operation>) returns (run: Run)
    requires w.plans != []
    ensures IsRun(run) && run.ops == ops && run.worlds[0] == w && run.worlds[|ops|].plans != []
  {
    hide IsStep;
    if ops == [] {
      run := Run([w], [], []);
    } else {
      var shorter := EverySequenceRuns(w, ops[..|ops| - 1]);
      run := ExtendRun(shorter, ops[..|ops| - 1], ops[|ops| - 1]);
      assert ops == ops[..|ops| - 1] + [ops[|ops| - 1]];
    }
  }

  /** The invariant holds at every point of every run. */
  lemma {:induction false} RunKeepsInv(run: Run, n: nat)
    requires IsRun(run) && Inv(run.worlds[0]) && n <= |run.ops|
    ensures Inv(run.worlds[n]) && run.worlds[n].spec == run.worlds[0].spec
  {
    hide Budgeted, KeepsPolicy, NeverRepeats, StagesInOrder, Checkpointed, CompletedOnlyByReport, Perform;
    if n > 0 {
      RunKeepsInv(run, n - 1);
      assert IsStep(run, n - 1);
      HorizonRuns.OperationKeepsInv(run.worlds[n - 1], run.ops[n - 1]);
      OperationIsCounted(run.worlds[n - 1], run.ops[n - 1]);
    }
  }

  lemma TaskRunKeepsInv(run: Run, n: nat)
    requires TaskRun(run) && n <= |run.ops|
    ensures Inv(run.worlds[n]) && run.worlds[n].spec == run.worlds[0].spec
  {
    hide Inv, IsCreated, IsStep;
    CreatedSatisfiesInv(run.worlds[0]);
    RunKeepsInv(run, n);
  }

  // Termination.

  function ActiveIn(outcomes: seq<Outcome>): nat {
    if outcomes == [] then 0 else ActiveIn(outcomes[..|outcomes| - 1]) + Charge(outcomes[|outcomes| - 1])
  }

  lemma {:induction false} ReportsAreCharged(run: Run, n: nat)
    requires IsRun(run) && Inv(run.worlds[0]) && n <= |run.ops|
    ensures Measure(run.worlds[n]) + ActiveIn(run.outcomes[..n]) <= Measure(run.worlds[0])
  {
    hide Budgeted, KeepsPolicy, NeverRepeats, StagesInOrder, Checkpointed, CompletedOnlyByReport, Perform, Measure;
    if n > 0 {
      ReportsAreCharged(run, n - 1);
      RunKeepsInv(run, n - 1);
      assert IsStep(run, n - 1);
      OperationLowers(run.worlds[n - 1], run.ops[n - 1]);
      assert run.outcomes[..n][..n - 1] == run.outcomes[..n - 1];
    }
  }

  /** Whatever is answered and whatever callers do in between, a long-horizon task reports ACTIVE with
      something done at most three times per step of its budget. */
  lemma ActiveReportsAreBounded(run: Run)
    requires TaskRun(run)
    ensures ActiveIn(run.outcomes) <= 3 * run.worlds[0].spec.budget.maxSteps <= 120
  {
    hide KeepsPolicy, NeverRepeats, StagesInOrder, Checkpointed, CompletedOnlyByReport, IsCreated, IsStep;
    var n := |run.ops|;
    CreatedSatisfiesInv(run.worlds[0]);
    ReportsAreCharged(run, n);
    RunKeepsInv(run, n);
    assert run.outcomes[..n] == run.outcomes;
    assert Measure(run.worlds[n]) >= 0;
    assert Measure(run.worlds[0]) == 3 * run.worlds[0].spec.budget.maxSteps;
  }

  // Replans.

  function ReplansIn(outcomes: seq<Outcome>): nat {
    if outcomes == [] then 0 else ReplansIn(outcomes[..|outcomes| - 1]) + ReplanCharge(outcomes[|outcomes| - 1])
  }

  lemma {:induction false} ReplansWithinBudget(run: Run, n: nat)
    requires IsRun(run) && run.worlds[0].h.replansUsed == 0 && run.worlds[0].spec.budget.maxReplans >= 0
        && n <= |run.ops|
    ensures ReplansIn(run.outcomes[..n]) <= run.worlds[n].h.replansUsed
    ensures ReplansIn(run.outcomes[..n]) <= run.worlds[0].spec.budget.maxReplans
    ensures run.worlds[n].spec == run.worlds[0].spec
  {
    hide Perform;
    if n > 0 {
      ReplansWithinBudget(run, n - 1);
      assert IsStep(run, n - 1);
      OperationIsCounted(run.worlds[n - 1], run.ops[n - 1]);
      assert run.outcomes[..n][..n - 1] == run.outcomes[..n - 1];
    }
  }

  /** The replacements that keep the task ACTIVE never are more than the limit, whatever the counter says. */
  lemma AutomaticReplansAreBounded(run: Run)
    requires TaskRun(run)
    ensures ReplansIn(run.outcomes) <= run.worlds[0].spec.budget.maxReplans
  {
    hide Inv, IsCreated, IsStep;
    CreatedSatisfiesInv(run.worlds[0]);
    ReplansWithinBudget(run, |run.ops|);
    assert run.outcomes[..|run.ops|] == run.outcomes;
  }

  function FailuresIn(outcomes: seq<Outcome>): nat {
    if outcomes == [] then 0 else FailuresIn(outcomes[..|outcomes| - 1]) + FailureCharge(outcomes[|outcomes| - 1])
  }

  lemma {:induction false} CounterCounts(run: Run, n: nat)
    requires IsRun(run) && n <= |run.ops| && run.worlds[0].h.replansUsed == 0
    ensures run.worlds[n].h.replansUsed == FailuresIn(run.outcomes[..n])
  {
    hide Perform;
    if n > 0 {
      CounterCounts(run, n - 1);
      assert IsStep(run, n - 1);
      OperationIsCounted(run.worlds[n - 1], run.ops[n - 1]);
      assert run.outcomes[..n][..n - 1] == run.outcomes[..n - 1];
    }
  }

  /** The replan counter is the number of cycles that failed or were replaced. */
  lemma ReplanCounterIsExact(run: Run, n: nat)
    requires TaskRun(run) && n <= |run.ops|
    ensures run.worlds[n].h.replansUsed == FailuresIn(run.outcomes[..n])
  {
    hide Inv, IsCreated, IsStep;
    CreatedSatisfiesInv(run.worlds[0]);
    CounterCounts(run, n);
  }

  /** A cycle that fails or is replaced with the counter at its limit. */
  ghost predicate PassesTheLimit(run: Run, i: nat) {
    && i < |run.worlds| && i < |run.outcomes| && FailureCharge(run.outcomes[i]) == 1
    && run.worlds[i].h.replansUsed == run.worlds[i].spec.budget.maxReplans
  }

  lemma {:induction false} PassedLimitIff(run: Run, n: nat)
    requires IsRun(run) && n <= |run.ops| && run.worlds[0].h.replansUsed <= run.worlds[0].spec.budget.maxReplans
    ensures run.worlds[n].h.replansUsed > run.worlds[n].spec.budget.maxReplans <==>
      exists i: nat :: i < n && PassesTheLimit(run, i)
  {
    hide Perform;
    if n > 0 {
      PassedLimitIff(run, n - 1);
      assert IsStep(run, n - 1);
      OperationIsCounted(run.worlds[n - 1], run.ops[n - 1]);
      if run.worlds[n].h.replansUsed > run.worlds[n].spec.budget.maxReplans >= run.worlds[n - 1].h.replansUsed {
        assert PassesTheLimit(run, n - 1);
      }
    }
  }

  /** The counter is past its limit exactly when some cycle failed or was replaced with the counter at the limit. */
  lemma ReplanCounterOvershootsIff(run: Run, n: nat)
    requires TaskRun(run) && n <= |run.ops|
    ensures run.worlds[n].h.replansUsed > run.worlds[n].spec.budget.maxReplans <==>
      exists i: nat :: i < n && PassesTheLimit(run, i)
  {
    hide Inv, IsCreated, IsStep, PassesTheLimit;
    CreatedSatisfiesInv(run.worlds[0]);
    PassedLimitIff(run, n);
  }

  function ResumesIn(ops: seq<Operation>, outcomes: seq<Outcome>): nat
    requires |ops| == |outcomes|
  {
    if ops == [] then 0
    else
      var last := |ops| - 1;
      ResumesIn(ops[..last], outcomes[..last]) + if IsResume(ops[last], outcomes[last]) then 1 else 0
  }

  lemma {:induction false} CounterStaysWithinResumes(run: Run, n: nat)
    requires IsRun(run) && n <= |run.ops| && WithinResumes(run.worlds[0], 0)
    ensures WithinResumes(run.worlds[n], ResumesIn(run.ops[..n], run.outcomes[..n]))
  {
    hide Perform, WithinResumes;
    if n > 0 {
      CounterStaysWithinResumes(run, n - 1);
      assert IsStep(run, n - 1);
      assert run.outcomes[..n][..n - 1] == run.outcomes[..n - 1] && run.ops[..n][..n - 1] == run.ops[..n - 1];
      OperationKeepsWithinResumes(run.worlds[n - 1], run.ops[n - 1],
        ResumesIn(run.ops[..n - 1], run.outcomes[..n - 1]));
    }
  }

  /** The counter passes its limit by at most one, and by one more with each accepted resume. */
  lemma ReplanCounterIsBounded(run: Run, n: nat)
    requires TaskRun(run) && n <= |run.ops|
    ensures run.worlds[n].h.replansUsed
      <= run.worlds[0].spec.budget.maxReplans + 1 + ResumesIn(run.ops[..n], run.outcomes[..n])
  {
    hide Inv, IsCreated, IsStep;
    CreatedSatisfiesInv(run.worlds[0]);
    CounterStaysWithinResumes(run, n);
    TaskRunKeepsInv(run, n);
  }

  // Stages.

  /** Every stage below the index was closed by a persisted terminal segment with all steps completed;
      a completed horizon has closed all five stages of a completed task. */
  lemma StagesCloseInOrder(run: Run, n: nat)
    requires TaskRun(run) && n <= |run.ops|
    ensures var w := run.worlds[n];
      && w.h.stageIndex <= 5
      && (forall k :: 0 <= k < w.h.stageIndex ==> StageClosedIn(w.plans, k))
      && (w.h.status.HorizonCompleted? ==> w.h.stageIndex == 5 && w.status.Completed?)
  {
    hide KeepsPolicy, NeverRepeats, Checkpointed, CompletedOnlyByReport, Budgeted, TaskRun, StageClosedIn;
    TaskRunKeepsInv(run, n);
  }

  // Policy.

  lemma PlannedStepKeepsPolicy(w: World, p: nat, i: nat)
    requires KeepsPolicy(w) && p < |w.plans| && w.plans[p].horizon && i < |w.plans[p].plan.steps|
    ensures StepPolicy(w.plans[p].plan.steps[i], w.plans[p].stage, w.spec.mode)
  {
    hide StepPolicy, PlanValidation.ValidPlan, DistinctKeys, Mutates;
  }

  lemma StepPolicySays(step: StepSpec, stage: StageId, mode: PermissionMode)
    requires StepPolicy(step, stage, mode)
    ensures RiskIsMaximal(step, RiskTableOf(SegmentTools(stage, mode))) && AllowsRisk(mode, step.risk)
    ensures stage in {Discover, Design} ==> step.risk.Read?
    ensures !step.risk.Read? ==> stage.Implement? || (stage in {VerifyRepair, Finalize} && ChangesOnlyByCommand(step))
  {
    hide RiskIsMaximal, SegmentTools, RiskTableOf, ChangesOnlyByCommand, AllowsRisk;
  }

  /** In every run each planned step has the highest risk of its tools, a risk its task's mode allows, and
      READ in the two opening stages; elsewhere but in IMPLEMENT it changes things only by project commands. */
  lemma EveryStepKeepsPolicy(run: Run, n: nat, p: nat, i: nat)
    requires TaskRun(run) && n <= |run.ops|
    requires p < |run.worlds[n].plans| && run.worlds[n].plans[p].horizon && i < |run.worlds[n].plans[p].plan.steps|
    ensures var row := run.worlds[n].plans[p];
      var step := row.plan.steps[i];
      var mode := run.worlds[0].spec.mode;
      && RiskIsMaximal(step, RiskTableOf(SegmentTools(row.stage, mode))) && AllowsRisk(mode, step.risk)
      && (row.stage in {Discover, Design} ==> step.risk.Read?)
      && (!step.risk.Read? ==>
          row.stage.Implement? || (row.stage in {VerifyRepair, Finalize} && ChangesOnlyByCommand(step)))
  {
    var w := run.worlds[n];
    hide KeepsPolicy, NeverRepeats, StagesInOrder, Checkpointed, CompletedOnlyByReport, Budgeted, TaskRun,
         RiskIsMaximal, SegmentTools, RiskTableOf, ChangesOnlyByCommand, AllowsRisk, StepPolicy, Shape;
    TaskRunKeepsInv(run, n);
    PlannedStepKeepsPolicy(w, p, i);
    StepPolicySays(w.plans[p].plan.steps[i], w.plans[p].stage, w.spec.mode);
  }

  lemma SegmentPolicySays(w: World, p: nat)
    requires KeepsPolicy(w) && p < |w.plans| && w.plans[p].horizon
    ensures var row := w.plans[p];
      && PlanValidation.ValidPlan(row.plan, 4) && 1 <= |row.plan.steps| <= 4
      && (forall i :: 0 <= i < |row.plan.steps| ==> AllowsRisk(w.spec.mode, row.plan.steps[i].risk))
      && (row.stage.Implement? && w.spec.mode in {EditMode, DevelopmentMode} ==> Mutates(row.plan.steps))
  {
    hide RiskIsMaximal, SegmentTools, RiskTableOf, ChangesOnlyByCommand, PlanGraph.Acyclic, PlanValidation.GraphOf,
         AllowsRisk;
    var row := w.plans[p];
    forall i | 0 <= i < |row.plan.steps| ensures AllowsRisk(w.spec.mode, row.plan.steps[i].risk) {
      assert StepPolicy(row.plan.steps[i], row.stage, w.spec.mode);
    }
  }

  /** In every run each segment is a valid plan of one to four steps, and an EDIT-mode IMPLEMENT segment writes. */
  lemma EverySegmentKeepsPolicy(run: Run, n: nat, p: nat)
    requires TaskRun(run) && n <= |run.ops| && p < |run.worlds[n].plans| && run.worlds[n].plans[p].horizon
    ensures var row := run.worlds[n].plans[p];
      && PlanValidation.ValidPlan(row.plan, 4) && 1 <= |row.plan.steps| <= 4
      && (row.stage.Implement? && run.worlds[0].spec.mode.EditMode? ==>
            exists i :: 0 <= i < |row.plan.steps| && row.plan.steps[i].risk.Write?)
  {
    var row, mode := run.worlds[n].plans[p], run.worlds[0].spec.mode;
    hide NeverRepeats, StagesInOrder, Checkpointed, CompletedOnlyByReport, Budgeted, TaskRun, KeepsPolicy, Shape,
         PlanValidation.ValidPlan;
    TaskRunKeepsInv(run, n);
    SegmentPolicySays(run.worlds[n], p);
  }

  lemma PlannedWorkDiffers(w: World, p: nat, q: nat, i: nat, j: nat)
    requires KeepsPolicy(w) && NeverRepeats(w)
    requires p <= q < |w.plans| && w.plans[p].horizon && w.plans[q].horizon && w.plans[p].stage == w.plans[q].stage
    requires i < |w.plans[p].plan.steps| && j < |w.plans[q].plan.steps| && (p < q || i < j)
    ensures KeyOf(w.plans[p].plan.steps[i]) != KeyOf(w.plans[q].plan.steps[j])
  {
    hide KeyOf, PlanValidation.ValidPlan, StepPolicy, Mutates;
    if p == q { assert DistinctKeys(w.plans[p].plan.steps); }
  }

  /** In every run the steps planned in one stage differ pairwise in goal or tools, up to case, spacing and order. */
  lemma WorkIsNeverPlannedTwice(run: Run, n: nat, p: nat, q: nat, i: nat, j: nat)
    requires TaskRun(run) && n <= |run.ops| && p <= q < |run.worlds[n].plans|
    requires run.worlds[n].plans[p].horizon && run.worlds[n].plans[q].horizon
    requires run.worlds[n].plans[p].stage == run.worlds[n].plans[q].stage
    requires i < |run.worlds[n].plans[p].plan.steps| && j < |run.worlds[n].plans[q].plan.steps| && (p < q || i < j)
    ensures KeyOf(run.worlds[n].plans[p].plan.steps[i]) != KeyOf(run.worlds[n].plans[q].plan.steps[j])
  {
    var w := run.worlds[n];
    hide KeepsPolicy, NeverRepeats, StagesInOrder, Checkpointed, CompletedOnlyByReport, Budgeted, TaskRun, KeyOf;
    TaskRunKeepsInv(run, n);
    PlannedWorkDiffers(w, p, q, i, j);
  }

  // Checkpoints.

  /** The event that persisted a plan, and before it, where the stage lies behind a checkpoint, the closing of the
      previous stage and a resume. */
  ghost predicate PersistedAfterApproval(w: World, r: nat, p: nat, k: nat) {
    && r < |w.plans| && p < |w.log| && k < 5 && w.log[p] == SegmentPlanned(r, k) && STAGES[k] == w.plans[r].stage
    && (NeedsApproval(w.spec.policy, k) ==> ApprovedInLog(w.log[..p], k))
  }

  /** A plan of a stage behind a checkpoint is persisted only after the stage before it was closed and a
      Resume followed. */
  lemma PlansWaitForApproval(run: Run, n: nat, r: nat)
    requires TaskRun(run) && n <= |run.ops| && r < |run.worlds[n].plans| && run.worlds[n].plans[r].horizon
    ensures exists p, k :: PersistedAfterApproval(run.worlds[n], r, p, k)
  {
    var v := run.worlds[n];
    hide KeepsPolicy, NeverRepeats, StagesInOrder, CompletedOnlyByReport, Budgeted, TaskRun, NeedsApproval,
         ApprovedInLog;
    TaskRunKeepsInv(run, n);
    var p :| 0 <= p < |v.log| && v.log[p].SegmentPlanned? && v.log[p].plan == r
        && StageAt(v.log[p].stage) == v.plans[r].stage
             && v.log[p].stage < 5;
    assert PersistedAfterApproval(v, r, p, v.log[p].stage);
  }

  /** The stages behind a checkpoint: IMPLEMENT under KEY_STAGES, all but the first under EVERY_STAGE. */
  lemma StagesBehindCheckpoints(policy: CheckpointPolicy, k: nat)
    requires k < 5
    ensures NeedsApproval(policy, k) <==>
      ((policy.KeyStages? && STAGES[k] == Implement) || (policy.EveryStage? && STAGES[k] != Discover))
  {
    assert STAGES[0] == Discover && STAGES[1] == Design && STAGES[2] == Implement && STAGES[3] == VerifyRepair
        && STAGES[4] == Finalize;
  }

  // Acceptance.

  /** A completed task has criteria and a persisted passing report that justifies it by evidence it still has. */
  lemma CompletedTasksWereAccepted(run: Run, n: nat)
    requires TaskRun(run) && n <= |run.ops| && run.worlds[n].status.Completed?
    ensures Justified(run.worlds[n].reports, run.worlds[n].spec.criteria, run.worlds[n].evidence)
  {
    var w := run.worlds[n];
    hide KeepsPolicy, NeverRepeats, StagesInOrder, Checkpointed, Budgeted, TaskRun, PassedBy, Justified;
    TaskRunKeepsInv(run, n);
    PassedIsJustified(w.reports, w.spec.criteria, w.evidence);
  }

  // Two stops that never happen.

  /** Every executed step adds evidence, so the stop for three cycles without new evidence never happens. */
  lemma StepRunsNeverStall(run: Run, n: nat)
    requires TaskRun(run) && n <= |run.ops|
    ensures run.worlds[n].h.reason !in {NoNewEvidence, AcceptanceFailed}
  {
    hide KeepsPolicy, NeverRepeats, StagesInOrder, Checkpointed, Budgeted, TaskRun, CompletedOnlyByReport;
    TaskRunKeepsInv(run, n);
  }

  /** An executed step leaves the task running or waiting, and its horizon active. */
  lemma StepRunsNeverComplete(run: Run, i: nat)
    requires TaskRun(run) && i < |run.ops|
    requires run.outcomes[i].Reported? && run.outcomes[i].action.StepExecuted?
    ensures run.worlds[i + 1].status in {Running, WaitingUser, WaitingApproval}
    ensures run.worlds[i + 1].h.status.HorizonActive?
  {
    var w, op := run.worlds[i], run.ops[i];
    assert IsStep(run, i);
    hide Inv, TaskRun, AdvanceTask;
    TaskRunKeepsInv(run, i);
    if op.Advance? {
      ExecutedStepLeavesTheTaskOpen(w, op.answers);
    } else {
      OtherOperationsReportNothing(w, op);
    }
  }

  // Completion by approval.

  /** Approving a write gives the task its verdict at once: completed exactly when the acceptance criteria are
      met, whatever else its plan still holds. All steps are completed then exactly when all others were before. */
  lemma WriteApprovalSettlesTheTask(w: World, id: string, passing: set<nat>)
    requires w.plans != [] && AwaitsApproval(w, id) && IsWriteStep(Latest(w).plan.steps, id)
    ensures var v := ApproveWriteStep(w, id, Written(Verified(passing))).0;
      && v.plans != [] && v.status in {Completed, Failed}
      && (v.status.Completed? <==>
            (w.spec.criteria != [] && forall i :: 0 <= i < |w.spec.criteria| ==>
                Met(w.spec.criteria[i], w.evidence, i in passing)))
      && (AllCompleted(Latest(v)) <==>
            forall i :: 0 <= i < |Latest(w).plan.steps| && Latest(w).plan.steps[i].stepId != id ==>
              PlanValidation.StatusIs(Latest(w).statuses, Latest(w).plan.steps[i].stepId, StepCompleted))
  {
    hide ReportOf, Met, IsWriteStep;
    ReportPassesIffCriteriaMet(w.spec.criteria, w.evidence, passing);
    var v := ApproveWriteStep(w, id, Written(Verified(passing))).0;
    assert Latest(v).plan == Latest(w).plan && Latest(v).statuses == Latest(w).statuses[id := StepCompleted];
  }

  /** An approval that settled its task. */
  ghost predicate WriteWasAccepted(run: Run, i: nat) {
    i < |run.ops| && i < |run.outcomes| && run.ops[i].ApproveWrite? && run.outcomes[i].Accepted?
  }

  /** After an accepted write approval the task is settled short of the last stage; before one it is completed only
      with all stages closed. */
  lemma {:induction false} WritesSettleEarly(run: Run, n: nat)
    requires TaskRun(run) && n <= |run.ops|
    ensures (exists i: nat :: i < n && WriteWasAccepted(run, i)) ==>
      run.worlds[n].status in {Completed, Failed} && run.worlds[n].h.stageIndex < 5
    ensures (forall i: nat :: i < n ==> !WriteWasAccepted(run, i)) ==>
      (run.worlds[n].status.Completed? ==> run.worlds[n].h.stageIndex == 5)
  {
    hide Budgeted, KeepsPolicy, NeverRepeats, StagesInOrder, Checkpointed, CompletedOnlyByReport, Shape, AdvanceTask,
         ResumeTask, CancelTask, ApproveWriteStep, ApproveCommandStep, RecoverTask;
    if n == 0 {
      assert !run.worlds[0].status.Completed?;
    } else {
      var w, op := run.worlds[n - 1], run.ops[n - 1];
      WritesSettleEarly(run, n - 1);
      TaskRunKeepsInv(run, n - 1);
      TaskRunKeepsInv(run, n);
      assert IsStep(run, n - 1);
      if w.status.Terminal() {
        TerminalStays(w, op);
      } else if op.ApproveWrite? && run.outcomes[n - 1].Accepted? {
        AcceptedWriteSettles(w, op.stepId, op.write);
        assert WriteWasAccepted(run, n - 1);
      } else if op.Advance? {
        if run.worlds[n].status.Completed? { AdvanceCompletesByClosing(w, op.answers); }
      } else {
        OtherOperationsCompleteNothing(w, op);
      }
    }
  }

  /** A completed task has all five stages closed exactly when no write approval settled it. */
  lemma CompletionClosesAllStagesIff(run: Run, n: nat)
    requires TaskRun(run) && n <= |run.ops| && run.worlds[n].status.Completed?
    ensures var w := run.worlds[n];
      && (w.h.stageIndex == 5 <==> forall i: nat :: i < n ==> !WriteWasAccepted(run, i))
      && (w.h.stageIndex == 5 ==> forall k :: 0 <= k < 5 ==> StageClosedIn(w.plans, k))
  {
    hide TaskRun, StageClosedIn, WriteWasAccepted;
    WritesSettleEarly(run, n);
    StagesCloseInOrder(run, n);
  }
}
