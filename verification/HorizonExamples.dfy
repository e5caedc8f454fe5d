/** Concrete runs from a created task (internal/app/long_horizon.go) into the states of which the theorems say that
    the engine does not do there what a caller expects. Each run is built operation by operation from fixed answers:
    a planner that proposes one read step per stage, a worker that succeeds, and an assessment without tokens.
    - ReplanCounterOvershoots: a failure, a manual resume and a second failure under a limit of one replan;
      ReplanCounterOvershootsAlone: an automatic replan and a failure, without any resume.
    - PauseAtTheEndIsReachable: all five stages are done, then recovery pauses the task and a resume makes it READY,
      with all steps of the budget planned or with some left.
    - EarlyCompletionIsReachable: the third stage plans a write and a second step; approving the write completes
      the task. */
module HorizonExamples {
  import opened Contracts
  import Ordering
  import opened Strings
  import PlanGraph
  import opened PlanValidation
  import opened Segment
  import opened SegmentPolicy
  import opened Acceptance
  import opened HorizonModel
  import opened HorizonInvariant
  import opened HorizonTheorems
  import opened HorizonEnd
  import opened ReadingSegment

  // A task, and runs of reading segments in all its stages.

  const INITIAL := PlanVersion(SCHEMA_VERSION, "p", "t", [])

  /** Without checkpoints, and with room for a reading step in every stage. */
  function RequestFor(mode: PermissionMode, maxSteps: int, maxReplans: int): Request {
    Request("t", mode, Budget(maxSteps, maxReplans, 4, 0, 0), Some(NoCheckpoints), [], true, 8192, true)
  }

  const PLANS := PlansReading("g")

  ghost predicate PlainSpec(spec: TaskSpec, mode: PermissionMode) {
    exists maxSteps, maxReplans :: 5 <= maxSteps <= 40 && spec == SpecOf(RequestFor(mode, maxSteps, maxReplans))
  }

  // One stage: plan, run, close.

  /** What stays the same while stage k is worked on: everything before went smoothly. */
  ghost predicate Smooth(w: World, k: nat, mode: PermissionMode) {
    && k < 5 && PlainSpec(w.spec, mode) && Moving(w) && w.h.stageIndex == k && w.h.usage == Usage(0, 0)
    && (w.h.lastProcessed.Some? ==> w.h.lastProcessed.value < |w.plans|) && !w.h.hasFailure
    && (forall e :: e in w.evidence ==> e == AGENT_REPORT)
  }

  /** No segment of stage k or a later one was planned yet. */
  ghost predicate NoneFrom(plans: seq<PlanRow>, k: nat) {
    forall p, j :: 0 <= p < |plans| && plans[p].horizon && k <= j < 5 ==> plans[p].stage != STAGES[j]
  }

  /** The task is about to plan stage k. */
  ghost predicate About(w: World, k: nat, mode: PermissionMode) {
    && Smooth(w, k, mode) && !Unprocessed(w) && w.h.stepsPlanned == k && NoneFrom(w.plans, k)
    && (k > 0 ==> w.evidence != [])
  }

  /** The stage's segment is there, and its step can run. */
  ghost predicate Planned1(w: World, k: nat, mode: PermissionMode) {
    Smooth(w, k, mode) && ReadingIs(w, "g", StepPending) && w.h.stepsPlanned == k + 1 && NoneFrom(w.plans, k + 1)
  }

  /** The stage's step is done. */
  ghost predicate Executed1(w: World, k: nat, mode: PermissionMode) {
    && Smooth(w, k, mode) && w.status.Running? && ReadingIs(w, "g", StepCompleted) && w.h.stepsPlanned == k + 1
    && NoneFrom(w.plans, k + 1) && w.evidence != []
  }

  lemma StagesDiffer(i: nat, j: nat)
    requires i < j < 5
    ensures STAGES[i] != STAGES[j]
  {
  }

  lemma PlainSpecIs(spec: TaskSpec, mode: PermissionMode)
    requires PlainSpec(spec, mode)
    ensures spec.mode == mode && spec.taskId != "" && spec.policy.NoCheckpoints? && 5 <= spec.budget.maxSteps <= 40
    ensures spec.budget.maxInputTokens == 0 == spec.budget.maxOutputTokens && spec.budget.maxSegmentSteps == 4
    ensures spec.criteria == [HorizonModel.DEFAULT_CRITERION]
  {
  }

  lemma NothingOfThisStageYet(w: World, k: nat)
    requires k < 5 && NoneFrom(w.plans, k)
    ensures forall key :: KeyIsNew(w.plans, STAGES[k], key)
  {
    hide KeyOf;
  }

  lemma RowIsOfStage(plans: seq<PlanRow>, row: PlanRow, k: nat)
    requires k < 5 && NoneFrom(plans, k) && row.stage == STAGES[k]
    ensures NoneFrom(plans + [row], k + 1)
  {
    forall p, j | 0 <= p < |plans + [row]| && (plans + [row])[p].horizon && k + 1 <= j < 5
      ensures (plans + [row])[p].stage != STAGES[j]
    {
      if p == |plans| { StagesDiffer(k, j); }
    }
  }

  lemma StageIsPlanned(w: World, k: nat, mode: PermissionMode)
    requires About(w, k, mode) && mode in {PlanMode, EditMode} && (k == 2 ==> mode.PlanMode?)
    ensures Planned1(AdvanceTask(w, PLANS).0, k, mode)
  {
    hide AdvanceTask, PlainSpec, KeyIsNew, Blank, KeyOf, NoneFrom;
    PlainSpecIs(w.spec, mode);
    OneLetterIsNotBlank();
    NothingOfThisStageYet(w, k);
    ReadingIsPlanned(w, "g");
    var v := AdvanceTask(w, PLANS).0;
    RowIsOfStage(w.plans, Latest(v), k);
  }

  lemma SameStages(a: seq<PlanRow>, b: seq<PlanRow>, k: nat)
    requires |a| == |b| && NoneFrom(a, k)
    requires forall p :: 0 <= p < |a| ==> a[p].horizon == b[p].horizon && a[p].stage == b[p].stage
    ensures NoneFrom(b, k)
  {
  }

  lemma StageIsRun(w: World, k: nat, mode: PermissionMode)
    requires Planned1(w, k, mode) && mode in {PlanMode, EditMode} && w.h.lastEvidenceCount <= |w.evidence|
    ensures Executed1(AdvanceTask(w, RUNS).0, k, mode)
  {
    hide AdvanceTask, PlainSpec, NoneFrom;
    PlainSpecIs(w.spec, mode);
    ReadingIsRun(w, "g");
    SameStages(w.plans, AdvanceTask(w, RUNS).0.plans, k + 1);
  }

  lemma ClosedWithoutCheckpoint(w: World, closed: Horizon)
    requires w.spec.policy.NoCheckpoints?
    ensures CloseStage(w, closed).0 == Save(w.(h := closed), StageAdvanced)
  {
    hide StageAt;
  }

  lemma StageClosesWithoutCheckpoint(w: World, a: Answers)
    requires w.plans != [] && AllCompleted(Latest(w)) && Latest(w).terminal && w.h.stageIndex < 4
    requires w.spec.policy.NoCheckpoints? && w.h.usage == Usage(0, 0) && a.stage == Assessed(Usage(0, 0))
    ensures FinishSegment(w, a).0
      == Save(w.(h := w.h.(lastProcessed := Some(|w.plans| - 1), stageIndex := w.h.stageIndex + 1)), StageAdvanced)
  {
    hide AllCompleted, StageAt, RecordFailure, ReplanSegment, CloseTask, CloseStage, Save;
    var closed := w.h.(lastProcessed := Some(|w.plans| - 1), usage := Usage(0, 0), stageIndex := w.h.stageIndex + 1);
    assert closed == w.h.(lastProcessed := Some(|w.plans| - 1), stageIndex := w.h.stageIndex + 1);
    ClosedWithoutCheckpoint(w, closed);
  }

  lemma StageIsClosed(w: World, k: nat, mode: PermissionMode)
    requires Executed1(w, k, mode) && k < 4
    ensures About(AdvanceTask(w, CLOSES).0, k + 1, mode)
  {
    hide Ready, AdvanceTask, StageAt, FinishSegment, PlainSpec, NoneFrom;
    PlainSpecIs(w.spec, mode);
    AdvanceWorks(w, CLOSES);
    assert AllCompleted(Latest(w));
    NothingReadyAtTheEnd(w);
    StageClosesWithoutCheckpoint(w, CLOSES);
    var v := AdvanceTask(w, CLOSES).0;
    assert v == FinishSegment(w, CLOSES).0;
    assert v.plans == w.plans && v.evidence == w.evidence;
  }

  // Runs.

  lemma Begin(mode: PermissionMode, maxSteps: int, maxReplans: int) returns (run: Run, w: World)
    requires mode in {PlanMode, EditMode} && 5 <= maxSteps <= 40 && 1 <= maxReplans <= 4
    ensures EndsIn(run, w) && run.ops == [] && run.worlds == [w] && About(w, 0, mode)
    ensures w.spec == SpecOf(RequestFor(mode, maxSteps, maxReplans)) && w.h == FRESH_HORIZON
  {
    var created := CreateTask(RequestFor(mode, maxSteps, maxReplans), INITIAL);
    assert created.Some?;
    w := created.value;
    run := Run([w], [], []);
    assert IsCreated(w);
    assert PlainSpec(w.spec, mode);
  }

  /** A smooth run up to the planning of stage k. */
  lemma {:induction false} RunToStage(k: nat, mode: PermissionMode, maxSteps: int) returns (run: Run, w: World)
    requires k < 5 && mode in {PlanMode, EditMode} && (k > 2 ==> mode.PlanMode?) && 5 <= maxSteps <= 40
    ensures EndsIn(run, w) && About(w, k, mode)
    ensures run.worlds != [] && run.worlds[0].spec.budget.maxSteps == maxSteps
  {
    hide EndsIn, About, Executed1, AdvanceTask;
    if k == 0 {
      run, w := Begin(mode, maxSteps, 4);
    } else {
      run, w := RunToStage(k - 1, mode, maxSteps);
      run, w := RunThroughStep(run, w, k - 1, mode);
      StageIsClosed(w, k - 1, mode);
      ExecutedHasPlans(w, k - 1, mode);
      run := Continue(run, w, Advance(CLOSES));
      w := AdvanceTask(w, CLOSES).0;
    }
  }

  lemma ExecutedHasPlans(w: World, k: nat, mode: PermissionMode)
    requires Executed1(w, k, mode)
    ensures w.plans != []
  {
  }

  lemma LastCountIsPast(run: Run, w: World)
    requires EndsIn(run, w)
    ensures w.h.lastEvidenceCount <= |w.evidence| && w.plans != [] && run.worlds != []
    ensures w.spec == run.worlds[0].spec
  {
    hide KeepsPolicy, NeverRepeats, StagesInOrder, Checkpointed, CompletedOnlyByReport, Budgeted, IsCreated, IsStep;
    TaskRunKeepsInv(run, |run.ops|);
  }

  /** Plans a stage and runs its step. */
  lemma RunThroughStep(start: Run, w: World, k: nat, mode: PermissionMode) returns (run: Run, v: World)
    requires EndsIn(start, w) && About(w, k, mode) && mode in {PlanMode, EditMode} && (k == 2 ==> mode.PlanMode?)
    ensures EndsIn(run, v) && Executed1(v, k, mode)
    ensures start.worlds != [] && run.worlds != [] && run.worlds[0] == start.worlds[0]
  {
    hide EndsIn, About, Planned1, Executed1, AdvanceTask;
    LastCountIsPast(start, w);
    StageIsPlanned(w, k, mode);
    run := Continue(start, w, Advance(PLANS));
    v := AdvanceTask(w, PLANS).0;
    LastCountIsPast(run, v);
    StageIsRun(v, k, mode);
    run := Continue(run, v, Advance(RUNS));
    v := AdvanceTask(v, RUNS).0;
  }

  /** A created task can stand at its end, be paused by recovery and be resumed, with all steps of its budget planned
      or with some left: with five of them nothing closes it any more, with more of them a new segment does. */
  lemma PauseAtTheEndIsReachable(maxSteps: int) returns (run: Run)
    requires 5 <= maxSteps <= 40
    ensures TaskRun(run) && |run.ops| >= 2
    ensures var n := |run.ops| - 2;
      && run.ops[n].Recover? && run.ops[n + 1].Resume?
      && AtTheEnd(run.worlds[n]) && run.worlds[n].status.Running?
      && ReadyAtTheEnd(run.worlds[n + 2])
      && run.worlds[n + 2].h.stepsPlanned == 5 && run.worlds[n + 2].spec.budget.maxSteps == maxSteps
  {
    hide EndsIn, AdvanceTask, TaskRun, IsCreated, IsStep, Executed1, AtTheEnd;
    var w: World;
    run, w := RunToStage(4, PlanMode, maxSteps);
    run, w := RunThroughStep(run, w, 4, PlanMode);
    ghost var n := |run.ops|;
    ExecutedIsAtTheEnd(w, PlanMode);
    LastCountIsPast(run, w);
    RunShape(run, w);
    run := Continue(run, w, Recover);
    var paused := RecoverTask(w).0;
    run := Continue(run, paused, Resume);
    var resumed := ResumeTask(paused).0;
    LastCountIsPast(run, resumed);
    RunShape(run, resumed);
  }

  lemma ExecutedIsAtTheEnd(w: World, mode: PermissionMode)
    requires Executed1(w, 4, mode)
    ensures AtTheEnd(w) && w.status.Running? && w.plans != []
    ensures RecoverTask(w).0 == w.(status := Paused)
    ensures ReadyAtTheEnd(ResumeTask(w.(status := Paused)).0)
    ensures ResumeTask(w.(status := Paused)).0.h.stepsPlanned == 5
  {
    hide PlainSpec, NoneFrom, HasFailedStep;
    assert !HasFailedStep(Latest(w)) by { CompletedHasNotFailed(Latest(w)); }
  }

  lemma CompletedHasNotFailed(row: PlanRow)
    requires row.statuses == map["a" := StepCompleted]
    ensures !HasFailedStep(row)
  {
  }

  // The replan counter.

  lemma PlannerSilenceIsAFailure(w: World)
    requires Moving(w) && !Unprocessed(w) && w.h.stepsPlanned < w.spec.budget.maxSteps && w.spec.mode != UnknownMode
    ensures AdvanceTask(w, IDLE) == RecordFailure(w, false)
  {
    PlanningIsNext(w, IDLE);
    NothingIsUsed(w);
    hide RecordFailure, InputFor, AdvanceTask, Moving, Unprocessed;
  }

  lemma FailureUsesOne(w: World)
    requires w.plans != []
    ensures RecordFailure(w, false).0.h.replansUsed == w.h.replansUsed + 1 && RecordFailure(w, false).0.spec == w.spec
    ensures RecordFailure(w, false).0.plans == w.plans
  {
  }

  lemma FailureCanBeResumed(w: World)
    requires Moving(w)
    ensures var v := ResumeTask(RecordFailure(w, false).0).0;
      && Moving(v) && !Unprocessed(v) && v.spec == w.spec && v.h.stepsPlanned == w.h.stepsPlanned
      && v.h.replansUsed == w.h.replansUsed + 1
  {
    hide TokensExhausted, HasFailedStep;
  }

  lemma ResumedTaskUsesTwo(w: World)
    requires About(w, 0, PlanMode) && w.h == FRESH_HORIZON && w.spec.budget.maxReplans == 1
    ensures var failed := AdvanceTask(w, IDLE).0;
      && failed.plans != []
      && var resumed := ResumeTask(failed).0;
      && resumed.plans != [] && AdvanceTask(resumed, IDLE).0.h.replansUsed == 2
      && AdvanceTask(resumed, IDLE).0.spec == w.spec
  {
    PlainSpecIs(w.spec, PlanMode);
    hide AdvanceTask, ResumeTask, PlainSpec, RecordFailure, TokensExhausted, NoneFrom;
    PlannerSilenceIsAFailure(w);
    FailureUsesOne(w);
    FailureCanBeResumed(w);
    var resumed := ResumeTask(RecordFailure(w, false).0).0;
    PlannerSilenceIsAFailure(resumed);
    FailureUsesOne(resumed);
  }

  lemma ThreeOperations(start: Run, w: World, a: Operation, b: Operation, c: Operation) returns (run: Run)
    requires EndsIn(start, w) && start.ops == [] && w.plans != [] && Perform(w, a).0.plans != []
    requires Perform(Perform(w, a).0, b).0.plans != []
    ensures TaskRun(run) && run.ops == [a, b, c] && |run.worlds| == 4
    ensures run.worlds[3] == Perform(Perform(Perform(w, a).0, b).0, c).0
  {
    hide Perform, IsCreated, IsStep;
    run := Continue(start, w, a);
    var v := Perform(w, a).0;
    run := Continue(run, v, b);
    v := Perform(v, b).0;
    run := Continue(run, v, c);
  }

  /** A failure, a manual resume and a second failure take the replan counter past a limit of one. */
  lemma ReplanCounterOvershoots() returns (run: Run)
    ensures TaskRun(run) && |run.ops| == 3 && run.ops[1].Resume?
    ensures run.worlds[3].h.replansUsed == 2 && run.worlds[3].spec.budget.maxReplans == 1
  {
    var start, w := Begin(PlanMode, 5, 1);
    assert w.h == FRESH_HORIZON && w.spec.budget.maxReplans == 1;
    hide EndsIn, AdvanceTask, ResumeTask, TaskRun, About;
    ResumedTaskUsesTwo(w);
    run := ThreeOperations(start, w, Advance(IDLE), Resume, Advance(IDLE));
  }

  const EXHAUSTS := IDLE.(step := Fails(true))

  /** A step that exhausts its iterations is given up for a new segment, within the limits. */
  lemma ReadingIsReplaced(w: World, goal: string)
    requires Moving(w) && ReadingIs(w, goal, StepPending) && w.spec.mode != UnknownMode
    requires w.h.replansUsed + 1 <= w.spec.budget.maxReplans && w.h.noProgress < 2
    ensures var r := AdvanceTask(w, EXHAUSTS);
      && r.1 == Reported(HorizonActive, Replan) && Moving(r.0) && !Unprocessed(r.0) && r.0.spec == w.spec
      && r.0.h.replansUsed == w.h.replansUsed + 1 && r.0.h.stepsPlanned == w.h.stepsPlanned
  {
    ReadingStepIsNext(w, goal, EXHAUSTS);
    hide AdvanceTask, MayRun, TokensExhausted, StageAt;
  }

  lemma FreshTaskIsPlanned(w: World)
    requires About(w, 0, PlanMode) && w.h == FRESH_HORIZON
    ensures var v := AdvanceTask(w, PLANS).0;
      && Moving(v) && ReadingIs(v, "g", StepPending) && v.spec == w.spec
      && v.h.replansUsed == 0 && v.h.noProgress == 1 && v.h.stepsPlanned == 1
  {
    hide AdvanceTask, NoneFrom, PlainSpec, KeyIsNew, Blank, KeyOf, ReadingIs, TokensExhausted;
    PlainSpecIs(w.spec, PlanMode);
    OneLetterIsNotBlank();
    NothingOfThisStageYet(w, 0);
    ReadingIsPlanned(w, "g");
  }

  lemma FreshTaskUsesTwo(w: World)
    requires About(w, 0, PlanMode) && w.h == FRESH_HORIZON && w.spec.budget.maxReplans == 1
    ensures var planned := AdvanceTask(w, PLANS).0;
      && planned.plans != []
      && var replaced := AdvanceTask(planned, EXHAUSTS).0;
      && replaced.plans != [] && AdvanceTask(replaced, IDLE).0.h.replansUsed == 2
      && AdvanceTask(replaced, IDLE).0.spec == w.spec
  {
    PlainSpecIs(w.spec, PlanMode);
    hide AdvanceTask, About, PlainSpec, RecordFailure, PlansReading, TokensExhausted;
    FreshTaskIsPlanned(w);
    var planned := AdvanceTask(w, PLANS).0;
    ReadingIsReplaced(planned, "g");
    var replaced := AdvanceTask(planned, EXHAUSTS).0;
    PlannerSilenceIsAFailure(replaced);
    FailureUsesOne(replaced);
  }

  /** Without any resume: planned, replaced automatically at the limit of one, and failed by a silent planner. */
  lemma ReplanCounterOvershootsAlone() returns (run: Run)
    ensures TaskRun(run) && |run.ops| == 3 && forall i :: 0 <= i < 3 ==> run.ops[i].Advance?
    ensures run.worlds[3].h.replansUsed == 2 && run.worlds[3].spec.budget.maxReplans == 1
  {
    var start, w := Begin(PlanMode, 5, 1);
    assert w.h == FRESH_HORIZON && w.spec.budget.maxReplans == 1;
    hide EndsIn, AdvanceTask, TaskRun, About, PlansReading;
    FreshTaskUsesTwo(w);
    run := ThreeOperations(start, w, Advance(PLANS), Advance(EXHAUSTS), Advance(IDLE));
  }

  // Completion by a write approval.

  const WRITE_STEP := StepCandidate("a", "t", "g", [], ["propose_write_file"], "c")
  const LATER_STEP := StepCandidate("b", "t", "h", ["a"], ["read_file"], "c")
  const WRITE_CANDIDATE := Candidate("s", true, [WRITE_STEP, LATER_STEP])

  const PLANS_WRITE := IDLE.(firstPlan := Reply(Some(WRITE_CANDIDATE), Usage(0, 0)))
  const PROPOSES := IDLE.(step := ProposesChange(Usage(0, 0)))

  /** What the two steps become; the tools of the writing step are left open. */
  ghost predicate WriteSpecs(steps: seq<StepSpec>) {
    && |steps| == 2 && steps[1] == StepSpec("b", "t", "h", ["a"], ["read_file"], 1, Read)
    && steps[0] == StepSpec("a", "t", "g", [], steps[0].allowedTools, 1, Write) && steps[0].allowedTools != []
  }

  lemma WriterIsNamed()
    ensures "propose_write_file" in ToolNames(EditMode) && RiskByName("propose_write_file") == Write
  {
    assert ToolNames(EditMode)[7] == "propose_write_file";
  }

  lemma WriteStepsAreBuilt(tools: seq<ToolDef>)
    requires "read_file" in RiskTableOf(tools) && RiskTableOf(tools)["read_file"] == Read
    requires "propose_write_file" in RiskTableOf(tools) && RiskTableOf(tools)["propose_write_file"] == Write
    ensures WriteSpecs(StepsOf([WRITE_STEP, LATER_STEP], tools))
  {
    hide RiskTableOf, MissingReadTools;
    var table := RiskTableOf(tools);
    var writers, readers := ["propose_write_file"], ["read_file"];
    assert writers[..0] == [] && readers[..0] == [];
    assert MaxRisk(writers[..0], table) == Read;
    assert MaxRisk(writers, table) == Write && MaxRisk(readers, table) == Read;
    Ordering.SortMembers(Ordering.StringLeq, writers + MissingReadTools(tools, writers));
    StepsOfAt([WRITE_STEP, LATER_STEP], tools);
  }

  lemma DifferentGoalsDiffer(tools: seq<string>, others: seq<string>)
    ensures IntentKey("g", tools) != IntentKey("h", others)
  {
    hide JoinNul, Ordering.SortStrings;
    assert Fields("g", false) == " g" by { assert "g"[1..] == ""; }
    assert Fields("h", false) == " h" by { assert "h"[1..] == ""; }
    assert ToLower(" g") == " g" by { assert " g"[1..] == "g" && "g"[1..] == ""; }
    assert ToLower(" h") == " h" by { assert " h"[1..] == "h" && "h"[1..] == ""; }
    assert IntentKey("g", tools)[1] == 'g' && IntentKey("h", others)[1] == 'h';
  }

  lemma TwoStepsAreValid(plan: PlanVersion)
    requires plan.version == SCHEMA_VERSION && plan.taskId != "" && plan.planId != "" && WriteSpecs(plan.steps)
    ensures ValidPlan(plan, 4) && GraphOf(plan.steps) == map["a" := [], "b" := ["a"]]
  {
    assert plan.steps[..1][..0] == [];
    assert GraphOf(plan.steps[..1]) == map["a" := []];
    var g, order := map["a" := [], "b" := ["a"]], ["a", "b"];
    assert order[..1] == ["a"];
    forall i, d | 0 <= i < |order| && d in PlanGraph.Deps(g, order[i]) ensures d in order[..i] {
      assert i == 1 && d == "a";
    }
    PlanGraph.TopologicalIsAcyclic(g, order);
  }

  lemma WriteSegmentIsAccepted(input: SegmentInput)
    requires input.stage.Implement? && input.tools == SegmentTools(Implement, EditMode)
    requires input.taskId != "" && input.planId != "" && input.maxSegmentSteps == 4
    requires 0 <= input.stepsPlanned && input.stepsPlanned + 2 <= input.maxSteps
    ensures SegmentAccepted(WRITE_CANDIDATE, input) && WriteSpecs(PlanOf(WRITE_CANDIDATE, input).steps)
  {
    hide RiskTableOf, SegmentTools, StepsOf, IntentKey, Blank, GraphOf, PlanGraph.Acyclic, AnyMutating, ToolNames,
         RiskByName;
    OneLetterIsNotBlank();
    ReadFileIsOffered(Implement, EditMode);
    WriterIsNamed();
    NamedToolIsOffered("propose_write_file", Implement, EditMode);
    WriteStepsAreBuilt(input.tools);
    assert RefsOf([WRITE_STEP, LATER_STEP]) == {"a", "b"};
    var steps := StepsOf([WRITE_STEP, LATER_STEP], input.tools);
    DifferentGoalsDiffer(steps[0].allowedTools, steps[1].allowedTools);
    assert !steps[0].risk.Read?;
    TwoStepsAreValid(PlanOf(WRITE_CANDIDATE, input));
  }

  lemma OnlyTheWriterIsReady(steps: seq<StepSpec>, statuses: Statuses)
    requires WriteSpecs(steps) && statuses == map["a" := StepPending, "b" := StepPending]
    ensures ReadySet(steps, statuses) == ["a"]
  {
    assert steps[..1][..0] == [] && steps[..1][0] == steps[0];
    assert "a" in steps[1].dependencies && !StatusIs(statuses, "a", StepCompleted);
    assert !IsReady(steps[1], statuses) && IsReady(steps[0], statuses);
    assert ReadyIds(steps[..1], statuses) == ["a"];
    assert ReadyIds(steps, statuses) == ["a"];
    assert Ordering.SortBy(Ordering.StringLeq, ["a"][1..]) == [];
  }

  /** The writing segment is there, and nothing of it has run. */
  ghost predicate WritePlanned(w: World) {
    && PlainSpec(w.spec, EditMode) && w.status in {ReadyToRun, Running}
    && w.h.status.HorizonActive? && !w.h.awaiting && w.h.usage == Usage(0, 0) && Unprocessed(w)
    && WriteSpecs(Latest(w).plan.steps) && Latest(w).statuses == map["a" := StepPending, "b" := StepPending]
    && (forall e :: e in w.evidence ==> e == AGENT_REPORT)
  }

  lemma InputIsWritable(w: World)
    requires About(w, 2, EditMode)
    ensures var input := InputFor(w);
      && input.stage == Implement && input.tools == SegmentTools(Implement, EditMode) && input.taskId != ""
      && input.planId != "" && input.stepsPlanned == 2 && input.maxSteps >= 5 && input.maxSegmentSteps == 4
  {
    hide SegmentTools, FreshPlanId;
    FreshIdIsNotEmpty(w);
  }

  lemma WriteIsPermittedAndNew(w: World, plan: PlanVersion)
    requires WriteSpecs(plan.steps) && forall key :: KeyIsNew(w.plans, Implement, key)
    ensures PermissionHolds(plan, EditMode) && Novel(w.plans, Implement, plan)
  {
    hide IntentKey, KeyIsNew;
    WrittenKeysDiffer(plan.steps);
  }

  lemma WriteSegmentIsPersisted(w: World)
    requires About(w, 2, EditMode)
    ensures WriteSpecs(PlanOf(WRITE_CANDIDATE, InputFor(w)).steps)
    ensures PlanNext(w, PLANS_WRITE) == Persist(w, PlanOf(WRITE_CANDIDATE, InputFor(w)), true)
  {
    InputIsWritable(w);
    NothingOfThisStageYet(w, 2);
    assert w.plans != [] && w.spec.mode == EditMode;
    hide SegmentAccepted, SegmentTools, PlanOf, Persist, InputFor, About, PlanNext, KeyIsNew, WriteSpecs,
         PermissionHolds, Novel;
    var input := InputFor(w);
    WriteSegmentIsAccepted(input);
    ReadFileIsOffered(Implement, EditMode);
    WriteIsPermittedAndNew(w, PlanOf(WRITE_CANDIDATE, input));
    UsableReplyIsPersisted(w, PLANS_WRITE, WRITE_CANDIDATE);
  }

  lemma PersistedWriteIsPlanned(w: World, plan: PlanVersion)
    requires About(w, 2, EditMode) && WriteSpecs(plan.steps)
    ensures WritePlanned(Persist(w, plan, true).0)
  {
    hide GraphOf, WriteSpecs;
    TwoStepGraph(plan.steps);
    var v := Persist(w, plan, true).0;
    assert Latest(v).statuses == map["a" := StepPending, "b" := StepPending];
  }

  lemma WriteIsPlanned(w: World)
    requires About(w, 2, EditMode)
    ensures WritePlanned(AdvanceTask(w, PLANS_WRITE).0)
  {
    AdvanceWorks(w, PLANS_WRITE);
    assert !Unprocessed(w) && w.h.stepsPlanned < w.spec.budget.maxSteps;
    hide PlanNext, AdvanceTask, PlanOf, InputFor, Persist, About, WritePlanned, WriteSpecs;
    WriteSegmentIsPersisted(w);
    PersistedWriteIsPlanned(w, PlanOf(WRITE_CANDIDATE, InputFor(w)));
  }

  lemma WrittenKeysDiffer(steps: seq<StepSpec>)
    requires WriteSpecs(steps)
    ensures DistinctKeys(steps)
  {
    hide IntentKey;
    DifferentGoalsDiffer(steps[0].allowedTools, steps[1].allowedTools);
  }

  lemma TwoStepGraph(steps: seq<StepSpec>)
    requires WriteSpecs(steps)
    ensures GraphOf(steps) == map["a" := [], "b" := ["a"]]
  {
    assert steps[..1][..0] == [];
    assert GraphOf(steps[..1]) == map["a" := []];
  }

  /** The writing step waits for the user, with the other step still open. */
  ghost predicate WriteWaits(w: World) {
    && w.plans != [] && PlainSpec(w.spec, EditMode) && w.status == WaitingApproval
    && WriteSpecs(Latest(w).plan.steps)
    && Latest(w).statuses == map["a" := StepWaitingApproval, "b" := StepPending]
    && AGENT_REPORT in w.evidence
  }

  lemma WriteIsProposed(w: World)
    requires WritePlanned(w) && Shape(w)
    ensures WriteWaits(AdvanceTask(w, PROPOSES).0)
  {
    hide ReadySet, RecordProgress, AdvanceTask, Quiet;
    AdvanceWorks(w, PROPOSES);
    OnlyTheWriterIsReady(Latest(w).plan.steps, Latest(w).statuses);
    assert Latest(w).plan.steps[0].stepId == "a";
    assert MayRun(w, "a");
    var done := AfterWorker(w, "a", StepWaitingApproval, WaitingApproval);
    ProgressKeepsTheRest(done, Usage(0, 0));
    ProgressIsQuiet(w, "a", StepWaitingApproval, WaitingApproval, Usage(0, 0));
    assert AdvanceTask(w, PROPOSES).0 == RecordProgress(done, Usage(0, 0)).0;
    assert done.evidence[|w.evidence|] == AGENT_REPORT;
  }

  lemma ProgressKeepsTheRest(w: World, usage: Usage)
    ensures var v := RecordProgress(w, usage).0;
      v.plans == w.plans && v.spec == w.spec && v.evidence == w.evidence && v.reports == w.reports
  {
    hide CompletedSteps;
  }

  const WRITTEN := Written(Verified({}))

  lemma WriteSettlesEarly(w: World)
    requires WriteWaits(w)
    ensures var r := ApproveWriteStep(w, "a", WRITTEN);
      r.1.Accepted? && r.0.status.Completed? && r.0.plans != []
      && Open(Latest(r.0).statuses, "b")
      && (exists i :: 0 <= i < |Latest(r.0).plan.steps| && Latest(r.0).plan.steps[i].stepId == "b")
  {
    hide ReportOf;
    var steps := Latest(w).plan.steps;
    assert steps[0].stepId == "a" && steps[0].risk.Write? && steps[1].stepId == "b";
    PlainTextIsKept("AGENT_REPORT");
    var k :| 0 <= k < |w.evidence| && w.evidence[k] == AGENT_REPORT;
    assert Supports(w.evidence[k], "AGENT_REPORT");
    assert w.spec.criteria == [HorizonModel.DEFAULT_CRITERION];
    ReportPassesIffCriteriaMet(w.spec.criteria, w.evidence, {});
    assert Met(w.spec.criteria[0], w.evidence, false);
  }

  /** A run from creation that ends COMPLETED with a step of its plan still open. */
  lemma EarlyCompletionIsReachable() returns (run: Run)
    ensures TaskRun(run) && exists i: nat :: WriteWasAccepted(run, i)
    ensures var w := run.worlds[|run.ops|];
      w.status.Completed? && w.plans != [] && Open(Latest(w).statuses, "b")
      && exists i :: 0 <= i < |Latest(w).plan.steps| && Latest(w).plan.steps[i].stepId == "b"
  {
    hide EndsIn, AdvanceTask, TaskRun, IsCreated, IsStep, About, WritePlanned, WriteWaits, Shape, ApproveWriteStep;
    var w: World;
    run, w := RunToStage(2, EditMode, 40);
    LastCountIsPast(run, w);
    WriteIsPlanned(w);
    run := Continue(run, w, Advance(PLANS_WRITE));
    w := AdvanceTask(w, PLANS_WRITE).0;
    ReachedWorldsHaveShape(run, w);
    WriteIsProposed(w);
    run := Continue(run, w, Advance(PROPOSES));
    w := AdvanceTask(w, PROPOSES).0;
    WriteSettlesEarly(w);
    run := Continue(run, w, ApproveWrite("a", WRITTEN));
    RunShape(run, ApproveWriteStep(w, "a", WRITTEN).0);
    WritesAreListed(run);
  }

  lemma WritesAreListed(run: Run)
    requires run.ops != [] && |run.outcomes| == |run.ops|
    requires run.ops[|run.ops| - 1].ApproveWrite? && run.outcomes[|run.ops| - 1].Accepted?
    ensures exists i: nat :: WriteWasAccepted(run, i)
  {
    var last: nat := |run.ops| - 1;
    assert WriteWasAccepted(run, last);
  }

  lemma ReachedWorldsHaveShape(run: Run, w: World)
    requires EndsIn(run, w)
    ensures Shape(w)
  {
    hide KeepsPolicy, NeverRepeats, StagesInOrder, Checkpointed, CompletedOnlyByReport, Budgeted, IsCreated, IsStep;
    TaskRunKeepsInv(run, |run.ops|);
  }
}
