/** A segment of one reading step, which is accepted in every stage but an IMPLEMENT that has to change something: from
    the candidate to the persisted segment, the step run and what both leave behind (internal/horizon/horizon.go,
    buildPlan; internal/app/long_horizon.go, planNextHorizonSegment and recordHorizonProgress). Its step reads a file,
    so its tool is offered in every mode; a goal that is longer than everything planned so far is new in its stage; and
    its lone step is ready as soon as it is persisted. Wherever the budget has a step left, a task that nothing holds
    back can be moved on with it. */
module ReadingSegment {
  import opened Contracts
  import Ordering
  import opened Strings
  import PlanGraph
  import opened PlanValidation
  import opened Segment
  import opened SegmentPolicy
  import Acceptance
  import opened HorizonModel

  function ReadStep(goal: string): StepCandidate {
    StepCandidate("a", "t", goal, [], ["read_file"], "c")
  }

  function ReadCandidate(goal: string): Candidate {
    Candidate("s", true, [ReadStep(goal)])
  }

  function ReadSpec(goal: string): StepSpec {
    StepSpec("a", "t", goal, [], ["read_file"], 1, Read)
  }

  // Answers: nothing comes back, the segment is planned, its step succeeds, the stage is assessed.

  const IDLE := Answers(false, true, NoReply, NoReply, Refused, NotAssessed, Acceptance.Unavailable)
  const RUNS := IDLE.(step := Succeeds(Usage(0, 0)))
  const CLOSES := IDLE.(stage := Assessed(Usage(0, 0)))

  function PlansReading(goal: string): Answers {
    IDLE.(firstPlan := Reply(Some(ReadCandidate(goal)), Usage(0, 0)))
  }

  // The segment is accepted.

  lemma PlainTextIsKept(s: string)
    requires s != "" && !IsSpace(s[0]) && !IsSpace(s[|s| - 1])
    ensures TrimSpace(s) == s
  {
  }

  lemma OneLetterIsNotBlank()
    ensures !Blank("s") && !Blank("a") && !Blank("t") && !Blank("g") && !Blank("c") && !Blank("b") && !Blank("h")
  {
    PlainTextIsKept("s");
    PlainTextIsKept("a");
    PlainTextIsKept("t");
    PlainTextIsKept("g");
    PlainTextIsKept("c");
    PlainTextIsKept("b");
    PlainTextIsKept("h");
  }

  ghost predicate ReadInput(input: SegmentInput, mode: PermissionMode) {
    && mode != UnknownMode && (input.stage.Implement? ==> mode.PlanMode?)
    && input.tools == SegmentTools(input.stage, mode) && input.taskId != "" && input.planId != ""
    && 0 <= input.stepsPlanned < input.maxSteps
  }

  lemma ReadFileIsNamed(mode: PermissionMode)
    requires mode != UnknownMode
    ensures "read_file" in ToolNames(mode) && RiskByName("read_file") == Read
  {
    assert ToolNames(mode)[if mode.PlanMode? then 2 else if mode.EditMode? then 8 else 4] == "read_file";
  }

  lemma NamedToolIsOffered(name: string, stage: StageId, mode: PermissionMode)
    requires name in ToolNames(mode) && (stage.Implement? || RiskByName(name).Read?)
    ensures name in RiskTableOf(SegmentTools(stage, mode))
        && RiskTableOf(SegmentTools(stage, mode))[name] == RiskByName(name)
    ensures SegmentTools(stage, mode) != []
  {
    hide RiskTableOf, StageTools, ContainsText, ToolNames, RiskByName;
    var k :| 0 <= k < |ToolNames(mode)| && ToolNames(mode)[k] == name;
    var t := ToolDef(name, RiskByName(name));
    assert PlannerTools(mode)[k] == t;
    StageToolsMembers(stage, PlannerTools(mode));
    assert t in SegmentTools(stage, mode);
    RiskTableEntries(SegmentTools(stage, mode));
    SegmentToolRisks(stage, mode);
  }

  lemma ReadFileIsOffered(stage: StageId, mode: PermissionMode)
    requires mode != UnknownMode
    ensures "read_file" in RiskTableOf(SegmentTools(stage, mode))
    ensures RiskTableOf(SegmentTools(stage, mode))["read_file"] == Read && SegmentTools(stage, mode) != []
  {
    hide RiskTableOf, SegmentTools, ToolNames, RiskByName;
    ReadFileIsNamed(mode);
    NamedToolIsOffered("read_file", stage, mode);
  }

  lemma ReadStepIsBuilt(goal: string, tools: seq<ToolDef>)
    requires "read_file" in RiskTableOf(tools) && RiskTableOf(tools)["read_file"] == Read
    ensures StepOf(ReadStep(goal), tools) == ReadSpec(goal) && StepsOf([ReadStep(goal)], tools) == [ReadSpec(goal)]
  {
    hide RiskTableOf;
    var names := ["read_file"];
    assert names[..0] == [];
    assert MaxRisk(names, RiskTableOf(tools)) == Read;
    assert [ReadStep(goal)][..0] == [];
  }

  lemma ReadSegmentIsAccepted(goal: string, input: SegmentInput, mode: PermissionMode)
    requires ReadInput(input, mode) && !Blank(goal)
    ensures SegmentAccepted(ReadCandidate(goal), input)
    ensures PlanOf(ReadCandidate(goal), input).steps == [ReadSpec(goal)]
  {
    hide RiskTableOf, SegmentTools, StepsOf, KeyOf, Blank, GraphOf, PlanGraph.Acyclic;
    OneLetterIsNotBlank();
    ReadFileIsOffered(input.stage, mode);
    ReadStepIsBuilt(goal, input.tools);
    assert RefsOf([ReadStep(goal)]) == {"a"};
    if input.stage.Implement? {
      SegmentToolRisks(input.stage, mode);
      assert !AnyMutating(input.tools);
    }
    LoneStepIsValid(goal, PlanOf(ReadCandidate(goal), input), MaxSegment(input));
  }

  lemma LoneStepGraph(goal: string)
    ensures GraphOf([ReadSpec(goal)]) == map["a" := []]
  {
    assert [ReadSpec(goal)][..0] == [];
  }

  lemma LoneStepIsValid(goal: string, plan: PlanVersion, maxSteps: int)
    requires plan.version == SCHEMA_VERSION && plan.taskId != "" && plan.planId != "" && !Blank(goal)
    requires plan.steps == [ReadSpec(goal)] && maxSteps >= 1
    ensures ValidPlan(plan, maxSteps)
  {
    hide GraphOf;
    assert goal != "" by { assert TrimSpace("") == ""; }
    LoneStepGraph(goal);
    PlanGraph.TopologicalIsAcyclic(GraphOf(plan.steps), ["a"]);
  }

  lemma LoneStepIsDistinct(plan: PlanVersion)
    requires |plan.steps| == 1
    ensures DistinctKeys(plan.steps)
  {
  }

  lemma OnlyStepIsReady(goal: string, statuses: Statuses)
    requires statuses == map["a" := StepPending]
    ensures ReadySet([ReadSpec(goal)], statuses) == ["a"]
  {
    assert [ReadSpec(goal)][..0] == [];
    assert ReadyIds([ReadSpec(goal)], statuses) == ["a"];
    assert Ordering.SortBy(Ordering.StringLeq, ["a"][1..]) == [];
  }

  // The task takes it.

  /** Nothing holds the next Advance back. */
  ghost predicate Moving(w: World) {
    && w.plans != [] && w.status in {ReadyToRun, Running} && w.h.status.HorizonActive? && !w.h.awaiting
    && !TokensExhausted(w.spec.budget, w.h.usage)
  }

  /** The next Advance asks for a segment that a reading step can make up. */
  ghost predicate CanPlan(w: World) {
    && Moving(w) && !Unprocessed(w) && w.h.stepsPlanned < w.spec.budget.maxSteps && w.spec.taskId != ""
    && w.spec.mode != UnknownMode && (StageAt(w.h.stageIndex).Implement? ==> w.spec.mode.PlanMode?)
  }

  lemma AdvanceWorks(w: World, a: Answers)
    requires Moving(w) && !a.deadlinePassed
    ensures AdvanceTask(w, a) == Work(w, a)
  {
    hide Work, TokensExhausted;
  }

  lemma PlanningIsNext(w: World, a: Answers)
    requires Moving(w) && !a.deadlinePassed && !Unprocessed(w) && w.h.stepsPlanned < w.spec.budget.maxSteps
    ensures AdvanceTask(w, a) == PlanNext(w, a)
  {
    hide PlanNext, AdvanceTask, Ready;
    AdvanceWorks(w, a);
  }

  lemma NothingIsUsed(w: World)
    ensures w.(h := w.h.(usage := Plus(w.h.usage, Usage(0, 0)))) == w
  {
  }

  lemma FreshIdIsNotEmpty(w: World)
    ensures FreshPlanId(w) != ""
  {
    hide Decimal;
  }

  lemma InputIsReadable(w: World)
    requires CanPlan(w)
    ensures ReadInput(InputFor(w), w.spec.mode)
  {
    hide SegmentTools, FreshPlanId, TokensExhausted;
    FreshIdIsNotEmpty(w);
  }

  /** A usable first reply is persisted when it is permitted and new. */
  lemma UsableReplyIsPersisted(w: World, a: Answers, c: Candidate)
    requires w.plans != [] && a.servicesAvailable && w.spec.mode != UnknownMode && InputFor(w).tools != []
    requires a.firstPlan == Reply(Some(c), Usage(0, 0)) && SegmentAccepted(c, InputFor(w))
    requires PermissionHolds(PlanOf(c, InputFor(w)), w.spec.mode)
    requires Novel(w.plans, InputFor(w).stage, PlanOf(c, InputFor(w)))
    ensures PlanNext(w, a) == Persist(w, PlanOf(c, InputFor(w)), c.terminal)
  {
    hide SegmentAccepted, Novel, PlanOf, Persist, RecordFailure, InputFor, PermissionHolds;
    NothingIsUsed(w);
  }

  lemma ReadIsPermittedAndNew(w: World, goal: string, stage: StageId, plan: PlanVersion)
    requires plan.steps == [ReadSpec(goal)] && w.spec.mode != UnknownMode
    requires KeyIsNew(w.plans, stage, KeyOf(ReadSpec(goal)))
    ensures PermissionHolds(plan, w.spec.mode) && Novel(w.plans, stage, plan)
  {
    hide KeyOf, KeyIsNew;
    LoneStepIsDistinct(plan);
  }

  lemma ReadSegmentIsPersisted(w: World, goal: string)
    requires CanPlan(w) && !Blank(goal) && KeyIsNew(w.plans, StageAt(w.h.stageIndex), KeyOf(ReadSpec(goal)))
    ensures PlanOf(ReadCandidate(goal), InputFor(w)).steps == [ReadSpec(goal)]
    ensures AdvanceTask(w, PlansReading(goal)) == Persist(w, PlanOf(ReadCandidate(goal), InputFor(w)), true)
  {
    InputIsReadable(w);
    PlanningIsNext(w, PlansReading(goal));
    hide SegmentAccepted, SegmentTools, PlanOf, Persist, PlanNext, AdvanceTask, KeyIsNew, PermissionHolds, Novel, Blank,
         FreshPlanId, TokensExhausted;
    var input := InputFor(w);
    ReadFileIsOffered(input.stage, w.spec.mode);
    ReadSegmentIsAccepted(goal, input, w.spec.mode);
    ReadIsPermittedAndNew(w, goal, input.stage, PlanOf(ReadCandidate(goal), input));
    UsableReplyIsPersisted(w, PlansReading(goal), ReadCandidate(goal));
  }

  /** The latest plan is such a segment of the current stage, with its step in the given status. */
  ghost predicate ReadingIs(w: World, goal: string, status: StepStatus) {
    && Unprocessed(w) && Latest(w).plan.steps == [ReadSpec(goal)] && Latest(w).statuses == map["a" := status]
    && Latest(w).terminal && Latest(w).stage == StageAt(w.h.stageIndex)
  }

  lemma ReadingIsPersisted(w: World, goal: string, plan: PlanVersion)
    requires plan.steps == [ReadSpec(goal)] && (w.h.lastProcessed.Some? ==> w.h.lastProcessed.value < |w.plans|)
    ensures var v := Persist(w, plan, true).0;
      && ReadingIs(v, goal, StepPending) && v == w.(plans := w.plans + [Latest(v)], h := v.h, log := v.log)
      && v.h == w.h.(segmentIndex := w.h.segmentIndex + 1, stepsPlanned := w.h.stepsPlanned + 1,
                     noProgress := w.h.noProgress + 1)
  {
    LoneStepGraph(goal);
    hide GraphOf;
    var v := Persist(w, plan, true).0;
    assert Latest(v).statuses == map["a" := StepPending];
  }

  lemma ReadingIsPlanned(w: World, goal: string)
    requires CanPlan(w) && !Blank(goal) && KeyIsNew(w.plans, StageAt(w.h.stageIndex), KeyOf(ReadSpec(goal)))
    requires w.h.lastProcessed.Some? ==> w.h.lastProcessed.value < |w.plans|
    ensures var v := AdvanceTask(w, PlansReading(goal)).0;
      && ReadingIs(v, goal, StepPending) && v == w.(plans := w.plans + [Latest(v)], h := v.h, log := v.log)
      && v.h == w.h.(segmentIndex := w.h.segmentIndex + 1, stepsPlanned := w.h.stepsPlanned + 1,
                     noProgress := w.h.noProgress + 1)
  {
    hide AdvanceTask, PlanOf, CanPlan, Blank, KeyIsNew, KeyOf, InputFor, Persist, ReadingIs, StageAt, PlansReading;
    ReadSegmentIsPersisted(w, goal);
    ReadingIsPersisted(w, goal, PlanOf(ReadCandidate(goal), InputFor(w)));
  }

  /** A step run that adds the first new evidence since the last count. */
  lemma ProgressIsRecorded(w: World, usage: Usage)
    requires |w.evidence| > w.h.lastEvidenceCount && w.status.Running?
    ensures var v := RecordProgress(w, usage).0;
      v == w.(h := v.h, log := v.log)
      && v.h == w.h.(stepsCompleted := v.h.stepsCompleted, noProgress := 0, lastEvidenceCount := |w.evidence|,
                     usage := Plus(w.h.usage, usage))
  {
    hide CompletedSteps, Plus;
  }

  lemma ReadingStepIsNext(w: World, goal: string, a: Answers)
    requires Moving(w) && ReadingIs(w, goal, StepPending) && w.spec.mode != UnknownMode && !a.deadlinePassed
    ensures AdvanceTask(w, a) == RunStep(w, "a", a.step) && MayRun(w, "a")
  {
    AdvanceWorks(w, a);
    OnlyStepIsReady(goal, Latest(w).statuses);
    assert Latest(w).plan.steps[0] == ReadSpec(goal);
    hide ReadySet, RunStep, AdvanceTask, TokensExhausted, FinishSegment, PlanNext, StageAt;
  }

  lemma ReadingIsRun(w: World, goal: string)
    requires Moving(w) && ReadingIs(w, goal, StepPending) && w.spec.mode != UnknownMode
    requires w.h.lastEvidenceCount <= |w.evidence|
    ensures var v := AdvanceTask(w, RUNS).0;
      && ReadingIs(v, goal, StepCompleted) && v.status.Running?
      && v == w.(status := Running, h := v.h, plans := v.plans, log := v.log,
                 evidence := w.evidence + [Acceptance.AGENT_REPORT])
      && v.plans == w.plans[|w.plans| - 1 := Latest(w).(statuses := map["a" := StepCompleted])]
      && v.h == w.h.(stepsCompleted := v.h.stepsCompleted, noProgress := 0, lastEvidenceCount := |v.evidence|)
  {
    ReadingStepIsNext(w, goal, RUNS);
    hide RecordProgress, AdvanceTask, MayRun, Moving, StageAt, RecordFailure;
    var done := AfterWorker(w, "a", StepCompleted, Running);
    assert Latest(done).statuses == map["a" := StepCompleted];
    ProgressIsRecorded(done, Usage(0, 0));
  }

  // There is always something new to read for.

  function Xs(n: nat): string {
    seq(n, i => 'x')
  }

  lemma {:induction false} WordsAreKept(n: nat, inWord: bool)
    ensures |Fields(Xs(n), inWord)| >= n
  {
    if n > 0 {
      assert Xs(n)[1..] == Xs(n - 1);
      WordsAreKept(n - 1, true);
    }
  }

  lemma {:induction false} LowerKeepsLength(s: string)
    ensures |ToLower(s)| == |s|
  {
    if s != "" { LowerKeepsLength(s[1..]); }
  }

  function KeyLengths(steps: seq<StepSpec>): nat {
    if steps == [] then 0 else |KeyOf(steps[0])| + KeyLengths(steps[1..])
  }

  function AllKeyLengths(plans: seq<PlanRow>): nat {
    if plans == [] then 0 else KeyLengths(plans[0].plan.steps) + AllKeyLengths(plans[1..])
  }

  lemma {:induction false} KeyIsCounted(steps: seq<StepSpec>, i: nat)
    requires i < |steps|
    ensures |KeyOf(steps[i])| <= KeyLengths(steps)
  {
    hide KeyOf;
    if i > 0 { KeyIsCounted(steps[1..], i - 1); }
  }

  lemma {:induction false} RowIsCounted(plans: seq<PlanRow>, p: nat)
    requires p < |plans|
    ensures KeyLengths(plans[p].plan.steps) <= AllKeyLengths(plans)
  {
    hide KeyLengths;
    if p > 0 { RowIsCounted(plans[1..], p - 1); }
  }

  /** A goal longer than everything planned so far was not planned before. */
  lemma LongGoalIsNew(plans: seq<PlanRow>, stage: StageId) returns (goal: string)
    ensures !Blank(goal) && KeyIsNew(plans, stage, KeyOf(ReadSpec(goal)))
  {
    var n := AllKeyLengths(plans) + 1;
    goal := Xs(n);
    PlainTextIsKept(goal);
    WordsAreKept(n, false);
    LowerKeepsLength(Fields(goal, false));
    assert |KeyOf(ReadSpec(goal))| > n;
    hide KeyOf, Xs, Blank;
    forall p, i | 0 <= p < |plans| && 0 <= i < |plans[p].plan.steps|
      ensures KeyOf(plans[p].plan.steps[i]) != KeyOf(ReadSpec(goal))
    {
      KeyIsCounted(plans[p].plan.steps, i);
      RowIsCounted(plans, p);
    }
  }
}
