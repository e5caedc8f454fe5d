/** The tools each mode offers the planner (internal/app/service.go, registerPlannerTools) and what an
    accepted segment may therefore ask for. */
module SegmentPolicy {
  import opened Contracts
  import PlanGraph
  import PlanValidation
  import opened Segment

  const WRITERS := {"propose_file_batch", "propose_project_command", "propose_text_replace", "propose_write_file",
      "write_file"}

  /** The risk class each tool is defined with. */
  function RiskByName(name: string): RiskClass {
    if name in WRITERS then Write else if name == "run_project_command" then Dangerous else Read
  }

  function Definitions(names: seq<string>): (tools: seq<ToolDef>)
    ensures |tools| == |names|
    ensures forall i :: 0 <= i < |names| ==> tools[i] == ToolDef(names[i], RiskByName(names[i]))
  {
    if names == [] then []
    else [ToolDef(names[0], RiskByName(names[0]))] + Definitions(names[1..])
  }

  /** Names of the registered tools, in the registry's order. */
  function ToolNames(mode: PermissionMode): seq<string> {
    match mode
    case PlanMode => ["file_info", "list_files", "read_file", "search_text"]
    case EditMode =>
      ["file_info", "git_diff", "git_status", "list_files",
       "propose_file_batch", "propose_project_command", "propose_text_replace", "propose_write_file",
       "read_file", "run_go_test", "run_go_vet", "search_text"]
    case DevelopmentMode =>
      ["file_info", "git_diff", "git_status", "list_files", "read_file",
       "run_go_test", "run_go_vet", "run_project_command", "search_text", "write_file"]
    case UnknownMode => []
  }

  function PlannerTools(mode: PermissionMode): seq<ToolDef> {
    Definitions(ToolNames(mode))
  }

  function SegmentTools(stage: StageId, mode: PermissionMode): seq<ToolDef> {
    StageTools(stage, PlannerTools(mode))
  }

  lemma ToolNamesFitTheMode(mode: PermissionMode)
    ensures forall i :: 0 <= i < |ToolNames(mode)| ==> AllowsRisk(mode, RiskByName(ToolNames(mode)[i]))
    ensures mode.EditMode? ==> ToolNames(mode)[7] in WRITERS
    ensures mode.DevelopmentMode? ==> ToolNames(mode)[9] in WRITERS
  {
  }

  lemma PlannerToolRisks(mode: PermissionMode)
    ensures forall t :: t in PlannerTools(mode) ==> t.risk == RiskByName(t.name) && AllowsRisk(mode, t.risk)
    ensures mode in {EditMode, DevelopmentMode} ==> exists t :: t in PlannerTools(mode) && t.risk.Write?
  {
    hide AllowsRisk;
    ToolNamesFitTheMode(mode);
    if mode in {EditMode, DevelopmentMode} {
      assert PlannerTools(mode)[if mode.EditMode? then 7 else 9].risk.Write?;
    }
  }

  // Policy of one step and of one segment.

  ghost predicate ChangesOnlyByCommand(step: StepSpec) {
    exists n :: n in step.allowedTools && ContainsText(n, "project_command") && RiskByName(n) == step.risk
  }

  ghost predicate StepPolicy(step: StepSpec, stage: StageId, mode: PermissionMode) {
    && RiskIsMaximal(step, RiskTableOf(SegmentTools(stage, mode)))
    && (forall n :: n in step.allowedTools ==> n in RiskTableOf(SegmentTools(stage, mode)))
    && AllowsRisk(mode, step.risk)
    && (stage.Discover? || stage.Design? ==> step.risk.Read?)
    && (!step.risk.Read? && !stage.Implement? ==> ChangesOnlyByCommand(step))
  }

  ghost predicate SegmentKeepsPolicy(plan: PlanVersion, stage: StageId, mode: PermissionMode) {
    && PlanValidation.ValidPlan(plan, 4)
    && DistinctKeys(plan.steps)
    && (forall i :: 0 <= i < |plan.steps| ==> StepPolicy(plan.steps[i], stage, mode))
    && (stage.Implement? && mode in {EditMode, DevelopmentMode} ==> Mutates(plan.steps))
  }

  lemma SegmentToolRisks(stage: StageId, mode: PermissionMode)
    ensures forall t :: t in SegmentTools(stage, mode) ==>
      t in PlannerTools(mode) && StageAllows(stage, t) && t.risk == RiskByName(t.name) && AllowsRisk(mode, t.risk)
    ensures stage.Implement? && mode in {EditMode, DevelopmentMode} ==> AnyMutating(SegmentTools(stage, mode))
  {
    hide PlannerTools, RiskByName, AllowsRisk, ContainsText;
    StageToolsMembers(stage, PlannerTools(mode));
    PlannerToolRisks(mode);
    if stage.Implement? && mode in {EditMode, DevelopmentMode} {
      var t :| t in PlannerTools(mode) && t.risk.Write?;
      assert t in SegmentTools(stage, mode);
    }
  }

  lemma AcceptedStepKeepsPolicy(c: StepCandidate, refs: set<string>, stage: StageId, mode: PermissionMode)
    requires mode != UnknownMode
    requires StepAcceptable(c, refs, RiskTableOf(SegmentTools(stage, mode)))
    ensures StepPolicy(StepOf(c, SegmentTools(stage, mode)), stage, mode)
  {
    hide PlannerTools, RiskByName, ContainsText, RiskTableOf, StageTools, SegmentTools, GrantedTools, MaxRisk,
         MissingReadTools;
    var tools := SegmentTools(stage, mode);
    var table := RiskTableOf(tools);
    var step := StepOf(c, tools);
    SegmentToolRisks(stage, mode);
    RiskTableEntries(tools);
    GrantedToolsKeepTheMaximum(c, tools);
    assert RiskIsMaximal(step, table);
    if !step.risk.Read? {
      var n :| n in step.allowedTools && n in table && table[n] == step.risk;
      var t := ToolDef(n, table[n]);
      assert t in tools && StageAllows(stage, t);
    }
  }

  /** Whatever the model proposed, an accepted segment keeps the policy of its stage and mode. */
  lemma AcceptedSegmentKeepsPolicy(c: Candidate, input: SegmentInput, mode: PermissionMode)
    requires mode != UnknownMode && input.tools == SegmentTools(input.stage, mode)
    requires SegmentAccepted(c, input)
    ensures SegmentKeepsPolicy(PlanOf(c, input), input.stage, mode)
    ensures |PlanOf(c, input).steps| == |c.steps|
    ensures 1 <= |c.steps| <= 4 && input.stepsPlanned + |c.steps| <= input.maxSteps
  {
    hide PlannerTools, RiskTableOf, StageTools, SegmentTools, StepOf, StepsOf, StepPolicy, StepAcceptable, KeyOf,
         PlanGraph.Acyclic, PlanValidation.GraphOf, AnyMutating;
    var plan := PlanOf(c, input);
    StepsOfAt(c.steps, input.tools);
    forall i | 0 <= i < |plan.steps| ensures StepPolicy(plan.steps[i], input.stage, mode) {
      AcceptedStepKeepsPolicy(c.steps[i], RefsOf(c.steps), input.stage, mode);
    }
    SegmentToolRisks(input.stage, mode);
  }
}
