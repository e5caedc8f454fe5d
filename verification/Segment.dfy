/** Turning a model's candidate into a validated segment (internal/horizon/horizon.go, buildPlan;
    internal/app/long_horizon.go, stageToolDefinitions and horizonStepIntentKey). */
module Segment {
  import opened Contracts
  import Ordering
  import opened Strings
  import PlanValidation

  datatype StageId = Discover | Design | Implement | VerifyRepair | Finalize

  datatype ToolDef = ToolDef(name: string, risk: RiskClass)

  datatype StepCandidate = StepCandidate(
    ref: string, title: string, goal: string, dependencies: seq<string>, tools: seq<string>, acceptance: string)

  datatype Candidate = Candidate(summary: string, terminal: bool, steps: seq<StepCandidate>)

  /** The part of the planner's input that decides what is accepted. */
  datatype SegmentInput = SegmentInput(
    taskId: string, planId: string, stage: StageId, tools: seq<ToolDef>,
    stepsPlanned: int, maxSteps: int, maxSegmentSteps: int)

  // Tools and risks.

  function RiskRank(risk: RiskClass): nat {
    match risk
    case Read => 1
    case Write => 2
    case Dangerous => 3
    case ExternalSideEffect => 100
  }

  function ContainsText(s: string, part: string): bool {
    part <= s || (s != "" && ContainsText(s[1..], part))
  }

  predicate OccursAt(s: string, part: string, k: int) {
    0 <= k <= |s| - |part| && s[k..k + |part|] == part
  }

  lemma {:induction false} ContainsTextIff(s: string, part: string)
    ensures ContainsText(s, part) <==> exists k :: OccursAt(s, part, k)
  {
    if part <= s {
      assert OccursAt(s, part, 0);
    } else if s != "" {
      ContainsTextIff(s[1..], part);
      if k :| OccursAt(s[1..], part, k) { assert OccursAt(s, part, k + 1); }
      if k :| OccursAt(s, part, k) { assert k != 0 && OccursAt(s[1..], part, k - 1); }
    }
  }

  predicate StageAllows(stage: StageId, tool: ToolDef) {
    || tool.risk.Read?
    || stage.Implement?
    || ((stage.VerifyRepair? || stage.Finalize?) && ContainsText(tool.name, "project_command"))
  }

  function StageTools(stage: StageId, tools: seq<ToolDef>): seq<ToolDef> {
    if tools == [] then []
    else (if StageAllows(stage, tools[0]) then [tools[0]] else []) + StageTools(stage, tools[1..])
  }

  lemma {:induction false} StageToolsMembers(stage: StageId, tools: seq<ToolDef>)
    ensures forall t :: t in StageTools(stage, tools) <==>
        t in tools
        && (t.risk.Read? || stage.Implement?
            || (stage in {VerifyRepair, Finalize} && ContainsText(t.name, "project_command")))
  {
    if tools != [] {
      StageToolsMembers(stage, tools[1..]);
      assert tools == [tools[0]] + tools[1..];
    }
  }

  type RiskTable = map<string, RiskClass>

  function RiskTableOf(tools: seq<ToolDef>): RiskTable {
    if tools == [] then map[]
    else
      var last := tools[|tools| - 1];
      RiskTableOf(tools[..|tools| - 1])[last.name := last.risk]
  }

  lemma {:induction false} RiskTableEntries(tools: seq<ToolDef>)
    ensures forall name :: name in RiskTableOf(tools) ==> ToolDef(name, RiskTableOf(tools)[name]) in tools
    ensures forall t :: t in tools ==> t.name in RiskTableOf(tools)
  {
    if tools != [] {
      RiskTableEntries(tools[..|tools| - 1]);
      assert tools == tools[..|tools| - 1] + [tools[|tools| - 1]];
    }
  }

  /** The highest risk among named tools, READ at least. */
  function MaxRisk(names: seq<string>, table: RiskTable): RiskClass {
    if names == [] then Read
    else
      var before := MaxRisk(names[..|names| - 1], table);
      var name := names[|names| - 1];
      if name in table && RiskRank(table[name]) > RiskRank(before) then table[name] else before
  }

  lemma {:induction false} MaxRiskIsMaximum(names: seq<string>, table: RiskTable)
    ensures forall n :: n in names && n in table ==> RiskRank(table[n]) <= RiskRank(MaxRisk(names, table))
    ensures MaxRisk(names, table) == Read || exists n :: n in names && n in table && table[n] == MaxRisk(names, table)
  {
    if names != [] {
      MaxRiskIsMaximum(names[..|names| - 1], table);
      assert names == names[..|names| - 1] + [names[|names| - 1]];
    }
  }

  /** Names of the stage's read tools that are not listed yet, in table order. */
  function MissingReadTools(tools: seq<ToolDef>, listed: seq<string>): seq<string> {
    if tools == [] then []
    else
      var t := tools[|tools| - 1];
      var before := MissingReadTools(tools[..|tools| - 1], listed);
      if t.risk.Read? && t.name !in listed + before then before + [t.name] else before
  }

  lemma {:induction false} MissingReadToolsMembers(tools: seq<ToolDef>, listed: seq<string>)
    ensures forall n :: n in MissingReadTools(tools, listed) ==> ToolDef(n, Read) in tools
  {
    if tools != [] {
      MissingReadToolsMembers(tools[..|tools| - 1], listed);
      assert tools == tools[..|tools| - 1] + [tools[|tools| - 1]];
    }
  }

  // Steps.

  predicate Blank(s: string) {
    TrimSpace(s) == ""
  }

  /** The tools of an accepted step: a step that changes something also gets the read tools. */
  function GrantedTools(c: StepCandidate, tools: seq<ToolDef>): seq<string> {
    if MaxRisk(c.tools, RiskTableOf(tools)).Read? then c.tools
    else Ordering.SortStrings(c.tools + MissingReadTools(tools, c.tools))
  }

  function StepOf(c: StepCandidate, tools: seq<ToolDef>): StepSpec {
    StepSpec(c.ref, c.title, c.goal, c.dependencies, GrantedTools(c, tools), 1, MaxRisk(c.tools, RiskTableOf(tools)))
  }

  function StepsOf(steps: seq<StepCandidate>, tools: seq<ToolDef>): (specs: seq<StepSpec>)
    ensures |specs| == |steps|
  {
    if steps == [] then [] else StepsOf(steps[..|steps| - 1], tools) + [StepOf(steps[|steps| - 1], tools)]
  }

  lemma {:induction false} StepsOfAt(steps: seq<StepCandidate>, tools: seq<ToolDef>)
    ensures forall i :: 0 <= i < |steps| ==> StepsOf(steps, tools)[i] == StepOf(steps[i], tools)
  {
    if steps != [] { StepsOfAt(steps[..|steps| - 1], tools); }
  }

  function ToLower(s: string): string {
    if s == "" then ""
    else [if 'A' <= s[0] <= 'Z' then (s[0] as int + 32) as char else s[0]] + ToLower(s[1..])
  }

  /** Words separated by single spaces. */
  function Fields(s: string, inWord: bool): string {
    if s == "" then ""
    else if IsSpace(s[0]) then Fields(s[1..], false)
    else (if inWord then "" else " ") + [s[0]] + Fields(s[1..], true)
  }

  function JoinNul(names: seq<string>): string {
    if names == [] then "" else if |names| == 1 then names[0] else names[0] + "\U{0000}" + JoinNul(names[1..])
  }

  /** Equal keys mean the same work: same goal up to case and spacing, same tools in any order. */
  function IntentKey(goal: string, tools: seq<string>): string {
    ToLower(Fields(goal, false)) + "\U{0000}" + JoinNul(Ordering.SortStrings(tools))
  }

  function KeyOf(step: StepSpec): string {
    IntentKey(step.goal, step.allowedTools)
  }

  ghost predicate DistinctKeys(steps: seq<StepSpec>) {
    forall i, j :: 0 <= i < j < |steps| ==> KeyOf(steps[i]) != KeyOf(steps[j])
  }

  predicate DistinctRefs(steps: seq<StepCandidate>) {
    forall i, j :: 0 <= i < j < |steps| ==> steps[i].ref != steps[j].ref
  }

  predicate StepAcceptable(c: StepCandidate, refs: set<string>, table: RiskTable) {
    && !Blank(c.title) && !Blank(c.goal) && !Blank(c.acceptance)
    && 1 <= |c.tools| <= 3
    && (forall i :: 0 <= i < |c.dependencies| ==> c.dependencies[i] in refs && c.dependencies[i] != c.ref)
    && (forall i :: 0 <= i < |c.tools| ==> c.tools[i] in table)
    && (forall i, j :: 0 <= i < j < |c.tools| ==> c.tools[i] != c.tools[j])
  }

  function MaxSegment(input: SegmentInput): int {
    if input.maxSegmentSteps <= 0 || input.maxSegmentSteps > 4 then 4 else input.maxSegmentSteps
  }

  function RefsOf(steps: seq<StepCandidate>): set<string> {
    set s | s in steps :: s.ref
  }

  predicate Mutates(steps: seq<StepSpec>) {
    exists i :: 0 <= i < |steps| && !steps[i].risk.Read?
  }

  predicate AnyMutating(tools: seq<ToolDef>) {
    exists t :: t in tools && !t.risk.Read?
  }

  function PlanOf(c: Candidate, input: SegmentInput): PlanVersion {
    PlanVersion(SCHEMA_VERSION, input.planId, input.taskId, StepsOf(c.steps, input.tools))
  }

  /** What the segment builder asks of a candidate before plan validation. */
  ghost predicate CandidateAcceptable(c: Candidate, input: SegmentInput) {
    && !Blank(c.summary)
    && 0 < |c.steps| <= MaxSegment(input)
    && input.stepsPlanned + |c.steps| <= input.maxSteps
    && (forall s :: s in c.steps ==> !Blank(s.ref))
    && DistinctRefs(c.steps)
    && (forall i :: 0 <= i < |c.steps| ==> StepAcceptable(c.steps[i], RefsOf(c.steps), RiskTableOf(input.tools)))
    && DistinctKeys(StepsOf(c.steps, input.tools))
    && (input.stage.Implement? && AnyMutating(input.tools) ==> Mutates(StepsOf(c.steps, input.tools)))
  }

  ghost predicate SegmentAccepted(c: Candidate, input: SegmentInput) {
    CandidateAcceptable(c, input) && PlanValidation.ValidPlan(PlanOf(c, input), MaxSegment(input))
  }

  // What a built step keeps of its candidate.

  /** A read tool among the offered ones. */
  ghost predicate IsReadTool(tools: seq<ToolDef>, name: string) {
    exists t :: t in tools && t.name == name && t.risk == Read
  }

  /** The step is the candidate's, with its dependencies. A step that only reads keeps its tools; any other has its
      own tools and all read tools that are offered, once each and in ascending order. */
  ghost predicate BuiltFrom(step: StepSpec, c: StepCandidate, tools: seq<ToolDef>) {
    && step.stepId == c.ref && step.title == c.title && step.goal == c.goal && step.dependencies == c.dependencies
    && step.acceptanceCount == 1
    && (step.risk == Read ==> step.allowedTools == c.tools)
    && (step.risk != Read ==>
         && (forall n :: n in step.allowedTools <==> n in c.tools || IsReadTool(tools, n))
         && Ordering.SortedBy(Ordering.StringLeq, step.allowedTools) && Ordering.Distinct(step.allowedTools))
  }

  /** The step's risk is that of its most dangerous tool, each name standing for one risk. */
  ghost predicate HasRiskOf(step: StepSpec, c: StepCandidate, tools: seq<ToolDef>) {
    && (forall t :: t in tools && t.name in c.tools ==> NoMoreThan(t.risk, step.risk))
    && (step.risk == Read || exists t :: t in tools && t.name in c.tools && t.risk == step.risk)
  }

  predicate NoMoreThan(a: RiskClass, b: RiskClass) {
    match b
    case Read => a == Read
    case Write => a in {Read, Write}
    case Dangerous => a in {Read, Write, Dangerous}
    case ExternalSideEffect => true
  }

  ghost predicate OneRiskPerName(tools: seq<ToolDef>) {
    forall s, t :: s in tools && t in tools && s.name == t.name ==> s.risk == t.risk
  }

  lemma RanksOrderRisks(a: RiskClass, b: RiskClass)
    ensures RiskRank(a) <= RiskRank(b) <==> NoMoreThan(a, b)
  {
  }

  lemma {:induction false} MissingReadToolsAre(tools: seq<ToolDef>, listed: seq<string>)
    ensures forall n :: n in MissingReadTools(tools, listed) <==> n !in listed && IsReadTool(tools, n)
    ensures Ordering.Distinct(MissingReadTools(tools, listed))
  {
    if tools != [] {
      var init, t := tools[..|tools| - 1], tools[|tools| - 1];
      MissingReadToolsAre(init, listed);
      assert tools == init + [t];
      forall n ensures IsReadTool(tools, n) <==> IsReadTool(init, n) || (t.risk == Read && t.name == n) {
        if IsReadTool(init, n) {
          var r :| r in init && r.name == n && r.risk == Read;
          assert r in tools;
        }
        if IsReadTool(tools, n) {
          var r :| r in tools && r.name == n && r.risk == Read;
          assert r in init || r == t;
        }
      }
    }
  }

  lemma SortKeepsDistinct(names: seq<string>)
    requires Ordering.Distinct(names)
    ensures Ordering.Distinct(Ordering.SortStrings(names))
  {
    var sorted := Ordering.SortStrings(names);
    assert multiset(sorted) == multiset(names);
    forall i, j | 0 <= i < j < |sorted| ensures sorted[i] != sorted[j] {
      if sorted[i] == sorted[j] {
        TwiceIsTwo(sorted, i, j);
        DistinctIsOnce(names, sorted[i]);
      }
    }
  }

  lemma TwiceIsTwo(s: seq<string>, i: nat, j: nat)
    requires i < j < |s| && s[i] == s[j]
    ensures multiset(s)[s[i]] >= 2
  {
    assert s == s[..i] + [s[i]] + s[i + 1..j] + [s[j]] + s[j + 1..];
  }

  lemma {:induction false} DistinctIsOnce(s: seq<string>, x: string)
    requires Ordering.Distinct(s)
    ensures multiset(s)[x] <= 1
  {
    if s != [] {
      assert s == [s[0]] + s[1..];
      DistinctIsOnce(s[1..], x);
      if x == s[0] { assert x !in s[1..]; }
    }
  }

  lemma DistinctAppend(a: seq<string>, b: seq<string>)
    requires Ordering.Distinct(a) && Ordering.Distinct(b) && forall x :: x in b ==> x !in a
    ensures Ordering.Distinct(a + b)
  {
    forall i, j | 0 <= i < j < |a + b| ensures (a + b)[i] != (a + b)[j] {
      if i < |a| <= j { assert b[j - |a|] in b; }
    }
  }

  /** Every acceptable candidate step is built like that. */
  lemma StepsAreBuilt(c: StepCandidate, refs: set<string>, tools: seq<ToolDef>)
    requires StepAcceptable(c, refs, RiskTableOf(tools))
    ensures BuiltFrom(StepOf(c, tools), c, tools)
    ensures OneRiskPerName(tools) ==> HasRiskOf(StepOf(c, tools), c, tools)
  {
    var step, table := StepOf(c, tools), RiskTableOf(tools);
    var missing := MissingReadTools(tools, c.tools);
    assert Ordering.Distinct(c.tools);
    MissingReadToolsAre(tools, c.tools);
    Ordering.SortMembers(Ordering.StringLeq, c.tools + missing);
    Ordering.StringLeqIsTotalOrder();
    Ordering.SortByIsSorted(Ordering.StringLeq, c.tools + missing);
    DistinctAppend(c.tools, missing);
    SortKeepsDistinct(c.tools + missing);
    if OneRiskPerName(tools) { StepsHaveTheirRisk(c, tools); }
  }

  lemma StepsHaveTheirRisk(c: StepCandidate, tools: seq<ToolDef>)
    requires forall i :: 0 <= i < |c.tools| ==> c.tools[i] in RiskTableOf(tools)
    requires OneRiskPerName(tools)
    ensures HasRiskOf(StepOf(c, tools), c, tools)
  {
    hide RiskTableOf, RiskRank, GrantedTools;
    var step, table := StepOf(c, tools), RiskTableOf(tools);
    RiskTableEntries(tools);
    MaxRiskIsMaximum(c.tools, table);
    forall t | t in tools && t.name in c.tools ensures NoMoreThan(t.risk, step.risk) {
      assert ToolDef(t.name, table[t.name]) in tools;
      RanksOrderRisks(t.risk, step.risk);
    }
    if step.risk != Read {
      var n :| n in c.tools && n in table && table[n] == step.risk;
      assert ToolDef(n, table[n]) in tools;
    }
  }

  /** An accepted candidate's plan, step by step. */
  ghost predicate PlanBuiltFrom(plan: PlanVersion, c: Candidate, input: SegmentInput) {
    && plan.taskId == input.taskId && plan.planId == input.planId && |plan.steps| == |c.steps|
    && (forall i :: 0 <= i < |c.steps| ==> BuiltFrom(plan.steps[i], c.steps[i], input.tools))
    && (OneRiskPerName(input.tools) ==>
         forall i :: 0 <= i < |c.steps| ==> HasRiskOf(plan.steps[i], c.steps[i], input.tools))
  }

  lemma AcceptedPlansAreBuilt(c: Candidate, input: SegmentInput)
    requires SegmentAccepted(c, input)
    ensures PlanBuiltFrom(PlanOf(c, input), c, input)
  {
    hide StepAcceptable, StepOf, BuiltFrom, HasRiskOf, RiskTableOf, DistinctKeys, PlanValidation.ValidPlan, Blank,
         OneRiskPerName;
    StepsOfAt(c.steps, input.tools);
    forall i | 0 <= i < |c.steps|
      ensures BuiltFrom(PlanOf(c, input).steps[i], c.steps[i], input.tools)
      ensures OneRiskPerName(input.tools) ==> HasRiskOf(PlanOf(c, input).steps[i], c.steps[i], input.tools)
    {
      StepsAreBuilt(c.steps[i], RefsOf(c.steps), input.tools);
    }
  }

  /** An offered tool of that name. */
  ghost predicate IsTool(tools: seq<ToolDef>, name: string) {
    exists t :: t in tools && t.name == name
  }

  /** A candidate step says what it does, uses one to three different offered tools, and depends on other steps of its
      segment only. */
  ghost predicate StepReads(c: StepCandidate, steps: seq<StepCandidate>, tools: seq<ToolDef>) {
    && !Blank(c.title) && !Blank(c.goal) && !Blank(c.acceptance) && 1 <= |c.tools| <= 3
    && (forall n :: n in c.tools ==> IsTool(tools, n)) && Ordering.Distinct(c.tools)
    && (forall d :: d in c.dependencies ==> d != c.ref && exists s :: s in steps && s.ref == d)
  }

  lemma StepAcceptableIff(c: StepCandidate, steps: seq<StepCandidate>, tools: seq<ToolDef>)
    ensures StepAcceptable(c, RefsOf(steps), RiskTableOf(tools)) <==> StepReads(c, steps, tools)
  {
    hide RiskTableOf;
    RiskTableEntries(tools);
    forall n ensures n in RiskTableOf(tools) <==> IsTool(tools, n) {
      if n in RiskTableOf(tools) { assert ToolDef(n, RiskTableOf(tools)[n]) in tools; }
    }
    assert forall d :: d in RefsOf(steps) <==> exists s :: s in steps && s.ref == d;
    MembersSatisfy(c.tools, n => n in RiskTableOf(tools));
    MembersSatisfy(c.dependencies, d => d in RefsOf(steps) && d != c.ref);
  }

  lemma MembersSatisfy(names: seq<string>, holds: string -> bool)
    ensures (forall i :: 0 <= i < |names| ==> holds(names[i])) <==> (forall n :: n in names ==> holds(n))
  {
  }

  /** The candidates a builder takes, apart from cycles among their dependencies. */
  lemma AcceptableIff(c: Candidate, input: SegmentInput)
    ensures CandidateAcceptable(c, input) <==>
      && !Blank(c.summary) && c.steps != [] && input.stepsPlanned + |c.steps| <= input.maxSteps
      && |c.steps| <= (if 1 <= input.maxSegmentSteps <= 4 then input.maxSegmentSteps else 4)
      && (forall s :: s in c.steps ==> !Blank(s.ref) && StepReads(s, c.steps, input.tools))
      && (forall i, j :: 0 <= i < j < |c.steps| ==> c.steps[i].ref != c.steps[j].ref)
      && DistinctKeys(StepsOf(c.steps, input.tools))
      && (input.stage.Implement? && (exists t :: t in input.tools && t.risk != Read) ==>
           exists s :: s in StepsOf(c.steps, input.tools) && s.risk != Read)
  {
    hide StepAcceptable, StepReads, RiskTableOf, DistinctKeys, StepsOf, Blank, RefsOf;
    forall s | s in c.steps
      ensures StepAcceptable(s, RefsOf(c.steps), RiskTableOf(input.tools)) <==> StepReads(s, c.steps, input.tools)
    {
      StepAcceptableIff(s, c.steps, input.tools);
    }
    var steps := StepsOf(c.steps, input.tools);
    assert Mutates(steps) <==> exists s :: s in steps && s.risk != Read by {
      if i :| 0 <= i < |steps| && !steps[i].risk.Read? { assert steps[i] in steps; }
    }
  }

  // The builder.

  method CollectRefs(steps: seq<StepCandidate>) returns (ok: bool, refs: set<string>)
    ensures ok <==>
      (forall s :: s in steps ==> !Blank(s.ref))
      && forall i, j :: 0 <= i < j < |steps| ==> steps[i].ref != steps[j].ref
    ensures ok ==> refs == RefsOf(steps)
  {
    refs := {};
    for i := 0 to |steps|
      invariant refs == set k | 0 <= k < i :: steps[k].ref
      invariant forall k :: 0 <= k < i ==> !Blank(steps[k].ref)
      invariant DistinctRefs(steps[..i])
    {
      if Blank(steps[i].ref) || steps[i].ref in refs {
        if steps[i].ref in refs {
          var k :| 0 <= k < i && steps[k].ref == steps[i].ref;
          assert !DistinctRefs(steps);
        }
        return false, {};
      }
      refs := refs + {steps[i].ref};
      assert DistinctRefs(steps[..i + 1]);
    }
    assert steps[..|steps|] == steps;
    assert (set k | 0 <= k < |steps| :: steps[k].ref) == RefsOf(steps);
    ok := true;
  }

  /** The tool loop of one step: unknown and repeated tools are refused, the risk is accumulated. */
  method RiskOfTools(names: seq<string>, table: RiskTable) returns (ok: bool, risk: RiskClass)
    ensures ok <==>
      (forall i :: 0 <= i < |names| ==> names[i] in table)
      && (forall i, j :: 0 <= i < j < |names| ==> names[i] != names[j])
    ensures ok ==> risk == MaxRisk(names, table)
  {
    risk := Read;
    var seen: set<string> := {};
    for i := 0 to |names|
      invariant seen == set k | 0 <= k < i :: names[k]
      invariant forall k :: 0 <= k < i ==> names[k] in table
      invariant forall k, l :: 0 <= k < l < i ==> names[k] != names[l]
      invariant risk == MaxRisk(names[..i], table)
    {
      if names[i] !in table || names[i] in seen {
        return false, risk;
      }
      seen := seen + {names[i]};
      assert names[..i + 1][..i] == names[..i];
      if RiskRank(table[names[i]]) > RiskRank(risk) {
        risk := table[names[i]];
      }
    }
    assert names[..|names|] == names;
    ok := true;
  }

  method GrantReadTools(names: seq<string>, tools: seq<ToolDef>) returns (granted: seq<string>)
    ensures granted == Ordering.SortStrings(names + MissingReadTools(tools, names))
  {
    granted := names;
    for i := 0 to |tools|
      invariant granted == names + MissingReadTools(tools[..i], names)
    {
      assert tools[..i + 1][..i] == tools[..i];
      if !tools[i].risk.Read? || tools[i].name in granted {
        continue;
      }
      granted := granted + [tools[i].name];
    }
    assert tools[..|tools|] == tools;
    granted := Ordering.SortStrings(granted);
  }

  method BuildStep(c: StepCandidate, refs: set<string>, tools: seq<ToolDef>, table: RiskTable)
      returns (r: Option<StepSpec>)
    requires table == RiskTableOf(tools)
    ensures r.Some? <==> StepAcceptable(c, refs, table)
    ensures r.Some? ==> r.value == StepOf(c, tools)
  {
    if Blank(c.title) || Blank(c.goal) || Blank(c.acceptance) || |c.tools| == 0 || |c.tools| > 3 {
      return None;
    }
    for i := 0 to |c.dependencies|
      invariant forall k :: 0 <= k < i ==> c.dependencies[k] in refs && c.dependencies[k] != c.ref
    {
      if c.dependencies[i] !in refs || c.dependencies[i] == c.ref {
        return None;
      }
    }
    var ok, risk := RiskOfTools(c.tools, table);
    if !ok {
      return None;
    }
    var granted := c.tools;
    if !risk.Read? {
      granted := GrantReadTools(c.tools, tools);
    }
    return Some(StepSpec(c.ref, c.title, c.goal, c.dependencies, granted, 1, risk));
  }

  /** The keys of the first n steps. */
  ghost predicate KeysUpTo(steps: seq<StepSpec>, n: nat, keys: set<string>)
    requires n <= |steps|
  {
    && (forall k :: 0 <= k < n ==> KeyOf(steps[k]) in keys)
    && (forall key :: key in keys ==> exists k :: 0 <= k < n && KeyOf(steps[k]) == key)
  }

  lemma OneMoreKey(steps: seq<StepSpec>, n: nat, keys: set<string>)
    requires n < |steps| && KeysUpTo(steps, n, keys) && DistinctKeys(steps[..n])
    ensures KeyOf(steps[n]) in keys ==> !DistinctKeys(steps)
    ensures KeyOf(steps[n]) !in keys ==>
      KeysUpTo(steps, n + 1, keys + {KeyOf(steps[n])}) && DistinctKeys(steps[..n + 1])
  {
    hide KeyOf;
    assert forall k :: 0 <= k < n ==> steps[..n][k] == steps[k] == steps[..n + 1][k];
  }

  /** Builds the steps of a candidate, refusing repeated work inside the segment. */
  method BuildSteps(c: Candidate, refs: set<string>, input: SegmentInput)
      returns (ok: bool, steps: seq<StepSpec>, mutating: bool)
    ensures ok <==>
      ((forall i :: 0 <= i < |c.steps| ==> StepAcceptable(c.steps[i], refs, RiskTableOf(input.tools)))
       && DistinctKeys(StepsOf(c.steps, input.tools)))
    ensures ok ==> steps == StepsOf(c.steps, input.tools)
    ensures ok ==> mutating == Mutates(steps)
  {
    hide StepAcceptable, IntentKey, StepOf, RiskTableOf, StepsOf, DistinctKeys, KeysUpTo;
    steps, mutating := [], false;
    var table := RiskTableOf(input.tools);
    var keys: set<string> := {};
    ghost var wanted := StepsOf(c.steps, input.tools);
    StepsOfAt(c.steps, input.tools);
    assert KeysUpTo(wanted, 0, keys) && DistinctKeys(wanted[..0]) by { NoKeys(wanted); }
    for i := 0 to |c.steps|
      invariant forall k :: 0 <= k < i ==> StepAcceptable(c.steps[k], refs, table)
      invariant steps == wanted[..i]
      invariant KeysUpTo(wanted, i, keys) && DistinctKeys(wanted[..i])
      invariant mutating <==> exists k :: 0 <= k < i && !wanted[k].risk.Read?
    {
      var built := BuildStep(c.steps[i], refs, input.tools, table);
      if built.None? {
        return false, [], false;
      }
      assert built.value == wanted[i];
      if !built.value.risk.Read? {
        mutating := true;
      }
      var key := IntentKey(built.value.goal, built.value.allowedTools);
      assert key == KeyOf(wanted[i]);
      OneMoreKey(wanted, i, keys);
      if key in keys {
        return false, [], false;
      }
      keys := keys + {key};
      steps := steps + [built.value];
    }
    assert wanted[..|wanted|] == wanted;
    ok := true;
  }

  lemma NoKeys(steps: seq<StepSpec>)
    ensures KeysUpTo(steps, 0, {}) && DistinctKeys(steps[..0])
  {
  }

  method BuildPlan(c: Candidate, input: SegmentInput) returns (r: Option<PlanVersion>)
    ensures r == if SegmentAccepted(c, input) then Some(PlanOf(c, input)) else None
    ensures r.Some? ==> PlanBuiltFrom(r.value, c, input)
  {
    if SegmentAccepted(c, input) { AcceptedPlansAreBuilt(c, input); }
    hide PlanBuiltFrom, StepAcceptable, DistinctKeys, StepsOf, RiskTableOf, RefsOf, Blank, PlanValidation.ValidPlan,
         Mutates;
    var maxSegment := input.maxSegmentSteps;
    if maxSegment <= 0 || maxSegment > 4 {
      maxSegment := 4;
    }
    if Blank(c.summary) || |c.steps| == 0 || |c.steps| > maxSegment {
      return None;
    }
    if input.stepsPlanned + |c.steps| > input.maxSteps {
      return None;
    }
    var ok, refs := CollectRefs(c.steps);
    if !ok {
      return None;
    }
    var built, steps, mutating := BuildSteps(c, refs, input);
    if !built {
      return None;
    }
    if input.stage.Implement? && (exists t :: t in input.tools && !t.risk.Read?) && !mutating {
      return None;
    }
    var plan := PlanVersion(SCHEMA_VERSION, input.planId, input.taskId, steps);
    var errors := PlanValidation.Validate(plan, maxSegment);
    if |errors| > 0 {
      return None;
    }
    return Some(plan);
  }

  // What an accepted segment keeps to.

  /** The step's risk is the highest among its tools. */
  ghost predicate RiskIsMaximal(step: StepSpec, table: RiskTable) {
    && (forall n :: n in step.allowedTools && n in table ==> RiskRank(table[n]) <= RiskRank(step.risk))
    && (step.risk.Read? || exists n :: n in step.allowedTools && n in table && table[n] == step.risk)
  }

  lemma GrantedToolsKeepTheMaximum(c: StepCandidate, tools: seq<ToolDef>)
    requires forall i :: 0 <= i < |c.tools| ==> c.tools[i] in RiskTableOf(tools)
    requires forall s, t :: s in tools && t in tools && s.name == t.name ==> s.risk == t.risk
    ensures RiskIsMaximal(StepOf(c, tools), RiskTableOf(tools))
    ensures forall n :: n in StepOf(c, tools).allowedTools ==> n in RiskTableOf(tools)
  {
    var table := RiskTableOf(tools);
    RiskTableEntries(tools);
    MaxRiskIsMaximum(c.tools, table);
    MissingReadToolsMembers(tools, c.tools);
    Ordering.SortMembers(Ordering.StringLeq, c.tools + MissingReadTools(tools, c.tools));
  }
}
