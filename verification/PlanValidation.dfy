/** Plan acceptance and the ready set (internal/plan/validate.go). */
module PlanValidation {
  import opened Contracts
  import opened Ordering
  import opened PlanGraph

  datatype PlanError =
    | UnsupportedVersion | MissingIds | NoSteps | TooManySteps
    | IncompleteStep | DuplicateStep(id: string) | NoTools(id: string) | NoCriteria(id: string)
    | SelfDependency(id: string) | UnknownDependency(id: string, dependency: string)
    | DependencyCycle(walk: seq<string>)

  function GraphOf(steps: seq<StepSpec>): Graph {
    if steps == [] then map[]
    else
      var last := steps[|steps| - 1];
      GraphOf(steps[..|steps| - 1])[last.stepId := last.dependencies]
  }

  predicate Named(step: StepSpec) {
    step.stepId != "" && step.title != "" && step.goal != ""
  }

  predicate Executable(step: StepSpec) {
    Named(step) && step.allowedTools != [] && step.acceptanceCount > 0
  }

  ghost predicate DistinctIds(steps: seq<StepSpec>) {
    forall i, j :: 0 <= i < j < |steps| ==> steps[i].stepId != steps[j].stepId
  }

  predicate KnownDependencies(g: Graph, step: StepSpec) {
    forall d :: d in step.dependencies ==> d in g
  }

  predicate HeaderValid(plan: PlanVersion, maxSteps: int) {
    && plan.version == SCHEMA_VERSION
    && plan.taskId != "" && plan.planId != ""
    && plan.steps != []
    && (maxSteps > 0 ==> |plan.steps| <= maxSteps)
  }

  /** What an accepted plan is. */
  ghost predicate ValidPlan(plan: PlanVersion, maxSteps: int) {
    && HeaderValid(plan, maxSteps)
    && (forall s :: s in plan.steps ==> Executable(s) && KnownDependencies(GraphOf(plan.steps), s))
    && DistinctIds(plan.steps)
    && Acyclic(GraphOf(plan.steps))
  }

  lemma {:induction false} GraphKeys(steps: seq<StepSpec>)
    ensures forall i :: 0 <= i < |steps| ==> steps[i].stepId in GraphOf(steps)
    ensures forall id :: id in GraphOf(steps) ==> exists i :: 0 <= i < |steps| && steps[i].stepId == id
  {
    if steps != [] {
      var init := steps[..|steps| - 1];
      GraphKeys(init);
      forall i | 0 <= i < |steps| ensures steps[i].stepId in GraphOf(steps) {
        if i < |init| { assert init[i].stepId in GraphOf(init); }
      }
      forall id | id in GraphOf(steps) ensures exists i :: 0 <= i < |steps| && steps[i].stepId == id {
        if id in GraphOf(init) {
          var i :| 0 <= i < |init| && init[i].stepId == id;
          assert steps[i].stepId == id;
        } else {
          assert steps[|steps| - 1].stepId == id;
        }
      }
    }
  }

  lemma {:induction false} GraphEntry(steps: seq<StepSpec>, i: nat)
    requires DistinctIds(steps) && i < |steps|
    ensures steps[i].stepId in GraphOf(steps) && GraphOf(steps)[steps[i].stepId] == steps[i].dependencies
  {
    var init := steps[..|steps| - 1];
    if i < |init| {
      GraphEntry(init, i);
      assert steps[i].stepId != steps[|steps| - 1].stepId;
    }
  }

  lemma SelfDependencyIsACycle(steps: seq<StepSpec>, i: nat)
    requires DistinctIds(steps) && i < |steps| && steps[i].stepId in steps[i].dependencies
    ensures !Acyclic(GraphOf(steps))
  {
    GraphEntry(steps, i);
    assert ClosedWalk(GraphOf(steps), [steps[i].stepId, steps[i].stepId]);
  }

  /** The checks on one dependency list. */
  method CheckDependencies(step: StepSpec, byId: Graph) returns (errors: seq<PlanError>)
    ensures errors == [] <==> KnownDependencies(byId, step) && step.stepId !in step.dependencies
  {
    errors := [];
    for k := 0 to |step.dependencies|
      invariant errors == [] <==> forall j :: 0 <= j < k ==>
          step.dependencies[j] in byId && step.dependencies[j] != step.stepId
    {
      var dependency := step.dependencies[k];
      if dependency == step.stepId {
        errors := errors + [SelfDependency(step.stepId)];
      }
      if dependency !in byId {
        errors := errors + [UnknownDependency(step.stepId, dependency)];
      }
    }
  }

  lemma DistinctIdsExtend(steps: seq<StepSpec>, k: nat)
    requires k < |steps|
    ensures DistinctIds(steps[..k + 1]) <==> DistinctIds(steps[..k]) && steps[k].stepId !in GraphOf(steps[..k])
  {
    var init, ext := steps[..k], steps[..k + 1];
    GraphKeys(init);
    assert forall i :: 0 <= i < k ==> init[i] == ext[i];
    if steps[k].stepId in GraphOf(init) {
      var i :| 0 <= i < |init| && init[i].stepId == steps[k].stepId;
      assert ext[i].stepId == ext[k].stepId;
    }
    if DistinctIds(ext) {
      forall i, j | 0 <= i < j < k ensures init[i].stepId != init[j].stepId {
        assert ext[i].stepId != ext[j].stepId;
      }
    }
  }

  /** The pass that fills the id table. */
  method IndexSteps(steps: seq<StepSpec>) returns (byId: Graph, errors: seq<PlanError>)
    ensures errors == [] <==> (forall s :: s in steps ==> Executable(s)) && DistinctIds(steps)
    ensures errors == [] ==> byId == GraphOf(steps)
  {
    byId, errors := map[], [];
    for k := 0 to |steps|
      invariant errors == [] <==> (forall i :: 0 <= i < k ==> Executable(steps[i])) && DistinctIds(steps[..k])
      invariant errors == [] ==> byId == GraphOf(steps[..k])
    {
      var step := steps[k];
      assert steps[..k + 1][..k] == steps[..k];
      DistinctIdsExtend(steps, k);
      if step.stepId == "" || step.title == "" || step.goal == "" {
        errors := errors + [IncompleteStep];
      } else if step.stepId in byId {
        errors := errors + [DuplicateStep(step.stepId)];
      } else {
        if step.allowedTools == [] {
          errors := errors + [NoTools(step.stepId)];
        }
        if step.acceptanceCount == 0 {
          errors := errors + [NoCriteria(step.stepId)];
        }
        byId := byId[step.stepId := step.dependencies];
      }
    }
    assert steps[..|steps|] == steps;
  }

  method CheckHeader(plan: PlanVersion, maxSteps: int) returns (errors: seq<PlanError>)
    ensures errors == [] <==> HeaderValid(plan, maxSteps)
  {
    errors := [];
    if plan.version != SCHEMA_VERSION { errors := errors + [UnsupportedVersion]; }
    if plan.taskId == "" || plan.planId == "" { errors := errors + [MissingIds]; }
    if |plan.steps| == 0 { errors := errors + [NoSteps]; }
    if maxSteps > 0 && |plan.steps| > maxSteps { errors := errors + [TooManySteps]; }
  }

  /** Accepts exactly the valid plans. */
  method Validate(plan: PlanVersion, maxSteps: int) returns (errors: seq<PlanError>)
    ensures errors == [] <==> ValidPlan(plan, maxSteps)
  {
    errors := CheckHeader(plan, maxSteps);
    var byId, indexErrors := IndexSteps(plan.steps);
    ghost var shapeErrors := errors + indexErrors;
    errors := errors + indexErrors;
    for k := 0 to |plan.steps|
      invariant errors == [] <==>
        (shapeErrors == [] && forall i :: 0 <= i < k ==>
          KnownDependencies(byId, plan.steps[i]) && plan.steps[i].stepId !in plan.steps[i].dependencies)
    {
      var found := CheckDependencies(plan.steps[k], byId);
      errors := errors + found;
    }
    var cycle, _ := FindCycle(byId);
    if |cycle| > 0 {
      errors := errors + [DependencyCycle(cycle)];
    }
    if ValidPlan(plan, maxSteps) {
      forall i | 0 <= i < |plan.steps| ensures plan.steps[i].stepId !in plan.steps[i].dependencies {
        if plan.steps[i].stepId in plan.steps[i].dependencies { SelfDependencyIsACycle(plan.steps, i); }
      }
    }
  }

  // The ready set.

  type Statuses = map<string, StepStatus>

  predicate StatusIs(statuses: Statuses, id: string, wanted: StepStatus) {
    id in statuses && statuses[id] == wanted
  }

  predicate Open(statuses: Statuses, id: string) {
    StatusIs(statuses, id, StepPending) || StatusIs(statuses, id, StepReady)
  }

  /** Neither waiting to run nor completed: such a step can hold others back for good. */
  predicate Stuck(statuses: Statuses, id: string) {
    !Open(statuses, id) && !StatusIs(statuses, id, StepCompleted)
  }

  predicate IsReady(step: StepSpec, statuses: Statuses) {
    Open(statuses, step.stepId) && forall d :: d in step.dependencies ==> StatusIs(statuses, d, StepCompleted)
  }

  function ReadyIds(steps: seq<StepSpec>, statuses: Statuses): seq<string> {
    if steps == [] then []
    else
      ReadyIds(steps[..|steps| - 1], statuses) +
      (if IsReady(steps[|steps| - 1], statuses) then [steps[|steps| - 1].stepId] else [])
  }

  function ReadySet(steps: seq<StepSpec>, statuses: Statuses): seq<string> {
    SortStrings(ReadyIds(steps, statuses))
  }

  lemma {:induction false} ReadyIdsMembers(steps: seq<StepSpec>, statuses: Statuses)
    ensures forall s :: s in steps && IsReady(s, statuses) ==> s.stepId in ReadyIds(steps, statuses)
    ensures forall id :: id in ReadyIds(steps, statuses) ==> exists s ::
        s in steps && s.stepId == id && IsReady(s, statuses)
  {
    if steps != [] {
      ReadyIdsMembers(steps[..|steps| - 1], statuses);
      assert steps == steps[..|steps| - 1] + [steps[|steps| - 1]];
    }
  }

  /** Ascending ids of exactly the steps that may start now. */
  lemma ReadySetIsExact(steps: seq<StepSpec>, statuses: Statuses)
    ensures SortedBy(StringLeq, ReadySet(steps, statuses))
    ensures forall id :: id in ReadySet(steps, statuses) <==>
        exists s :: s in steps && s.stepId == id && IsReady(s, statuses)
  {
    StringLeqIsTotalOrder();
    SortByIsSorted(StringLeq, ReadyIds(steps, statuses));
    SortMembers(StringLeq, ReadyIds(steps, statuses));
    ReadyIdsMembers(steps, statuses);
  }

  lemma ReadyMember(steps: seq<StepSpec>, statuses: Statuses, i: nat)
    requires i < |steps| && IsReady(steps[i], statuses)
    ensures steps[i].stepId in ReadySet(steps, statuses)
  {
    ReadySetIsExact(steps, statuses);
    assert steps[i] in steps;
  }

  method ReadySteps(plan: PlanVersion, statuses: Statuses) returns (ready: seq<string>)
    ensures ready == ReadySet(plan.steps, statuses)
  {
    ready := [];
    for i := 0 to |plan.steps|
      invariant ready == ReadyIds(plan.steps[..i], statuses)
    {
      var step := plan.steps[i];
      assert plan.steps[..i + 1][..i] == plan.steps[..i];
      if Open(statuses, step.stepId) {
        var complete := true;
        for j := 0 to |step.dependencies|
          invariant complete && forall k :: 0 <= k < j ==> StatusIs(statuses, step.dependencies[k], StepCompleted)
        {
          if !StatusIs(statuses, step.dependencies[j], StepCompleted) {
            complete := false;
            break;
          }
        }
        if complete {
          ready := ready + [step.stepId];
        }
      }
    }
    assert plan.steps[..|plan.steps|] == plan.steps;
    ready := SortStrings(ready);
  }

  // A valid plan does not deadlock.

  ghost predicate BlockedBy(g: Graph, statuses: Statuses, w: seq<string>) {
    && |w| >= 2 && Walk(g, w)
    && Stuck(statuses, w[|w| - 1])
    && forall i :: 0 <= i < |w| - 1 ==> Open(statuses, w[i])
  }

  lemma UnfinishedDependency(plan: PlanVersion, statuses: Statuses, id: string) returns (d: string)
    requires DistinctIds(plan.steps) && ReadySet(plan.steps, statuses) == []
    requires id in GraphOf(plan.steps) && Open(statuses, id)
    ensures d in Deps(GraphOf(plan.steps), id) && !StatusIs(statuses, d, StepCompleted)
  {
    GraphKeys(plan.steps);
    var i :| 0 <= i < |plan.steps| && plan.steps[i].stepId == id;
    GraphEntry(plan.steps, i);
    if IsReady(plan.steps[i], statuses) {
      ReadyMember(plan.steps, statuses, i);
      assert false;
    }
    d :| d in plan.steps[i].dependencies && !StatusIs(statuses, d, StepCompleted);
  }

  lemma KnownDependency(plan: PlanVersion, id: string, d: string)
    requires DistinctIds(plan.steps)
    requires forall s :: s in plan.steps ==> KnownDependencies(GraphOf(plan.steps), s)
    requires d in Deps(GraphOf(plan.steps), id)
    ensures d in GraphOf(plan.steps)
  {
    GraphKeys(plan.steps);
    var i :| 0 <= i < |plan.steps| && plan.steps[i].stepId == id;
    GraphEntry(plan.steps, i);
    assert plan.steps[i] in plan.steps;
  }

  lemma ExtendWalk(g: Graph, w: seq<string>, d: string)
    requires w != [] && Walk(g, w) && d in Deps(g, w[|w| - 1]) && Acyclic(g)
    ensures Walk(g, w + [d]) && d !in w
  {
    if d in w {
      var k :| 0 <= k < |w| && w[k] == d;
      ClosingTheStack(g, w, k, d);
      assert false;
    }
  }

  /** Follows unfinished dependencies from the end of an open walk until one is stuck. */
  lemma {:induction false} FollowUnfinished(plan: PlanVersion, maxSteps: int, statuses: Statuses, w: seq<string>)
      returns (full: seq<string>)
    requires ValidPlan(plan, maxSteps) && ReadySet(plan.steps, statuses) == []
    requires w != [] && Walk(GraphOf(plan.steps), w)
    requires forall i :: 0 <= i < |w| ==> Open(statuses, w[i])
    requires w[|w| - 1] in GraphOf(plan.steps)
    ensures BlockedBy(GraphOf(plan.steps), statuses, full) && full[0] == w[0]
    decreases GraphOf(plan.steps).Keys - (set id | id in w)
  {
    var g := GraphOf(plan.steps);
    var d := UnfinishedDependency(plan, statuses, w[|w| - 1]);
    ExtendWalk(g, w, d);
    if Open(statuses, d) {
      KnownDependency(plan, w[|w| - 1], d);
      assert d in g.Keys - (set id | id in w);
      assert d in w + [d];
      full := FollowUnfinished(plan, maxSteps, statuses, w + [d]);
    } else {
      full := w + [d];
    }
  }

  /** With nothing ready, every open step waits, through open steps only, on a stuck one. */
  lemma NoDeadlock(plan: PlanVersion, maxSteps: int, statuses: Statuses, step: StepSpec)
    requires ValidPlan(plan, maxSteps) && ReadySet(plan.steps, statuses) == []
    requires step in plan.steps && Open(statuses, step.stepId)
    ensures exists w :: BlockedBy(GraphOf(plan.steps), statuses, w) && w[0] == step.stepId
  {
    GraphKeys(plan.steps);
    var w := FollowUnfinished(plan, maxSteps, statuses, [step.stepId]);
  }

  lemma ReadyStepIsUnblocked(plan: PlanVersion, statuses: Statuses, step: StepSpec, w: seq<string>)
    requires DistinctIds(plan.steps) && step in plan.steps && IsReady(step, statuses)
    requires w != [] && w[0] == step.stepId
    ensures !BlockedBy(GraphOf(plan.steps), statuses, w)
  {
    var i :| 0 <= i < |plan.steps| && plan.steps[i] == step;
    GraphEntry(plan.steps, i);
    if |w| >= 2 && Walk(GraphOf(plan.steps), w) {
      assert w[1] in Deps(GraphOf(plan.steps), w[0]);
      assert StatusIs(statuses, w[1], StepCompleted);
    }
  }

  /** Nothing is ready exactly when every open step has a blocking walk. */
  lemma ReadyIsEmptyIffAllAreBlocked(plan: PlanVersion, maxSteps: int, statuses: Statuses)
    requires ValidPlan(plan, maxSteps)
    ensures ReadySet(plan.steps, statuses) == [] <==>
      forall s :: s in plan.steps && Open(statuses, s.stepId) ==>
        exists w :: BlockedBy(GraphOf(plan.steps), statuses, w) && w[0] == s.stepId
  {
    var g := GraphOf(plan.steps);
    if ReadySet(plan.steps, statuses) == [] {
      forall s | s in plan.steps && Open(statuses, s.stepId)
        ensures exists w :: BlockedBy(g, statuses, w) && w[0] == s.stepId
      {
        NoDeadlock(plan, maxSteps, statuses, s);
      }
    } else {
      ReadySetIsExact(plan.steps, statuses);
      var id := ReadySet(plan.steps, statuses)[0];
      assert id in ReadySet(plan.steps, statuses);
      var s :| s in plan.steps && s.stepId == id && IsReady(s, statuses);
      forall w | w != [] && w[0] == s.stepId ensures !BlockedBy(g, statuses, w) {
        ReadyStepIsUnblocked(plan, statuses, s, w);
      }
    }
  }
}
