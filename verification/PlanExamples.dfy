/** A concrete run in which a task without a horizon is completed beside an open step of its plan
    (internal/app/service.go, RunTask): its second step depends on the first, so exactly one step is ready. */
module PlanExamples {
  import opened Contracts
  import Ordering
  import Strings
  import opened PlanValidation
  import opened Acceptance
  import opened SinglePlan

  const FIRST := StepSpec("a", "t", "g", [], ["read_file"], 1, Read)
  const SECOND := StepSpec("b", "t", "h", ["a"], ["read_file"], 1, Read)
  const PLAN := PlanVersion(SCHEMA_VERSION, "p", "t", [FIRST, SECOND])

  lemma GraphOfPlan()
    ensures GraphOf(PLAN.steps) == map["a" := [], "b" := ["a"]]
  {
    assert PLAN.steps[..1] == [FIRST] && [FIRST][..0] == [];
    assert GraphOf([FIRST]) == map["a" := []];
  }

  lemma OnlyTheFirstIsReady()
    ensures ReadySet(PLAN.steps, FreshStatuses(PLAN)) == ["a"]
  {
    GraphOfPlan();
    var statuses := FreshStatuses(PLAN);
    assert statuses == map["a" := StepPending, "b" := StepPending];
    assert "a" in SECOND.dependencies && !StatusIs(statuses, "a", StepCompleted);
    assert !IsReady(SECOND, statuses) && IsReady(FIRST, statuses);
    assert PLAN.steps[..1] == [FIRST] && [FIRST][..0] == [];
    assert ReadyIds([FIRST], statuses) == ["a"];
    assert ReadyIds(PLAN.steps, statuses) == ["a"];
    assert Ordering.SortBy(Ordering.StringLeq, ["a"][1..]) == [];
  }

  /** The default criterion is met by the report of the reconnaissance. */
  lemma ReconMeetsTheDefault()
    ensures ReportOf([DEFAULT_CRITERION], [RECON_REPORT], {}).passed
  {
    var evidence := [RECON_REPORT];
    assert Strings.TrimSpace("RECON_REPORT") == "RECON_REPORT";
    assert Supports(evidence[0], "RECON_REPORT");
    assert Met(DEFAULT_CRITERION, evidence, false);
    ReportPassesIffCriteriaMet([DEFAULT_CRITERION], evidence, {});
  }

  lemma RunTaskCompletesBesideAnOpenStep() returns (run: Run)
    ensures IsRun(run) && |run.ops| == 1 && run.ops[0].ReconRun?
    ensures run.states[1].status.Completed? && LeftOpen(run, 0) && !AllTerminal(run.states[1].statuses)
  {
    OnlyTheFirstIsReady();
    GraphOfPlan();
    ReconMeetsTheDefault();
    hide ReadySet, ReportOf, GraphOf;
    var t := Create(PLAN, []);
    var op := ReconRun(ReconSucceeds(Verified({})));
    assert t.statuses["b"] == StepPending && OthersOpen(t, "a");
    var u := Perform(t, op).0;
    run := Run([t, u], [op]);
    assert IsCreated(t);
    assert [] + [RECON_REPORT] == [RECON_REPORT];
    assert u.statuses["b"] == StepPending;
    assert IsStep(run, 0);
  }
}
