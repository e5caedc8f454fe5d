/** A long-horizon task that is paused and resumed between its last step and the Advance that would close it
    (internal/app/long_horizon.go, finishHorizonSegment and recordHorizonFailure). It is READY then, and a READY task
    cannot be closed; but a failed assessment gives the segment up, and a step that is left closes a new one. */
module HorizonEnd {
  import opened Contracts
  import Strings
  import Segment
  import opened Acceptance
  import opened HorizonModel
  import opened HorizonInvariant
  import opened HorizonTheorems
  import opened ReadingSegment

  /** The last segment of the last stage is done and nothing else stands in the way. */
  ghost predicate AtTheEnd(w: World) {
    && Unprocessed(w) && AllCompleted(Latest(w)) && Latest(w).terminal && w.h.stageIndex == 4
    && w.h.status.HorizonActive? && !w.h.awaiting && !TokensExhausted(w.spec.budget, w.h.usage)
  }

  ghost predicate ReadyAtTheEnd(w: World) {
    AtTheEnd(w) && w.status.ReadyToRun?
  }

  predicate Clears(a: Answers) {
    !a.deadlinePassed && a.stage.Assessed? && a.verification.Verified?
  }

  lemma NothingReadyAtTheEnd(w: World)
    requires w.plans != [] && AllCompleted(Latest(w))
    ensures Ready(w) == []
  {
    if Ready(w) != [] {
      ReadyIsOpen(w);
      assert false;
    }
  }

  /** With its last stage done, a READY or RUNNING task is closed exactly when it is RUNNING, in time, assessed and
      verified; a READY one that is in time and assessed answers with an error and stays as it is. */
  lemma LastStageClosesIffRunning(w: World, a: Answers)
    requires AtTheEnd(w) && w.status in {ReadyToRun, Running}
    ensures AdvanceTask(w, a).1.Reported? && AdvanceTask(w, a).1.action in {TaskClosed, AcceptanceRejected} <==>
        w.status.Running? && Clears(a)
    ensures w.status.ReadyToRun? && !a.deadlinePassed && a.stage.Assessed? ==> AdvanceTask(w, a) == (w, OperationError)
  {
    hide AllCompleted, Ready, ReportOf, TokensExhausted;
    NothingReadyAtTheEnd(w);
  }

  // Leaving the end.

  predicate Leaves(op: Operation) {
    op.Cancel? || (op.Advance? && (op.answers.deadlinePassed || op.answers.stage.NotAssessed?))
  }

  /** A READY task leaves its end exactly by a deadline, a failed assessment or a cancellation. */
  lemma EndIsLeftIff(w: World, op: Operation)
    requires ReadyAtTheEnd(w)
    ensures ReadyAtTheEnd(Perform(w, op).0) <==> !Leaves(op)
    ensures op.Advance? && !Leaves(op) ==> Perform(w, op) == (w, OperationError)
  {
    hide AllCompleted, Ready, ReportOf, TokensExhausted, IsWriteStep, IsCommandStep;
    NothingReadyAtTheEnd(w);
  }

  /** As long as no operation leaves it, the task stays READY at its end. */
  lemma {:induction false} PausedAtTheEndStays(run: Run, m: nat, n: nat)
    requires IsRun(run) && m <= n <= |run.ops| && ReadyAtTheEnd(run.worlds[m])
    requires forall i :: m <= i < n ==> !Leaves(run.ops[i])
    ensures ReadyAtTheEnd(run.worlds[n])
  {
    hide AtTheEnd, Perform;
    if m < n {
      PausedAtTheEndStays(run, m, n - 1);
      assert IsStep(run, n - 1);
      EndIsLeftIff(run.worlds[n - 1], run.ops[n - 1]);
    }
  }

  /** How a task gets there: a recovery pause and a resume between its last step and the next Advance. */
  lemma PauseLeavesItReady(w: World)
    requires AtTheEnd(w) && w.status.Running? && !HasFailedStep(Latest(w))
    ensures RecoverTask(w).0 == w.(status := Paused) && ReadyAtTheEnd(ResumeTask(w.(status := Paused)).0)
  {
    hide AllCompleted, TokensExhausted, HasFailedStep;
  }

  // Without a step left, nothing closes it any more.

  /** At the last stage, without steps to plan and without a step that could make the task run. */
  ghost predicate Stranded(w: World) {
    && w.plans != [] && w.h.stageIndex == 4 && w.h.stepsPlanned >= w.spec.budget.maxSteps
    && w.status in {ReadyToRun, Paused, Cancelled} && (Unprocessed(w) ==> AllCompleted(Latest(w)))
  }

  lemma StrandedAdvance(w: World, a: Answers)
    requires Stranded(w)
    ensures Stranded(AdvanceTask(w, a).0)
  {
    hide AllCompleted, Ready, ReportOf, TokensExhausted, PlanNext, RunStep;
    var r := ResolveWait(w);
    if Unprocessed(r) { NothingReadyAtTheEnd(r); }
  }

  lemma StrandedStays(w: World, op: Operation)
    requires Stranded(w)
    ensures Stranded(Perform(w, op).0)
  {
    hide AdvanceTask, AllCompleted, ReportOf, IsWriteStep, IsCommandStep, HasFailedStep;
    if op.Advance? { StrandedAdvance(w, op.answers); }
  }

  lemma {:induction false} StrandedForGood(run: Run, m: nat, n: nat)
    requires IsRun(run) && m <= n <= |run.ops| && Stranded(run.worlds[m])
    ensures Stranded(run.worlds[n])
  {
    hide Stranded, Perform;
    if m < n {
      StrandedForGood(run, m, n - 1);
      assert IsStep(run, n - 1);
      StrandedStays(run.worlds[n - 1], run.ops[n - 1]);
    }
  }

  // With a step left, the assessment can fail and a new segment close the stage.

  lemma FailedAssessment(w: World)
    requires ReadyAtTheEnd(w)
    ensures AdvanceTask(w, IDLE).0 == RecordFailure(w, false).0
  {
    hide AllCompleted, Ready, TokensExhausted, RecordFailure;
    NothingReadyAtTheEnd(w);
    assert Moving(w);
    AdvanceWorks(w, IDLE);
  }

  lemma FailureIsResumed(w: World)
    requires ReadyAtTheEnd(w) && w.h.stepsPlanned < w.spec.budget.maxSteps
    requires w.spec.taskId != "" && w.spec.mode != UnknownMode
    ensures var v := ResumeTask(RecordFailure(w, false).0).0;
      && RecordFailure(w, false).0.plans != [] && CanPlan(v) && v.plans == w.plans && v.evidence == w.evidence
      && v.spec == w.spec && v.h.stageIndex == 4 && v.h.lastEvidenceCount == w.h.lastEvidenceCount
      && v.h.lastProcessed == Strings.Some(|w.plans| - 1)
  {
    hide AllCompleted, TokensExhausted, HasFailedStep;
  }

  /** A criterion that holds once the workspace checks pass and one more worker report is there. */
  ghost predicate Attainable(criteria: seq<Criterion>, evidence: seq<Evidence>) {
    criteria != [] && forall i :: 0 <= i < |criteria| ==> Met(criteria[i], evidence + [AGENT_REPORT], true)
  }

  function Below(n: nat): (s: set<nat>)
    ensures forall i: nat :: i in s <==> i < n
  {
    if n == 0 then {} else Below(n - 1) + {n - 1}
  }

  function Passing(criteria: seq<Criterion>): Verification {
    Verified(Below(|criteria|))
  }

  lemma ClosingSettles(w: World, a: Answers)
    requires AtTheEnd(w) && w.status.Running? && Clears(a)
    ensures var v := AdvanceTask(w, a).0;
      && v.h.stageIndex == 5 && v.status in {Completed, Failed}
      && (v.status.Completed? <==> ReportOf(w.spec.criteria, w.evidence, a.verification.passing).passed)
  {
    hide AllCompleted, Ready, ReportOf, TokensExhausted;
    NothingReadyAtTheEnd(w);
    assert Moving(w);
    AdvanceWorks(w, a);
  }

  lemma NewSegmentCloses(w: World, goal: string)
    requires CanPlan(w) && w.h.stageIndex == 4 && w.h.lastEvidenceCount <= |w.evidence|
    requires w.h.lastProcessed.Some? ==> w.h.lastProcessed.value < |w.plans|
    requires !Segment.Blank(goal) && KeyIsNew(w.plans, StageAt(w.h.stageIndex), Segment.KeyOf(ReadSpec(goal)))
    ensures var planned := AdvanceTask(w, PlansReading(goal)).0;
      && planned.plans != []
      && var done := AdvanceTask(planned, RUNS).0;
      && done.plans != []
      && var v := AdvanceTask(done, CLOSES.(verification := Passing(w.spec.criteria))).0;
      && v.h.stageIndex == 5 && v.status in {Completed, Failed}
      && (v.status.Completed? <==> Attainable(w.spec.criteria, w.evidence))
  {
    ReadingIsPlanned(w, goal);
    hide AdvanceTask, TokensExhausted, KeyIsNew, Segment.Blank, ReportOf, Met;
    var planned := AdvanceTask(w, PlansReading(goal)).0;
    assert Moving(planned);
    ReadingIsRun(planned, goal);
    var done := AdvanceTask(planned, RUNS).0;
    assert AtTheEnd(done);
    var a := CLOSES.(verification := Passing(w.spec.criteria));
    ClosingSettles(done, a);
    ReportPassesIffCriteriaMet(done.spec.criteria, done.evidence, a.verification.passing);
  }

  // Over all continuations of a run.

  ghost predicate Continues(run: Run, longer: Run) {
    TaskRun(longer) && run.ops <= longer.ops && run.worlds <= longer.worlds
  }

  predicate OnlyAdvancesAndResumes(ops: seq<Operation>) {
    forall i :: 0 <= i < |ops| ==> ops[i].Advance? || ops[i].Resume?
  }

  function Last(run: Run): World
    requires run.worlds != []
  {
    run.worlds[|run.worlds| - 1]
  }

  /** Where operations lead. */
  ghost function After(w: World, ops: seq<Operation>): World
    decreases |ops|
  {
    if ops == [] || w.plans == [] then w else After(Perform(w, ops[0]).0, ops[1..])
  }

  lemma {:induction false} Carried(run: Run, ops: seq<Operation>) returns (longer: Run)
    requires TaskRun(run) && Last(run).plans != []
    ensures Continues(run, longer) && longer.ops == run.ops + ops && Last(longer) == After(Last(run), ops)
    decreases |ops|
  {
    hide Perform, IsStep, IsCreated;
    if ops == [] {
      longer := run;
      assert run.ops + ops == run.ops;
    } else {
      var next := Continue(run, Last(run), ops[0]);
      longer := Carried(next, ops[1..]);
      assert run.ops + [ops[0]] + ops[1..] == run.ops + ops;
    }
  }

  lemma LastKeepsInv(run: Run)
    requires TaskRun(run)
    ensures Inv(Last(run)) && Last(run).spec == run.worlds[0].spec
    ensures Last(run).spec.taskId != "" && Last(run).spec.mode != UnknownMode && Last(run).plans != []
    ensures Last(run).h.lastEvidenceCount <= |Last(run).evidence|
  {
    hide Budgeted, KeepsPolicy, NeverRepeats, StagesInOrder, Checkpointed, CompletedOnlyByReport, IsStep, IsCreated;
    TaskRunKeepsInv(run, |run.ops|);
    CreatedSatisfiesInv(run.worlds[0]);
  }

  /** Give the segment up, resume, plan one reading step, run it, close. */
  function Rescue(goal: string, criteria: seq<Criterion>): seq<Operation> {
    [Advance(IDLE), Resume, Advance(PlansReading(goal)), Advance(RUNS),
     Advance(CLOSES.(verification := Passing(criteria)))]
  }

  lemma AfterFive(w: World, a: Operation, b: Operation, c: Operation, d: Operation, e: Operation)
    requires w.plans != []
    requires Perform(w, a).0.plans != []
    requires Perform(Perform(w, a).0, b).0.plans != []
    requires Perform(Perform(Perform(w, a).0, b).0, c).0.plans != []
    requires Perform(Perform(Perform(Perform(w, a).0, b).0, c).0, d).0.plans != []
    ensures After(w, [a, b, c, d, e]) == Perform(Perform(Perform(Perform(Perform(w, a).0, b).0, c).0, d).0, e).0
  {
    hide Perform;
    assert [a, b, c, d, e][1..] == [b, c, d, e] && [b, c, d, e][1..] == [c, d, e];
    assert [c, d, e][1..] == [d, e] && [d, e][1..] == [e] && [e][1..] == [];
    var w1 := Perform(w, a).0;
    var w2 := Perform(w1, b).0;
    var w3 := Perform(w2, c).0;
    var w4 := Perform(w3, d).0;
    assert After(w4, [e]) == Perform(w4, e).0;
    assert After(w3, [d, e]) == After(w4, [e]);
    assert After(w2, [c, d, e]) == After(w3, [d, e]);
    assert After(w1, [b, c, d, e]) == After(w2, [c, d, e]);
  }

  lemma RescueCloses(w: World, goal: string)
    requires ReadyAtTheEnd(w) && w.h.stepsPlanned < w.spec.budget.maxSteps
    requires w.spec.taskId != "" && w.spec.mode != UnknownMode && w.h.lastEvidenceCount <= |w.evidence|
    requires !Segment.Blank(goal) && KeyIsNew(w.plans, Segment.Finalize, Segment.KeyOf(ReadSpec(goal)))
    ensures var v := After(w, Rescue(goal, w.spec.criteria));
      && v.h.stageIndex == 5 && v.status in {Completed, Failed}
      && (v.status.Completed? <==> Attainable(w.spec.criteria, w.evidence))
  {
    FailedAssessment(w);
    FailureIsResumed(w);
    var failed := AdvanceTask(w, IDLE).0;
    var resumed := ResumeTask(failed).0;
    assert w.plans != [];
    hide AdvanceTask, ResumeTask, RecordFailure, ReadyAtTheEnd, Attainable, KeyIsNew, CanPlan, Segment.Blank, After,
         PlansReading;
    NewSegmentCloses(resumed, goal);
    AfterFive(w, Advance(IDLE), Resume, Advance(PlansReading(goal)), Advance(RUNS),
      Advance(CLOSES.(verification := Passing(w.spec.criteria))));
  }

  lemma EndIsRescued(run: Run) returns (longer: Run)
    requires TaskRun(run) && ReadyAtTheEnd(Last(run)) && Last(run).h.stepsPlanned < Last(run).spec.budget.maxSteps
    ensures Continues(run, longer) && OnlyAdvancesAndResumes(longer.ops[|run.ops|..])
    ensures Last(longer).h.stageIndex == 5 && Last(longer).status in {Completed, Failed}
    ensures Last(longer).status.Completed? <==> Attainable(Last(run).spec.criteria, Last(run).evidence)
  {
    assert run.worlds != [];
    hide TaskRun, Inv, ReadyAtTheEnd, Attainable, KeyIsNew, Segment.Blank, Segment.KeyOf, After, Rescue,
         OnlyAdvancesAndResumes;
    LastKeepsInv(run);
    var w := Last(run);
    var goal := LongGoalIsNew(w.plans, Segment.Finalize);
    RescueCloses(w, goal);
    var ops := Rescue(goal, w.spec.criteria);
    RescueIsPlain(goal, w.spec.criteria);
    longer := Carried(run, ops);
    assert longer.ops[|run.ops|..] == ops;
  }

  lemma RescueIsPlain(goal: string, criteria: seq<Criterion>)
    ensures OnlyAdvancesAndResumes(Rescue(goal, criteria))
  {
  }

  // What a completion needs.

  ghost predicate OnlyReportsAdded(w: World, v: World) {
    v.evidence == w.evidence || v.evidence == w.evidence + [AGENT_REPORT]
  }

  lemma PlanningAddsNoEvidence(w: World, a: Answers)
    requires w.plans != []
    ensures PlanNext(w, a).0.evidence == w.evidence
  {
    hide Planned, Segment.PlanOf, Novel, PermissionHolds, InputFor, FreshRow;
  }

  lemma StepAddsItsReport(w: World, id: string, reply: StepReply)
    requires w.plans != []
    ensures OnlyReportsAdded(w, RunStep(w, id, reply).0)
  {
    hide MayRun, CompletedSteps;
  }

  lemma ClosingAddsNoEvidence(w: World, a: Answers)
    requires w.plans != []
    ensures FinishSegment(w, a).0.evidence == w.evidence
  {
    hide AllCompleted, ReportOf;
  }

  lemma OnlyReportsAreAdded(w: World, op: Operation)
    requires w.plans != [] && (op.Advance? || op.Resume?)
    ensures OnlyReportsAdded(w, Perform(w, op).0)
  {
    hide Ready, PlanNext, RunStep, FinishSegment, HasFailedStep, FailWaitingSteps, TokensExhausted;
    if op.Advance? {
      var r, a := ResolveWait(w), op.answers;
      PlanningAddsNoEvidence(r, a);
      ClosingAddsNoEvidence(r, a);
      if Ready(r) != [] { StepAddsItsReport(r, Ready(r)[0], a.step); }
    }
  }

  lemma {:induction false} EvidenceOfContinuation(run: Run, m: nat, n: nat)
    requires IsRun(run) && m <= n <= |run.ops| && OnlyAdvancesAndResumes(run.ops[m..])
    ensures forall e :: e in run.worlds[n].evidence ==> e in run.worlds[m].evidence || e == AGENT_REPORT
  {
    hide Perform;
    if m < n {
      EvidenceOfContinuation(run, m, n - 1);
      assert IsStep(run, n - 1);
      assert run.ops[m..][n - 1 - m] == run.ops[n - 1];
      OnlyReportsAreAdded(run.worlds[n - 1], run.ops[n - 1]);
    }
  }

  lemma MetIsAttainable(c: Criterion, seen: seq<Evidence>, base: seq<Evidence>, passes: bool)
    requires Met(c, seen, passes) && forall e :: e in seen ==> e in base || e == AGENT_REPORT
    ensures Met(c, base + [AGENT_REPORT], true)
  {
    var all := base + [AGENT_REPORT];
    if c.kindOfCheck.EvidenceExists? {
      var k :| 0 <= k < |seen| && Supports(seen[k], c.evidenceKind);
      assert seen[k] in all;
      var j :| 0 <= j < |all| && all[j] == seen[k];
    }
  }

  lemma PassedIsAttainable(w: World, base: seq<Evidence>)
    requires HasPassingReport(w) && forall e :: e in w.evidence ==> e in base || e == AGENT_REPORT
    ensures Attainable(w.spec.criteria, base)
  {
    hide ReportOf, Met;
    var r, n, passing :| 0 <= r < |w.reports| && 0 <= n <= |w.evidence|
      && w.reports[r] == ReportOf(w.spec.criteria, w.evidence[..n], passing) && w.reports[r].passed;
    ReportPassesIffCriteriaMet(w.spec.criteria, w.evidence[..n], passing);
    forall i | 0 <= i < |w.spec.criteria| ensures Met(w.spec.criteria[i], base + [AGENT_REPORT], true) {
      MetIsAttainable(w.spec.criteria[i], w.evidence[..n], base, i in passing);
    }
  }

  lemma CompletionIsAttainable(run: Run, longer: Run)
    requires TaskRun(run) && Continues(run, longer) && OnlyAdvancesAndResumes(longer.ops[|run.ops|..])
    requires Last(longer).status.Completed?
    ensures Attainable(Last(run).spec.criteria, Last(run).evidence)
  {
    hide Budgeted, KeepsPolicy, NeverRepeats, StagesInOrder, Checkpointed, HasPassingReport, Attainable, IsStep,
         IsCreated;
    LastKeepsInv(run);
    LastKeepsInv(longer);
    EvidenceOfContinuation(longer, |run.ops|, |longer.ops|);
    assert longer.worlds[|run.ops|] == run.worlds[|run.ops|];
    PassedIsAttainable(Last(longer), Last(run).evidence);
  }

  lemma SpentEndStays(run: Run, longer: Run)
    requires TaskRun(run) && ReadyAtTheEnd(Last(run)) && Last(run).h.stepsPlanned >= Last(run).spec.budget.maxSteps
    requires Continues(run, longer)
    ensures Last(longer).h.stageIndex == 4 && Last(longer).status in {ReadyToRun, Paused, Cancelled}
  {
    hide AllCompleted, TokensExhausted, IsStep, IsCreated;
    assert longer.worlds[|run.ops|] == Last(run);
    assert Stranded(Last(run));
    StrandedForGood(longer, |run.ops|, |longer.ops|);
  }

  /** A task paused and resumed at its end can still be closed, by any operations with any answers, exactly when its
      budget has a step left. */
  lemma PausedAtTheEndClosesIff(run: Run)
    requires TaskRun(run) && ReadyAtTheEnd(Last(run))
    ensures (exists longer :: Continues(run, longer) && Last(longer).h.stageIndex == 5) <==>
      Last(run).h.stepsPlanned < Last(run).spec.budget.maxSteps
    ensures Last(run).h.stepsPlanned >= Last(run).spec.budget.maxSteps ==>
      forall longer :: Continues(run, longer) ==> !Last(longer).status.Completed?
  {
    assert run.worlds != [];
    hide TaskRun, ReadyAtTheEnd;
    if Last(run).h.stepsPlanned < Last(run).spec.budget.maxSteps {
      var longer := EndIsRescued(run);
      assert Continues(run, longer) && Last(longer).h.stageIndex == 5;
    } else {
      forall longer | Continues(run, longer)
        ensures Last(longer).h.stageIndex == 4 && !Last(longer).status.Completed?
      {
        SpentEndStays(run, longer);
      }
    }
  }

  /** A continuation by Advance and Resume calls alone that ends COMPLETED. */
  ghost predicate CompletesByAdvances(run: Run, longer: Run) {
    Continues(run, longer) && OnlyAdvancesAndResumes(longer.ops[|run.ops|..]) && Last(longer).status.Completed?
  }

  /** Advances and resumes alone can complete it exactly when a step is left and the criteria can be met. */
  lemma PausedAtTheEndCompletesIff(run: Run)
    requires TaskRun(run) && ReadyAtTheEnd(Last(run))
    ensures (exists longer :: CompletesByAdvances(run, longer)) <==>
      Last(run).h.stepsPlanned < Last(run).spec.budget.maxSteps
      && Attainable(Last(run).spec.criteria, Last(run).evidence)
  {
    assert run.worlds != [];
    hide TaskRun, ReadyAtTheEnd, Attainable, OnlyAdvancesAndResumes;
    if longer :| CompletesByAdvances(run, longer) {
      CompletionIsAttainable(run, longer);
      PausedAtTheEndClosesIff(run);
    }
    if Last(run).h.stepsPlanned < Last(run).spec.budget.maxSteps
      && Attainable(Last(run).spec.criteria, Last(run).evidence)
    {
      var longer := EndIsRescued(run);
      assert CompletesByAdvances(run, longer);
    }
  }
}
