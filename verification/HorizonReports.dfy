/** What the operations on a long-horizon task report, spend and start, in the terms of the saved fields
    (internal/app/long_horizon.go): when an Advance stops and what a stop leaves behind, where the token usage of a
    task comes from, which steps may start, and what resuming, cancelling and closing a stage do. */
module HorizonReports {
  import opened Contracts
  import Strings
  import PlanValidation
  import opened Segment
  import SegmentPolicy
  import opened Acceptance
  import opened HorizonModel
  import opened HorizonInvariant
  import opened HorizonTheorems
  import ReadingSegment

  // When an Advance stops.

  predicate IsOver(w: World) {
    || w.status in {Completed, Failed, Blocked, Cancelled}
    || w.h.status in {HorizonCompleted, HorizonCancelled, HorizonBlocked}
  }

  predicate IsWaiting(w: World) {
    w.status in {WaitingApproval, WaitingUser, Paused} || w.h.status.HorizonPaused? || w.h.awaiting
  }

  /** The latest plan is a segment that was not processed yet. */
  predicate SegmentOpen(w: World)
    requires w.plans != []
  {
    var last := |w.plans| - 1;
    w.plans[last].horizon && !(w.h.lastProcessed.Some? && w.h.lastProcessed.value == last)
  }

  /** Each usage is held against its own limit; a limit of zero or less means none. */
  predicate TokensSpent(w: World) {
    || (w.spec.budget.maxInputTokens > 0 && w.h.usage.input >= w.spec.budget.maxInputTokens)
    || (w.spec.budget.maxOutputTokens > 0 && w.h.usage.output >= w.spec.budget.maxOutputTokens)
  }

  predicate StepsSpent(w: World)
    requires w.plans != []
  {
    !SegmentOpen(w) && w.h.stepsPlanned >= w.spec.budget.maxSteps
  }

  predicate Reports(o: Outcome, action: Action) {
    o.Reported? && o.action == action
  }

  lemma PlanningNeverStops(w: World, a: Answers)
    requires w.plans != []
    ensures PlanNext(w, a).1.Reported? ==> PlanNext(w, a).1.action in {SegmentPlanning, FailedPaused}
  {
    hide Planned, PlanOf, Novel, PermissionHolds, InputFor, FreshRow;
  }

  lemma RunningNeverStops(w: World, id: string, reply: StepReply)
    requires w.plans != []
    ensures RunStep(w, id, reply).1.Reported? && RunStep(w, id, reply).1.action in {StepExecuted, Replan, FailedPaused}
  {
    hide MayRun, CompletedSteps, WithStep;
  }

  lemma ClosingNeverStops(w: World, a: Answers)
    requires w.plans != []
    ensures FinishSegment(w, a).1.Reported? ==>
      FinishSegment(w, a).1.action !in {Terminal, Waiting, BudgetBlocks, SegmentPlanning, StepExecuted}
  {
    hide AllCompleted, ReportOf;
  }

  /** Exactly when an Advance finds the task over, waiting, or out of time, tokens or steps. */
  lemma AdvanceStopsIff(w: World, a: Answers)
    requires w.plans != []
    ensures var o := AdvanceTask(w, a).1;
      && (Reports(o, Terminal) <==> IsOver(w))
      && (Reports(o, Waiting) <==> !IsOver(w) && IsWaiting(w))
      && (Reports(o, BudgetBlocks) <==>
           !IsOver(w) && !IsWaiting(w) && (a.deadlinePassed || TokensSpent(w) || StepsSpent(w)))
  {
    hide PlanNext, RunStep, FinishSegment, Ready;
    var r := ResolveWait(w);
    PlanningNeverStops(r, a);
    ClosingNeverStops(r, a);
    if Ready(r) != [] { RunningNeverStops(r, Ready(r)[0], a.step); }
  }

  lemma StopIsPause(w: World, a: Answers)
    requires w.plans != [] && Reports(AdvanceTask(w, a).1, BudgetBlocks)
    ensures AdvanceTask(w, a) == PauseForBudget(ResolveWait(w))
  {
    hide PlanNext, RunStep, FinishSegment, Ready, PauseForBudget, TokensExhausted;
    var r := ResolveWait(w);
    PlanningNeverStops(r, a);
    ClosingNeverStops(r, a);
    if Ready(r) != [] { RunningNeverStops(r, Ready(r)[0], a.step); }
  }

  /** A budget stop blocks the horizon, blocks a RUNNING task, pauses a READY one, and changes nothing else. */
  lemma BudgetStopsLeave(w: World, a: Answers)
    requires w.plans != [] && Reports(AdvanceTask(w, a).1, BudgetBlocks)
    ensures var v := AdvanceTask(w, a).0;
      && v.h == w.h.(status := HorizonBlocked, reason := v.h.reason)
      && v == w.(h := v.h, log := v.log, status := v.status)
      && v.status == (match w.status case Running => Blocked case ReadyToRun => Paused case other => other)
  {
    StopIsPause(w, a);
    hide AdvanceTask;
  }

  // Where the token usage comes from.

  /** The planner is asked a second time only if its first reply builds no segment. */
  ghost function RepliesHeard(a: Answers, input: SegmentInput): seq<Usage> {
    if a.firstPlan.NoReply? then []
    else if a.firstPlan.candidate.Some? && SegmentAccepted(a.firstPlan.candidate.value, input) then [a.firstPlan.usage]
    else if a.secondPlan.NoReply? then [a.firstPlan.usage]
    else [a.firstPlan.usage, a.secondPlan.usage]
  }

  function StepHeard(reply: StepReply): seq<Usage> {
    match reply
    case AsksUser(usage) => [usage]
    case ProposesChange(usage) => [usage]
    case Succeeds(usage) => [usage]
    case _ => []
  }

  function StageHeard(reply: StageReply): seq<Usage> {
    match reply
    case Assessed(usage) => [usage]
    case NotAssessed => []
  }

  /** The usages an operation was answered and took into account: of the planner replies it read, of a step it counted
      as executed, of the assessment of a stage it closed. */
  ghost function Heard(w: World, op: Operation, o: Outcome): seq<Usage>
    requires w.plans != []
  {
    if !op.Advance? || !o.Reported? then []
    else
      match o.action
      case SegmentPlanning => RepliesHeard(op.answers, InputFor(w))
      case FailedPaused => if SegmentOpen(w) then [] else RepliesHeard(op.answers, InputFor(w))
      case StepExecuted => StepHeard(op.answers.step)
      case StageClosed => StageHeard(op.answers.stage)
      case TaskClosed => StageHeard(op.answers.stage)
      case AcceptanceRejected => StageHeard(op.answers.stage)
      case _ => []
  }

  function InputTokens(usages: seq<Usage>): int {
    if usages == [] then 0 else InputTokens(usages[..|usages| - 1]) + usages[|usages| - 1].input
  }

  function OutputTokens(usages: seq<Usage>): int {
    if usages == [] then 0 else OutputTokens(usages[..|usages| - 1]) + usages[|usages| - 1].output
  }

  lemma TokensOf(a: Usage, b: Usage)
    ensures InputTokens([a]) == a.input && OutputTokens([a]) == a.output
    ensures InputTokens([a, b]) == a.input + b.input && OutputTokens([a, b]) == a.output + b.output
  {
    assert [a][..0] == [] && [a, b][..1] == [a];
  }

  lemma {:induction false} TokensAdd(a: seq<Usage>, b: seq<Usage>)
    ensures InputTokens(a + b) == InputTokens(a) + InputTokens(b)
    ensures OutputTokens(a + b) == OutputTokens(a) + OutputTokens(b)
  {
    if b == [] {
      assert a + b == a;
    } else {
      assert (a + b)[..|a + b| - 1] == a + b[..|b| - 1];
      TokensAdd(a, b[..|b| - 1]);
    }
  }

  ghost predicate Adds(w: World, v: World, heard: seq<Usage>) {
    && v.h.usage.input == w.h.usage.input + InputTokens(heard)
    && v.h.usage.output == w.h.usage.output + OutputTokens(heard)
  }

  lemma RepliesAddUp(a: Answers, input: SegmentInput)
    ensures Planned(a.firstPlan, a.secondPlan, input).0.input == InputTokens(RepliesHeard(a, input))
    ensures Planned(a.firstPlan, a.secondPlan, input).0.output == OutputTokens(RepliesHeard(a, input))
  {
    hide SegmentAccepted;
    if a.firstPlan.Reply? {
      TokensOf(a.firstPlan.usage, a.firstPlan.usage);
      if a.secondPlan.Reply? { TokensOf(a.firstPlan.usage, a.secondPlan.usage); }
    }
  }

  lemma FailureSpendsNothing(w: World)
    requires w.plans != []
    ensures RecordFailure(w, false).0.h.usage == w.h.usage && Reports(RecordFailure(w, false).1, FailedPaused)
  {
  }

  lemma PersistingSpendsNothing(w: World, plan: PlanVersion, terminal: bool)
    ensures Persist(w, plan, terminal).0.h.usage == w.h.usage
    ensures Reports(Persist(w, plan, terminal).1, SegmentPlanning)
  {
  }

  lemma ToolsAreOffered(w: World)
    requires w.spec.mode != UnknownMode
    ensures InputFor(w).tools != []
  {
    hide SegmentPolicy.SegmentTools, FreshPlanId, StageAt;
    ReadingSegment.ReadFileIsOffered(StageAt(w.h.stageIndex), w.spec.mode);
  }

  ghost function Charged(w: World, a: Answers): (v: World)
    ensures v.plans == w.plans
  {
    w.(h := w.h.(usage := Plus(w.h.usage, Planned(a.firstPlan, a.secondPlan, InputFor(w)).0)))
  }

  lemma PlanningCases(w: World, a: Answers)
    requires w.plans != [] && InputFor(w).tools != []
    ensures
      || PlanNext(w, a) == (w, OperationError)
      || PlanNext(w, a) == RecordFailure(Charged(w, a), false)
      || exists plan, terminal :: PlanNext(w, a) == Persist(Charged(w, a), plan, terminal)
  {
    hide PlanOf, Novel, PermissionHolds, InputFor, Planned, RecordFailure, Persist;
  }

  lemma ChargedAdds(w: World, a: Answers)
    ensures Adds(w, Charged(w, a), RepliesHeard(a, InputFor(w)))
  {
    RepliesAddUp(a, InputFor(w));
    hide InputFor, RepliesHeard, Planned, InputTokens, OutputTokens;
  }

  lemma SameUsageAdds(w: World, v: World, u: World, heard: seq<Usage>)
    requires Adds(w, v, heard) && u.h.usage == v.h.usage
    ensures Adds(w, u, heard)
  {
    hide InputTokens, OutputTokens;
  }

  lemma PlanningHeard(w: World, a: Answers, o: Outcome)
    requires w.plans != [] && !SegmentOpen(w) && (Reports(o, FailedPaused) || Reports(o, SegmentPlanning))
    ensures Heard(w, Advance(a), o) == RepliesHeard(a, InputFor(w))
  {
    hide RepliesHeard, InputFor;
  }

  lemma ErrorsAreNotHeard(w: World, a: Answers)
    requires w.plans != []
    ensures Adds(w, w, Heard(w, Advance(a), OperationError))
  {
    NothingIsFree();
  }

  lemma PlanningAdds(w: World, a: Answers)
    requires w.plans != [] && !SegmentOpen(w) && w.spec.mode != UnknownMode
    ensures Adds(w, PlanNext(w, a).0, Heard(w, Advance(a), PlanNext(w, a).1))
  {
    hide SegmentOpen, InputFor, RepliesHeard, RecordFailure, Persist, PlanNext, Charged, Heard, Adds;
    ToolsAreOffered(w);
    ChargedAdds(w, a);
    PlanningCases(w, a);
    var w1, heard := Charged(w, a), RepliesHeard(a, InputFor(w));
    if PlanNext(w, a) == (w, OperationError) {
      ErrorsAreNotHeard(w, a);
    } else if PlanNext(w, a) == RecordFailure(w1, false) {
      FailureSpendsNothing(w1);
      PlanningHeard(w, a, PlanNext(w, a).1);
      SameUsageAdds(w, w1, RecordFailure(w1, false).0, heard);
    } else {
      var plan, terminal :| PlanNext(w, a) == Persist(w1, plan, terminal);
      PersistingSpendsNothing(w1, plan, terminal);
      PlanningHeard(w, a, PlanNext(w, a).1);
      SameUsageAdds(w, w1, Persist(w1, plan, terminal).0, heard);
    }
  }

  lemma NothingIsFree()
    ensures InputTokens([]) == 0 == OutputTokens([])
  {
  }

  lemma RunningSpends(w: World, id: string, reply: StepReply)
    requires w.plans != []
    ensures var (v, o) := RunStep(w, id, reply);
      if Reports(o, StepExecuted) then |StepHeard(reply)| == 1 && v.h.usage == Plus(w.h.usage, StepHeard(reply)[0])
      else v.h.usage == w.h.usage && (o.Reported? ==> o.action in {FailedPaused, Replan})
  {
    hide MayRun, CompletedSteps;
  }

  lemma RunningAdds(w: World, id: string, a: Answers)
    requires w.plans != [] && SegmentOpen(w)
    ensures Adds(w, RunStep(w, id, a.step).0, Heard(w, Advance(a), RunStep(w, id, a.step).1))
  {
    RunningSpends(w, id, a.step);
    NothingIsFree();
    hide RunStep, InputTokens, OutputTokens, RepliesHeard, StageHeard, SegmentOpen;
    if Reports(RunStep(w, id, a.step).1, StepExecuted) {
      assert StepHeard(a.step) == [StepHeard(a.step)[0]];
      TokensOf(StepHeard(a.step)[0], StepHeard(a.step)[0]);
    }
  }

  lemma ClosingAdds(w: World, a: Answers)
    requires w.plans != [] && SegmentOpen(w)
    ensures Adds(w, FinishSegment(w, a).0, Heard(w, Advance(a), FinishSegment(w, a).1))
  {
    hide AllCompleted, ReportOf, StageAt;
    if a.stage.Assessed? { TokensOf(a.stage.usage, a.stage.usage); }
  }

  lemma WorkAdds(w: World, a: Answers)
    requires w.plans != [] && w.spec.mode != UnknownMode
    ensures Adds(w, Work(w, a).0, Heard(w, Advance(a), Work(w, a).1))
  {
    hide PlanNext, RunStep, FinishSegment, Ready, Heard, InputTokens, OutputTokens;
    if !SegmentOpen(w) {
      PlanningAdds(w, a);
      PauseAdds(w, a);
    } else if Ready(w) != [] {
      RunningAdds(w, Ready(w)[0], a);
    } else {
      ClosingAdds(w, a);
    }
  }

  lemma PauseAdds(w: World, a: Answers)
    requires w.plans != []
    ensures Adds(w, PauseForBudget(w).0, Heard(w, Advance(a), PauseForBudget(w).1))
  {
  }

  lemma AdvanceCases(w: World, a: Answers)
    requires w.plans != []
    ensures var r, (v, o) := ResolveWait(w), AdvanceTask(w, a);
      || (v.h.usage == w.h.usage && (Reports(o, Waiting) || Reports(o, Terminal)))
      || (v, o) == PauseForBudget(r) || (v, o) == Work(r, a)
  {
    hide Work, PauseForBudget, TokensExhausted;
  }

  lemma WakingKeeps(w: World)
    requires w.plans != []
    ensures var r := ResolveWait(w);
      && r.plans != [] && r.h.usage == w.h.usage && r.spec == w.spec
      && InputFor(r) == InputFor(w) && (SegmentOpen(r) <==> SegmentOpen(w))
  {
    hide SegmentPolicy.SegmentTools, Strings.Decimal;
  }

  lemma WakingHearsTheSame(w: World, a: Answers, o: Outcome)
    requires w.plans != []
    ensures ResolveWait(w).plans != [] && Heard(w, Advance(a), o) == Heard(ResolveWait(w), Advance(a), o)
  {
    WakingKeeps(w);
    hide RepliesHeard, InputFor, ResolveWait, SegmentOpen, StepHeard, StageHeard;
  }

  lemma SilentAdds(w: World, v: World, op: Operation, o: Outcome)
    requires w.plans != [] && v.h.usage == w.h.usage && (Reports(o, Waiting) || Reports(o, Terminal))
    ensures Adds(w, v, Heard(w, op, o))
  {
    NothingIsFree();
  }

  lemma AddsFrom(w: World, r: World, v: World, heard: seq<Usage>)
    requires Adds(r, v, heard) && r.h.usage == w.h.usage
    ensures Adds(w, v, heard)
  {
    hide InputTokens, OutputTokens;
  }

  /** What an Advance adds to the usage is what it heard. */
  lemma AdvanceAdds(w: World, a: Answers)
    requires w.plans != [] && w.spec.mode != UnknownMode
    ensures Adds(w, AdvanceTask(w, a).0, Heard(w, Advance(a), AdvanceTask(w, a).1))
  {
    hide ResolveWait, AdvanceTask, Work, PauseForBudget, Heard, Adds;
    var r, v, o := ResolveWait(w), AdvanceTask(w, a).0, AdvanceTask(w, a).1;
    AdvanceCases(w, a);
    WakingKeeps(w);
    WakingHearsTheSame(w, a, o);
    if v.h.usage == w.h.usage && (Reports(o, Waiting) || Reports(o, Terminal)) {
      SilentAdds(w, v, Advance(a), o);
    } else {
      WorkAdds(r, a);
      PauseAdds(r, a);
      AddsFrom(w, r, v, Heard(r, Advance(a), o));
    }
  }

  lemma OperationAdds(w: World, op: Operation)
    requires w.plans != [] && w.spec.mode != UnknownMode
    ensures Adds(w, Perform(w, op).0, Heard(w, op, Perform(w, op).1))
  {
    NothingIsFree();
    hide AdvanceTask, InputTokens, OutputTokens, ReportOf, HasFailedStep, IsWriteStep, IsCommandStep;
    if op.Advance? { AdvanceAdds(w, op.answers); }
  }

  /** All the usages heard in the first operations of a run, in order. */
  ghost function HeardIn(run: Run, n: nat): seq<Usage>
    requires IsRun(run) && n <= |run.ops|
  {
    if n == 0 then []
    else
      assert IsStep(run, n - 1);
      HeardIn(run, n - 1) + Heard(run.worlds[n - 1], run.ops[n - 1], run.outcomes[n - 1])
  }

  /** In every run the saved usage is the sum of the usages of the replies heard, input and output apart. */
  lemma {:induction false} UsageIsWhatWasHeard(run: Run, n: nat)
    requires TaskRun(run) && n <= |run.ops|
    ensures run.worlds[n].h.usage.input == InputTokens(HeardIn(run, n))
    ensures run.worlds[n].h.usage.output == OutputTokens(HeardIn(run, n))
  {
    hide Perform, Heard, InputTokens, OutputTokens, Budgeted, KeepsPolicy, NeverRepeats, StagesInOrder, Checkpointed,
         CompletedOnlyByReport;
    if n == 0 {
      NothingIsFree();
      CreatedSatisfiesInv(run.worlds[0]);
    } else {
      UsageIsWhatWasHeard(run, n - 1);
      TaskRunKeepsInv(run, n - 1);
      assert IsStep(run, n - 1);
      OperationAdds(run.worlds[n - 1], run.ops[n - 1]);
      TokensAdd(HeardIn(run, n - 1), Heard(run.worlds[n - 1], run.ops[n - 1], run.outcomes[n - 1]));
    }
  }

  // Which steps may start.

  ghost predicate Proposes(a: Answers, c: Candidate) {
    || (a.firstPlan.Reply? && a.firstPlan.candidate == Strings.Some(c))
    || (a.secondPlan.Reply? && a.secondPlan.candidate == Strings.Some(c))
  }

  /** Plans are kept, and a new one is the segment that one of the planner's replies proposed. */
  ghost predicate PlansGrow(w: World, op: Operation, v: World) {
    && |w.plans| <= |v.plans| <= |w.plans| + 1
    && (forall p :: 0 <= p < |w.plans| ==> v.plans[p].plan == w.plans[p].plan)
    && (|v.plans| > |w.plans| ==>
         op.Advance? && exists c, input :: Proposes(op.answers, c) && PlanBuiltFrom(v.plans[|w.plans|].plan, c, input))
  }

  lemma QuietKeepsPlans(w: World, op: Operation, v: World)
    requires Quiet(w, v)
    ensures PlansGrow(w, op, v)
  {
    hide QuietStatus, SavesAdded, PlanBuiltFrom;
    forall p | 0 <= p < |w.plans| ensures v.plans[p].plan == w.plans[p].plan { assert MovedOn(w.plans[p], v.plans[p]); }
  }

  lemma PersistGrows(w: World, charged: World, a: Answers, c: Candidate, input: SegmentInput)
    requires charged.plans == w.plans && Proposes(a, c) && PlanBuiltFrom(PlanOf(c, input), c, input)
    ensures PlansGrow(w, Advance(a), Persist(charged, PlanOf(c, input), c.terminal).0)
  {
    hide PlanOf, PlanBuiltFrom, Proposes;
    var v := Persist(charged, PlanOf(c, input), c.terminal).0;
    assert v.plans[|w.plans|].plan == PlanOf(c, input);
  }

  lemma PlanningGrows(w: World, a: Answers)
    requires w.plans != []
    ensures PlansGrow(w, Advance(a), PlanNext(w, a).0)
  {
    hide SegmentAccepted, PlanOf, Novel, PermissionHolds, InputFor, PlanBuiltFrom;
    var input := InputFor(w);
    var candidate := Planned(a.firstPlan, a.secondPlan, input).1;
    if candidate.Some? {
      assert Proposes(a, candidate.value) && SegmentAccepted(candidate.value, input);
      AcceptedPlansAreBuilt(candidate.value, input);
      PersistGrows(w, Charged(w, a), a, candidate.value, input);
    }
    hide Planned, Persist, Proposes;
  }

  lemma AdvanceGrows(w: World, a: Answers)
    requires Inv(w)
    ensures PlansGrow(w, Advance(a), AdvanceTask(w, a).0)
  {
    hide Budgeted, KeepsPolicy, NeverRepeats, StagesInOrder, Checkpointed, CompletedOnlyByReport, Ready,
         PlanNext, RunStep, FinishSegment, Quiet, PlanBuiltFrom;
    var r := ResolveWait(w);
    PlanningGrows(r, a);
    ClosingKeepsPlans(r, a);
    if Ready(r) != [] && !r.h.awaiting {
      ReadyIsOpen(r);
      RunStepIsQuiet(r, Ready(r)[0], a.step);
      QuietKeepsPlans(r, Advance(a), RunStep(r, Ready(r)[0], a.step).0);
    }
  }

  lemma ClosingKeepsPlans(w: World, a: Answers)
    requires w.plans != []
    ensures FinishSegment(w, a).0.plans == w.plans
  {
    hide AllCompleted, ReportOf;
  }

  lemma OperationGrows(w: World, op: Operation)
    requires Inv(w)
    ensures PlansGrow(w, op, Perform(w, op).0)
  {
    hide Budgeted, KeepsPolicy, NeverRepeats, StagesInOrder, Checkpointed, CompletedOnlyByReport, AdvanceTask,
         ResumeTask, CancelTask, ApproveWriteStep, ApproveCommandStep, RecoverTask, Quiet, PlansGrow;
    match op
    case Advance(a) => AdvanceGrows(w, a);
    case Resume => ResumeIsQuiet(w); QuietKeepsPlans(w, op, ResumeTask(w).0);
    case Cancel => CancelIsQuiet(w); QuietKeepsPlans(w, op, CancelTask(w).0);
    case ApproveWrite(id, reply) =>
      WriteApprovalIsQuiet(w, id, reply); QuietKeepsPlans(w, op, ApproveWriteStep(w, id, reply).0);
    case ApproveCommand(id, reply) =>
      CommandApprovalIsQuiet(w, id, reply); QuietKeepsPlans(w, op, ApproveCommandStep(w, id, reply).0);
    case Recover => RecoveryIsQuiet(w); QuietKeepsPlans(w, op, RecoverTask(w).0);
  }

  /** A segment of a run was proposed in one of its earlier operations. */
  ghost predicate WasProposed(run: Run, n: nat, plan: PlanVersion, j: nat, c: Candidate) {
    && j < n <= |run.ops| && run.ops[j].Advance? && Proposes(run.ops[j].answers, c)
    && exists input :: PlanBuiltFrom(plan, c, input)
  }

  lemma {:induction false} SegmentsWereProposed(run: Run, n: nat, p: nat) returns (j: nat, c: Candidate)
    requires TaskRun(run) && n <= |run.ops| && 1 <= p < |run.worlds[n].plans|
    ensures WasProposed(run, n, run.worlds[n].plans[p].plan, j, c)
  {
    hide Perform, Budgeted, KeepsPolicy, NeverRepeats, StagesInOrder, Checkpointed, CompletedOnlyByReport,
         PlanBuiltFrom, Proposes;
    CreatedSatisfiesInv(run.worlds[0]);
    if n > 0 {
      TaskRunKeepsInv(run, n - 1);
      assert IsStep(run, n - 1);
      OperationGrows(run.worlds[n - 1], run.ops[n - 1]);
      if p < |run.worlds[n - 1].plans| {
        j, c := SegmentsWereProposed(run, n - 1, p);
      } else {
        j := n - 1;
        var d, input :| Proposes(run.ops[j].answers, d) && PlanBuiltFrom(run.worlds[n].plans[p].plan, d, input);
        c := d;
      }
    }
  }

  /** A step of the latest plan leaves PENDING or READY. */
  ghost predicate Starts(w: World, v: World, id: string) {
    && w.plans != [] && |v.plans| == |w.plans| && id in Latest(w).statuses && id in Latest(v).statuses
    && Latest(w).statuses[id] in {StepPending, StepReady} && Latest(v).statuses[id] !in {StepPending, StepReady}
  }

  /** A step of the plan with that id whose dependencies are all completed. */
  ghost predicate MayStart(row: PlanRow, id: string, k: nat) {
    && k < |row.plan.steps| && row.plan.steps[k].stepId == id
    && forall d :: d in row.plan.steps[k].dependencies ==> d in row.statuses && row.statuses[d] == StepCompleted
  }

  lemma ReadyMayStart(w: World) returns (k: nat)
    requires w.plans != [] && Ready(w) != []
    ensures MayStart(Latest(w), Ready(w)[0], k)
  {
    hide PlanValidation.ReadySet;
    var row := Latest(w);
    PlanValidation.ReadySetIsExact(row.plan.steps, row.statuses);
    assert Ready(w)[0] in PlanValidation.ReadySet(row.plan.steps, row.statuses);
    var s :| s in row.plan.steps && s.stepId == Ready(w)[0] && PlanValidation.IsReady(s, row.statuses);
    k :| 0 <= k < |row.plan.steps| && row.plan.steps[k] == s;
  }

  lemma RunTouchesOneStep(w: World, id: string, reply: StepReply, other: string)
    requires w.plans != []
    ensures Starts(w, RunStep(w, id, reply).0, other) ==> other == id
    ensures RunStep(w, id, reply).0.plans != []
  {
    hide MayRun, CompletedSteps;
  }

  lemma PlanningStartsNothing(w: World, a: Answers, id: string)
    requires w.plans != []
    ensures !Starts(w, PlanNext(w, a).0, id)
  {
    hide Planned, PlanOf, Novel, PermissionHolds, InputFor, FreshRow;
  }

  lemma StartedStepWasReady(w: World, op: Operation, id: string) returns (k: nat)
    requires Inv(w) && Starts(w, Perform(w, op).0, id)
    ensures MayStart(Latest(w), id, k) && |w.plans| >= 2
  {
    hide Budgeted, KeepsPolicy, NeverRepeats, StagesInOrder, Checkpointed, CompletedOnlyByReport, Ready, PlanNext,
         RunStep, FinishSegment, MayStart, HasFailedStep, ReportOf, IsWriteStep, IsCommandStep, TokensExhausted;
    var r := ResolveWait(w);
    if op.Advance? {
      PlanningStartsNothing(r, op.answers, id);
      ClosingKeepsPlans(r, op.answers);
      assert Ready(r) != [] && Unprocessed(r);
      RunTouchesOneStep(r, Ready(r)[0], op.answers.step, id);
      k := ReadyMayStart(r);
    } else {
      OthersStartNothing(w, op, id);
      assert false;
    }
  }

  lemma OthersStartNothing(w: World, op: Operation, id: string)
    requires w.plans != [] && !op.Advance?
    ensures !Starts(w, Perform(w, op).0, id)
  {
    hide HasFailedStep, ReportOf, IsWriteStep, IsCommandStep;
  }

  /** In every run a step starts only after all the steps that its candidate names as dependencies are COMPLETED. */
  lemma StepsWaitForTheirDependencies(run: Run, i: nat, id: string) returns (j: nat, c: Candidate, k: nat)
    requires TaskRun(run) && i < |run.ops| && Starts(run.worlds[i], run.worlds[i + 1], id)
    ensures WasProposed(run, i, Latest(run.worlds[i]).plan, j, c)
    ensures k < |c.steps| && c.steps[k].ref == id
    ensures forall d :: d in c.steps[k].dependencies ==>
      d in Latest(run.worlds[i]).statuses && Latest(run.worlds[i]).statuses[d] == StepCompleted
  {
    hide Perform, Budgeted, KeepsPolicy, NeverRepeats, StagesInOrder, Checkpointed, CompletedOnlyByReport, Starts;
    TaskRunKeepsInv(run, i);
    assert IsStep(run, i);
    k := StartedStepWasReady(run.worlds[i], run.ops[i], id);
    j, c := SegmentsWereProposed(run, i, |run.worlds[i].plans| - 1);
    var input :| PlanBuiltFrom(Latest(run.worlds[i]).plan, c, input);
    assert BuiltFrom(Latest(run.worlds[i]).plan.steps[k], c.steps[k], input.tools);
  }

  // Cancelling and resuming.

  /** A cancellation that is accepted leaves a task that is over CANCELLED unless it had ended before, and is refused
      only while the task is being verified. */
  lemma CancelledIff(w: World)
    ensures var (v, o) := CancelTask(w);
      && (o == OperationError <==> w.status.Verifying?)
      && (o == OperationError ==> v == w)
      && (o != OperationError ==>
           && o == Accepted && v.h == w.h.(status := HorizonCancelled)
           && v == w.(h := v.h, log := v.log, status := v.status)
           && v.status == if w.status in {Completed, Failed, Blocked, Cancelled} then w.status else Cancelled)
  {
  }

  /** The latest segment holds a step that failed for good. */
  ghost predicate BrokenSegment(w: World)
    requires w.plans != []
  {
    exists id :: id in Latest(w).statuses && Latest(w).statuses[id] in {StepFailed, StepBlocked}
  }

  /** Resuming takes a task that waits for its user to RUNNING and a paused one to READY, clears checkpoint and
      reason, and leaves an approval that is still to be given alone. */
  lemma ResumedIff(w: World)
    requires w.plans != []
    ensures var (v, o) := ResumeTask(w);
      && (o == Accepted <==> w.status in {WaitingUser, Paused, ReadyToRun, Running})
      && (o != Accepted ==> o == OperationError && v == w)
      && (o == Accepted ==>
           && v.status == (match w.status case WaitingUser => Running case Paused => ReadyToRun case other => other)
           && v.h == w.h.(status := HorizonActive, awaiting := false, reason := NoReason,
                          lastProcessed := v.h.lastProcessed)
           && v == w.(status := v.status, h := v.h, plans := v.plans, log := w.log + [Saved(Resumed, w.h.stageIndex)])
           && v.h.lastProcessed == (if w.status.Paused? && w.h.hasFailure && BrokenSegment(w)
                                    then Strings.Some(|w.plans| - 1) else w.h.lastProcessed)
           && (v.plans != w.plans ==> w.status.WaitingUser? && !w.h.awaiting))
  {
  }

  /** A user's answer replaces a waiting step: it fails, and every other step stays what it was. */
  lemma ResumeFailsWaitingSteps(w: World, id: string)
    requires w.plans != [] && w.status.WaitingUser? && !w.h.awaiting && id in Latest(w).statuses
    ensures var v := ResumeTask(w).0;
      && v.plans != [] && id in Latest(v).statuses
      && Latest(v).statuses[id] == if Latest(w).statuses[id].StepWaitingUser? then StepFailed
          else Latest(w).statuses[id]
  {
    hide HasFailedStep;
  }
}
