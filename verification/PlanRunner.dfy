/** Driving a single-plan task as the service does: fields of one task, changed step by step
    (internal/app/service.go, RunModelStep, RunModelPlan, RunTask and the approvals). */
module PlanRunner {
  import opened Contracts
  import Ordering
  import PlanGraph
  import opened PlanValidation
  import opened Acceptance
  import opened SinglePlan

  function StatusAfter(answer: StepAnswer): StepStatus {
    match answer
    case Refused => StepPending
    case Interrupted => StepRunning
    case AsksUser => StepWaitingUser
    case ProposesChange => StepWaitingApproval
    case Fails => StepFailed
    case Succeeds(_) => StepCompleted
  }

  lemma Overwrite<K, V>(m: map<K, V>, k: K, first: V, second: V)
    ensures m[k := first][k := second] == m[k := second]
  {
  }

  /** What a step run that starts a step does. */
  lemma RunStepShape(t: Single, answer: StepAnswer)
    requires t.status in {ReadyToRun, Running} && ReadySet(t.plan.steps, t.statuses) != []
    ensures var id := ReadySet(t.plan.steps, t.statuses)[0];
      var u, o := RunStep(t, answer).0, RunStep(t, answer).1;
      && u.plan == t.plan
      && (answer.Refused? ==> u == t && o == Err(StepRefused))
      && (!answer.Refused? ==> u.statuses == t.statuses[id := StatusAfter(answer)])
      && (o.Err? ==> o.error !in {NotRunnable, NoExecutableStep})
      && (o == Ok ==> answer.AsksUser? || answer.ProposesChange? || answer.Succeeds?)
      && (o == Ok && answer.AsksUser? ==> u.status == WaitingUser)
      && (o == Ok && answer.ProposesChange? ==> u.status == WaitingApproval)
      && (o == Ok && answer.Succeeds? ==>
           if AllTerminal(u.statuses) then u.status in {Completed, Failed} else u.status == Running)
  {
    hide ReadySet, AllTerminal, ReportOf;
  }

  /** Having been RUNNING leaves no trace. */
  lemma StartIsForgotten(
    t: Single, id: string, e: Evidence, step: StepStatus, status: TaskStatus, verification: Verification)
    ensures WithStep(Reported(WithStep(t, id, StepRunning, Running), e), id, step, status) 
      == WithStep(Reported(t, e), id, step, status)
    ensures CompleteStep(Reported(WithStep(t, id, StepRunning, Running), e), id, verification)
      == CompleteStep(Reported(t, e), id, verification)
  {
    hide Settle, AllTerminal;
    Overwrite(t.statuses, id, StepRunning, step);
    Overwrite(t.statuses, id, StepRunning, StepCompleted);
  }

  class TaskRunner {
    const criteria: seq<Criterion>
    var plan: PlanVersion
    var task: TaskStatus
    var statuses: Statuses
    var evidence: seq<Evidence>
    var reports: seq<Report>
    /** Ids of the steps that were started, in order. */
    var started: seq<string>
    /** Number of RunModelStep calls. */
    var calls: nat

    function View(): Single reads this {
      Single(plan, criteria, task, statuses, evidence, reports)
    }

    constructor Fresh(plan: PlanVersion, criteria: seq<Criterion>)
      ensures View() == Create(plan, criteria) && this.plan == plan && started == [] && calls == 0
    {
      this.criteria := if criteria == [] then [DEFAULT_CRITERION] else criteria;
      this.plan := plan;
      task := ReadyToRun;
      statuses := FreshStatuses(plan);
      evidence, reports := [], [];
      started := [];
      calls := 0;
    }

    /** Marks a step as running and the task with it. */
    method StartStep(id: string)
      requires id in statuses && task in {ReadyToRun, Running}
      modifies this`task, this`statuses, this`started
      ensures View() == WithStep(old(View()), id, StepRunning, Running) && started == old(started) + [id]
      ensures id in statuses && task == Running
    {
      if task == ReadyToRun {
        task := Running;
      }
      if statuses[id] == StepPending {
        Overwrite(statuses, id, StepReady, StepRunning);
        statuses := statuses[id := StepReady];
      }
      statuses := statuses[id := StepRunning];
      started := started + [id];
    }

    /** Verifies a running task from its evidence and persists the report. */
    method VerifyAndSettle(verification: Verification) returns (r: Outcome)
      requires task == Running
      modifies this`task, this`reports
      ensures (View(), r) == Settle(old(View()), verification)
    {
      task := Verifying;
      if verification.Unavailable? {
        return Err(NotVerified);
      }
      var report := VerifyInWorkspace(criteria, evidence, verification.passing);
      reports := reports + [report];
      if report.passed {
        task := Completed;
      } else {
        task := Failed;
      }
      r := Ok;
    }

    /** Closes a running step; the last one sends the task through verification. */
    method CompleteModelStep(id: string, verification: Verification) returns (r: Outcome)
      requires id in statuses && task == Running
      modifies this`task, this`statuses, this`reports
      ensures (View(), r) == CompleteStep(old(View()), id, verification)
    {
      hide Settle;
      Overwrite(statuses, id, StepVerifying, StepCompleted);
      statuses := statuses[id := StepVerifying];
      statuses := statuses[id := StepCompleted];
      if exists other :: other in statuses && !statuses[other].Terminal() {
        return Ok;
      }
      r := VerifyAndSettle(verification);
    }

    /** What the worker's answer does to the started step and its task. */
    method RecordAnswer(id: string, answer: StepAnswer) returns (r: Outcome)
      requires id in statuses && task == Running && !answer.Refused? && !answer.Interrupted?
      modifies this`task, this`statuses, this`evidence, this`reports
      ensures answer.Succeeds? ==>
          (View(), r) == CompleteStep(Reported(old(View()), AGENT_REPORT), id, answer.verification)
      ensures answer.AsksUser? ==>
          r == Ok && View() == WithStep(Reported(old(View()), AGENT_REPORT), id, StepWaitingUser, WaitingUser)
      ensures answer.ProposesChange? ==>
        r == Ok && View() == WithStep(Reported(old(View()), AGENT_REPORT), id, StepWaitingApproval, WaitingApproval)
      ensures answer.Fails? ==>
          r == Err(StepRunFailed) && View() == WithStep(Reported(old(View()), AGENT_REPORT), id, StepFailed, Failed)
    {
      hide CompleteStep;
      evidence := evidence + [AGENT_REPORT];
      r := Ok;
      match answer
      case AsksUser =>
        statuses := statuses[id := StepWaitingUser];
        task := WaitingUser;
      case ProposesChange =>
        statuses := statuses[id := StepWaitingApproval];
        task := WaitingApproval;
      case Fails =>
        statuses := statuses[id := StepFailed];
        task := Failed;
        r := Err(StepRunFailed);
      case Succeeds(verification) =>
        r := CompleteModelStep(id, verification);
    }

    /** One step of the plan, from the ready set to its recorded outcome. */
    method RunModelStep(answer: StepAnswer) returns (r: Outcome)
      modifies this
      ensures (View(), r) == RunStep(old(View()), answer)
      ensures calls == old(calls) + 1
      ensures started == old(started) +
        if old(task) in {ReadyToRun, Running} && ReadySet(old(plan).steps, old(statuses)) != [] && !answer.Refused?
        then [ReadySet(old(plan).steps, old(statuses))[0]] else []
      ensures Accepts(old(View()), View())
    {
      hide Accepts, ReadySet, GraphOf, Open, AllTerminal, CompleteStep, WithStep, Reported;
      OperationAccepts(View(), StepRun(answer));
      calls := calls + 1;
      if task != ReadyToRun && task != Running {
        return Err(NotRunnable);
      }
      var ready := ReadySteps(plan, statuses);
      if |ready| == 0 {
        return Err(NoExecutableStep);
      }
      if answer.Refused? {
        return Err(StepRefused);
      }
      var id := ready[0];
      FirstReady(plan.steps, statuses);
      ghost var t := View();
      StartStep(id);
      StartIsForgotten(t, id, AGENT_REPORT, StatusAfter(answer),
        if answer.AsksUser? then WaitingUser else if answer.ProposesChange? then WaitingApproval else Failed,
        if answer.Succeeds? then answer.verification else Unavailable);
      if answer.Interrupted? {
        return Err(StepInterrupted);
      }
      r := RecordAnswer(id, answer);
    }

    /** Started steps are distinct steps of the plan, each after all of its dependencies. */
    ghost predicate InOrder() reads this {
      && Ordering.Distinct(started)
      && (forall id :: id in started ==> id in GraphOf(plan.steps))
      && PlanGraph.Topological(GraphOf(plan.steps), started)
    }

    /** Between calls of an unfinished run: started means completed, the rest is pending. */
    ghost predicate Midway() reads this {
      && task in {ReadyToRun, Running}
      && statuses.Keys == GraphOf(plan.steps).Keys
      && (forall id :: id in statuses ==> statuses[id] == if id in started then StepCompleted else StepPending)
      && InOrder()
      && calls == |started| <= |plan.steps|
      && !AllTerminal(statuses)
    }

    /** After a run that stopped without an error. */
    ghost predicate Settled() reads this {
      && task in {WaitingUser, WaitingApproval, Completed, Failed}
      && statuses.Keys == GraphOf(plan.steps).Keys
      && InOrder() && calls == |started| <= |plan.steps|
      && (task.Terminal() ==> forall id :: id in statuses ==> statuses[id] == StepCompleted && id in started)
      && (!task.Terminal() ==> !AllTerminal(statuses))
    }

    /** Runs the plan of a fresh task: at most one call per step, in dependency order,
        and the "no executable step" error never appears. */
    method RunModelPlan(ghost maxSteps: int, answers: nat -> StepAnswer) returns (r: Outcome)
      requires ValidPlan(plan, maxSteps)
      requires task == ReadyToRun && started == [] && calls == 0
      requires statuses == FreshStatuses(plan)
      modifies this
      ensures r != Err(NoExecutableStep) && r != Err(NotRunnable)
      ensures plan == old(plan) && calls <= |plan.steps| && |started| <= calls && InOrder()
      ensures r == Ok ==> task in {WaitingUser, WaitingApproval, Completed, Failed}
      ensures r == Ok && task.Terminal() ==> forall id :: id in GraphOf(plan.steps) ==>
          id in statuses && statuses[id] == StepCompleted && id in started
      ensures r == Ok && !task.Terminal() ==> !AllTerminal(statuses)
    {
      FreshPlanHasWork(plan);
      while true
        invariant task in {ReadyToRun, Running} ==> Midway()
        invariant task !in {ReadyToRun, Running} ==> Settled()
        invariant |started| <= |plan.steps| && plan == old(plan)
        decreases |plan.steps| - |started|
      {
        if task in {Completed, Failed, Cancelled, Blocked, WaitingApproval, WaitingUser, Paused} {
          return Ok;
        }
        if task !in {ReadyToRun, Running} {
          return Err(NotRunnable);
        }
        var outcome := Turn(maxSteps, answers(calls));
        if outcome.Err? {
          return outcome;
        }
      }
    }

    /** One pass of the loop from an unfinished state: it starts exactly one more step, or stops with an error. */
    method Turn(ghost maxSteps: int, answer: StepAnswer) returns (r: Outcome)
      requires ValidPlan(plan, maxSteps) && Midway()
      modifies this
      ensures r != Err(NoExecutableStep) && r != Err(NotRunnable)
      ensures InOrder() && old(started) <= started && |started| <= calls == |old(started)| + 1 <= |plan.steps|
      ensures plan == old(plan) && (r == Ok ==> |started| == |old(started)| + 1)
      ensures r == Ok ==> if task in {ReadyToRun, Running} then Midway() else Settled()
    {
      hide ReadySet, GraphOf, PlanGraph.Topological, Ordering.Distinct, PlanGraph.Acyclic, IsReady, Executable,
           KnownDependencies, HeaderValid;
      ghost var t0 := started;
      StepAvailable(plan, maxSteps, statuses, started);
      ghost var id := ReadySet(plan.steps, statuses)[0];
      FirstReady(plan.steps, statuses);
      ReadyStepExtends(plan, statuses, started, id);
      DistinctFits(plan, started + [id]);
      AfterTurn(statuses, started, id, StatusAfter(answer));
      ghost var t := View();
      RunStepShape(t, answer);
      r := RunModelStep(answer);
      assert View() == RunStep(t, answer).0 && plan == t.plan;
      assert started == if answer.Refused? then t0 else t0 + [id];
    }

    /** RunTask: one deterministic reconnaissance step, then verification. */
    method RunTask(answer: ReconAnswer) returns (r: Outcome)
      modifies this`task, this`statuses, this`evidence, this`reports
      ensures (View(), r) == RunRecon(old(View()), answer)
      ensures Accepts(old(View()), View())
    {
      hide Accepts, ReadySet, Settle;
      OperationAccepts(View(), ReconRun(answer));
      if task != ReadyToRun {
        return Err(NotRunnable);
      }
      var ready := ReadySteps(plan, statuses);
      if |ready| != 1 {
        return Err(NoExecutableStep);
      }
      task := Running;
      var id := ready[0];
      if !StatusIs(statuses, id, StepPending) {
        return Err(NotRunnable);
      }
      Overwrite(statuses, id, StepReady, StepRunning);
      Overwrite(statuses, id, StepRunning, StepVerifying);
      Overwrite(statuses, id, StepVerifying, StepCompleted);
      statuses := statuses[id := StepReady];
      statuses := statuses[id := StepRunning];
      if answer.ReconFails? {
        task := Failed;
        return Err(StepRunFailed);
      }
      evidence := evidence + [RECON_REPORT];
      statuses := statuses[id := StepVerifying];
      statuses := statuses[id := StepCompleted];
      r := VerifyAndSettle(answer.verification);
    }

    /** Writes an approved change batch and verifies the task at once. */
    method ApprovePendingWrite(id: string, reply: WriteReply) returns (r: Outcome)
      modifies this`task, this`statuses, this`reports
      ensures (View(), r) == ApproveWrite(old(View()), id, reply)
      ensures Accepts(old(View()), View())
    {
      hide Accepts, Settle, IsWriteStep;
      OperationAccepts(View(), WriteApproval(id, reply));
      if !AwaitsApproval(View(), id) || !IsWriteStep(plan.steps, id) || reply.ProposalRefused? {
        return Err(NotApprovable);
      }
      task := Running;
      Overwrite(statuses, id, StepRunning, StepFailed);
      Overwrite(statuses, id, StepRunning, StepVerifying);
      Overwrite(statuses, id, StepVerifying, StepCompleted);
      statuses := statuses[id := StepRunning];
      if reply.WriteFailed? {
        statuses := statuses[id := StepFailed];
        task := Failed;
        return Err(ChangeFailed);
      }
      statuses := statuses[id := StepVerifying];
      statuses := statuses[id := StepCompleted];
      r := VerifyAndSettle(reply.verification);
    }

    /** Runs an approved command and completes its step. */
    method ApprovePendingCommand(id: string, reply: CommandReply, verification: Verification) returns (r: Outcome)
      modifies this`task, this`statuses, this`evidence, this`reports
      ensures (View(), r) == ApproveCommand(old(View()), id, reply, verification)
      ensures Accepts(old(View()), View())
    {
      hide Accepts, CompleteStep, IsCommandStep;
      OperationAccepts(View(), CommandApproval(id, reply, verification));
      if !AwaitsApproval(View(), id) || !IsCommandStep(plan.steps, id) || reply.CommandRefused? {
        return Err(NotApprovable);
      }
      ghost var t := View();
      task := Running;
      Overwrite(statuses, id, StepRunning, StepFailed);
      statuses := statuses[id := StepRunning];
      if reply.CommandFailed? {
        statuses := statuses[id := StepFailed];
        task := Failed;
        return Err(ChangeFailed);
      }
      StartIsForgotten(t, id, COMMAND_RESULT, StepCompleted, Running, verification);
      evidence := evidence + [COMMAND_RESULT];
      r := CompleteModelStep(id, verification);
    }
  }

  /** What one more step makes of a run in which started means completed. */
  lemma AfterTurn(statuses: Statuses, started: seq<string>, id: string, status: StepStatus)
    requires forall x :: x in statuses ==> statuses[x] == if x in started then StepCompleted else StepPending
    requires id in statuses && id !in started
    ensures status == StepCompleted ==>
      forall x :: x in statuses[id := status] ==>
        statuses[id := status][x] == if x in started + [id] then StepCompleted else StepPending
    ensures status == StepCompleted && AllTerminal(statuses[id := status]) ==>
      forall x :: x in statuses ==> statuses[id := status][x] == StepCompleted && x in started + [id]
    ensures status in {StepWaitingUser, StepWaitingApproval} ==> !AllTerminal(statuses[id := status])
  {
    var next := statuses[id := status];
    assert next[id] == status;
    forall x | x in statuses && x != id ensures next[x] == statuses[x] {}
  }

  lemma FirstReady(steps: seq<StepSpec>, statuses: Statuses)
    requires ReadySet(steps, statuses) != []
    ensures ReadySet(steps, statuses)[0] in statuses
    ensures exists s :: s in steps && s.stepId == ReadySet(steps, statuses)[0] && IsReady(s, statuses)
  {
    hide ReadySet;
    ReadySetIsExact(steps, statuses);
    assert ReadySet(steps, statuses)[0] in ReadySet(steps, statuses);
  }

  lemma FreshPlanHasWork(plan: PlanVersion)
    requires plan.steps != []
    ensures GraphOf(plan.steps).Keys != {}
  {
    GraphKeys(plan.steps);
    assert plan.steps[0].stepId in GraphOf(plan.steps);
  }

  /** While some step is not completed and all others are, one can start. */
  lemma StepAvailable(plan: PlanVersion, maxSteps: int, statuses: Statuses, started: seq<string>)
    requires ValidPlan(plan, maxSteps) && statuses.Keys == GraphOf(plan.steps).Keys
    requires forall id :: id in statuses ==> statuses[id] == if id in started then StepCompleted else StepPending
    requires exists id :: id in statuses && !statuses[id].Terminal()
    ensures ReadySet(plan.steps, statuses) != []
  {
    if ReadySet(plan.steps, statuses) == [] {
      var id :| id in statuses && !statuses[id].Terminal();
      GraphKeys(plan.steps);
      var i :| 0 <= i < |plan.steps| && plan.steps[i].stepId == id;
      NoDeadlock(plan, maxSteps, statuses, plan.steps[i]);
      var w :| BlockedBy(GraphOf(plan.steps), statuses, w) && w[0] == id;
      assert w[|w| - 1] in PlanGraph.Deps(GraphOf(plan.steps), w[|w| - 2]);
      KnownDependency(plan, w[|w| - 2], w[|w| - 1]);
      assert false;
    }
  }

  lemma ReadyStepExtends(plan: PlanVersion, statuses: Statuses, started: seq<string>, id: string)
    requires DistinctIds(plan.steps) && statuses.Keys == GraphOf(plan.steps).Keys
    requires forall x :: x in statuses ==> statuses[x] == if x in started then StepCompleted else StepPending
    requires Ordering.Distinct(started) && PlanGraph.Topological(GraphOf(plan.steps), started)
    requires exists s :: s in plan.steps && s.stepId == id && IsReady(s, statuses)
    ensures id in GraphOf(plan.steps) && id !in started
    ensures Ordering.Distinct(started + [id]) && PlanGraph.Topological(GraphOf(plan.steps), started + [id])
  {
    var s :| s in plan.steps && s.stepId == id && IsReady(s, statuses);
    var i :| 0 <= i < |plan.steps| && plan.steps[i] == s;
    GraphEntry(plan.steps, i);
    PlanGraph.FinishLast(GraphOf(plan.steps), started, id);
  }

  lemma DistinctFits(plan: PlanVersion, ids: seq<string>)
    requires DistinctIds(plan.steps) && Ordering.Distinct(ids)
    requires forall id :: id in ids ==> id in GraphOf(plan.steps)
    ensures |ids| <= |plan.steps|
  {
    DistinctCount(ids);
    GraphSize(plan.steps);
    assert (set id | id in ids) <= GraphOf(plan.steps).Keys;
    SubsetSize((set id | id in ids), GraphOf(plan.steps).Keys);
  }

  lemma {:induction false} DistinctCount(ids: seq<string>)
    requires Ordering.Distinct(ids)
    ensures |set id | id in ids| == |ids|
  {
    if ids != [] {
      var init := ids[..|ids| - 1];
      DistinctCount(init);
      assert (set id | id in ids) == (set id | id in init) + {ids[|ids| - 1]};
    }
  }

  lemma {:induction false} GraphSize(steps: seq<StepSpec>)
    ensures |GraphOf(steps).Keys| <= |steps|
  {
    if steps != [] {
      var init := steps[..|steps| - 1];
      GraphSize(init);
      assert GraphOf(steps).Keys == GraphOf(init).Keys + {steps[|steps| - 1].stepId};
    }
  }

  lemma {:induction false} SubsetSize<T>(a: set<T>, b: set<T>)
    requires a <= b
    ensures |a| <= |b|
  {
    assert b == a + (b - a);
  }
}
