/** Entities shared by the planner, the runner and the long-horizon engine. */
module Contracts {
  const SCHEMA_VERSION := 1

  datatype RiskClass = Read | Write | Dangerous | ExternalSideEffect

  datatype PermissionMode = PlanMode | EditMode | DevelopmentMode | UnknownMode

  /** pkg/contracts/permission.go, AllowsRisk. */
  predicate AllowsRisk(mode: PermissionMode, risk: RiskClass) {
    match mode
    case PlanMode => risk.Read?
    case EditMode => risk.Read? || risk.Write?
    case DevelopmentMode => !risk.ExternalSideEffect?
    case UnknownMode => false
  }

  datatype TaskStatus =
    | Draft | Planning | ReadyToRun | Running | WaitingApproval | WaitingUser
    | Verifying | Completed | Failed | Blocked | Paused | Cancelled
  {
    predicate Terminal() {
      this in {Completed, Failed, Blocked, Cancelled}
    }
  }

  datatype StepStatus =
    | StepPending | StepReady | StepRunning | StepWaitingApproval | StepWaitingUser | StepVerifying
    | StepCompleted | StepFailed | StepBlocked | StepSkipped | StepSuperseded | StepCancelled
  {
    predicate Terminal() {
      this in {StepCompleted, StepFailed, StepBlocked, StepSkipped, StepSuperseded, StepCancelled}
    }
  }

  datatype StepSpec = StepSpec(
    stepId: string,
    title: string,
    goal: string,
    dependencies: seq<string>,
    allowedTools: seq<string>,
    acceptanceCount: nat,
    risk: RiskClass)

  datatype PlanVersion = PlanVersion(
    version: int,
    planId: string,
    taskId: string,
    steps: seq<StepSpec>)

  /** A step that may only propose writes, and one that may propose a project command. */
  predicate IsWriteStep(steps: seq<StepSpec>, id: string) {
    exists i :: 0 <= i < |steps| && steps[i].stepId == id && steps[i].risk.Write?
  }

  predicate IsCommandStep(steps: seq<StepSpec>, id: string) {
    exists i :: 0 <= i < |steps| && steps[i].stepId == id && "propose_project_command" in steps[i].allowedTools
  }
}
