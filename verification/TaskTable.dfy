/** The task transition table (internal/task/state.go). */
module TaskTable {
  import opened Contracts

  predicate CanTransition(from: TaskStatus, to: TaskStatus) {
    match from
    case Draft => to in {Planning, Cancelled}
    case Planning => to in {ReadyToRun, WaitingUser, Failed, Cancelled}
    case ReadyToRun => to in {Running, Paused, Cancelled}
    case Running => to in {Verifying, WaitingApproval, WaitingUser, Paused, Blocked, Failed, Cancelled}
    case Verifying => to in {Completed, Running, Failed, WaitingUser}
    case WaitingApproval => to in {Running, Paused, Cancelled}
    case WaitingUser => to in {Planning, Running, Paused, Cancelled}
    case Paused => to in {ReadyToRun, Running, Cancelled}
    case _ => false
  }

  /** The moves of a task, one by one. */
  const MOVES: set<(TaskStatus, TaskStatus)> := {
    (Draft, Planning), (Draft, Cancelled),
    (Planning, ReadyToRun), (Planning, WaitingUser), (Planning, Failed), (Planning, Cancelled),
    (ReadyToRun, Running), (ReadyToRun, Paused), (ReadyToRun, Cancelled),
    (Running, Verifying), (Running, WaitingApproval), (Running, WaitingUser), (Running, Paused), (Running, Blocked),
    (Running, Failed), (Running, Cancelled),
    (Verifying, Completed), (Verifying, Running), (Verifying, Failed), (Verifying, WaitingUser),
    (WaitingApproval, Running), (WaitingApproval, Paused), (WaitingApproval, Cancelled),
    (WaitingUser, Planning), (WaitingUser, Running), (WaitingUser, Paused), (WaitingUser, Cancelled),
    (Paused, ReadyToRun), (Paused, Running), (Paused, Cancelled)
  }

  lemma TableIsMoves(from: TaskStatus, to: TaskStatus)
    ensures CanTransition(from, to) <==> (from, to) in MOVES
  {
  }

  /** A status is terminal exactly when nothing leads out of it; a task is completed only out of verification,
      and verified only while it runs. */
  lemma TerminalIffNoWayOut(from: TaskStatus)
    ensures from.Terminal() <==> forall to :: !CanTransition(from, to)
    ensures forall to :: CanTransition(from, to) && to.Completed? ==> from.Verifying?
    ensures forall to :: CanTransition(from, to) && to.Verifying? ==> from.Running?
  {
    if !from.Terminal() {
      var next := match from {
        case Draft => Planning
        case Planning => ReadyToRun
        case Verifying => Completed
        case Paused => ReadyToRun
        case Running => Verifying
        case _ => Running
      };
      assert CanTransition(from, next);
    }
  }
}
