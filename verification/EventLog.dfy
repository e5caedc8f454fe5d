/** The store's protocol (internal/storage/store.go): a status row and its event change in one transaction, guarded by
    the old status and by the event's number, which the schema keeps unique (`SequenceTaken`). */
module EventLog {
  import opened Contracts
  import TaskTable

  datatype Body =
    | TaskCreated
    | TaskMoved(from: TaskStatus, to: TaskStatus)
    | StepsCreated(steps: set<string>)
    | StepMoved(step: string, stepFrom: StepStatus, stepTo: StepStatus)
    | Noted(name: string)

  datatype Event = Event(task: string, sequence: nat, body: Body)

  datatype StepRow = StepRow(task: string, status: StepStatus)

  /** The committed state; events are listed in commit order. */
  datatype Database = Database(tasks: map<string, TaskStatus>, steps: map<string, StepRow>, events: seq<Event>)

  /** A transaction with its event, built before it runs: the sequence number was read at that time. */
  datatype Transaction = Transaction(task: string, body: Body, sequence: nat)

  // Reading the log.

  function MaxSequence(events: seq<Event>, task: string): nat {
    if events == [] then 0
    else
      var last := events[|events| - 1];
      var before := MaxSequence(events[..|events| - 1], task);
      if last.task == task && last.sequence > before then last.sequence else before
  }

  function NextSequence(events: seq<Event>, task: string): nat {
    MaxSequence(events, task) + 1
  }

  predicate SequenceTaken(events: seq<Event>, task: string, sequence: nat) {
    exists i :: 0 <= i < |events| && events[i].task == task && events[i].sequence == sequence
  }

  lemma {:induction false} HighestNumber(events: seq<Event>, task: string)
    ensures forall i :: 0 <= i < |events| && events[i].task == task ==> events[i].sequence <= MaxSequence(events, task)
    ensures MaxSequence(events, task) > 0 ==>
      exists i :: 0 <= i < |events| && events[i].task == task && events[i].sequence == MaxSequence(events, task)
  {
    if events != [] {
      var init := events[..|events| - 1];
      HighestNumber(init, task);
      forall i | 0 <= i < |events| && events[i].task == task
        ensures events[i].sequence <= MaxSequence(events, task)
      {
        if i < |init| { assert init[i] == events[i]; }
      }
      if i :| 0 <= i < |init| && init[i].task == task && init[i].sequence == MaxSequence(init, task) {
        assert events[i] == init[i];
      }
    }
  }

  // The transactions.

  /** The step transitions the service issues. */
  predicate StepTransition(from: StepStatus, to: StepStatus) {
    match from
    case StepPending => to.StepReady?
    case StepReady => to.StepRunning?
    case StepRunning => to in {StepVerifying, StepWaitingApproval, StepWaitingUser, StepFailed}
    case StepVerifying => to.StepCompleted?
    case StepWaitingApproval => to.StepRunning?
    case StepWaitingUser => to.StepFailed?
    case _ => false
  }

  /** What the service checks before it builds the event. */
  predicate Proposable(body: Body) {
    match body
    case TaskMoved(from, to) => TaskTable.CanTransition(from, to)
    case StepMoved(_, from, to) => StepTransition(from, to)
    case _ => true
  }

  /** The guard of each transaction on the rows it touches. */
  predicate RowsAllow(db: Database, t: Transaction) {
    match t.body
    case TaskCreated => t.task !in db.tasks
    case TaskMoved(from, _) => t.task in db.tasks && db.tasks[t.task] == from
    case StepsCreated(steps) => t.task in db.tasks && steps !! db.steps.Keys
    case StepMoved(step, from, _) => step in db.steps && db.steps[step] == StepRow(t.task, from)
    case Noted(_) => t.task in db.tasks
  }

  function RowsAfter(db: Database, t: Transaction): Database {
    match t.body
    case TaskCreated => db.(tasks := db.tasks[t.task := Draft])
    case TaskMoved(_, to) => db.(tasks := db.tasks[t.task := to])
    case StepsCreated(steps) => db.(steps := db.steps + map s | s in steps :: StepRow(t.task, StepPending))
    case StepMoved(step, _, to) => db.(steps := db.steps[step := StepRow(t.task, to)])
    case Noted(_) => db
  }

  predicate Commits(db: Database, t: Transaction) {
    RowsAllow(db, t) && !SequenceTaken(db.events, t.task, t.sequence)
  }

  /** All or nothing. */
  function Committed(db: Database, t: Transaction): Database {
    if Commits(db, t) then RowsAfter(db, t).(events := db.events + [Event(t.task, t.sequence, t.body)]) else db
  }

  function EventOf(t: Transaction): Event {
    Event(t.task, t.sequence, t.body)
  }

  /** No event of the task carries the number. */
  predicate NumberIsFree(events: seq<Event>, t: Transaction) {
    forall i :: 0 <= i < |events| && events[i].task == t.task ==> events[i].sequence != t.sequence
  }

  class Store {
    var tasks: map<string, TaskStatus>
    var steps: map<string, StepRow>
    var events: seq<Event>

    function View(): Database reads this { Database(tasks, steps, events) }

    method NextSequenceOf(task: string) returns (sequence: nat)
      ensures sequence == NextSequence(events, task)
      ensures sequence >= 1 && forall i :: 0 <= i < |events| && events[i].task == task ==> events[i].sequence < sequence
      ensures sequence > 1 ==>
        exists i :: 0 <= i < |events| && events[i].task == task && events[i].sequence == sequence - 1
    {
      HighestNumber(events, task);
      var top := 0;
      for i := 0 to |events|
        invariant top == MaxSequence(events[..i], task)
      {
        assert events[..i + 1][..i] == events[..i];
        if events[i].task == task && events[i].sequence > top {
          top := events[i].sequence;
        }
      }
      assert events[..|events|] == events;
      sequence := top + 1;
    }

    /** The insert that ends every transaction. */
    method AppendEvent(e: Event) returns (ok: bool)
      modifies this`events
      ensures ok <==> !SequenceTaken(old(events), e.task, e.sequence)
      ensures events == if ok then old(events) + [e] else old(events)
    {
      ok := !exists i :: 0 <= i < |events| && events[i].task == e.task && events[i].sequence == e.sequence;
      if ok {
        events := events + [e];
      }
    }

    method CreateTask(t: Transaction) returns (ok: bool)
      requires t.body.TaskCreated?
      modifies this
      ensures View() == Committed(old(View()), t) && ok == Commits(old(View()), t)
      ensures ok <==> t.task !in old(tasks) && NumberIsFree(old(events), t)
      ensures !ok ==> unchanged(this)
      ensures ok ==> tasks == old(tasks)[t.task := Draft] && steps == old(steps) && events == old(events) + [EventOf(t)]
    {
      if t.task in tasks {
        return false;
      }
      var before := tasks;
      tasks := tasks[t.task := Draft];
      ok := AppendEvent(Event(t.task, t.sequence, t.body));
      if !ok {
        tasks := before;
      }
    }

    method TransitionTask(t: Transaction) returns (ok: bool)
      requires t.body.TaskMoved?
      modifies this
      ensures View() == Committed(old(View()), t) && ok == Commits(old(View()), t)
      ensures ok <==> t.task in old(tasks) && old(tasks)[t.task] == t.body.from && NumberIsFree(old(events), t)
      ensures !ok ==> unchanged(this)
      ensures ok ==>
        tasks == old(tasks)[t.task := t.body.to] && steps == old(steps) && events == old(events) + [EventOf(t)]
    {
      if t.task !in tasks || tasks[t.task] != t.body.from {
        return false;
      }
      var before := tasks;
      tasks := tasks[t.task := t.body.to];
      ok := AppendEvent(Event(t.task, t.sequence, t.body));
      if !ok {
        tasks := before;
      }
    }

    method CreatePlan(t: Transaction) returns (ok: bool)
      requires t.body.StepsCreated?
      modifies this
      ensures View() == Committed(old(View()), t) && ok == Commits(old(View()), t)
      ensures ok <==> && t.task in old(tasks) && (forall s :: s in t.body.steps ==> s !in old(steps))
                      && NumberIsFree(old(events), t)
      ensures !ok ==> unchanged(this)
      ensures ok ==> tasks == old(tasks) && events == old(events) + [EventOf(t)]
      ensures ok ==> forall s ::
        && (s in steps <==> s in old(steps) || s in t.body.steps)
        && (s in t.body.steps ==> steps[s] == StepRow(t.task, StepPending))
        && (s in old(steps) ==> steps[s] == old(steps)[s])
    {
      if t.task !in tasks || !(t.body.steps !! steps.Keys) {
        return false;
      }
      var before := steps;
      steps := steps + map s | s in t.body.steps :: StepRow(t.task, StepPending);
      ok := AppendEvent(Event(t.task, t.sequence, t.body));
      if !ok {
        steps := before;
      }
    }

    method TransitionStep(t: Transaction) returns (ok: bool)
      requires t.body.StepMoved?
      modifies this
      ensures View() == Committed(old(View()), t) && ok == Commits(old(View()), t)
      ensures ok <==> && t.body.step in old(steps) && old(steps)[t.body.step] == StepRow(t.task, t.body.stepFrom)
                      && NumberIsFree(old(events), t)
      ensures !ok ==> unchanged(this)
      ensures ok ==>
        tasks == old(tasks) && steps == old(steps)[t.body.step := StepRow(t.task, t.body.stepTo)]
        && events == old(events) + [EventOf(t)]
    {
      if t.body.step !in steps || steps[t.body.step] != StepRow(t.task, t.body.stepFrom) {
        return false;
      }
      var before := steps;
      steps := steps[t.body.step := StepRow(t.task, t.body.stepTo)];
      ok := AppendEvent(Event(t.task, t.sequence, t.body));
      if !ok {
        steps := before;
      }
    }
  }

  // Any number of clients, interleaved between reading the sequence number and the transaction.

  datatype System = System(db: Database, prepared: map<nat, Transaction>)

  datatype Action = Prepare(client: nat, task: string, body: Body) | Run(client: nat)

  const EMPTY := System(Database(map[], map[], []), map[])

  function Act(s: System, a: Action): System {
    match a
    case Prepare(client, task, body) =>
      if Proposable(body) then
        s.(prepared := s.prepared[client := Transaction(task, body, NextSequence(s.db.events, task))])
      else s
    case Run(client) =>
      if client in s.prepared then System(Committed(s.db, s.prepared[client]), s.prepared - {client}) else s
  }

  /** The systems before, between and after a sequence of actions of any clients. */
  datatype Session = Session(systems: seq<System>, actions: seq<Action>)

  ghost predicate IsStep(x: Session, i: nat) {
    i + 1 < |x.systems| && i < |x.actions| && x.systems[i + 1] == Act(x.systems[i], x.actions[i])
  }

  ghost predicate IsSession(x: Session) {
    && |x.systems| == |x.actions| + 1 && x.systems[0] == EMPTY
    && forall i :: 0 <= i < |x.actions| ==> IsStep(x, i)
  }

  /** Every sequence of actions has its session. */
  lemma {:induction false} EverySequenceHappens(actions: seq<Action>) returns (x: Session)
    ensures IsSession(x) && x.actions == actions
  {
    hide Act;
    if actions == [] {
      x := Session([EMPTY], []);
    } else {
      var last := |actions| - 1;
      var before := EverySequenceHappens(actions[..last]);
      x := Session(before.systems + [Act(before.systems[last], actions[last])], actions);
      forall i | 0 <= i < |actions| ensures IsStep(x, i) {
        if i < last { assert IsStep(before, i) && actions[..last][i] == actions[i]; }
      }
    }
  }

  // What the log says.

  /** The events of one task, in commit order. */
  function Of(events: seq<Event>, task: string): seq<Event> {
    if events == [] then []
    else
      var last := events[|events| - 1];
      Of(events[..|events| - 1], task) + if last.task == task then [last] else []
  }

  ghost predicate Gapless(events: seq<Event>, task: string) {
    forall i :: 0 <= i < |Of(events, task)| ==> Of(events, task)[i].sequence == i + 1
  }

  datatype Folded = Absent | At(status: TaskStatus) | Broken

  /** Replays the status events of a task; `Broken` when one does not continue the chain or leaves the table. */
  function Fold(events: seq<Event>, task: string): Folded {
    if events == [] then Absent
    else
      var last := events[|events| - 1];
      var before := Fold(events[..|events| - 1], task);
      if last.task != task then before
      else match last.body
        case TaskCreated => if before.Absent? then At(Draft) else Broken
        case TaskMoved(from, to) => if before == At(from) && TaskTable.CanTransition(from, to) then At(to) else Broken
        case _ => before
  }

  function RowOf(tasks: map<string, TaskStatus>, task: string): Folded {
    if task in tasks then At(tasks[task]) else Absent
  }

  /** The steps whose completion the log records. */
  function CompletedIn(events: seq<Event>): set<string> {
    set i | 0 <= i < |events| && events[i].body.StepMoved? && events[i].body.stepTo.StepCompleted? ::
        events[i].body.step
  }

  function CompletedRows(steps: map<string, StepRow>): set<string> {
    set s | s in steps && steps[s].status.StepCompleted?
  }

  // The life of a step.

  /** The moves of a step, one by one. */
  const STEP_MOVES: set<(StepStatus, StepStatus)> := {
    (StepPending, StepReady), (StepReady, StepRunning), (StepRunning, StepVerifying),
    (StepRunning, StepWaitingApproval), (StepRunning, StepWaitingUser), (StepRunning, StepFailed),
    (StepVerifying, StepCompleted), (StepWaitingApproval, StepRunning), (StepWaitingUser, StepFailed)
  }

  datatype StepFold = NoRow | Row(row: StepRow) | BrokenRow

  /** Replays the events of a step: it appears PENDING for one task and moves along the table. */
  function FoldStep(events: seq<Event>, step: string): StepFold {
    if events == [] then NoRow
    else
      var last := events[|events| - 1];
      var before := FoldStep(events[..|events| - 1], step);
      match last.body
      case StepsCreated(steps) =>
        if step !in steps then before
        else if before == NoRow then Row(StepRow(last.task, StepPending)) else BrokenRow
      case StepMoved(moved, from, to) =>
        if moved != step then before
        else if before == Row(StepRow(last.task, from)) && (from, to) in STEP_MOVES then Row(StepRow(last.task, to))
        else BrokenRow
      case _ => before
  }

  ghost predicate StepsFollowLog(s: System) {
    && (forall client :: client in s.prepared ==> Proposable(s.prepared[client].body))
    && forall step :: FoldStep(s.db.events, step) == if step in s.db.steps then Row(s.db.steps[step]) else NoRow
  }

  lemma StepTransitionsAreMoves(from: StepStatus, to: StepStatus)
    ensures StepTransition(from, to) <==> (from, to) in STEP_MOVES
  {
  }

  lemma CommitFollows(db: Database, t: Transaction, step: string)
    requires Commits(db, t) && Proposable(t.body)
    requires FoldStep(db.events, step) == if step in db.steps then Row(db.steps[step]) else NoRow
    ensures var v := Committed(db, t);
      FoldStep(v.events, step) == if step in v.steps then Row(v.steps[step]) else NoRow
  {
    hide SequenceTaken;
    var v := Committed(db, t);
    assert v.events[..|v.events| - 1] == db.events;
    if t.body.StepMoved? { StepTransitionsAreMoves(t.body.stepFrom, t.body.stepTo); }
  }

  /** However clients interleave, the rows of all steps are what their events say, move by move. */
  lemma {:induction false} StepRowsFollowTheLog(x: Session, n: nat)
    requires IsSession(x) && n <= |x.actions|
    ensures StepsFollowLog(x.systems[n])
  {
    hide FoldStep, Committed;
    if n == 0 {
      NothingFollowsNothing();
    } else {
      StepRowsFollowTheLog(x, n - 1);
      assert IsStep(x, n - 1);
      var s, a := x.systems[n - 1], x.actions[n - 1];
      if a.Run? && a.client in s.prepared {
        var t := s.prepared[a.client];
        forall step ensures var v := Committed(s.db, t);
          FoldStep(v.events, step) == if step in v.steps then Row(v.steps[step]) else NoRow
        {
          if Commits(s.db, t) { CommitFollows(s.db, t, step); } else { RefusedChangesNothing(s.db, t); }
        }
      }
    }
  }

  lemma NothingFollowsNothing()
    ensures StepsFollowLog(EMPTY)
  {
  }

  lemma RefusedChangesNothing(db: Database, t: Transaction)
    requires !Commits(db, t)
    ensures Committed(db, t) == db
  {
  }

  // Invariants.

  ghost predicate Consistent(s: System) {
    && (forall task :: Gapless(s.db.events, task))
    && (forall task :: Fold(s.db.events, task) == RowOf(s.db.tasks, task))
    && CompletedIn(s.db.events) == CompletedRows(s.db.steps)
    && (forall client :: client in s.prepared ==>
         Proposable(s.prepared[client].body)
             && 1 <= s.prepared[client].sequence <= NextSequence(s.db.events, s.prepared[client].task))
  }

  lemma {:induction false} GaplessMaximum(events: seq<Event>, task: string)
    requires Gapless(events, task)
    ensures MaxSequence(events, task) == |Of(events, task)|
  {
    if events != [] {
      var init := events[..|events| - 1];
      var last := events[|events| - 1];
      var own := Of(init, task);
      assert Gapless(init, task) by {
        forall i | 0 <= i < |own| ensures own[i].sequence == i + 1 {
          assert Of(events, task)[i] == own[i];
        }
      }
      GaplessMaximum(init, task);
      if last.task == task { assert Of(events, task)[|own|] == last; }
    }
  }

  lemma {:induction false} OwnEventsAreLogged(events: seq<Event>, task: string, k: nat)
    requires k < |Of(events, task)|
    ensures Of(events, task)[k].task == task
    ensures exists i :: 0 <= i < |events| && events[i] == Of(events, task)[k]
  {
    var init := events[..|events| - 1];
    if k < |Of(init, task)| {
      OwnEventsAreLogged(init, task, k);
      var i :| 0 <= i < |init| && init[i] == Of(init, task)[k];
      assert events[i] == Of(events, task)[k];
    } else {
      assert events[|events| - 1] == Of(events, task)[k];
    }
  }

  /** A number that was next once is next still, or it is taken. */
  lemma StaleNumbersAreTaken(events: seq<Event>, task: string, sequence: nat)
    requires Gapless(events, task) && 1 <= sequence <= NextSequence(events, task)
    ensures SequenceTaken(events, task, sequence) || sequence == |Of(events, task)| + 1
  {
    GaplessMaximum(events, task);
    if sequence <= |Of(events, task)| {
      OwnEventsAreLogged(events, task, sequence - 1);
    }
  }

  lemma AppendedEvent(events: seq<Event>, e: Event, task: string)
    ensures Of(events + [e], task) == Of(events, task) + if e.task == task then [e] else []
    ensures MaxSequence(events + [e], task) >= MaxSequence(events, task)
    ensures Fold(events + [e], task) ==
      if e.task != task then Fold(events, task)
      else match e.body
        case TaskCreated => if Fold(events, task).Absent? then At(Draft) else Broken
        case TaskMoved(from, to) =>
          if Fold(events, task) == At(from) && TaskTable.CanTransition(from, to) then At(to) else Broken
        case _ => Fold(events, task)
  {
    var longer := events + [e];
    assert longer[..|longer| - 1] == events && longer[|longer| - 1] == e;
  }

  lemma NumbersGrow(events: seq<Event>, e: Event, task: string)
    requires Gapless(events, task)
    requires e.task == task ==> e.sequence == |Of(events, task)| + 1
    ensures Gapless(events + [e], task)
  {
    AppendedEvent(events, e, task);
  }

  lemma CommitKeepsNumbers(db: Database, t: Transaction, task: string)
    requires Commits(db, t) && 1 <= t.sequence <= NextSequence(db.events, t.task)
    requires Gapless(db.events, t.task) && Gapless(db.events, task)
    ensures Gapless(Committed(db, t).events, task)
  {
    hide RowsAllow, RowsAfter, Gapless, SequenceTaken, NextSequence;
    StaleNumbersAreTaken(db.events, t.task, t.sequence);
    NumbersGrow(db.events, Event(t.task, t.sequence, t.body), task);
  }

  lemma CommitKeepsFold(db: Database, t: Transaction, task: string)
    requires Commits(db, t) && Proposable(t.body)
    requires Fold(db.events, task) == RowOf(db.tasks, task)
    ensures Fold(Committed(db, t).events, task) == RowOf(Committed(db, t).tasks, task)
  {
    AppendedEvent(db.events, Event(t.task, t.sequence, t.body), task);
  }

  lemma CommitKeepsCompletions(db: Database, t: Transaction)
    requires Commits(db, t) && Proposable(t.body)
    requires CompletedIn(db.events) == CompletedRows(db.steps)
    ensures CompletedIn(Committed(db, t).events) == CompletedRows(Committed(db, t).steps)
  {
    var v := Committed(db, t);
    var n := |db.events|;
    var moved := if t.body.StepMoved? && t.body.stepTo.StepCompleted? then {t.body.step} else {};
    assert v.events[n] == Event(t.task, t.sequence, t.body);
    forall s ensures s in CompletedIn(v.events) <==> s in CompletedIn(db.events) + moved {
      if s in CompletedIn(v.events) {
        var i :| 0 <= i < |v.events| && v.events[i].body.StepMoved? && v.events[i].body.stepTo.StepCompleted?
            && v.events[i].body.step == s;
        if i < n { assert db.events[i] == v.events[i]; }
      }
      if s in CompletedIn(db.events) {
        var i :| 0 <= i < n && db.events[i].body.StepMoved? && db.events[i].body.stepTo.StepCompleted?
            && db.events[i].body.step == s;
        assert v.events[i] == db.events[i];
      }
    }
    assert CompletedRows(v.steps) == CompletedRows(db.steps) + moved;
  }

  lemma RunKeepsConsistent(s: System, client: nat)
    requires Consistent(s)
    ensures Consistent(Act(s, Run(client)))
  {
    if client in s.prepared && Commits(s.db, s.prepared[client]) {
      hide RowsAllow, RowsAfter, Gapless, Fold, CompletedIn, CompletedRows;
      var t := s.prepared[client];
      var v := Act(s, Run(client));
      forall task ensures Gapless(v.db.events, task) && Fold(v.db.events, task) == RowOf(v.db.tasks, task) {
        CommitKeepsNumbers(s.db, t, task);
        CommitKeepsFold(s.db, t, task);
      }
      CommitKeepsCompletions(s.db, t);
      forall other | other in v.prepared
        ensures v.prepared[other].sequence <= NextSequence(v.db.events, v.prepared[other].task)
      {
        AppendedEvent(s.db.events, Event(t.task, t.sequence, t.body), v.prepared[other].task);
      }
    }
  }

  lemma {:induction false} EverySessionIsConsistent(x: Session, n: nat)
    requires IsSession(x) && n <= |x.actions|
    ensures Consistent(x.systems[n])
  {
    hide Gapless, Fold, Committed;
    if n == 0 {
      EmptyIsConsistent();
    } else {
      EverySessionIsConsistent(x, n - 1);
      assert IsStep(x, n - 1);
      match x.actions[n - 1]
      case Run(client) => RunKeepsConsistent(x.systems[n - 1], client);
      case Prepare(_, _, _) =>
    }
  }

  lemma EmptyIsConsistent()
    ensures Consistent(EMPTY)
  {
  }

  /** However clients interleave: the events of a task are numbered 1 to n, replaying its status events stays
      inside the table and ends at the stored status, and the completions on record are the completed steps. */
  lemma LogAndRowsAgree(x: Session, n: nat, task: string)
    requires IsSession(x) && n <= |x.actions|
    ensures var db := x.systems[n].db;
      && (forall i :: 0 <= i < |Of(db.events, task)| ==> Of(db.events, task)[i].sequence == i + 1)
      && Fold(db.events, task) == (if task in db.tasks then At(db.tasks[task]) else Absent)
      && CompletedIn(db.events) == CompletedRows(db.steps)
  {
    hide Fold, CompletedIn, CompletedRows, IsStep;
    EverySessionIsConsistent(x, n);
    assert Gapless(x.systems[n].db.events, task);
  }

  /** Of two transactions prepared on the same number at most one commits. */
  lemma SecondOnTheSameNumberFails(db: Database, first: Transaction, second: Transaction)
    requires Commits(db, first) && first.task == second.task && first.sequence == second.sequence
    ensures !Commits(Committed(db, first), second) && Committed(Committed(db, first), second) == Committed(db, first)
  {
    assert Committed(db, first).events[|db.events|] == Event(first.task, first.sequence, first.body);
  }

  // Optimistic commits.

  /** The client prepares the change at i and tries it at j, and does nothing in between. */
  ghost predicate TriesOnce(x: Session, client: nat, task: string, body: Body, i: nat, j: nat) {
    && i < j < |x.actions| && x.actions[i] == Prepare(client, task, body) && x.actions[j] == Run(client)
    && forall k :: i < k < j ==> x.actions[k].client != client
  }

  lemma {:induction false} PreparedStays(x: Session, client: nat, task: string, body: Body, i: nat, j: nat, k: nat)
    requires IsSession(x) && TriesOnce(x, client, task, body, i, j) && Proposable(body) && i < k <= j
    ensures client in x.systems[k].prepared
    ensures x.systems[k].prepared[client] == Transaction(task, body, NextSequence(x.systems[i].db.events, task))
    ensures |Of(x.systems[k].db.events, task)| >= |Of(x.systems[i].db.events, task)|
  {
    hide Of, NextSequence, Commits, Proposable;
    assert IsStep(x, k - 1);
    if k > i + 1 {
      PreparedStays(x, client, task, body, i, j, k - 1);
      var s, a := x.systems[k - 1], x.actions[k - 1];
      if a.Run? && a.client in s.prepared {
        var t := s.prepared[a.client];
        AppendedEvent(s.db.events, EventOf(t), task);
      }
    }
  }

  lemma NumberIsNext(events: seq<Event>, task: string, sequence: nat)
    requires Gapless(events, task) && 1 <= sequence <= |Of(events, task)| + 1
    ensures SequenceTaken(events, task, sequence) <==> sequence <= |Of(events, task)|
  {
    GaplessMaximum(events, task);
    HighestNumber(events, task);
    if sequence <= |Of(events, task)| { OwnEventsAreLogged(events, task, sequence - 1); }
  }

  /** A prepared change takes effect exactly if its row is still as expected and no event of the task was committed in
      the meantime; then its event is the next of the task. */
  lemma CommitsIffUndisturbed(x: Session, client: nat, task: string, body: Body, i: nat, j: nat)
    requires IsSession(x) && TriesOnce(x, client, task, body, i, j) && Proposable(body)
    ensures var earlier, now, later := x.systems[i].db, x.systems[j].db, x.systems[j + 1].db;
      var n := |Of(earlier.events, task)|;
      && (later.events != now.events <==>
          RowsAllow(now, Transaction(task, body, n + 1)) && |Of(now.events, task)| == n)
      && (later.events != now.events ==> later.events == now.events + [Event(task, n + 1, body)])
      && (later.events == now.events ==> later == now)
  {
    hide Of, MaxSequence, SequenceTaken, RowsAllow, RowsAfter, Gapless, Fold, Proposable;
    EverySessionIsConsistent(x, i);
    EverySessionIsConsistent(x, j);
    assert IsStep(x, j) && Gapless(x.systems[i].db.events, task) && Gapless(x.systems[j].db.events, task);
    PreparedStays(x, client, task, body, i, j, j);
    GaplessMaximum(x.systems[i].db.events, task);
    NumberIsNext(x.systems[j].db.events, task, |Of(x.systems[i].db.events, task)| + 1);
  }
}
