/** Approved, hash-guarded file writes (internal/storage/intents.go, internal/tool/write.go). A run of WriteFile is
    a sequence of atomic actions, between which other runs, approvals and edits from outside may happen; nothing
    locks a file between the second check and the rename. */
module GuardedWrites {
  import opened Strings

  /** A resolved workspace path, component by component. */
  type Path = seq<string>

  type Files = map<Path, string>

  /** What a caller may give as a content hash; the hash itself is taken to be injective. */
  datatype Digest = HashOf(content: string) | OtherDigest(value: string)

  /** The parameters a ticket is bound to. */
  datatype WriteRequest = WriteRequest(step: string, path: Path, content: string, expected: Digest)

  datatype Ticket = Ticket(request: WriteRequest, expires: Option<int>, uses: nat)

  datatype Phase = Recorded | Checked | Paid | Cleared | Over(succeeded: bool)

  datatype WriteRun = WriteRun(request: WriteRequest, phase: Phase)

  /** What happened, in order. `Confirmed` marks a second check that let its run go on. */
  datatype Entry =
    | Granted(ticket: nat)
    | Intended(request: WriteRequest)
    | Consumed(run: nat, ticket: nat)
    | Confirmed(run: nat)
    | Replaced(run: nat, request: WriteRequest, before: string)
    | EditedOutside(files: Files)

  datatype State = State(
    files: Files, tickets: seq<Ticket>, intents: set<WriteRequest>, runs: map<nat, WriteRun>, log: seq<Entry>)

  // Files.

  /** An absent file reads as empty. */
  function ContentOf(files: Files, path: Path): string {
    if path in files then files[path] else ""
  }

  predicate Above(p: Path, q: Path) {
    p < q
  }

  predicate Related(p: Path, q: Path) {
    Above(p, q) || Above(q, p)
  }

  /** Neither a directory nor below a file. */
  predicate Readable(files: Files, path: Path) {
    forall p :: p in files ==> !Related(p, path)
  }

  datatype Verdict = Unusable | AlreadyApplied | MayReplace

  /** checkExpectedContent: the desired content wins over a stale expectation. */
  function CheckExpected(files: Files, q: WriteRequest): Verdict {
    if !Readable(files, q.path) then Unusable
    else if ContentOf(files, q.path) == q.content then AlreadyApplied
    else if q.expected != HashOf(ContentOf(files, q.path)) then Unusable
    else MayReplace
  }

  // Tickets.

  predicate Live(expires: Option<int>, now: int) {
    expires.None? || expires.value > now
  }

  predicate Matches(t: Ticket, q: WriteRequest, now: int) {
    t.request == q && t.uses > 0 && Live(t.expires, now)
  }

  /** The oldest ticket that fits. */
  function FirstMatch(tickets: seq<Ticket>, q: WriteRequest, now: int): (r: Option<nat>)
    ensures r.Some? ==> r.value < |tickets| && Matches(tickets[r.value], q, now)
    ensures r.None? ==> forall i :: 0 <= i < |tickets| ==> !Matches(tickets[i], q, now)
  {
    if tickets == [] then None
    else
      var last := |tickets| - 1;
      var before := FirstMatch(tickets[..last], q, now);
      if before.Some? then before
      else if Matches(tickets[last], q, now) then Some(last)
      else
        assert forall i :: 0 <= i < last ==> tickets[..last][i] == tickets[i];
        None
  }

  function WithUse(tickets: seq<Ticket>, t: nat): seq<Ticket>
    requires t < |tickets| && tickets[t].uses > 0
  {
    tickets[t := tickets[t].(uses := tickets[t].uses - 1)]
  }

  // Actions.

  datatype Action =
    | Approve(request: WriteRequest, expires: Option<int>)
    | Begin(run: nat, request: WriteRequest)
    | FirstCheck(run: nat)
    | Consume(run: nat, now: int)
    | SecondCheck(run: nat)
    | Rename(run: nat)
    | GiveUp(run: nat)
    | Edit(files: Files)

  function At(s: State, run: nat, phase: Phase): State
    requires run in s.runs
  {
    s.(runs := s.runs[run := s.runs[run].(phase := phase)])
  }

  predicate InPhase(s: State, run: nat, phase: Phase) {
    run in s.runs && s.runs[run].phase == phase
  }

  function BeginRun(s: State, run: nat, q: WriteRequest): State {
    if run in s.runs then s
    else
      s.(runs := s.runs[run := WriteRun(q, Recorded)], intents := s.intents + {q},
         log := if q in s.intents then s.log else s.log + [Intended(q)])
  }

  function CheckRun(s: State, run: nat): State {
    if !InPhase(s, run, Recorded) then s
    else match CheckExpected(s.files, s.runs[run].request)
      case Unusable => At(s, run, Over(false))
      case AlreadyApplied => At(s, run, Over(true))
      case MayReplace => At(s, run, Checked)
  }

  function ConsumeRun(s: State, run: nat, now: int): State {
    if !InPhase(s, run, Checked) then s
    else match FirstMatch(s.tickets, s.runs[run].request, now)
      case None => At(s, run, Over(false))
      case Some(t) => At(s, run, Paid).(tickets := WithUse(s.tickets, t), log := s.log + [Consumed(run, t)])
  }

  function ConfirmRun(s: State, run: nat): State {
    if !InPhase(s, run, Paid) then s
    else match CheckExpected(s.files, s.runs[run].request)
      case Unusable => At(s, run, Over(false))
      case AlreadyApplied => At(s, run, Over(true))
      case MayReplace => At(s, run, Cleared).(log := s.log + [Confirmed(run)])
  }

  /** The rename looks at no content any more; it only needs a place for the file. */
  function RenameRun(s: State, run: nat): State {
    if !InPhase(s, run, Cleared) then s
    else
      var q := s.runs[run].request;
      if !Readable(s.files, q.path) then At(s, run, Over(false))
      else
        At(s, run, Over(true)).(files := s.files[q.path := q.content],
                                log := s.log + [Replaced(run, q, ContentOf(s.files, q.path))])
  }

  function Act(s: State, a: Action): State {
    match a
    case Approve(q, expires) =>
      s.(tickets := s.tickets + [Ticket(q, expires, 1)], log := s.log + [Granted(|s.tickets|)])
    case Begin(run, q) => BeginRun(s, run, q)
    case FirstCheck(run) => CheckRun(s, run)
    case Consume(run, now) => ConsumeRun(s, run, now)
    case SecondCheck(run) => ConfirmRun(s, run)
    case Rename(run) => RenameRun(s, run)
    case GiveUp(run) => if run in s.runs && !s.runs[run].phase.Over? then At(s, run, Over(false)) else s
    case Edit(files) => s.(files := files, log := s.log + [EditedOutside(files)])
  }

  function Start(files: Files): State {
    State(files, [], {}, map[], [])
  }

  /** The states before, between and after a sequence of actions by any number of runs. */
  datatype History = History(states: seq<State>, actions: seq<Action>)

  ghost predicate IsStep(h: History, i: nat) {
    i + 1 < |h.states| && i < |h.actions| && h.states[i + 1] == Act(h.states[i], h.actions[i])
  }

  ghost predicate IsHistory(files: Files, h: History) {
    && |h.states| == |h.actions| + 1 && h.states[0] == Start(files)
    && forall i :: 0 <= i < |h.actions| ==> IsStep(h, i)
  }

  /** Every sequence of actions has its history. */
  lemma {:induction false} EverySequenceHappens(files: Files, actions: seq<Action>) returns (h: History)
    ensures IsHistory(files, h) && h.actions == actions
  {
    hide Act;
    if actions == [] {
      h := History([Start(files)], []);
    } else {
      var last := |actions| - 1;
      var before := EverySequenceHappens(files, actions[..last]);
      h := History(before.states + [Act(before.states[last], actions[last])], actions);
      forall i | 0 <= i < |actions| ensures IsStep(h, i) {
        if i < last { assert IsStep(before, i) && actions[..last][i] == actions[i]; }
      }
    }
  }

  // The ledger.

  function UsesOf(log: seq<Entry>, t: nat): nat {
    if log == [] then 0
    else UsesOf(log[..|log| - 1], t) + if log[|log| - 1].Consumed? && log[|log| - 1].ticket == t then 1 else 0
  }

  function GrantsOf(log: seq<Entry>, t: nat): nat {
    if log == [] then 0
    else GrantsOf(log[..|log| - 1], t) + if log[|log| - 1] == Granted(t) then 1 else 0
  }

  /** The files as the log tells them. */
  function Replayed(files: Files, log: seq<Entry>): Files {
    if log == [] then files
    else
      var before := Replayed(files, log[..|log| - 1]);
      match log[|log| - 1]
      case Replaced(_, q, _) => before[q.path := q.content]
      case EditedOutside(edited) => edited
      case _ => before
  }

  lemma LogGrows(files: Files, log: seq<Entry>, e: Entry, t: nat)
    ensures UsesOf(log + [e], t) == UsesOf(log, t) + if e.Consumed? && e.ticket == t then 1 else 0
    ensures GrantsOf(log + [e], t) == GrantsOf(log, t) + if e == Granted(t) then 1 else 0
    ensures Replayed(files, log + [e]) ==
      match e {
        case Replaced(_, q, _) => Replayed(files, log)[q.path := q.content]
        case EditedOutside(f) => f
        case _ => Replayed(files, log)
      }
  {
    assert (log + [e])[..|log + [e]| - 1] == log;
  }

  /** Every ticket was granted once, for one use, left or consumed; nothing else was granted or consumed. */
  ghost predicate TicketsBalance(s: State) {
    forall t: nat ::
      && GrantsOf(s.log, t) == (if t < |s.tickets| then 1 else 0)
      && GrantsOf(s.log, t) == UsesOf(s.log, t) + (if t < |s.tickets| then s.tickets[t].uses else 0)
  }

  ghost predicate FilesMatchLog(files: Files, s: State) {
    Replayed(files, s.log) == s.files
  }

  predicate IsConsumption(log: seq<Entry>, i: int, run: nat) {
    0 <= i < |log| && log[i].Consumed? && log[i].run == run
  }

  predicate IsConfirmation(log: seq<Entry>, i: int, run: nat) {
    0 <= i < |log| && log[i].Confirmed? && log[i].run == run
  }

  predicate IsReplacement(log: seq<Entry>, i: int, run: nat) {
    0 <= i < |log| && log[i].Replaced? && log[i].run == run
  }

  predicate IsIntent(log: seq<Entry>, i: int, q: WriteRequest) {
    0 <= i < |log| && log[i] == Intended(q)
  }

  /** The consumption at c is a use of a matching ticket, after the intent was recorded. */
  ghost predicate BackedUse(s: State, c: int) {
    && 0 <= c < |s.log| && s.log[c].Consumed? && s.log[c].run in s.runs && s.log[c].ticket < |s.tickets|
    && s.tickets[s.log[c].ticket].request == s.runs[s.log[c].run].request
    && exists a :: a < c && IsIntent(s.log, a, s.runs[s.log[c].run].request)
  }

  /** The second check at m came after a consumption of its run and saw the expected content. */
  ghost predicate BackedConfirmation(files: Files, s: State, m: int) {
    && 0 <= m < |s.log| && s.log[m].Confirmed? && s.log[m].run in s.runs
    && s.runs[s.log[m].run].request.expected
       == HashOf(ContentOf(Replayed(files, s.log[..m]), s.runs[s.log[m].run].request.path))
    && exists c :: c < m && IsConsumption(s.log, c, s.log[m].run)
  }

  /** The replacement at p came after a second check of its run and records the content it overwrote. */
  ghost predicate BackedReplacement(files: Files, s: State, p: int) {
    && 0 <= p < |s.log| && s.log[p].Replaced? && s.log[p].run in s.runs
    && s.log[p].request == s.runs[s.log[p].run].request
    && s.log[p].before == ContentOf(Replayed(files, s.log[..p]), s.log[p].request.path)
    && exists m :: m < p && IsConfirmation(s.log, m, s.log[p].run)
  }

  ghost predicate EntriesAreBacked(files: Files, s: State) {
    && (forall c :: 0 <= c < |s.log| && s.log[c].Consumed? ==> BackedUse(s, c))
    && (forall m :: 0 <= m < |s.log| && s.log[m].Confirmed? ==> BackedConfirmation(files, s, m))
    && (forall p :: 0 <= p < |s.log| && s.log[p].Replaced? ==> BackedReplacement(files, s, p))
  }

  ghost predicate OncePerRun(s: State) {
    && (forall r, i, j :: IsConsumption(s.log, i, r) && IsConsumption(s.log, j, r) ==> i == j)
    && (forall r, i, j :: IsConfirmation(s.log, i, r) && IsConfirmation(s.log, j, r) ==> i == j)
    && (forall r, i, j :: IsReplacement(s.log, i, r) && IsReplacement(s.log, j, r) ==> i == j)
  }

  predicate BeforePayment(phase: Phase) {
    phase in {Recorded, Checked}
  }

  predicate BeforeClearance(phase: Phase) {
    phase in {Recorded, Checked, Paid}
  }

  ghost predicate RunsMatchLog(s: State) {
    && (forall q :: q in s.intents ==> exists a :: IsIntent(s.log, a, q))
    && (forall r :: r in s.runs ==> s.runs[r].request in s.intents)
    && (forall r, i :: IsConsumption(s.log, i, r) ==> r in s.runs && !BeforePayment(s.runs[r].phase))
    && (forall r, i :: IsConfirmation(s.log, i, r) ==> r in s.runs && !BeforeClearance(s.runs[r].phase))
    && (forall r, i :: IsReplacement(s.log, i, r) ==> r in s.runs && s.runs[r].phase.Over?)
    && (forall r :: InPhase(s, r, Paid) ==> exists c :: IsConsumption(s.log, c, r))
    && (forall r :: InPhase(s, r, Cleared) ==> exists m :: IsConfirmation(s.log, m, r))
  }

  ghost predicate Ledger(files: Files, s: State) {
    && TicketsBalance(s) && FilesMatchLog(files, s) && EntriesAreBacked(files, s) && OncePerRun(s) && RunsMatchLog(s)
  }

  // Every action keeps the ledger.

  ghost predicate Grows(s: State, v: State) {
    && s.log <= v.log
    && (forall r :: r in s.runs ==> r in v.runs && v.runs[r].request == s.runs[r].request)
    && |s.tickets| <= |v.tickets| && (forall t :: 0 <= t < |s.tickets| ==> v.tickets[t].request == s.tickets[t].request)
  }

  /** Phases only move on. */
  ghost predicate PhasesMoveOn(s: State, v: State) {
    forall r :: r in s.runs ==> (
      && r in v.runs
      && (!BeforePayment(s.runs[r].phase) ==> !BeforePayment(v.runs[r].phase))
      && (!BeforeClearance(s.runs[r].phase) ==> !BeforeClearance(v.runs[r].phase))
      && (s.runs[r].phase.Over? ==> v.runs[r].phase.Over?))
  }

  lemma OldUsesStayBacked(files: Files, s: State, v: State, c: int)
    requires Grows(s, v) && BackedUse(s, c)
    ensures BackedUse(v, c)
  {
    assert s.log[c] == v.log[c];
    var a :| a < c && IsIntent(s.log, a, s.runs[s.log[c].run].request);
    assert IsIntent(v.log, a, v.runs[v.log[c].run].request);
  }

  lemma OldConfirmationsStayBacked(files: Files, s: State, v: State, m: int)
    requires Grows(s, v) && BackedConfirmation(files, s, m)
    ensures BackedConfirmation(files, v, m)
  {
    hide Replayed;
    assert s.log[m] == v.log[m] && v.log[..m] == s.log[..m];
    var c :| c < m && IsConsumption(s.log, c, s.log[m].run);
    assert IsConsumption(v.log, c, v.log[m].run);
  }

  lemma OldReplacementsStayBacked(files: Files, s: State, v: State, p: int)
    requires Grows(s, v) && BackedReplacement(files, s, p)
    ensures BackedReplacement(files, v, p)
  {
    hide Replayed;
    assert s.log[p] == v.log[p] && v.log[..p] == s.log[..p];
    var m :| m < p && IsConfirmation(s.log, m, s.log[p].run);
    assert IsConfirmation(v.log, m, v.log[p].run);
  }

  lemma OldEntriesStayBacked(files: Files, s: State, v: State)
    requires Grows(s, v) && EntriesAreBacked(files, s)
    ensures forall c :: 0 <= c < |s.log| && v.log[c].Consumed? ==> BackedUse(v, c)
    ensures forall m :: 0 <= m < |s.log| && v.log[m].Confirmed? ==> BackedConfirmation(files, v, m)
    ensures forall p :: 0 <= p < |s.log| && v.log[p].Replaced? ==> BackedReplacement(files, v, p)
  {
    hide BackedUse, BackedConfirmation, BackedReplacement;
    forall i | 0 <= i < |s.log|
      ensures v.log[i].Consumed? ==> BackedUse(v, i)
      ensures v.log[i].Confirmed? ==> BackedConfirmation(files, v, i)
      ensures v.log[i].Replaced? ==> BackedReplacement(files, v, i)
    {
      assert s.log[i] == v.log[i];
      if v.log[i].Consumed? { OldUsesStayBacked(files, s, v, i); }
      if v.log[i].Confirmed? { OldConfirmationsStayBacked(files, s, v, i); }
      if v.log[i].Replaced? { OldReplacementsStayBacked(files, s, v, i); }
    }
  }

  lemma EntriesStay(a: seq<Entry>, b: seq<Entry>)
    requires a <= b
    ensures forall i, r :: IsConsumption(a, i, r) ==> IsConsumption(b, i, r)
    ensures forall i, r :: IsConfirmation(a, i, r) ==> IsConfirmation(b, i, r)
    ensures forall i, r :: IsReplacement(a, i, r) ==> IsReplacement(b, i, r)
    ensures forall i, q :: IsIntent(a, i, q) ==> IsIntent(b, i, q)
    ensures forall i, r :: IsConsumption(b, i, r) && i < |a| ==> IsConsumption(a, i, r)
    ensures forall i, r :: IsConfirmation(b, i, r) && i < |a| ==> IsConfirmation(a, i, r)
    ensures forall i, r :: IsReplacement(b, i, r) && i < |a| ==> IsReplacement(a, i, r)
  {
  }

  /** Steps that only move a run on. */
  lemma PhaseStepKeepsLedger(files: Files, s: State, v: State)
    requires Ledger(files, s) && v == s.(runs := v.runs) && Grows(s, v) && PhasesMoveOn(s, v)
    requires forall r :: r in v.runs ==> v.runs[r].request in s.intents
    requires forall r :: InPhase(v, r, Paid) ==> InPhase(s, r, Paid)
    requires forall r :: InPhase(v, r, Cleared) ==> InPhase(s, r, Cleared)
    ensures Ledger(files, v)
  {
    assert TicketsBalance(v) && OncePerRun(v);
    hide Replayed, BackedUse, BackedConfirmation, BackedReplacement, TicketsBalance, OncePerRun;
    OldEntriesStayBacked(files, s, v);
  }

  lemma PhaseChangeGrows(s: State, run: nat, phase: Phase)
    requires run in s.runs && !s.runs[run].phase.Over?
    requires phase.Over? || (phase.Checked? && s.runs[run].phase.Recorded?)
    ensures Grows(s, At(s, run, phase)) && PhasesMoveOn(s, At(s, run, phase))
  {
  }

  lemma PhaseChangeKeepsLedger(files: Files, s: State, run: nat, phase: Phase)
    requires Ledger(files, s) && run in s.runs && !s.runs[run].phase.Over?
    requires phase.Over? || (phase.Checked? && s.runs[run].phase.Recorded?)
    ensures Ledger(files, At(s, run, phase))
  {
    hide TicketsBalance, FilesMatchLog, EntriesAreBacked, OncePerRun, Grows, PhasesMoveOn;
    PhaseChangeGrows(s, run, phase);
    PhaseStepKeepsLedger(files, s, At(s, run, phase));
  }

  lemma BeginKeepsLedger(files: Files, s: State, run: nat, q: WriteRequest)
    requires Ledger(files, s)
    ensures Ledger(files, BeginRun(s, run, q))
  {
    hide TicketsBalance, FilesMatchLog, EntriesAreBacked, OncePerRun;
    var v := BeginRun(s, run, q);
    if run !in s.runs {
      if q in s.intents {
        assert v.intents == s.intents;
        PhaseStepKeepsLedger(files, s, v);
      } else {
        IntentKeepsLedger(files, s, v, q);
      }
    }
  }

  lemma BalanceUnchanged(files: Files, s: State, v: State, e: Entry)
    requires TicketsBalance(s) && v.log == s.log + [e] && v.tickets == s.tickets && !e.Granted? && !e.Consumed?
    ensures TicketsBalance(v)
  {
    forall t: nat ensures GrantsOf(v.log, t) == GrantsOf(s.log, t) && UsesOf(v.log, t) == UsesOf(s.log, t) {
      LogGrows(files, s.log, e, t);
    }
  }

  // Actions that append one entry to the log.

  ghost predicate Appends(s: State, v: State, e: Entry) {
    Grows(s, v) && PhasesMoveOn(s, v) && v.log == s.log + [e]
  }

  lemma AppendKeepsEntries(files: Files, s: State, v: State, e: Entry)
    requires Appends(s, v, e) && EntriesAreBacked(files, s)
    requires e.Consumed? ==> BackedUse(v, |s.log|)
    requires e.Confirmed? ==> BackedConfirmation(files, v, |s.log|)
    requires e.Replaced? ==> BackedReplacement(files, v, |s.log|)
    ensures EntriesAreBacked(files, v)
  {
    hide BackedUse, BackedConfirmation, BackedReplacement, Grows, PhasesMoveOn;
    assert Grows(s, v);
    OldEntriesStayBacked(files, s, v);
  }

  lemma AppendKeepsOnce(s: State, v: State, e: Entry)
    requires Appends(s, v, e) && OncePerRun(s)
    requires e.Consumed? ==> forall i :: !IsConsumption(s.log, i, e.run)
    requires e.Confirmed? ==> forall i :: !IsConfirmation(s.log, i, e.run)
    requires e.Replaced? ==> forall i :: !IsReplacement(s.log, i, e.run)
    ensures OncePerRun(v)
  {
    hide Grows, PhasesMoveOn;
    EntriesStay(s.log, v.log);
  }

  lemma AppendKeepsRuns(s: State, v: State, e: Entry)
    requires Appends(s, v, e) && RunsMatchLog(s)
    requires v.intents == if e.Intended? then s.intents + {e.request} else s.intents
    requires forall r :: r in v.runs ==> v.runs[r].request in v.intents
    requires e.Consumed? ==> e.run in v.runs && !BeforePayment(v.runs[e.run].phase)
    requires e.Confirmed? ==> e.run in v.runs && !BeforeClearance(v.runs[e.run].phase)
    requires e.Replaced? ==> e.run in v.runs && v.runs[e.run].phase.Over?
    requires forall r :: InPhase(v, r, Paid) ==> InPhase(s, r, Paid) || (e.Consumed? && e.run == r)
    requires forall r :: InPhase(v, r, Cleared) ==> InPhase(s, r, Cleared) || (e.Confirmed? && e.run == r)
    ensures RunsMatchLog(v)
  {
    EntriesStay(s.log, v.log);
    assert e.Intended? ==> IsIntent(v.log, |s.log|, e.request);
    assert e.Consumed? ==> IsConsumption(v.log, |s.log|, e.run);
    assert e.Confirmed? ==> IsConfirmation(v.log, |s.log|, e.run);
  }

  lemma IntentKeepsLedger(files: Files, s: State, v: State, q: WriteRequest)
    requires Ledger(files, s) && Grows(s, v) && PhasesMoveOn(s, v)
    requires v == s.(runs := v.runs, intents := s.intents + {q}, log := s.log + [Intended(q)])
    requires forall r :: r in v.runs ==> v.runs[r].request in v.intents
    requires forall r :: InPhase(v, r, Paid) ==> InPhase(s, r, Paid)
    requires forall r :: InPhase(v, r, Cleared) ==> InPhase(s, r, Cleared)
    ensures Ledger(files, v)
  {
    hide Replayed, EntriesAreBacked, TicketsBalance, OncePerRun, RunsMatchLog, Grows, PhasesMoveOn;
    AppendKeepsEntries(files, s, v, Intended(q));
    AppendKeepsOnce(s, v, Intended(q));
    AppendKeepsRuns(s, v, Intended(q));
    LogGrows(files, s.log, Intended(q), 0);
    BalanceUnchanged(files, s, v, Intended(q));
  }

  lemma ApproveKeepsLedger(files: Files, s: State, q: WriteRequest, expires: Option<int>)
    requires Ledger(files, s)
    ensures Ledger(files, Act(s, Approve(q, expires)))
  {
    hide Replayed, EntriesAreBacked, TicketsBalance, OncePerRun;
    var e := Granted(|s.tickets|);
    var v := Act(s, Approve(q, expires));
    AppendKeepsEntries(files, s, v, e);
    AppendKeepsOnce(s, v, e);
    AppendKeepsRuns(s, v, e);
    LogGrows(files, s.log, e, 0);
    GrantBalances(files, s, q, expires);
  }

  lemma GrantBalances(files: Files, s: State, q: WriteRequest, expires: Option<int>)
    requires TicketsBalance(s)
    ensures TicketsBalance(Act(s, Approve(q, expires)))
  {
    var v := Act(s, Approve(q, expires));
    forall t: nat
      ensures GrantsOf(v.log, t) == (if t < |v.tickets| then 1 else 0)
      ensures GrantsOf(v.log, t) == UsesOf(v.log, t) + (if t < |v.tickets| then v.tickets[t].uses else 0)
    {
      LogGrows(files, s.log, Granted(|s.tickets|), t);
    }
  }

  lemma EditKeepsLedger(files: Files, s: State, edited: Files)
    requires Ledger(files, s)
    ensures Ledger(files, Act(s, Edit(edited)))
  {
    hide Replayed, EntriesAreBacked, TicketsBalance, OncePerRun;
    var e := EditedOutside(edited);
    var v := Act(s, Edit(edited));
    AppendKeepsEntries(files, s, v, e);
    AppendKeepsOnce(s, v, e);
    AppendKeepsRuns(s, v, e);
    LogGrows(files, s.log, e, 0);
    BalanceUnchanged(files, s, v, e);
  }

  lemma UseBalances(files: Files, s: State, v: State, run: nat, t: nat)
    requires TicketsBalance(s) && t < |s.tickets| && s.tickets[t].uses > 0
    requires v.tickets == WithUse(s.tickets, t) && v.log == s.log + [Consumed(run, t)]
    ensures TicketsBalance(v)
  {
    forall k: nat
      ensures GrantsOf(v.log, k) == (if k < |v.tickets| then 1 else 0)
      ensures GrantsOf(v.log, k) == UsesOf(v.log, k) + (if k < |v.tickets| then v.tickets[k].uses else 0)
    {
      LogGrows(files, s.log, Consumed(run, t), k);
    }
  }

  lemma UseIsBacked(s: State, v: State, run: nat, t: nat)
    requires RunsMatchLog(s) && InPhase(s, run, Checked) && t < |v.tickets|
    requires v.log == s.log + [Consumed(run, t)] && run in v.runs && v.runs[run].request == s.runs[run].request
    requires v.tickets[t].request == s.runs[run].request
    ensures BackedUse(v, |s.log|)
    ensures forall i :: !IsConsumption(s.log, i, run)
  {
    EntriesStay(s.log, v.log);
    var q := s.runs[run].request;
    var a :| IsIntent(s.log, a, q);
    assert IsIntent(v.log, a, q);
  }

  lemma ConsumeKeepsLedger(files: Files, s: State, run: nat, t: nat)
    requires Ledger(files, s) && InPhase(s, run, Checked)
    requires t < |s.tickets| && s.tickets[t].uses > 0 && s.tickets[t].request == s.runs[run].request
    ensures Ledger(files, At(s, run, Paid).(tickets := WithUse(s.tickets, t), log := s.log + [Consumed(run, t)]))
  {
    hide Replayed, EntriesAreBacked, TicketsBalance, OncePerRun, BackedUse, BackedReplacement;
    var e := Consumed(run, t);
    var v := At(s, run, Paid).(tickets := WithUse(s.tickets, t), log := s.log + [e]);
    UseIsBacked(s, v, run, t);
    AppendKeepsEntries(files, s, v, e);
    AppendKeepsOnce(s, v, e);
    AppendKeepsRuns(s, v, e);
    LogGrows(files, s.log, e, 0);
    UseBalances(files, s, v, run, t);
  }

  lemma ConfirmationIsBacked(files: Files, s: State, run: nat)
    requires Ledger(files, s) && InPhase(s, run, Paid) && CheckExpected(s.files, s.runs[run].request).MayReplace?
    ensures BackedConfirmation(files, ConfirmRun(s, run), |s.log|)
    ensures forall i :: !IsConfirmation(s.log, i, run)
  {
    hide Replayed, EntriesAreBacked, TicketsBalance, OncePerRun, Readable;
    var v := ConfirmRun(s, run);
    assert v.log[..|s.log|] == s.log;
    var c :| IsConsumption(s.log, c, run);
    assert IsConsumption(v.log, c, run);
  }

  /** A run that moves on and writes one entry. */
  lemma MovingRunAppends(s: State, v: State, run: nat, phase: Phase, e: Entry)
    requires run in s.runs && !s.runs[run].phase.Over? && v.runs == s.runs[run := s.runs[run].(phase := phase)]
    requires phase.Over? || (phase.Cleared? && s.runs[run].phase.Paid?)
    requires v.tickets == s.tickets && v.log == s.log + [e]
    ensures Appends(s, v, e)
  {
  }

  lemma ConfirmKeepsLedger(files: Files, s: State, run: nat)
    requires Ledger(files, s) && InPhase(s, run, Paid) && CheckExpected(s.files, s.runs[run].request).MayReplace?
    ensures Ledger(files, ConfirmRun(s, run))
  {
    hide Replayed, EntriesAreBacked, TicketsBalance, OncePerRun, BackedUse, BackedConfirmation, BackedReplacement,
         CheckExpected, Appends;
    var v := ConfirmRun(s, run);
    var e := Confirmed(run);
    ConfirmationIsBacked(files, s, run);
    MovingRunAppends(s, v, run, Cleared, e);
    AppendKeepsEntries(files, s, v, e);
    AppendKeepsOnce(s, v, e);
    AppendKeepsRuns(s, v, e);
    LogGrows(files, s.log, e, 0);
    BalanceUnchanged(files, s, v, e);
  }

  lemma ReplacementIsBacked(files: Files, s: State, run: nat)
    requires Ledger(files, s) && InPhase(s, run, Cleared) && Readable(s.files, s.runs[run].request.path)
    ensures BackedReplacement(files, RenameRun(s, run), |s.log|)
    ensures forall i :: !IsReplacement(s.log, i, run)
  {
    hide Replayed, EntriesAreBacked, TicketsBalance, OncePerRun, Readable;
    var v := RenameRun(s, run);
    assert v.log[..|s.log|] == s.log;
    var m :| IsConfirmation(s.log, m, run);
    assert IsConfirmation(v.log, m, run);
  }

  lemma RenameKeepsLedger(files: Files, s: State, run: nat)
    requires Ledger(files, s) && InPhase(s, run, Cleared) && Readable(s.files, s.runs[run].request.path)
    ensures Ledger(files, RenameRun(s, run))
  {
    hide Replayed, EntriesAreBacked, TicketsBalance, OncePerRun, BackedUse, BackedConfirmation, BackedReplacement,
         Readable, ContentOf, Appends;
    var v := RenameRun(s, run);
    var q := s.runs[run].request;
    var e := Replaced(run, q, ContentOf(s.files, q.path));
    ReplacementIsBacked(files, s, run);
    MovingRunAppends(s, v, run, Over(true), e);
    AppendKeepsEntries(files, s, v, e);
    AppendKeepsOnce(s, v, e);
    AppendKeepsRuns(s, v, e);
    LogGrows(files, s.log, e, 0);
    BalanceUnchanged(files, s, v, e);
  }

  lemma ActKeepsLedger(files: Files, s: State, a: Action)
    requires Ledger(files, s)
    ensures Ledger(files, Act(s, a))
  {
    hide Ledger, CheckExpected, Readable, At, FirstMatch;
    match a
    case Approve(q, expires) => ApproveKeepsLedger(files, s, q, expires);
    case Begin(run, q) => BeginKeepsLedger(files, s, run, q);
    case Edit(edited) => EditKeepsLedger(files, s, edited);
    case GiveUp(run) =>
      if run in s.runs && !s.runs[run].phase.Over? { PhaseChangeKeepsLedger(files, s, run, Over(false)); }
    case FirstCheck(run) =>
      if InPhase(s, run, Recorded) {
        PhaseChangeKeepsLedger(files, s, run, Over(false));
        PhaseChangeKeepsLedger(files, s, run, Over(true));
        PhaseChangeKeepsLedger(files, s, run, Checked);
      }
    case Consume(run, now) =>
      if InPhase(s, run, Checked) {
        PhaseChangeKeepsLedger(files, s, run, Over(false));
        var m := FirstMatch(s.tickets, s.runs[run].request, now);
        if m.Some? { ConsumeKeepsLedger(files, s, run, m.value); }
      }
    case SecondCheck(run) =>
      if InPhase(s, run, Paid) {
        PhaseChangeKeepsLedger(files, s, run, Over(false));
        PhaseChangeKeepsLedger(files, s, run, Over(true));
        if CheckExpected(s.files, s.runs[run].request).MayReplace? { ConfirmKeepsLedger(files, s, run); }
      }
    case Rename(run) =>
      if InPhase(s, run, Cleared) {
        PhaseChangeKeepsLedger(files, s, run, Over(false));
        if Readable(s.files, s.runs[run].request.path) { RenameKeepsLedger(files, s, run); }
      }
  }

  lemma LedgerAtStart(files: Files)
    ensures Ledger(files, Start(files))
  {
  }

  /** The ledger holds at every point of every history. */
  lemma {:induction false} LedgerHolds(files: Files, h: History, n: nat)
    requires IsHistory(files, h) && n <= |h.actions|
    ensures Ledger(files, h.states[n])
  {
    hide Act, Ledger;
    if n == 0 {
      LedgerAtStart(files);
    } else {
      LedgerHolds(files, h, n - 1);
      assert IsStep(h, n - 1);
      ActKeepsLedger(files, h.states[n - 1], h.actions[n - 1]);
    }
  }

  // The promises, over every interleaving.

  /** Each granted use is left or was consumed, and no ticket is used twice. */
  lemma TicketsAreConserved(files: Files, h: History, n: nat, t: nat)
    requires IsHistory(files, h) && n <= |h.actions|
    ensures var s := h.states[n];
      && GrantsOf(s.log, t) == UsesOf(s.log, t) + (if t < |s.tickets| then s.tickets[t].uses else 0)
      && UsesOf(s.log, t) <= 1
  {
    hide FilesMatchLog, EntriesAreBacked, OncePerRun, RunsMatchLog, GrantsOf, UsesOf, IsStep;
    LedgerHolds(files, h, n);
  }

  /** The replacement at p follows a second check of its run, a consumption of a ticket for the same parameters
      by its run, and their intent, in this order from the back; the second check saw the expected content. */
  ghost predicate PaidFor(files: Files, s: State, p: nat, a: nat, c: nat, m: nat) {
    && a < c < m < p < |s.log| && s.log[p].Replaced? && s.log[a] == Intended(s.log[p].request)
    && s.log[c].Consumed? && s.log[c].run == s.log[p].run
    && s.log[c].ticket < |s.tickets| && s.tickets[s.log[c].ticket].request == s.log[p].request
    && s.log[m] == Confirmed(s.log[p].run)
    && s.log[p].request.expected == HashOf(ContentOf(Replayed(files, s.log[..m]), s.log[p].request.path))
  }

  /** Every replacement of a file is paid for. */
  lemma ReplacementsArePaidFor(files: Files, h: History, n: nat, p: nat) returns (a: nat, c: nat, m: nat)
    requires IsHistory(files, h) && n <= |h.actions| && p < |h.states[n].log| && h.states[n].log[p].Replaced?
    ensures PaidFor(files, h.states[n], p, a, c, m)
  {
    hide TicketsBalance, FilesMatchLog, OncePerRun, RunsMatchLog, Replayed, IsStep;
    LedgerHolds(files, h, n);
    var s := h.states[n];
    assert BackedReplacement(files, s, p);
    m :| m < p && IsConfirmation(s.log, m, s.log[p].run);
    assert BackedConfirmation(files, s, m);
    c :| c < m && IsConsumption(s.log, c, s.log[p].run);
    assert BackedUse(s, c);
    a :| a < c && IsIntent(s.log, a, s.runs[s.log[c].run].request);
  }

  /** What some entries make of the content at a path: the last replacement of it, or outside edit, decides. */
  function NetContent(before: string, entries: seq<Entry>, path: Path): string {
    if entries == [] then before
    else
      var earlier := NetContent(before, entries[..|entries| - 1], path);
      match entries[|entries| - 1]
      case Replaced(_, q, _) => if q.path == path then q.content else earlier
      case EditedOutside(edited) => ContentOf(edited, path)
      case _ => earlier
  }

  lemma {:induction false} EntriesDecideContent(files: Files, log: seq<Entry>, m: nat, p: nat, path: Path)
    requires m <= p <= |log|
    ensures ContentOf(Replayed(files, log[..p]), path)
      == NetContent(ContentOf(Replayed(files, log[..m]), path), log[m..p], path)
  {
    if m < p {
      EntriesDecideContent(files, log, m, p - 1, path);
      assert log[..p][..p - 1] == log[..p - 1] && log[m..p][..p - 1 - m] == log[m..p - 1];
    } else {
      assert log[m..p] == [];
    }
  }

  /** A replacement overwrites content with the expected hash exactly when what happened to its path between its
      second check and its rename amounts to nothing. */
  lemma ReplacementMeetsExpectationIff(files: Files, h: History, n: nat, p: nat) returns (m: nat)
    requires IsHistory(files, h) && n <= |h.actions| && p < |h.states[n].log| && h.states[n].log[p].Replaced?
    ensures var log := h.states[n].log;
      var q := log[p].request;
      && m < p && log[m] == Confirmed(log[p].run) && (forall i :: IsConfirmation(log, i, log[p].run) ==> i == m)
      && var checked := ContentOf(Replayed(files, log[..m]), q.path);
         && q.expected == HashOf(checked)
         && log[p].before == NetContent(checked, log[m..p], q.path)
         && (q.expected == HashOf(log[p].before) <==> NetContent(checked, log[m..p], q.path) == checked)
  {
    hide TicketsBalance, FilesMatchLog, RunsMatchLog, Replayed, NetContent, IsStep;
    var a, c, k := ReplacementsArePaidFor(files, h, n, p);
    m := k;
    LedgerHolds(files, h, n);
    var log := h.states[n].log;
    assert BackedReplacement(files, h.states[n], p);
    EntriesDecideContent(files, log, m, p, log[p].request.path);
    assert IsConfirmation(log, m, log[p].run);
  }

  /** Two replacements never share their consumption, and nothing but replacements and outside edits changes files. */
  lemma ReplacementsDoNotShare(files: Files, h: History, n: nat, p: nat, r: nat)
    requires IsHistory(files, h) && n <= |h.actions| && p < r < |h.states[n].log|
    ensures var s := h.states[n];
      && (s.log[p].Replaced? && s.log[r].Replaced? ==> s.log[p].run != s.log[r].run)
      && (s.log[p].Consumed? && s.log[r].Consumed? ==> s.log[p].run != s.log[r].run)
      && (s.log[p].Confirmed? && s.log[r].Confirmed? ==> s.log[p].run != s.log[r].run)
      && s.files == Replayed(files, s.log)
  {
    hide TicketsBalance, EntriesAreBacked, RunsMatchLog, Replayed, IsStep;
    LedgerHolds(files, h, n);
    var s := h.states[n];
    if s.log[p].Replaced? { assert IsReplacement(s.log, p, s.log[p].run); }
    if s.log[r].Replaced? { assert IsReplacement(s.log, r, s.log[r].run); }
    if s.log[p].Consumed? { assert IsConsumption(s.log, p, s.log[p].run); }
    if s.log[r].Consumed? { assert IsConsumption(s.log, r, s.log[r].run); }
    if s.log[p].Confirmed? { assert IsConfirmation(s.log, p, s.log[p].run); }
    if s.log[r].Confirmed? { assert IsConfirmation(s.log, r, s.log[r].run); }
  }

  // Tickets and time.

  /** A ticket that can pay at a given time: for the same parameters, with a use left, and not expired. */
  predicate CanPay(t: Ticket, q: WriteRequest, now: int) {
    && t.request == q && t.uses >= 1
    && match t.expires { case None => true case Some(end) => now < end }
  }

  /** A checked run consumes one use of the earliest ticket that can pay, and gives up exactly if there is none. */
  lemma EarliestTicketPays(s: State, run: nat, now: int)
    requires run in s.runs && s.runs[run].phase == Checked
    ensures var q, v := s.runs[run].request, ConsumeRun(s, run, now);
      && v.runs.Keys == s.runs.Keys && (forall r :: r in s.runs && r != run ==> v.runs[r] == s.runs[r])
      && v.runs[run].request == q && v.files == s.files && v.intents == s.intents
      && (v.runs[run].phase == Over(false) <==>
           !exists t :: 0 <= t < |s.tickets| && CanPay(s.tickets[t], q, now))
      && (v.runs[run].phase == Over(false) ==> v.tickets == s.tickets && v.log == s.log)
      && (v.runs[run].phase != Over(false) ==>
           && v.runs[run].phase == Paid
           && exists t: nat ::
                && t < |s.tickets| && CanPay(s.tickets[t], q, now)
                && (forall u :: 0 <= u < t ==> !CanPay(s.tickets[u], q, now))
                && v.log == s.log + [Consumed(run, t)]
                && v.tickets == s.tickets[t := s.tickets[t].(uses := s.tickets[t].uses - 1)])
  {
    var q := s.runs[run].request;
    var m := FirstMatch(s.tickets, q, now);
    FirstMatchIsEarliest(s.tickets, q, now);
    hide FirstMatch;
    if m.Some? { assert CanPay(s.tickets[m.value], q, now); }
  }

  lemma {:induction false} FirstMatchIsEarliest(tickets: seq<Ticket>, q: WriteRequest, now: int)
    ensures var m := FirstMatch(tickets, q, now);
      && (m.Some? ==>
           && m.value < |tickets| && CanPay(tickets[m.value], q, now)
           && forall u :: 0 <= u < m.value ==> !CanPay(tickets[u], q, now))
      && (m.None? ==> forall u :: 0 <= u < |tickets| ==> !CanPay(tickets[u], q, now))
  {
    if tickets != [] {
      var last := |tickets| - 1;
      FirstMatchIsEarliest(tickets[..last], q, now);
      assert forall u :: 0 <= u < last ==> tickets[..last][u] == tickets[u];
    }
  }

  /** What one action adds to log and tickets: a consumption only by a Consume whose ticket can pay, a ticket only by
      an approval, and a ticket's parameters and expiry never change. */
  lemma ActionsAdd(s: State, a: Action)
    ensures var v := Act(s, a);
      && s.log <= v.log && |v.log| <= |s.log| + 1
      && (|v.log| > |s.log| && v.log[|s.log|].Consumed? ==>
           && a.Consume? && a.run == v.log[|s.log|].run && a.run in s.runs
           && v.log[|s.log|].ticket < |s.tickets|
           && CanPay(s.tickets[v.log[|s.log|].ticket], s.runs[a.run].request, a.now))
      && |s.tickets| <= |v.tickets| <= |s.tickets| + 1
      && (forall t :: 0 <= t < |s.tickets| ==>
           v.tickets[t].request == s.tickets[t].request && v.tickets[t].expires == s.tickets[t].expires)
      && (|v.tickets| > |s.tickets| ==>
           a == Approve(v.tickets[|s.tickets|].request, v.tickets[|s.tickets|].expires))
  {
    hide FirstMatch, CheckExpected, Readable;
    if a.Consume? && a.run in s.runs { FirstMatchIsEarliest(s.tickets, s.runs[a.run].request, a.now); }
  }

  /** In every history a consumption was an action at a time before the expiry of its ticket, if it has one. */
  lemma {:induction false} ConsumptionsAreInTime(files: Files, h: History, n: nat, c: nat) returns (i: nat, now: int)
    requires IsHistory(files, h) && n <= |h.actions| && c < |h.states[n].log| && h.states[n].log[c].Consumed?
    ensures i < n && h.actions[i] == Consume(h.states[n].log[c].run, now) && |h.states[i].log| == c
    ensures h.states[n].log[c].ticket < |h.states[n].tickets|
    ensures var expires := h.states[n].tickets[h.states[n].log[c].ticket].expires;
      expires.Some? ==> now < expires.value
  {
    hide Act;
    assert n > 0;
    assert IsStep(h, n - 1);
    ActionsAdd(h.states[n - 1], h.actions[n - 1]);
    if c < |h.states[n - 1].log| {
      i, now := ConsumptionsAreInTime(files, h, n - 1, c);
    } else {
      i, now := n - 1, h.actions[n - 1].now;
    }
  }

  /** Every ticket of a history was approved with its parameters and its expiry. */
  lemma {:induction false} TicketsWereApproved(files: Files, h: History, n: nat, t: nat) returns (i: nat)
    requires IsHistory(files, h) && n <= |h.actions| && t < |h.states[n].tickets|
    ensures i < n && h.actions[i] == Approve(h.states[n].tickets[t].request, h.states[n].tickets[t].expires)
  {
    hide Act;
    assert n > 0;
    assert IsStep(h, n - 1);
    ActionsAdd(h.states[n - 1], h.actions[n - 1]);
    if t < |h.states[n - 1].tickets| { i := TicketsWereApproved(files, h, n - 1, t); } else { i := n - 1; }
  }
}
