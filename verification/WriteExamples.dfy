/** Concrete inputs on which approved writes do something else than their approval suggests: of two runs that are paid
    for and pass their second checks, the one that renames last replaces what the other wrote; a batch of a file and
    a file below it is accepted and fails half-way; an accepted empty proposal for an absent file leaves no file. The
    exact conditions are in GuardedWrites and WriteBatch. */
module WriteExamples {
  import opened Strings
  import opened GuardedWrites
  import opened WriteBatch

  // Two runs between the second check and the rename.

  const PATH: Path := ["f"]
  const FILES: Files := map[PATH := "h"]

  /** Both requests were made against the same content of the same file. */
  const FIRST := WriteRequest("s", PATH, "a", HashOf("h"))
  const SECOND := WriteRequest("s", PATH, "b", HashOf("h"))

  const OPENING := [Granted(0), Granted(1), Intended(FIRST), Intended(SECOND)]

  lemma Extend(h: History, a: Action, next: State) returns (longer: History)
    requires IsHistory(FILES, h) && next == Act(h.states[|h.actions|], a)
    ensures IsHistory(FILES, longer) && longer.actions == h.actions + [a] && longer.states[|longer.actions|] == next
  {
    hide Act;
    longer := History(h.states + [next], h.actions + [a]);
    forall i | 0 <= i < |longer.actions| ensures IsStep(longer, i) {
      if i < |h.actions| { assert IsStep(h, i); }
    }
  }

  lemma FirstOfTwo(first: nat, second: nat)
    ensures var tickets := [Ticket(FIRST, None, first), Ticket(SECOND, None, second)];
      && (first > 0 ==> FirstMatch(tickets, FIRST, 0) == Some(0))
      && (second > 0 ==> FirstMatch(tickets, SECOND, 0) == Some(1))
  {
    var tickets := [Ticket(FIRST, None, first), Ticket(SECOND, None, second)];
    assert FIRST != SECOND;
    var a, b := FirstMatch(tickets, FIRST, 0), FirstMatch(tickets, SECOND, 0);
    assert first > 0 ==> Matches(tickets[0], FIRST, 0);
    assert second > 0 ==> Matches(tickets[1], SECOND, 0);
  }

  /** Both runs get their intents, tickets and first checks. */
  lemma TwoRunsBegin() returns (h: History, s: State)
    ensures IsHistory(FILES, h) && h.states[|h.actions|] == s
    ensures s == State(FILES, [Ticket(FIRST, None, 1), Ticket(SECOND, None, 1)], {FIRST, SECOND},
                       map[0 := WriteRun(FIRST, Checked), 1 := WriteRun(SECOND, Checked)], OPENING)
  {
    h, s := History([Start(FILES)], []), Start(FILES);
    s := Act(s, Approve(FIRST, None));
    h := Extend(h, Approve(FIRST, None), s);
    s := Act(s, Approve(SECOND, None));
    h := Extend(h, Approve(SECOND, None), s);
    s := Act(s, Begin(0, FIRST));
    h := Extend(h, Begin(0, FIRST), s);
    s := Act(s, Begin(1, SECOND));
    h := Extend(h, Begin(1, SECOND), s);
    assert s.runs == map[0 := WriteRun(FIRST, Recorded), 1 := WriteRun(SECOND, Recorded)];
    assert CheckExpected(FILES, FIRST).MayReplace? && CheckExpected(FILES, SECOND).MayReplace?;
    s := Act(s, FirstCheck(0));
    h := Extend(h, FirstCheck(0), s);
    s := Act(s, FirstCheck(1));
    h := Extend(h, FirstCheck(1), s);
  }

  const PAID := OPENING + [Consumed(0, 0), Consumed(1, 1)]

  /** Both consume their tickets. */
  lemma TwoRunsPay() returns (h: History, s: State)
    ensures IsHistory(FILES, h) && h.states[|h.actions|] == s
    ensures s.files == FILES && s.runs == map[0 := WriteRun(FIRST, Paid), 1 := WriteRun(SECOND, Paid)] && s.log == PAID
  {
    hide FirstMatch;
    h, s := TwoRunsBegin();
    FirstOfTwo(1, 1);
    FirstOfTwo(0, 1);
    s := Act(s, Consume(0, 0));
    h := Extend(h, Consume(0, 0), s);
    assert s.tickets == [Ticket(FIRST, None, 0), Ticket(SECOND, None, 1)];
    s := Act(s, Consume(1, 0));
    h := Extend(h, Consume(1, 0), s);
  }

  /** Both pass their second checks. */
  lemma TwoRunsAreCleared() returns (h: History, s: State)
    ensures IsHistory(FILES, h) && h.states[|h.actions|] == s
    ensures s.files == FILES && s.runs == map[0 := WriteRun(FIRST, Cleared), 1 := WriteRun(SECOND, Cleared)]
    ensures s.log == PAID + [Confirmed(0), Confirmed(1)]
  {
    h, s := TwoRunsPay();
    assert CheckExpected(FILES, FIRST).MayReplace? && CheckExpected(FILES, SECOND).MayReplace?;
    hide CheckExpected;
    s := Act(s, SecondCheck(0));
    h := Extend(h, SecondCheck(0), s);
    s := Act(s, SecondCheck(1));
    h := Extend(h, SecondCheck(1), s);
  }

  /** Two approved runs against the same content of a file: the second overwrites what the first wrote, which is
      not what it was approved against. */
  lemma SecondRunOverwritesTheFirst() returns (h: History)
    ensures IsHistory(FILES, h)
    ensures var s := h.states[|h.actions|];
      && s.files == map[PATH := "b"] && |s.log| == 10 && s.log[8] == Replaced(0, FIRST, "h")
      && s.log[9] == Replaced(1, SECOND, "a") && SECOND.expected != HashOf("a")
  {
    var s: State;
    h, s := TwoRunsAreCleared();
    s := Act(s, Rename(0));
    h := Extend(h, Rename(0), s);
    assert s.files == map[PATH := "a"];
    s := Act(s, Rename(1));
    h := Extend(h, Rename(1), s);
  }

  // Batches.

  /** A new file and a new file below it pass every check of a batch, and the second write fails. */
  lemma NestedTargetsFailHalfWay(expires: Option<int>, now: int, s: State, run: nat)
    requires s.files == map[] && FreshFrom(s, run) && Live(expires, now)
    ensures var qs := [WriteRequest("s", ["a"], "x", HashOf("")), WriteRequest("s", ["a", "b"], "y", HashOf(""))];
      BatchAccepted(s.files, qs) && !WriteAll(ApproveAll(s, qs, expires), qs, now, run).1
  {
    hide WriteAll, ApproveAll;
    var qs := [WriteRequest("s", ["a"], "x", HashOf("")), WriteRequest("s", ["a", "b"], "y", HashOf(""))];
    assert |Folded(qs[0].path)| != |Folded(qs[1].path)|;
    assert Above(qs[0].path, qs[1].path);
    assert !NoConflict(s.files, qs);
    AcceptedBatchWritesFullyIff(s, qs, expires, now, run);
  }

  /** An empty proposal for an absent file succeeds and leaves no file. */
  lemma EmptyProposalLeavesNoFile()
    ensures var qs := [WriteRequest("s", ["a"], "", HashOf(""))];
      BatchAccepted(map[], qs) && AllWritten(map[], qs) == map[] && ["a"] in Overridden(map[], qs)
  {
    var qs := [WriteRequest("s", ["a"], "", HashOf(""))];
    assert qs[1..] == [];
    assert TargetFits(map[], qs[0]);
  }
}
