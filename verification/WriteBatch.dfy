/** Whole writes and approved batches of writes (internal/tool/proposal.go, internal/tool/write.go,
    internal/app/service.go, ApprovePendingWrite). */
module WriteBatch {
  import opened Strings
  import Segment
  import opened GuardedWrites

  // One write, start to end.

  function WriteOnce(s: State, run: nat, q: WriteRequest, now: int): State {
    RenameRun(ConfirmRun(ConsumeRun(CheckRun(BeginRun(s, run, q), run), run, now), run), run)
  }

  predicate Succeeded(s: State, run: nat) {
    InPhase(s, run, Over(true))
  }

  /** An undisturbed write either stops with everything as it was, finds its content in place, or trades one
      ticket for one replacement. */
  lemma WriteOnceCases(s: State, run: nat, q: WriteRequest, now: int)
    requires run !in s.runs
    ensures var v := WriteOnce(s, run, q, now);
      var verdict := CheckExpected(s.files, q);
      var ticket := FirstMatch(s.tickets, q, now);
      && (Succeeded(v, run) <==> verdict.AlreadyApplied? || (verdict.MayReplace? && ticket.Some?))
      && v.intents == s.intents + {q} && v.runs.Keys == s.runs.Keys + {run}
      && (if verdict.MayReplace? && ticket.Some?
          then v.files == s.files[q.path := q.content] && v.tickets == WithUse(s.tickets, ticket.value)
          else v.files == s.files && v.tickets == s.tickets && (q in s.intents ==> v.log == s.log))
  {
    ReplaceableIsReadable(s.files, q);
    hide FirstMatch, Readable, CheckExpected, WithUse;
    var b := BeginRun(s, run, q);
    var c := CheckRun(b, run);
    assert b.runs[run] == WriteRun(q, Recorded);
    if CheckExpected(s.files, q).MayReplace? {
      assert c.runs[run] == WriteRun(q, Checked);
    }
  }

  lemma ReplaceableIsReadable(files: Files, q: WriteRequest)
    ensures CheckExpected(files, q).MayReplace? ==> Readable(files, q.path)
  {
  }

  /** An undisturbed write succeeds exactly if its path can be read and either holds the content already, or holds the
      expected content and some ticket can pay now. */
  lemma WriteSucceedsIff(s: State, run: nat, q: WriteRequest, now: int)
    requires run !in s.runs
    ensures var there := if q.path in s.files then s.files[q.path] else "";
      Succeeded(WriteOnce(s, run, q, now), run) <==>
        && (forall p :: p in s.files ==> !(p < q.path) && !(q.path < p))
        && (there == q.content
            || (q.expected == HashOf(there) && exists t :: 0 <= t < |s.tickets| && CanPay(s.tickets[t], q, now)))
  {
    hide WriteOnce, FirstMatch, WithUse;
    WriteOnceCases(s, run, q, now);
    FirstMatchIsEarliest(s.tickets, q, now);
  }

  /** Writing the same thing again changes no file, consumes no ticket and records no event. */
  lemma RepeatedWriteChangesNothing(s: State, run: nat, q: WriteRequest, now: int, again: nat, later: int)
    requires run !in s.runs && again !in s.runs && run != again
    requires Succeeded(WriteOnce(s, run, q, now), run)
    ensures var v := WriteOnce(s, run, q, now);
      var u := WriteOnce(v, again, q, later);
      Succeeded(u, again) && u.files == v.files && u.tickets == v.tickets && u.log == v.log && u.intents == v.intents
  {
    hide WriteOnce, FirstMatch;
    WriteOnceCases(s, run, q, now);
    var v := WriteOnce(s, run, q, now);
    WriteOnceCases(v, again, q, later);
    assert CheckExpected(v.files, q).AlreadyApplied?;
  }

  // Proposals.

  function Folded(path: Path): (folded: seq<string>)
    ensures |folded| == |path| && forall i :: 0 <= i < |path| ==> folded[i] == Segment.ToLower(path[i])
  {
    seq(|path|, i requires 0 <= i < |path| => Segment.ToLower(path[i]))
  }

  predicate TargetFits(files: Files, q: WriteRequest) {
    Readable(files, q.path) && q.expected == HashOf(ContentOf(files, q.path))
  }

  /** One to sixteen targets, different even without regard to case, each readable and as expected. */
  ghost predicate BatchAccepted(files: Files, qs: seq<WriteRequest>) {
    && 1 <= |qs| <= 16
    && (forall i, j :: 0 <= i < j < |qs| ==> Folded(qs[i].path) != Folded(qs[j].path))
    && (forall i :: 0 <= i < |qs| ==> TargetFits(files, qs[i]))
  }

  method ValidateProposalRequest(files: Files, qs: seq<WriteRequest>) returns (ok: bool)
    ensures ok <==> BatchAccepted(files, qs)
    ensures ok ==> qs != []
  {
    hide Readable, Folded;
    if |qs| == 0 || |qs| > 16 {
      return false;
    }
    var seen: set<seq<string>> := {};
    for i := 0 to |qs|
      invariant forall k :: 0 <= k < i ==> TargetFits(files, qs[k]) && Folded(qs[k].path) in seen
      invariant forall key :: key in seen ==> exists k :: 0 <= k < i && Folded(qs[k].path) == key
      invariant forall j, k :: 0 <= j < k < i ==> Folded(qs[j].path) != Folded(qs[k].path)
    {
      var key := Folded(qs[i].path);
      if key in seen {
        return false;
      }
      seen := seen + {key};
      if !TargetFits(files, qs[i]) {
        return false;
      }
    }
    ok := true;
  }

  // A batch: all tickets first, then all writes, stopping at the first that fails.

  function ApproveAll(s: State, qs: seq<WriteRequest>, expires: Option<int>): State {
    if qs == [] then s
    else Act(ApproveAll(s, qs[..|qs| - 1], expires), Approve(qs[|qs| - 1], expires))
  }

  function WriteAll(s: State, qs: seq<WriteRequest>, now: int, run: nat): (State, bool)
    decreases |qs|
  {
    if qs == [] then (s, true)
    else
      var v := WriteOnce(s, run, qs[0], now);
      if !Succeeded(v, run) then (v, false) else WriteAll(v, qs[1..], now, run + 1)
  }

  function Written(files: Files, q: WriteRequest): Files {
    if ContentOf(files, q.path) == q.content then files else files[q.path := q.content]
  }

  function AllWritten(files: Files, qs: seq<WriteRequest>): Files
    decreases |qs|
  {
    if qs == [] then files else AllWritten(Written(files, qs[0]), qs[1..])
  }

  function Changes(files: Files, qs: seq<WriteRequest>): nat {
    if qs == [] then 0
    else (if ContentOf(files, qs[0].path) == qs[0].content then 0 else 1) + Changes(files, qs[1..])
  }

  function TotalUses(tickets: seq<Ticket>): nat {
    if tickets == [] then 0 else TotalUses(tickets[..|tickets| - 1]) + tickets[|tickets| - 1].uses
  }

  predicate FreshFrom(s: State, run: nat) {
    forall r :: r in s.runs ==> r < run
  }

  ghost predicate DistinctPaths(qs: seq<WriteRequest>) {
    forall i, j :: 0 <= i < j < |qs| ==> qs[i].path != qs[j].path
  }

  ghost predicate HasTicket(tickets: seq<Ticket>, q: WriteRequest, now: int) {
    exists t :: 0 <= t < |tickets| && Matches(tickets[t], q, now)
  }

  /** No file that is created lies above or below a later target. */
  ghost predicate NoConflict(files: Files, qs: seq<WriteRequest>) {
    forall i, j :: 0 <= i < j < |qs| && Related(qs[i].path, qs[j].path) ==>
        ContentOf(files, qs[i].path) == qs[i].content
  }

  lemma {:induction false} UseIsOneLess(tickets: seq<Ticket>, t: nat)
    requires t < |tickets| && tickets[t].uses > 0
    ensures TotalUses(tickets) == TotalUses(WithUse(tickets, t)) + 1
  {
    var last := |tickets| - 1;
    if t == last {
      assert WithUse(tickets, t)[..last] == tickets[..last];
    } else {
      UseIsOneLess(tickets[..last], t);
      assert WithUse(tickets, t)[..last] == WithUse(tickets[..last], t);
    }
  }

  lemma OtherTicketsStay(tickets: seq<Ticket>, t: nat, q: WriteRequest, now: int)
    requires t < |tickets| && tickets[t].uses > 0 && tickets[t].request != q && HasTicket(tickets, q, now)
    ensures HasTicket(WithUse(tickets, t), q, now)
  {
    var k :| 0 <= k < |tickets| && Matches(tickets[k], q, now);
    assert Matches(WithUse(tickets, t)[k], q, now);
  }

  lemma TicketIsFound(tickets: seq<Ticket>, q: WriteRequest, now: int)
    requires HasTicket(tickets, q, now)
    ensures FirstMatch(tickets, q, now).Some?
  {
  }

  /** A fitting, paid write of a batch always succeeds. */
  lemma FittingWriteSucceeds(s: State, run: nat, q: WriteRequest, now: int)
    requires run !in s.runs && TargetFits(s.files, q) && HasTicket(s.tickets, q, now)
    ensures var v := WriteOnce(s, run, q, now);
      && Succeeded(v, run) && v.files == Written(s.files, q) && v.runs.Keys == s.runs.Keys + {run}
      && TotalUses(s.tickets) == TotalUses(v.tickets) + (if ContentOf(s.files, q.path) == q.content then 0 else 1)
      && forall other :: other != q && HasTicket(s.tickets, other, now) ==> HasTicket(v.tickets, other, now)
  {
    hide WriteOnce, HasTicket, Readable;
    WriteOnceCases(s, run, q, now);
    var ticket := FirstMatch(s.tickets, q, now);
    TicketIsFound(s.tickets, q, now);
    if CheckExpected(s.files, q).MayReplace? {
      UseIsOneLess(s.tickets, ticket.value);
      forall other | other != q && HasTicket(s.tickets, other, now)
          ensures HasTicket(WithUse(s.tickets, ticket.value), other, now) {
        OtherTicketsStay(s.tickets, ticket.value, other, now);
      }
    }
  }

  lemma FilesOnlyAppear(s: State, run: nat, q: WriteRequest, now: int)
    requires run !in s.runs
    ensures s.files.Keys <= WriteOnce(s, run, q, now).files.Keys
    ensures Succeeded(WriteOnce(s, run, q, now), run) ==> Readable(s.files, q.path)
  {
    hide WriteOnce, FirstMatch, Readable;
    WriteOnceCases(s, run, q, now);
  }

  /** A batch that goes through found every target readable from the start. */
  lemma {:induction false} SuccessNeedsReadableTargets(s: State, qs: seq<WriteRequest>, now: int, run: nat)
    requires FreshFrom(s, run) && WriteAll(s, qs, now, run).1
    ensures forall i :: 0 <= i < |qs| ==> Readable(s.files, qs[i].path)
    decreases |qs|
  {
    hide WriteOnce;
    if qs != [] {
      var v := WriteOnce(s, run, qs[0], now);
      WriteOnceCases(s, run, qs[0], now);
      FilesOnlyAppear(s, run, qs[0], now);
      SuccessNeedsReadableTargets(v, qs[1..], now, run + 1);
      forall i | 0 <= i < |qs| ensures Readable(s.files, qs[i].path) {
        if i > 0 { assert qs[1..][i - 1] == qs[i]; }
      }
    }
  }

  lemma ChangesLookAtTargets(a: Files, b: Files, qs: seq<WriteRequest>)
    requires forall i :: 0 <= i < |qs| ==> ContentOf(a, qs[i].path) == ContentOf(b, qs[i].path)
    ensures Changes(a, qs) == Changes(b, qs)
  {
    if qs != [] {
      assert forall i :: 0 <= i < |qs| - 1 ==> qs[1..][i] == qs[i + 1];
      ChangesLookAtTargets(a, b, qs[1..]);
    }
  }

  /** Behind a write that concerns no other target, the rest of the batch finds what it would have found before. */
  lemma RestStillFits(files: Files, qs: seq<WriteRequest>)
    requires qs != [] && DistinctPaths(qs) && forall i :: 0 <= i < |qs| ==> TargetFits(files, qs[i])
    requires ContentOf(files, qs[0].path) != qs[0].content ==> forall j :: 1 <= j < |qs| ==>
        !Related(qs[0].path, qs[j].path)
    ensures var after := Written(files, qs[0]);
      && (forall i :: 0 <= i < |qs| - 1 ==>
          TargetFits(after, qs[1..][i]) && ContentOf(after, qs[1..][i].path) == ContentOf(files, qs[1..][i].path))
      && (NoConflict(files, qs) <==> NoConflict(after, qs[1..]))
      && Changes(files, qs[1..]) == Changes(after, qs[1..])
  {
    var after := Written(files, qs[0]);
    var rest := qs[1..];
    assert forall i :: 0 <= i < |rest| ==> rest[i] == qs[i + 1];
    ChangesLookAtTargets(files, after, rest);
    if NoConflict(after, rest) {
      forall i, j | 0 <= i < j < |qs| && Related(qs[i].path, qs[j].path)
          ensures ContentOf(files, qs[i].path) == qs[i].content {
        if i > 0 { assert Related(rest[i - 1].path, rest[j - 1].path); }
      }
    }
    if NoConflict(files, qs) {
      forall i, j | 0 <= i < j < |rest| && Related(rest[i].path, rest[j].path)
          ensures ContentOf(after, rest[i].path) == rest[i].content {
        assert Related(qs[i + 1].path, qs[j + 1].path);
      }
    }
  }

  lemma ConflictStopsTheBatch(s: State, qs: seq<WriteRequest>, now: int, run: nat, j: nat)
    requires FreshFrom(s, run) && 1 <= j < |qs| && Related(qs[0].path, qs[j].path)
    requires TargetFits(s.files, qs[0]) && HasTicket(s.tickets, qs[0], now)
        && ContentOf(s.files, qs[0].path) != qs[0].content
    ensures !WriteAll(s, qs, now, run).1 && !NoConflict(s.files, qs)
  {
    hide WriteOnce, TargetFits, HasTicket, TotalUses, ContentOf, Related;
    var v := WriteOnce(s, run, qs[0], now);
    var rest := qs[1..];
    FittingWriteSucceeds(s, run, qs[0], now);
    CreatedFileBlocks(s.files, qs[0], qs[j].path);
    assert rest[j - 1] == qs[j];
    if WriteAll(v, rest, now, run + 1).1 { SuccessNeedsReadableTargets(v, rest, now, run + 1); }
  }

  lemma EmptyBatchHasNoConflict(files: Files)
    ensures NoConflict(files, [])
  {
  }

  /** The writes of a batch go through exactly when no created file is in the way of a later target. */
  lemma {:induction false} WriteAllIsExact(s: State, qs: seq<WriteRequest>, now: int, run: nat)
    requires FreshFrom(s, run) && DistinctPaths(qs)
    requires forall i :: 0 <= i < |qs| ==> TargetFits(s.files, qs[i]) && HasTicket(s.tickets, qs[i], now)
    ensures WriteAll(s, qs, now, run).1 <==> NoConflict(s.files, qs)
    ensures WriteAll(s, qs, now, run).1 ==>
      && WriteAll(s, qs, now, run).0.files == AllWritten(s.files, qs)
      && TotalUses(s.tickets) == TotalUses(WriteAll(s, qs, now, run).0.tickets) + Changes(s.files, qs)
    decreases |qs|
  {
    hide WriteOnce, TargetFits, HasTicket, TotalUses, ContentOf, Related, NoConflict;
    if qs == [] {
      EmptyBatchHasNoConflict(s.files);
    } else if j :| ContentOf(s.files, qs[0].path) != qs[0].content && 1 <= j < |qs| && Related(qs[0].path, qs[j].path) {
      ConflictStopsTheBatch(s, qs, now, run, j);
    } else {
      var rest := qs[1..];
      FittingWriteSucceeds(s, run, qs[0], now);
      assert forall i :: 0 <= i < |rest| ==> rest[i] == qs[i + 1];
      RestStillFits(s.files, qs);
      WriteAllIsExact(WriteOnce(s, run, qs[0], now), rest, now, run + 1);
    }
  }

  // Which tickets a batch uses.

  /** The uses left on tickets for a request. */
  function UsesFor(tickets: seq<Ticket>, q: WriteRequest): nat {
    if tickets == [] then 0
    else
      var last := tickets[|tickets| - 1];
      UsesFor(tickets[..|tickets| - 1], q) + if last.request == q then last.uses else 0
  }

  /** One for a proposed target that changes. */
  function ChangeOf(files: Files, qs: seq<WriteRequest>, q: WriteRequest): nat {
    if q in qs && ContentOf(files, q.path) != q.content then 1 else 0
  }

  /** Tickets for other requests are what they were. */
  ghost predicate OthersUntouched(before: seq<Ticket>, now: seq<Ticket>, qs: seq<WriteRequest>) {
    && |before| <= |now|
    && forall t :: 0 <= t < |before| ==>
        now[t].request == before[t].request && (before[t].request !in qs ==> now[t] == before[t])
  }

  lemma {:induction false} UseIsOfItsRequest(tickets: seq<Ticket>, t: nat, q: WriteRequest)
    requires t < |tickets| && tickets[t].uses > 0
    ensures UsesFor(tickets, q) == UsesFor(WithUse(tickets, t), q) + if tickets[t].request == q then 1 else 0
  {
    var last := |tickets| - 1;
    if t == last {
      assert WithUse(tickets, t)[..last] == tickets[..last];
    } else {
      UseIsOfItsRequest(tickets[..last], t, q);
      assert WithUse(tickets, t)[..last] == WithUse(tickets[..last], t);
    }
  }

  lemma WriteUsesItsOwnTicket(s: State, run: nat, first: WriteRequest, now: int, q: WriteRequest)
    requires run !in s.runs && Succeeded(WriteOnce(s, run, first, now), run)
    ensures var v := WriteOnce(s, run, first, now);
      && UsesFor(s.tickets, q) == UsesFor(v.tickets, q) + ChangeOf(s.files, [first], q)
      && OthersUntouched(s.tickets, v.tickets, [first])
      && (q.path != first.path ==> ContentOf(v.files, q.path) == ContentOf(s.files, q.path))
  {
    hide WriteOnce, Readable, UsesFor;
    WriteOnceCases(s, run, first, now);
    var ticket := FirstMatch(s.tickets, first, now);
    if CheckExpected(s.files, first).MayReplace? && ticket.Some? { UseIsOfItsRequest(s.tickets, ticket.value, q); }
  }

  lemma UntouchedChains(
    before: seq<Ticket>, between: seq<Ticket>, now: seq<Ticket>, first: WriteRequest, rest: seq<WriteRequest>)
    requires OthersUntouched(before, between, [first]) && OthersUntouched(between, now, rest)
    ensures OthersUntouched(before, now, [first] + rest)
  {
  }

  lemma ChangesAddUp(files: Files, later: Files, first: WriteRequest, rest: seq<WriteRequest>, q: WriteRequest)
    requires DistinctPaths([first] + rest)
    requires q.path != first.path ==> ContentOf(later, q.path) == ContentOf(files, q.path)
    ensures ChangeOf(files, [first] + rest, q) == ChangeOf(files, [first], q) + ChangeOf(later, rest, q)
  {
    hide ContentOf;
    var qs := [first] + rest;
    if q in rest {
      var j :| 0 <= j < |rest| && rest[j] == q;
      assert qs[j + 1] == q && qs[0] == first;
    }
  }

  /** A batch that goes through uses one ticket of its own for each target that changes, and no other. */
  lemma {:induction false} BatchUsesItsOwnTickets(s: State, qs: seq<WriteRequest>, now: int, run: nat, q: WriteRequest)
    requires FreshFrom(s, run) && DistinctPaths(qs) && WriteAll(s, qs, now, run).1
    ensures var v := WriteAll(s, qs, now, run).0;
      && UsesFor(s.tickets, q) == UsesFor(v.tickets, q) + ChangeOf(s.files, qs, q)
      && OthersUntouched(s.tickets, v.tickets, qs)
    decreases |qs|
  {
    hide WriteOnce, ContentOf, UsesFor;
    if qs != [] {
      var v := WriteOnce(s, run, qs[0], now);
      WriteOnceCases(s, run, qs[0], now);
      assert FreshFrom(v, run + 1);
      assert qs == [qs[0]] + qs[1..];
      hide OthersUntouched, ChangeOf, Succeeded, CheckExpected, WithUse;
      WriteUsesItsOwnTicket(s, run, qs[0], now, q);
      BatchUsesItsOwnTickets(v, qs[1..], now, run + 1, q);
      UntouchedChains(s.tickets, v.tickets, WriteAll(v, qs[1..], now, run + 1).0.tickets, qs[0], qs[1..]);
      ChangesAddUp(s.files, v.files, qs[0], qs[1..], q);
    }
  }

  lemma CreatedFileBlocks(files: Files, q: WriteRequest, path: Path)
    requires ContentOf(files, q.path) != q.content && Related(q.path, path)
    ensures !Readable(Written(files, q), path)
  {
    assert q.path in Written(files, q);
  }

  lemma OneMoreTicket(s: State, q: WriteRequest, expires: Option<int>)
    ensures var v := Act(s, Approve(q, expires));
      && v.files == s.files && v.runs == s.runs && v.tickets == s.tickets + [Ticket(q, expires, 1)]
      && TotalUses(v.tickets) == TotalUses(s.tickets) + 1
  {
    var v := Act(s, Approve(q, expires));
    assert v.tickets[..|v.tickets| - 1] == s.tickets;
  }

  lemma {:induction false} ApprovalsAddUp(s: State, qs: seq<WriteRequest>, expires: Option<int>)
    ensures var v := ApproveAll(s, qs, expires);
      && v.files == s.files && v.runs == s.runs && TotalUses(v.tickets) == TotalUses(s.tickets) + |qs|
      && s.tickets <= v.tickets
  {
    hide Act, TotalUses;
    if qs != [] {
      ApprovalsAddUp(s, qs[..|qs| - 1], expires);
      OneMoreTicket(ApproveAll(s, qs[..|qs| - 1], expires), qs[|qs| - 1], expires);
    }
  }

  lemma LaterTicketsKeepEarlier(before: seq<Ticket>, last: Ticket, q: WriteRequest, now: int)
    ensures HasTicket(before, q, now) ==> HasTicket(before + [last], q, now)
    ensures Matches(last, q, now) ==> HasTicket(before + [last], q, now)
  {
    hide Matches;
    var all := before + [last];
    assert all[|before|] == last;
    if t :| 0 <= t < |before| && Matches(before[t], q, now) { assert all[t] == before[t]; }
  }

  lemma {:induction false} ApprovalsGiveTickets(
    s: State, qs: seq<WriteRequest>, expires: Option<int>, now: int, i: nat)
    requires Live(expires, now) && i < |qs|
    ensures HasTicket(ApproveAll(s, qs, expires).tickets, qs[i], now)
  {
    hide Act, HasTicket, TotalUses;
    var last := |qs| - 1;
    var before := ApproveAll(s, qs[..last], expires);
    OneMoreTicket(before, qs[last], expires);
    LaterTicketsKeepEarlier(before.tickets, Ticket(qs[last], expires, 1), qs[i], now);
    if i < last { ApprovalsGiveTickets(s, qs[..last], expires, now, i); }
  }

  lemma ApprovalsAreTickets(s: State, qs: seq<WriteRequest>, expires: Option<int>, now: int)
    requires Live(expires, now)
    ensures var v := ApproveAll(s, qs, expires);
      && v.files == s.files && v.runs == s.runs && TotalUses(v.tickets) == TotalUses(s.tickets) + |qs|
      && s.tickets <= v.tickets
      && forall i :: 0 <= i < |qs| ==> HasTicket(v.tickets, qs[i], now)
  {
    hide ApproveAll, HasTicket, TotalUses;
    ApprovalsAddUp(s, qs, expires);
    forall i | 0 <= i < |qs| ensures HasTicket(ApproveAll(s, qs, expires).tickets, qs[i], now) {
      ApprovalsGiveTickets(s, qs, expires, now, i);
    }
  }

  lemma {:induction false} ApprovalsGrantOneUse(s: State, qs: seq<WriteRequest>, expires: Option<int>, q: WriteRequest)
    requires DistinctPaths(qs)
    ensures var v := ApproveAll(s, qs, expires);
      && v.runs == s.runs && v.files == s.files && s.tickets <= v.tickets
      && UsesFor(v.tickets, q) == UsesFor(s.tickets, q) + if q in qs then 1 else 0
  {
    if qs != [] {
      var last := |qs| - 1;
      var before, v := ApproveAll(s, qs[..last], expires), ApproveAll(s, qs, expires);
      ApprovalsGrantOneUse(s, qs[..last], expires, q);
      assert v.tickets[..|v.tickets| - 1] == before.tickets;
      assert qs == qs[..last] + [qs[last]];
      if q in qs[..last] {
        var i :| 0 <= i < last && qs[..last][i] == q;
        assert qs[i].path != qs[last].path;
      }
    }
  }

  /** After a batch that goes through, the tickets for each target hold what they held before, one use more if the
      target already had its content, and no ticket for anything else has changed. */
  lemma ApprovedBatchTickets(s: State, qs: seq<WriteRequest>, expires: Option<int>, now: int, run: nat, q: WriteRequest)
    requires BatchAccepted(s.files, qs) && FreshFrom(s, run)
    requires WriteAll(ApproveAll(s, qs, expires), qs, now, run).1
    ensures var v := WriteAll(ApproveAll(s, qs, expires), qs, now, run).0;
      && UsesFor(v.tickets, q) + ChangeOf(s.files, qs, q) == UsesFor(s.tickets, q) + (if q in qs then 1 else 0)
      && OthersUntouched(s.tickets, v.tickets, qs)
  {
    hide WriteAll, ApproveAll, UsesFor, TargetFits, ContentOf;
    assert DistinctPaths(qs);
    ApprovalsGrantOneUse(s, qs, expires, q);
    BatchUsesItsOwnTickets(ApproveAll(s, qs, expires), qs, now, run, q);
  }

  /** An accepted batch with live tickets, undisturbed, writes fully exactly when no file it creates is above or
      below a later target; then each changed target has used one ticket, and the other targets keep theirs. */
  lemma AcceptedBatchWritesFullyIff(s: State, qs: seq<WriteRequest>, expires: Option<int>, now: int, run: nat)
    requires BatchAccepted(s.files, qs) && Live(expires, now) && FreshFrom(s, run)
    ensures var result := WriteAll(ApproveAll(s, qs, expires), qs, now, run);
      && (result.1 <==> NoConflict(s.files, qs))
      && (result.1 ==> result.0.files == AllWritten(s.files, qs))
      && (result.1 ==> TotalUses(result.0.tickets) == TotalUses(s.tickets) + |qs| - Changes(s.files, qs))
  {
    hide WriteAll, ApproveAll, TotalUses, NoConflict, HasTicket, TargetFits, Changes, AllWritten;
    ApprovalsAreTickets(s, qs, expires, now);
    assert DistinctPaths(qs);
    WriteAllIsExact(ApproveAll(s, qs, expires), qs, now, run);
  }

  /** Each target ends with its proposed content, and no other path changes; an empty proposal for an absent
      file is the one thing that leaves no trace. */
  lemma {:induction false} AllWrittenIsExact(files: Files, qs: seq<WriteRequest>, path: Path)
    requires DistinctPaths(qs)
    ensures forall i :: 0 <= i < |qs| && qs[i].path == path ==>
      && ContentOf(AllWritten(files, qs), path) == qs[i].content
      && (path in AllWritten(files, qs) <==> path in files || qs[i].content != "")
    ensures (forall i :: 0 <= i < |qs| ==> qs[i].path != path) ==>
      (path in AllWritten(files, qs) <==> path in files)
          && (path in files ==> AllWritten(files, qs)[path] == files[path])
    decreases |qs|
  {
    if qs != [] {
      var rest := qs[1..];
      assert forall i :: 0 <= i < |rest| ==> rest[i] == qs[i + 1];
      AllWrittenIsExact(Written(files, qs[0]), rest, path);
    }
  }

  /** Overriding the old files with all proposals. */
  function Overridden(files: Files, qs: seq<WriteRequest>): Files
    decreases |qs|
  {
    if qs == [] then files else Overridden(files[qs[0].path := qs[0].content], qs[1..])
  }

  lemma {:induction false} OverriddenIsExact(files: Files, qs: seq<WriteRequest>, path: Path)
    requires DistinctPaths(qs)
    ensures forall i :: 0 <= i < |qs| && qs[i].path == path ==>
        path in Overridden(files, qs) && Overridden(files, qs)[path] == qs[i].content
    ensures (forall i :: 0 <= i < |qs| ==> qs[i].path != path) ==>
      (path in Overridden(files, qs) <==> path in files)
          && (path in files ==> Overridden(files, qs)[path] == files[path])
    decreases |qs|
  {
    if qs != [] {
      var rest := qs[1..];
      assert forall i :: 0 <= i < |rest| ==> rest[i] == qs[i + 1];
      OverriddenIsExact(files[qs[0].path := qs[0].content], rest, path);
    }
  }

  /** The result is the old files with all proposals written over them exactly when nothing empty was
      proposed for an absent file. */
  lemma WrittenEverywhereIff(files: Files, qs: seq<WriteRequest>)
    requires DistinctPaths(qs)
    ensures AllWritten(files, qs) == Overridden(files, qs) <==>
      forall i :: 0 <= i < |qs| ==> qs[i].path in files || qs[i].content != ""
  {
    hide AllWritten, Overridden;
    if AllWritten(files, qs) == Overridden(files, qs) {
      forall i | 0 <= i < |qs| ensures qs[i].path in files || qs[i].content != "" {
        AllWrittenIsExact(files, qs, qs[i].path);
        OverriddenIsExact(files, qs, qs[i].path);
      }
    }
    if forall i :: 0 <= i < |qs| ==> qs[i].path in files || qs[i].content != "" {
      forall path
        ensures path in AllWritten(files, qs) <==> path in Overridden(files, qs)
        ensures path in AllWritten(files, qs) ==> AllWritten(files, qs)[path] == Overridden(files, qs)[path]
      {
        AllWrittenIsExact(files, qs, path);
        OverriddenIsExact(files, qs, path);
      }
    }
  }

  // The same, performed on a workspace and its ticket table.

  method CheckExpectedContent(files: Files, q: WriteRequest) returns (verdict: Verdict)
    ensures verdict == CheckExpected(files, q)
  {
    hide Readable;
    if !Readable(files, q.path) {
      return Unusable;
    }
    var current := "";
    if q.path in files {
      current := files[q.path];
    }
    if current == q.content {
      return AlreadyApplied;
    }
    if q.expected != HashOf(current) {
      return Unusable;
    }
    return MayReplace;
  }

  class WriteDesk {
    var files: Files
    var tickets: seq<Ticket>
    var intents: set<WriteRequest>
    var runs: map<nat, WriteRun>
    var log: seq<Entry>

    function View(): State reads this { State(files, tickets, intents, runs, log) }

    method CreateApproval(q: WriteRequest, expires: Option<int>)
      modifies this`tickets, this`log
      ensures View() == Act(old(View()), Approve(q, expires))
    {
      log := log + [Granted(|tickets|)];
      tickets := tickets + [Ticket(q, expires, 1)];
    }

    /** Takes one use of the oldest ticket that fits. */
    method ConsumeApproval(run: nat, q: WriteRequest, now: int) returns (ok: bool)
      modifies this`tickets, this`log
      ensures ok <==> FirstMatch(old(tickets), q, now).Some?
      ensures !ok ==> unchanged(this)
      ensures ok ==> var t := FirstMatch(old(tickets), q, now).value;
        View() == old(View()).(tickets := WithUse(old(tickets), t), log := old(log) + [Consumed(run, t)])
      ensures ok <==> exists t :: 0 <= t < |old(tickets)| && CanPay(old(tickets)[t], q, now)
    {
      FirstMatchIsEarliest(tickets, q, now);
      var found := None;
      for t := 0 to |tickets|
        invariant found == FirstMatch(tickets[..t], q, now)
      {
        assert tickets[..t + 1][..t] == tickets[..t];
        if found.None? && Matches(tickets[t], q, now) {
          found := Some(t);
        }
      }
      assert tickets[..|tickets|] == tickets;
      ok := found.Some?;
      if ok {
        tickets := tickets[found.value := tickets[found.value].(uses := tickets[found.value].uses - 1)];
        log := log + [Consumed(run, found.value)];
      }
    }

    method RecordToolIntent(run: nat, q: WriteRequest)
      requires run !in runs
      modifies this`intents, this`runs, this`log
      ensures View() == BeginRun(old(View()), run, q)
    {
      if q !in intents {
        log := log + [Intended(q)];
      }
      intents := intents + {q};
      runs := runs[run := WriteRun(q, Recorded)];
    }

    method FirstCheckOf(run: nat)
      requires InPhase(View(), run, Recorded)
      modifies this`runs
      ensures View() == CheckRun(old(View()), run)
    {
      hide CheckExpected;
      var q := runs[run].request;
      var verdict := CheckExpectedContent(files, q);
      match verdict
      case Unusable => runs := runs[run := WriteRun(q, Over(false))];
      case AlreadyApplied => runs := runs[run := WriteRun(q, Over(true))];
      case MayReplace => runs := runs[run := WriteRun(q, Checked)];
    }

    method PayFor(run: nat, now: int)
      requires InPhase(View(), run, Checked)
      modifies this`tickets, this`runs, this`log
      ensures View() == ConsumeRun(old(View()), run, now)
    {
      hide FirstMatch;
      var q := runs[run].request;
      var ok := ConsumeApproval(run, q, now);
      runs := runs[run := WriteRun(q, if ok then Paid else Over(false))];
    }

    method SecondCheckOf(run: nat)
      requires InPhase(View(), run, Paid)
      modifies this`runs, this`log
      ensures View() == ConfirmRun(old(View()), run)
    {
      hide CheckExpected;
      var q := runs[run].request;
      var verdict := CheckExpectedContent(files, q);
      match verdict
      case Unusable => runs := runs[run := WriteRun(q, Over(false))];
      case AlreadyApplied => runs := runs[run := WriteRun(q, Over(true))];
      case MayReplace =>
        runs := runs[run := WriteRun(q, Cleared)];
        log := log + [Confirmed(run)];
    }

    method RenameOver(run: nat)
      requires InPhase(View(), run, Cleared)
      modifies this`files, this`runs, this`log
      ensures View() == RenameRun(old(View()), run)
    {
      hide Readable;
      var q := runs[run].request;
      if !Readable(files, q.path) {
        runs := runs[run := WriteRun(q, Over(false))];
        return;
      }
      log := log + [Replaced(run, q, ContentOf(files, q.path))];
      files := files[q.path := q.content];
      runs := runs[run := WriteRun(q, Over(true))];
    }

    /** A write that nothing interrupts: intent, check, ticket, second check, rename. */
    method WriteFile(run: nat, q: WriteRequest, now: int) returns (ok: bool)
      requires run !in runs
      modifies this
      ensures View() == WriteOnce(old(View()), run, q, now)
      ensures ok == Succeeded(View(), run)
    {
      hide FirstMatch, CheckExpected, Readable;
      RecordToolIntent(run, q);
      FirstCheckOf(run);
      if runs[run].phase.Checked? {
        PayFor(run, now);
      }
      if runs[run].phase.Paid? {
        SecondCheckOf(run);
      }
      if runs[run].phase.Cleared? {
        RenameOver(run);
      }
      ok := runs[run].phase == Over(true);
    }

    /** Tickets for every target, then the writes. */
    method ApplyBatch(qs: seq<WriteRequest>, expires: Option<int>, now: int, run: nat) returns (ok: bool)
      requires FreshFrom(View(), run)
      modifies this
      ensures (View(), ok) == WriteAll(ApproveAll(old(View()), qs, expires), qs, now, run)
    {
      hide WriteOnce;
      for i := 0 to |qs|
        invariant View() == ApproveAll(old(View()), qs[..i], expires) && runs == old(runs)
      {
        assert qs[..i + 1][..i] == qs[..i];
        CreateApproval(qs[i], expires);
      }
      assert qs[..|qs|] == qs;
      ghost var wanted := WriteAll(View(), qs, now, run);
      for i := 0 to |qs|
        invariant WriteAll(View(), qs[i..], now, run + i) == wanted && FreshFrom(View(), run + i)
      {
        WriteOnceCases(View(), run + i, qs[i], now);
        assert qs[i..][1..] == qs[i + 1..];
        var written := WriteFile(run + i, qs[i], now);
        if !written {
          return false;
        }
      }
      ok := true;
    }

    /** What a user's approval does: the batch is checked again, then written. */
    method ApprovePendingBatch(qs: seq<WriteRequest>, expires: Option<int>, now: int, run: nat) returns (ok: bool)
      requires FreshFrom(View(), run) && Live(expires, now)
      modifies this
      ensures ok <==> BatchAccepted(old(files), qs) && NoConflict(old(files), qs)
      ensures !BatchAccepted(old(files), qs) ==> unchanged(this)
      ensures ok ==> files == AllWritten(old(files), qs)
      ensures ok ==> TotalUses(tickets) == TotalUses(old(tickets)) + |qs| - Changes(old(files), qs)
      ensures ok ==> OthersUntouched(old(tickets), tickets, qs) && forall q ::
        UsesFor(tickets, q) + ChangeOf(old(files), qs, q) == UsesFor(old(tickets), q) + (if q in qs then 1 else 0)
    {
      hide WriteAll, ApproveAll, NoConflict, BatchAccepted, AllWritten, TotalUses, Changes, UsesFor, ChangeOf,
           OthersUntouched;
      ghost var start := View();
      var accepted := ValidateProposalRequest(files, qs);
      if !accepted {
        return false;
      }
      AcceptedBatchWritesFullyIff(View(), qs, expires, now, run);
      ok := ApplyBatch(qs, expires, now, run);
      if ok {
        forall q
          ensures OthersUntouched(start.tickets, tickets, qs)
          ensures UsesFor(tickets, q) + ChangeOf(start.files, qs, q)
            == UsesFor(start.tickets, q) + (if q in qs then 1 else 0)
        {
          ApprovedBatchTickets(start, qs, expires, now, run, q);
        }
        ApprovedBatchTickets(start, qs, expires, now, run, qs[0]);
      }
    }
  }
}
