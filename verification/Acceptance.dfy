/** Deterministic acceptance of a task from its persisted evidence (internal/verifier/verifier.go). */
module Acceptance {
  import Strings

  /** `Workspace` stands for the file, diff and command checks, whose outcome the workspace decides. */
  datatype CriterionType = EvidenceExists | Workspace | OtherType

  datatype Criterion = Criterion(id: string, kindOfCheck: CriterionType, evidenceKind: string)

  datatype Evidence = Evidence(kind: string, verified: bool, confidence: int)

  /** `evidence` holds positions in the evidence list. */
  datatype Check = Check(criterion: string, passed: bool, evidence: seq<nat>)

  datatype Report = Report(passed: bool, checks: seq<Check>)

  /** Evidence the program records itself: every worker report, every approved command, every reconnaissance. */
  const AGENT_REPORT := Evidence("AGENT_REPORT", true, 1)
  const COMMAND_RESULT := Evidence("COMMAND_RESULT", true, 1)
  const RECON_REPORT := Evidence("RECON_REPORT", true, 1)

  /** Whether a task can be verified, and which workspace checks then pass, by position of the criterion. */
  datatype Verification = Unavailable | Verified(passing: set<nat>)

  /** How an approved proposal turns out. */
  datatype WriteReply = ProposalRefused | WriteFailed | Written(verification: Verification)

  datatype CommandReply = CommandRefused | CommandFailed | CommandSucceeded

  predicate Supports(e: Evidence, kind: string) {
    e.kind == kind && e.verified && e.confidence > 0
  }

  /** Positions of the evidence that supports a kind, ascending. */
  function Supporting(kind: string, evidence: seq<Evidence>): seq<nat> {
    if evidence == [] then []
    else
      var last := |evidence| - 1;
      Supporting(kind, evidence[..last]) + (if Supports(evidence[last], kind) then [last] else [])
  }

  lemma {:induction false} SupportingMembers(kind: string, evidence: seq<Evidence>)
    ensures forall k :: k in Supporting(kind, evidence) <==> 0 <= k < |evidence| && Supports(evidence[k], kind)
  {
    if evidence != [] {
      var last := |evidence| - 1;
      SupportingMembers(kind, evidence[..last]);
      forall k ensures k in Supporting(kind, evidence) <==> 0 <= k < |evidence| && Supports(evidence[k], kind) {
        if 0 <= k < last { assert evidence[..last][k] == evidence[k]; }
      }
    }
  }

  function CheckOf(c: Criterion, evidence: seq<Evidence>, workspacePasses: bool): Check {
    if c.id == "" then Check(c.id, false, [])
    else match c.kindOfCheck
      case Workspace => Check(c.id, workspacePasses, [])
      case OtherType => Check(c.id, false, [])
      case EvidenceExists =>
        if Strings.TrimSpace(c.evidenceKind) == "" then Check(c.id, false, [])
        else
          var found := Supporting(c.evidenceKind, evidence);
          Check(c.id, found != [], found)
  }

  function Checks(criteria: seq<Criterion>, evidence: seq<Evidence>, passing: set<nat>): (checks: seq<Check>)
    ensures |checks| == |criteria|
    ensures forall i :: 0 <= i < |criteria| ==> checks[i] == CheckOf(criteria[i], evidence, i in passing)
  {
    if criteria == [] then []
    else
      var last := |criteria| - 1;
      Checks(criteria[..last], evidence, passing) + [CheckOf(criteria[last], evidence, last in passing)]
  }

  function ReportOf(criteria: seq<Criterion>, evidence: seq<Evidence>, passing: set<nat>): Report {
    var checks := Checks(criteria, evidence, passing);
    if checks == [] then Report(false, [Check("task_acceptance", false, [])])
    else Report(forall i :: 0 <= i < |checks| ==> checks[i].passed, checks)
  }

  method VerifyCriterion(c: Criterion, evidence: seq<Evidence>, workspacePasses: bool) returns (check: Check)
    ensures check == CheckOf(c, evidence, workspacePasses)
  {
    if c.id == "" || c.kindOfCheck.OtherType? {
      return Check(c.id, false, []);
    }
    if c.kindOfCheck.Workspace? {
      return Check(c.id, workspacePasses, []);
    }
    if Strings.TrimSpace(c.evidenceKind) == "" {
      return Check(c.id, false, []);
    }
    var found: seq<nat> := [];
    for k := 0 to |evidence|
      invariant found == Supporting(c.evidenceKind, evidence[..k])
    {
      assert evidence[..k + 1][..k] == evidence[..k];
      if evidence[k].kind == c.evidenceKind && evidence[k].verified && evidence[k].confidence > 0 {
        found := found + [k];
      }
    }
    assert evidence[..|evidence|] == evidence;
    return Check(c.id, |found| > 0, found);
  }

  method VerifyInWorkspace(criteria: seq<Criterion>, evidence: seq<Evidence>, passing: set<nat>)
      returns (report: Report)
    ensures report == ReportOf(criteria, evidence, passing)
  {
    var passed := true;
    var checks: seq<Check> := [];
    for i := 0 to |criteria|
      invariant |checks| == i
      invariant forall k :: 0 <= k < i ==> checks[k] == CheckOf(criteria[k], evidence, k in passing)
      invariant passed <==> forall k :: 0 <= k < i ==> checks[k].passed
    {
      var check := VerifyCriterion(criteria[i], evidence, i in passing);
      if !check.passed {
        passed := false;
      }
      checks := checks + [check];
    }
    if |checks| == 0 {
      passed := false;
      checks := [Check("task_acceptance", false, [])];
    } else {
      assert checks == Checks(criteria, evidence, passing);
    }
    report := Report(passed, checks);
  }

  /** What a criterion asks for. */
  ghost predicate Met(c: Criterion, evidence: seq<Evidence>, workspacePasses: bool) {
    && c.id != ""
    && (c.kindOfCheck.Workspace? ==> workspacePasses)
    && (c.kindOfCheck.EvidenceExists? ==>
         Strings.TrimSpace(c.evidenceKind) != "" && exists k ::
             0 <= k < |evidence| && Supports(evidence[k], c.evidenceKind))
    && !c.kindOfCheck.OtherType?
  }

  /** A report passes exactly when there is a criterion and every criterion is met;
      an evidence criterion names all the evidence that meets it, and no other. */
  lemma ReportPassesIffCriteriaMet(criteria: seq<Criterion>, evidence: seq<Evidence>, passing: set<nat>)
    ensures ReportOf(criteria, evidence, passing).passed <==>
      (criteria != [] && forall i :: 0 <= i < |criteria| ==> Met(criteria[i], evidence, i in passing))
    ensures criteria != [] ==> |ReportOf(criteria, evidence, passing).checks| == |criteria|
    ensures forall i, k ::
      0 <= i < |criteria| && Met(criteria[i], evidence, i in passing) && criteria[i].kindOfCheck.EvidenceExists? ==>
      (k in ReportOf(criteria, evidence, passing).checks[i].evidence <==>
        0 <= k < |evidence| && Supports(evidence[k], criteria[i].evidenceKind))
  {
    var checks := Checks(criteria, evidence, passing);
    forall i | 0 <= i < |criteria|
      ensures checks[i].passed <==> Met(criteria[i], evidence, i in passing)
      ensures Met(criteria[i], evidence, i in passing) && criteria[i].kindOfCheck.EvidenceExists? ==>
        forall k :: k in checks[i].evidence <==> 0 <= k < |evidence| && Supports(evidence[k], criteria[i].evidenceKind)
    {
      CheckIsExact(criteria[i], evidence, i in passing);
    }
  }

  lemma CheckIsExact(c: Criterion, evidence: seq<Evidence>, workspacePasses: bool)
    ensures CheckOf(c, evidence, workspacePasses).passed <==> Met(c, evidence, workspacePasses)
    ensures Met(c, evidence, workspacePasses) && c.kindOfCheck.EvidenceExists? ==>
      forall k :: k in CheckOf(c, evidence, workspacePasses).evidence <==>
          0 <= k < |evidence| && Supports(evidence[k], c.evidenceKind)
  {
    SupportingMembers(c.evidenceKind, evidence);
    var found := Supporting(c.evidenceKind, evidence);
    if found != [] { assert found[0] in found; }
  }

  // Persisted reports.

  /** One of the reports passed over evidence that is still there. */
  ghost predicate PassedBy(reports: seq<Report>, criteria: seq<Criterion>, evidence: seq<Evidence>) {
    exists r, n, passing :: 0 <= r < |reports| && 0 <= n <= |evidence|
      && reports[r] == ReportOf(criteria, evidence[..n], passing) && reports[r].passed
  }

  lemma PassedStays(
    reports: seq<Report>, criteria: seq<Criterion>, evidence: seq<Evidence>, more: seq<Report>, later: seq<Evidence>)
    requires PassedBy(reports, criteria, evidence) && reports <= more && evidence <= later
    ensures PassedBy(more, criteria, later)
  {
    hide ReportOf;
    var r, n, passing :| 0 <= r < |reports| && 0 <= n <= |evidence|
      && reports[r] == ReportOf(criteria, evidence[..n], passing) && reports[r].passed;
    assert later[..n] == evidence[..n];
    assert more[r] == reports[r];
  }

  lemma NewReportPasses(reports: seq<Report>, criteria: seq<Criterion>, evidence: seq<Evidence>, passing: set<nat>)
    requires ReportOf(criteria, evidence, passing).passed
    ensures PassedBy(reports + [ReportOf(criteria, evidence, passing)], criteria, evidence)
  {
    hide ReportOf;
    assert evidence[..|evidence|] == evidence;
    assert (reports + [ReportOf(criteria, evidence, passing)])[|reports|]
        == ReportOf(criteria, evidence[..|evidence|], passing);
  }

  /** A passing report that checks every criterion and names verified evidence for each evidence criterion. */
  ghost predicate Justifies(report: Report, criteria: seq<Criterion>, evidence: seq<Evidence>) {
    && report.passed && |report.checks| == |criteria|
    && forall i :: 0 <= i < |criteria| && criteria[i].kindOfCheck.EvidenceExists? ==>
         exists k :: 0 <= k < |evidence| && Supports(evidence[k], criteria[i].evidenceKind)
             && k in report.checks[i].evidence
  }

  /** A task is justified as completed by its criteria and one of its reports. */
  ghost predicate Justified(reports: seq<Report>, criteria: seq<Criterion>, evidence: seq<Evidence>) {
    criteria != [] && exists r :: 0 <= r < |reports| && Justifies(reports[r], criteria, evidence)
  }

  lemma PassedIsJustified(reports: seq<Report>, criteria: seq<Criterion>, evidence: seq<Evidence>)
    requires PassedBy(reports, criteria, evidence)
    ensures Justified(reports, criteria, evidence)
  {
    hide Supports, ReportOf;
    var r, n, passing :| 0 <= r < |reports| && 0 <= n <= |evidence|
      && reports[r] == ReportOf(criteria, evidence[..n], passing) && reports[r].passed;
    var seen := evidence[..n];
    ReportPassesIffCriteriaMet(criteria, seen, passing);
    forall i | 0 <= i < |criteria| && criteria[i].kindOfCheck.EvidenceExists?
      ensures exists k ::
          0 <= k < |evidence| && Supports(evidence[k], criteria[i].evidenceKind) && k in reports[r].checks[i].evidence
    {
      assert Met(criteria[i], seen, i in passing);
      var k :| 0 <= k < |seen| && Supports(seen[k], criteria[i].evidenceKind);
      assert evidence[k] == seen[k];
    }
    assert Justifies(reports[r], criteria, evidence);
  }
}
