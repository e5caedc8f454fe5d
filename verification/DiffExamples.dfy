/** Concrete patches for a file of one line that the diff applier does not apply as they were meant: a context line
    that the file does not hold is accepted, a left-out count makes it keep a line that should go, an insertion right
    behind a hunk with old lines is refused, and a deletion behind the last line brings it down. The exact conditions
    are in DiffRoundTrip and DiffLimits. */
module DiffExamples {
  import opened DiffText
  import opened UnifiedDiff
  import DiffRoundTrip
  import opened DiffLimits

  lemma FileOfOneLine()
    ensures SplitLines("a") == ["a"] && OneLine("f") && OneLine("") && OneLine("a") && OneLine("b")
  {
    assert Join(["a"]) == "a";
    SplitLinesJoin(["a"]);
  }

  /** A context line that the file does not hold is accepted all the same. */
  lemma WrongContextIsAccepted()
    ensures var hunks := [Hunk(0, [Context("b")], "")];
      Placed(hunks, 0, 1) && PatchedText("a", PrintPatch(hunks, "f", "f", true, 1, true)) == Done("a")
      && |SplitLines("a")| == 1 && Join(Intended(SplitLines("a"), hunks, 0)) == "b"
  {
    hide PrintPatch, PatchedText, SplitLines, OneLine;
    var hunks := [Hunk(0, [Context("b")], "")];
    FileOfOneLine();
    assert hunks[1..] == [] && hunks[0].edits[1..] == [];
    DiffRoundTrip.PrintedPatchApplies("a", hunks, "f", "f", true);
    assert ByPosition(["a"], hunks, 0) == ["a"];
    assert Intended(["a"], hunks, 0) == ["b"];
    assert Join(["a"]) == "a" && Join(["b"]) == "b";
  }

  /** Removing the only line with counts left out, as diff prints it, is not applied. */
  lemma LeftOutCountIsMisread()
    ensures var hunks := [Hunk(0, [Delete("a")], "")];
      Placed(hunks, 0, 1) && |SplitLines("a")| == 1
      && PatchedText("a", PrintPatch(hunks, "f", "f", false, 1, true))
        != Done(Join(ByPosition(SplitLines("a"), hunks, 0)))
  {
    hide PrintPatch, PatchedText, SplitLines, OneLine, Join;
    var hunks := [Hunk(0, [Delete("a")], "")];
    FileOfOneLine();
    assert hunks[1..] == [] && hunks[0].edits[1..] == [];
    assert hunks[0] in hunks && DiffRoundTrip.DropsItsOnlyLine(hunks[0]);
    LeftOutCountsApplyIff("a", hunks, "f", "f", true);
  }

  /** An insertion directly behind another hunk is not applied. */
  lemma InsertionBehindAHunkIsRefused()
    ensures var hunks := [Hunk(0, [Context("a")], ""), Hunk(1, [Insert("a")], "")];
      Placed(hunks, 0, 1) && |SplitLines("a")| == 1
      && PatchedText("a", PrintPatch(hunks, "f", "f", true, 1, true)) != Done(Join(Intended(SplitLines("a"), hunks, 0)))
  {
    hide PrintPatch, PatchedText, SplitLines, OneLine, Join, Intended;
    var hunks := [Hunk(0, [Context("a")], ""), Hunk(1, [Insert("a")], "")];
    FileOfOneLine();
    assert hunks[1..] == [hunks[1]] && hunks[1..][1..] == [];
    assert hunks[0].edits[1..] == [] && hunks[1].edits[1..] == [];
    assert !InsertionsSit(["a"], hunks[1..], 1, false);
    assert !InsertionsSit(["a"], hunks, 0, false);
    ScriptAppliesAsMeantIff("a", hunks, "f", "f", true, true);
  }

  /** Deleting two lines of a file of one line runs past its end. */
  lemma DeletionPastTheEndCrashes()
    ensures var hunks := [Hunk(0, [Delete("a"), Delete("b")], "")];
      PatchedText("a", Join(["--- f", "+++ f"] + (PrintAll(hunks, [0]) + DiffRoundTrip.Tail(true)))).Crashed?
  {
    hide PatchedText, SplitLines, OneLine, Join, PrintAll;
    var hunks := [Hunk(0, [Delete("a"), Delete("b")], "")];
    FileOfOneLine();
    var edits := hunks[0].edits;
    assert hunks[..0] == [] && edits[1..] == [Delete("b")] && edits[1..][1..] == [];
    assert DeletesPastEnd(edits[1..], 1, 1);
    CrashesIffDeletesPastEnd("a", hunks, [0], "f", "f", true);
    assert "--- " + "f" == "--- f" && "+++ " + "f" == "+++ f";
  }
}
