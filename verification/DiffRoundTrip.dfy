/** The diff applier against the printer: which printed patches it applies as they were meant. */
module DiffRoundTrip {
  import opened Strings
  import opened DiffText
  import opened UnifiedDiff

  lemma {:induction false} PrintedEdits(edits: seq<Edit>)
    ensures |PrintEdits(edits)| == |edits|
    ensures forall i :: 0 <= i < |edits| ==> PrintEdits(edits)[i] == PrintEdit(edits[i])
  {
    if edits != [] { PrintedEdits(edits[1..]); }
  }

  /** What may follow a hunk in a printed patch. */
  predicate HunkEnds(rest: seq<string>) {
    rest == [] || rest == [""] || Starts("@@", rest[0])
  }

  lemma InHunkAtEnd(file: seq<string>, rest: seq<string>, o: nat, count: int, consumed: nat)
    requires HunkEnds(rest) && o <= |file|
    ensures InHunk(file, rest, o, count, consumed) == BetweenHunks(file, rest, o)
  {
    if rest == [""] && consumed < count {
      assert rest[1..] == [];
      assert BetweenHunks(file, rest, o) == Done(file[o..]);
      if o < |file| {
        assert InHunk(file, [], o + 1, count, consumed + 1) == Done(file[o + 1..]);
        assert [file[o]] + file[o + 1..] == file[o..];
      }
    }
  }

  /** The first character of a printed edit decides how the applier reads it. */
  lemma PrintedEditHead(e: Edit)
    ensures var line := PrintEdit(e);
      && line != "" && line[1..] == e.text && !Starts("@@", line)
      && (Starts(" ", line) <==> e.Context?) && (Starts("-", line) <==> e.Delete?) && (Starts("+", line) <==> e.Insert?)
  {
    var line := PrintEdit(e);
    assert line[0] == (if e.Context? then ' ' else if e.Delete? then '-' else '+');
  }

  lemma OneEdit(file: seq<string>, e: Edit, rest: seq<string>, o: nat, count: int, consumed: nat)
    requires consumed + (if e.Insert? then 0 else 1) <= count && (e.Insert? || o < |file|)
    ensures InHunk(file, [PrintEdit(e)] + rest, o, count, consumed) ==
      match e
      case Context(_) => Prepend([file[o]], InHunk(file, rest, o + 1, count, consumed + 1))
      case Delete(_) => InHunk(file, rest, o + 1, count, consumed + 1)
      case Insert(text) => Prepend([text], InHunk(file, rest, o, count, consumed))
  {
    hide BetweenHunks, PrintEdit;
    PrintedEditHead(e);
    var patch := [PrintEdit(e)] + rest;
    assert patch[0] == PrintEdit(e) && patch[1..] == rest;
  }

  /** A printed hunk body is consumed whole as long as the header does not count fewer old lines. */
  lemma {:induction false} HunkBody(file: seq<string>, edits: seq<Edit>, rest: seq<string>, o: nat, count: int,
      consumed: nat)
    requires HunkEnds(rest) && o + OldCount(edits) <= |file|
    requires consumed + OldCount(edits) <= count
    ensures InHunk(file, PrintEdits(edits) + rest, o, count, consumed)
      == Prepend(Copied(file, edits, o), BetweenHunks(file, rest, o + OldCount(edits)))
  {
    hide BetweenHunks, InHunk, PrintEdit;
    if edits == [] {
      assert PrintEdits(edits) + rest == rest;
      InHunkAtEnd(file, rest, o, count, consumed);
      PrependNothing(BetweenHunks(file, rest, o));
    } else {
      var e, later := edits[0], BetweenHunks(file, rest, o + OldCount(edits));
      LinesAssoc([PrintEdit(e)], PrintEdits(edits[1..]), rest);
      OneEdit(file, e, PrintEdits(edits[1..]) + rest, o, count, consumed);
      match e
      case Context(_) =>
        HunkBody(file, edits[1..], rest, o + 1, count, consumed + 1);
        PrependTwice([file[o]], Copied(file, edits[1..], o + 1), later);
      case Delete(_) =>
        HunkBody(file, edits[1..], rest, o + 1, count, consumed + 1);
      case Insert(text) =>
        HunkBody(file, edits[1..], rest, o, count, consumed);
        PrependTwice([text], Copied(file, edits[1..], o), later);
    }
  }

  /** A hunk whose old count, when left out, would be read as zero. */
  predicate DropsItsOnlyLine(h: Hunk) {
    OldCount(h.edits) == 1 && NewCount(h.edits) == 0
  }

  lemma {:induction false} CountBounds(edits: seq<Edit>)
    ensures OldCount(edits) <= |edits| && NewCount(edits) <= |edits|
  {
    if edits != [] { CountBounds(edits[1..]); }
  }

  lemma {:induction false} CountsSum(edits: seq<Edit>)
    ensures OldCount(edits) + NewCount(edits) >= |edits|
  {
    if edits != [] { CountsSum(edits[1..]); }
  }

  lemma PrintedHeader(h: Hunk, newFrom: nat, explicit: bool)
    requires |h.edits| <= MAX_INT64 && h.start < MAX_INT64
    ensures Starts("@@", PrintHunk(h, newFrom, explicit)[0])
    ensures var o := OldCount(h.edits);
      ParseHunkHeader(PrintHunk(h, newFrom, explicit)[0])
      == Some(HunkHeader(RangeStart(h.start, o), if explicit || o != 1 then o else NewCount(h.edits)))
  {
    var o, n := OldCount(h.edits), NewCount(h.edits);
    CountBounds(h.edits);
    HeaderRoundTrip(RangeStart(h.start, o), o, RangeStart(newFrom, n), n, explicit, h.heading);
  }

  function ReadCount(h: Hunk, explicit: bool): nat {
    if explicit || OldCount(h.edits) != 1 then OldCount(h.edits) else NewCount(h.edits)
  }

  /** Reading one printed hunk: where it starts, and how many old lines it is believed to hold. */
  lemma HunkStep(file: seq<string>, h: Hunk, newFrom: nat, explicit: bool, rest: seq<string>, o: nat)
    requires |h.edits| <= MAX_INT64 && h.start < MAX_INT64
    ensures var s := RangeStart(h.start, OldCount(h.edits)) - 1;
      BetweenHunks(file, PrintHunk(h, newFrom, explicit) + rest, o)
      == if s < 0 || s > |file| then Rejected(StartOutOfRange)
         else if s < o then Rejected(Overlap)
         else Prepend(file[o..s], InHunk(file, PrintEdits(h.edits) + rest, s, ReadCount(h, explicit), 0))
  {
    hide ParseHunkHeader, PrintHeader, InHunk, OldCount, NewCount;
    PrintedHeader(h, newFrom, explicit);
    var patch := PrintHunk(h, newFrom, explicit) + rest;
    assert patch[0] == PrintHunk(h, newFrom, explicit)[0] && patch[0][0] == '@';
    assert patch[1..] == PrintEdits(h.edits) + rest;
  }

  /** An anchored hunk whose count is read as at least its size is applied at its position. */
  lemma OneHunk(file: seq<string>, h: Hunk, newFrom: nat, explicit: bool, rest: seq<string>, o: nat)
    requires |file| <= MAX_INT64 && |h.edits| <= MAX_INT64 && HunkEnds(rest)
    requires o <= h.start && h.start + OldCount(h.edits) <= |file| && OldCount(h.edits) >= 1
    requires explicit || !DropsItsOnlyLine(h)
    ensures BetweenHunks(file, PrintHunk(h, newFrom, explicit) + rest, o)
      == Prepend(file[o..h.start] + Copied(file, h.edits, h.start),
          BetweenHunks(file, rest, h.start + OldCount(h.edits)))
  {
    hide BetweenHunks, InHunk;
    HunkStep(file, h, newFrom, explicit, rest, o);
    CountsSum(h.edits);
    HunkBody(file, h.edits, rest, h.start, ReadCount(h, explicit), 0);
    PrependTwice(file[o..h.start], Copied(file, h.edits, h.start),
        BetweenHunks(file, rest, h.start + OldCount(h.edits)));
  }

  lemma PrintHunksEnds(hunks: seq<Hunk>, from: nat, newFrom: nat, explicit: bool, length: nat, tail: seq<string>)
    requires Placed(hunks, from, length) && (tail == [] || tail == [""])
    ensures HunkEnds(PrintHunks(hunks, from, newFrom, explicit, length) + tail)
  {
    var lines := PrintHunks(hunks, from, newFrom, explicit, length) + tail;
    if hunks == [] {
      assert lines == tail;
    } else {
      assert Starts("@@", lines[0]);
    }
  }

  lemma PrintHunksCons(hunks: seq<Hunk>, from: nat, newFrom: nat, explicit: bool, length: nat, tail: seq<string>)
    requires Placed(hunks, from, length) && hunks != []
    ensures var newStart := newFrom + (hunks[0].start - from);
      PrintHunks(hunks, from, newFrom, explicit, length) + tail
      == PrintHunk(hunks[0], newStart, explicit)
         + (PrintHunks(hunks[1..], hunks[0].start + OldCount(hunks[0].edits), newStart + NewCount(hunks[0].edits),
             explicit, length) + tail)
  {
    hide ParseHunkHeader, PrintHeader;
    var newStart := newFrom + (hunks[0].start - from);
    LinesAssoc(PrintHunk(hunks[0], newStart, explicit),
      PrintHunks(hunks[1..], hunks[0].start + OldCount(hunks[0].edits), newStart + NewCount(hunks[0].edits),
        explicit, length),
      tail);
  }

  lemma LinesAssoc(a: seq<string>, b: seq<string>, c: seq<string>)
    ensures a + b + c == a + (b + c)
  {
  }

  lemma ByPositionStep(file: seq<string>, hunks: seq<Hunk>, from: nat)
    requires Placed(hunks, from, |file|)
    ensures Done(ByPosition(file, hunks, from)) ==
      if hunks == [] then Done(file[from..])
      else Prepend(file[from..hunks[0].start] + Copied(file, hunks[0].edits, hunks[0].start),
                   Done(ByPosition(file, hunks[1..], hunks[0].start + OldCount(hunks[0].edits))))
  {
  }

  lemma {:induction false} AllHunks(file: seq<string>, hunks: seq<Hunk>, from: nat, newFrom: nat, explicit: bool,
      tail: seq<string>)
    requires |file| <= MAX_INT64 && Placed(hunks, from, |file|) && Anchored(hunks) && Printable(hunks)
    requires tail == [] || tail == [""]
    requires explicit || forall h :: h in hunks ==> !DropsItsOnlyLine(h)
    ensures BetweenHunks(file, PrintHunks(hunks, from, newFrom, explicit, |file|) + tail, from)
      == Done(ByPosition(file, hunks, from))
    decreases hunks
  {
    hide BetweenHunks, InHunk, PrintHunk, PrintHeader, Copied, OneLine, OneLineEdits, OldCount, NewCount, ByPosition;
    if hunks == [] {
      NoHunks(file, from, tail);
      ByPositionStep(file, hunks, from);
      assert PrintHunks(hunks, from, newFrom, explicit, |file|) + tail == tail;
    } else {
      var h := hunks[0];
      var next := h.start + OldCount(h.edits);
      var newStart := newFrom + (h.start - from);
      ByPositionStep(file, hunks, from);
      var rest := PrintHunks(hunks[1..], next, newStart + NewCount(h.edits), explicit, |file|) + tail;
      assert h in hunks;
      PrintHunksEnds(hunks[1..], next, newStart + NewCount(h.edits), explicit, |file|, tail);
      PrintHunksCons(hunks, from, newFrom, explicit, |file|, tail);
      AllHunks(file, hunks[1..], next, newStart + NewCount(h.edits), explicit, tail);
      OneHunk(file, h, newStart, explicit, rest, from);
    }
  }

  lemma NoHunks(file: seq<string>, o: nat, tail: seq<string>)
    requires o <= |file| && (tail == [] || tail == [""])
    ensures BetweenHunks(file, tail, o) == Done(file[o..])
  {
    assert tail != [] ==> tail[1..] == [];
  }

  // From lines to text.

  lemma HeaderIsOneLine(oldStart: nat, oldCount: nat, newStart: nat, newCount: nat, explicit: bool, heading: string)
    requires OneLine(heading)
    ensures OneLine(PrintHeader(oldStart, oldCount, newStart, newCount, explicit, heading))
  {
    RangeTextShape(oldStart, oldCount, explicit);
    RangeTextShape(newStart, newCount, explicit);
  }

  lemma PrintHunkIsOneLiners(h: Hunk, newFrom: nat, explicit: bool)
    requires PrintableHunk(h)
    ensures OneLiners(PrintHunk(h, newFrom, explicit))
  {
    hide PrintHeader, OldCount, NewCount, OneLine, PrintEdits, PrintEdit;
    var o, n := OldCount(h.edits), NewCount(h.edits);
    HeaderIsOneLine(RangeStart(h.start, o), o, RangeStart(newFrom, n), n, explicit, h.heading);
    PrintEditsAreOneLiners(h.edits);
  }

  lemma PrintEditsAreOneLiners(edits: seq<Edit>)
    requires OneLineEdits(edits)
    ensures OneLiners(PrintEdits(edits))
  {
    PrintedEdits(edits);
    forall l | l in PrintEdits(edits) ensures OneLine(l) {
      var i :| 0 <= i < |edits| && PrintEdits(edits)[i] == l;
      assert edits[i] in edits;
    }
  }

  lemma {:induction false} PrintHunksAreOneLiners(hunks: seq<Hunk>, from: nat, newFrom: nat, explicit: bool,
      length: nat)
    requires Placed(hunks, from, length) && Printable(hunks)
    ensures OneLiners(PrintHunks(hunks, from, newFrom, explicit, length))
    decreases hunks
  {
    hide ParseHunkHeader, PrintHeader;
    if hunks != [] {
      var h := hunks[0];
      assert h in hunks;
      var newStart := newFrom + (h.start - from);
      PrintHunksAreOneLiners(hunks[1..], h.start + OldCount(h.edits), newStart + NewCount(h.edits), explicit, length);
      PrintHunkIsOneLiners(h, newStart, explicit);
    }
  }

  function Tail(finalNewline: bool): seq<string> {
    if finalNewline then [""] else []
  }

  /** The text of a patch splits back into its lines, and the file headers are skipped. */
  lemma PatchIsItsBody(original: string, oldPath: string, newPath: string, body: seq<string>)
    requires OneLine(oldPath) && OneLine(newPath) && OneLiners(body)
    ensures PatchedText(original, Join(["--- " + oldPath, "+++ " + newPath] + body))
      == Rendered(BetweenHunks(SplitLines(original), body, 0))
  {
    hide Join;
    var lines := ["--- " + oldPath, "+++ " + newPath] + body;
    SplitLinesJoin(lines);
    SkipFileHeaders(SplitLines(original), lines[0], lines[1], body);
  }

  lemma PatchIsHunks(original: string, hunks: seq<Hunk>, oldPath: string, newPath: string, explicit: bool,
      finalNewline: bool)
    requires Placed(hunks, 0, |SplitLines(original)|) && Printable(hunks) && OneLine(oldPath) && OneLine(newPath)
    ensures var file := SplitLines(original);
      PatchedText(original, PrintPatch(hunks, oldPath, newPath, explicit, |file|, finalNewline))
      == Rendered(BetweenHunks(file, PrintHunks(hunks, 0, 0, explicit, |file|) + Tail(finalNewline), 0))
  {
    hide Join, PatchedText, BetweenHunks;
    var length := |SplitLines(original)|;
    PrintHunksAreOneLiners(hunks, 0, 0, explicit, length);
    PatchIsItsBody(original, oldPath, newPath, PrintHunks(hunks, 0, 0, explicit, length) + Tail(finalNewline));
    LinesAssoc(["--- " + oldPath, "+++ " + newPath], PrintHunks(hunks, 0, 0, explicit, length), Tail(finalNewline));
  }

  lemma SkipFileHeaders(file: seq<string>, first: string, second: string, rest: seq<string>)
    requires Starts("---", first) && Starts("+++", second)
    ensures BetweenHunks(file, [first, second] + rest, 0) == BetweenHunks(file, rest, 0)
  {
    var lines := [first, second] + rest;
    assert lines[1..][1..] == rest;
    assert BetweenHunks(file, lines[1..], 0) == BetweenHunks(file, rest, 0);
  }

  /** A patch printed with explicit counts is applied at its positions: insertions as written,
      deletions and context taken from the file. */
  lemma PrintedPatchApplies(original: string, hunks: seq<Hunk>, oldPath: string, newPath: string, finalNewline: bool)
    requires |SplitLines(original)| <= MAX_INT64 && OneLine(oldPath) && OneLine(newPath)
    requires Placed(hunks, 0, |SplitLines(original)|) && Anchored(hunks) && Printable(hunks)
    ensures var file := SplitLines(original);
      PatchedText(original, PrintPatch(hunks, oldPath, newPath, true, |file|, finalNewline))
      == Done(Join(ByPosition(file, hunks, 0)))
  {
    PatchIsHunks(original, hunks, oldPath, newPath, true, finalNewline);
    AllHunks(SplitLines(original), hunks, 0, 0, true, Tail(finalNewline));
  }

  // When position-only application agrees with the meaning of the patch.

  predicate ContextMatches(file: seq<string>, edits: seq<Edit>, o: nat)
    requires o + OldCount(edits) <= |file|
  {
    if edits == [] then true
    else
      match edits[0]
      case Context(text) => text == file[o] && ContextMatches(file, edits[1..], o + 1)
      case Delete(_) => ContextMatches(file, edits[1..], o + 1)
      case Insert(_) => ContextMatches(file, edits[1..], o)
  }

  predicate ContextsMatch(file: seq<string>, hunks: seq<Hunk>, from: nat)
    requires Placed(hunks, from, |file|)
  {
    hunks != [] ==>
      && ContextMatches(file, hunks[0].edits, hunks[0].start)
      && ContextsMatch(file, hunks[1..], hunks[0].start + OldCount(hunks[0].edits))
  }

  lemma {:induction false} CopiedIsMeant(file: seq<string>, edits: seq<Edit>, o: nat)
    requires o + OldCount(edits) <= |file|
    ensures |Copied(file, edits, o)| == |Meant(edits)|
    ensures Copied(file, edits, o) == Meant(edits) <==> ContextMatches(file, edits, o)
    decreases edits
  {
    if edits != [] {
      CopiedIsMeant(file, edits[1..], if edits[0].Insert? then o else o + 1);
      if !edits[0].Delete? {
        assert Copied(file, edits, o)[1..] == Copied(file, edits[1..], if edits[0].Insert? then o else o + 1);
        assert Meant(edits)[1..] == Meant(edits[1..]);
      } else {
        assert Meant(edits) == Meant(edits[1..]);
      }
    }
  }

  lemma ConcatEqual(front: seq<string>, a: seq<string>, b: seq<string>, restA: seq<string>, restB: seq<string>)
    requires |a| == |b|
    ensures front + a + restA == front + b + restB <==> a == b && restA == restB
  {
    var x, y := front + a + restA, front + b + restB;
    if x == y {
      assert a == x[|front|..|front| + |a|] && restA == x[|front| + |a|..];
      assert b == y[|front|..|front| + |b|] && restB == y[|front| + |b|..];
    }
  }

  lemma {:induction false} ByPositionIsIntended(file: seq<string>, hunks: seq<Hunk>, from: nat)
    requires Placed(hunks, from, |file|)
    ensures |ByPosition(file, hunks, from)| == |Intended(file, hunks, from)|
    ensures ByPosition(file, hunks, from) == Intended(file, hunks, from) <==> ContextsMatch(file, hunks, from)
    decreases hunks
  {
    if hunks != [] {
      var next := hunks[0].start + OldCount(hunks[0].edits);
      CopiedIsMeant(file, hunks[0].edits, hunks[0].start);
      ByPositionIsIntended(file, hunks[1..], next);
      ConcatEqual(file[from..hunks[0].start], Copied(file, hunks[0].edits, hunks[0].start), Meant(hunks[0].edits),
                  ByPosition(file, hunks[1..], next), Intended(file, hunks[1..], next));
    }
  }

  lemma {:induction false} CopiedIsOneLiners(file: seq<string>, edits: seq<Edit>, o: nat)
    requires o + OldCount(edits) <= |file| && OneLiners(file) && OneLineEdits(edits)
    ensures OneLiners(Copied(file, edits, o)) && OneLiners(Meant(edits))
    decreases edits
  {
    if edits != [] {
      assert edits[0] in edits;
      CopiedIsOneLiners(file, edits[1..], if edits[0].Insert? then o else o + 1);
    }
  }

  lemma {:induction false} ResultsAreOneLiners(file: seq<string>, hunks: seq<Hunk>, from: nat)
    requires Placed(hunks, from, |file|) && OneLiners(file) && Printable(hunks)
    ensures OneLiners(ByPosition(file, hunks, from)) && OneLiners(Intended(file, hunks, from))
    decreases hunks
  {
    if hunks != [] {
      assert hunks[0] in hunks;
      CopiedIsOneLiners(file, hunks[0].edits, hunks[0].start);
      ResultsAreOneLiners(file, hunks[1..], hunks[0].start + OldCount(hunks[0].edits));
    }
  }

  /** The applier never compares context: it produces the text the patch means exactly when
      every context line already equals the file's line. */
  lemma AppliesAsMeantIffContextMatches(original: string, hunks: seq<Hunk>, oldPath: string, newPath: string,
      finalNewline: bool)
    requires |SplitLines(original)| <= MAX_INT64 && OneLine(oldPath) && OneLine(newPath)
    requires Placed(hunks, 0, |SplitLines(original)|) && Anchored(hunks) && Printable(hunks)
    ensures var file := SplitLines(original);
      PatchedText(original, PrintPatch(hunks, oldPath, newPath, true, |file|, finalNewline))
          == Done(Join(Intended(file, hunks, 0)))
      <==> ContextsMatch(file, hunks, 0)
  {
    var file := SplitLines(original);
    PrintedPatchApplies(original, hunks, oldPath, newPath, finalNewline);
    ByPositionIsIntended(file, hunks, 0);
    SplitLinesShape(original);
    ResultsAreOneLiners(file, hunks, 0);
    if Join(ByPosition(file, hunks, 0)) == Join(Intended(file, hunks, 0)) && ByPosition(file, hunks, 0) != [] {
      JoinIsInjective(ByPosition(file, hunks, 0), Intended(file, hunks, 0));
    }
  }
}
