/** Patches outside the well-anchored form: exactly when the diff applier still does what they say. */
module DiffLimits {
  import opened Strings
  import opened DiffText
  import opened UnifiedDiff
  import opened DiffRoundTrip

  // Left-out counts. diff prints "-5" for one line; next to "+4,0" the applier then reads a count of zero.

  predicate DeletesMatch(file: seq<string>, edits: seq<Edit>, o: nat)
    requires o + OldCount(edits) <= |file|
  {
    if edits == [] then true
    else
      match edits[0]
      case Context(_) => DeletesMatch(file, edits[1..], o + 1)
      case Delete(text) => text == file[o] && DeletesMatch(file, edits[1..], o + 1)
      case Insert(_) => DeletesMatch(file, edits[1..], o)
  }

  predicate DeletionsMatch(file: seq<string>, hunks: seq<Hunk>, from: nat)
    requires Placed(hunks, from, |file|)
  {
    hunks != [] ==>
      && DeletesMatch(file, hunks[0].edits, hunks[0].start)
      && DeletionsMatch(file, hunks[1..], hunks[0].start + OldCount(hunks[0].edits))
  }

  lemma OnlyOneDelete(h: Hunk)
    requires DropsItsOnlyLine(h)
    ensures |h.edits| == 1 && h.edits[0].Delete?
  {
    CountsSum(h.edits);
  }

  /** Text kept where a line should have gone shows in the result. */
  ghost predicate KeepsTooMuch(r: LinesResult, wanted: seq<string>) {
    r.Done? ==> |r.value| > |wanted| && exists l :: l in r.value && l != ""
  }

  ghost predicate KeepsEnough(r: LinesResult, wanted: seq<string>) {
    r.Done? ==> |r.value| >= |wanted|
  }

  /** Applying the rest of a printed patch from an earlier line only puts the skipped lines in front. */
  lemma EarlierStart(file: seq<string>, h: Hunk, newFrom: nat, explicit: bool, rest: seq<string>, o: nat, from: nat)
    requires |h.edits| <= MAX_INT64 && o <= from <= h.start < |file| <= MAX_INT64 && OldCount(h.edits) >= 1
    ensures BetweenHunks(file, PrintHunk(h, newFrom, explicit) + rest, o)
      == Prepend(file[o..from], BetweenHunks(file, PrintHunk(h, newFrom, explicit) + rest, from))
  {
    hide BetweenHunks, InHunk;
    HunkStep(file, h, newFrom, explicit, rest, o);
    HunkStep(file, h, newFrom, explicit, rest, from);
    PrependTwice(file[o..from], file[from..h.start],
      InHunk(file, PrintEdits(h.edits) + rest, h.start, ReadCount(h, explicit), 0));
    assert file[o..from] + file[from..h.start] == file[o..h.start];
  }

  lemma EarlierStartAll(file: seq<string>, hunks: seq<Hunk>, from: nat, newFrom: nat, tail: seq<string>, o: nat)
    requires |file| <= MAX_INT64 && Placed(hunks, from, |file|) && Anchored(hunks) && Printable(hunks)
    requires (tail == [] || tail == [""]) && o <= from
    ensures BetweenHunks(file, PrintHunks(hunks, from, newFrom, false, |file|) + tail, o)
      == Prepend(file[o..from], BetweenHunks(file, PrintHunks(hunks, from, newFrom, false, |file|) + tail, from))
  {
    hide ParseHunkHeader, PrintHeader;
    if hunks == [] {
      assert PrintHunks(hunks, from, newFrom, false, |file|) + tail == tail;
      NoHunks(file, o, tail);
      NoHunks(file, from, tail);
      assert file[o..from] + file[from..] == file[o..];
    } else {
      var h := hunks[0];
      assert h in hunks;
      var next, newStart := h.start + OldCount(h.edits), newFrom + (h.start - from);
      PrintHunksCons(hunks, from, newFrom, false, |file|, tail);
      EarlierStart(file, h, newStart, false, PrintHunks(hunks[1..], next, newStart + NewCount(h.edits), false, |file|)
          + tail, o, from);
    }
  }

  /** A lone deletion with a left-out count stops the run or is passed over. */
  lemma LoneDeletion(file: seq<string>, h: Hunk, newFrom: nat, rest: seq<string>, o: nat)
    requires |file| <= MAX_INT64 && |h.edits| <= MAX_INT64 && o <= h.start < |file| && DropsItsOnlyLine(h)
    ensures BetweenHunks(file, PrintHunk(h, newFrom, false) + rest, o)
      == if "--" <= h.edits[0].text then Prepend(file[o..h.start], BetweenHunks(file, rest, h.start))
         else Rejected(UnexpectedLine)
  {
    OnlyOneDelete(h);
    HunkStep(file, h, newFrom, false, rest, o);
    var line := PrintEdit(h.edits[0]);
    PrintedEditHead(h.edits[0]);
    assert PrintEdits(h.edits) == [line] by { assert h.edits[1..] == []; }
    UnreadDeletion(file, line, rest, h.start);
  }

  lemma UnreadDeletion(file: seq<string>, line: string, rest: seq<string>, o: nat)
    requires Starts("-", line)
    ensures InHunk(file, [line] + rest, o, 0, 0)
      == if "--" <= line[1..] then BetweenHunks(file, rest, o) else Rejected(UnexpectedLine)
  {
    var patch := [line] + rest;
    assert patch[1..] == rest && line[0] == '-';
    assert Starts("---", line) <==> "--" <= line[1..] by {
      assert "---"[1..] == "--";
      if "--" <= line[1..] { assert line == "-" + line[1..]; }
    }
    assert InHunk(file, patch, o, 0, 0) == BetweenHunks(file, patch, o);
  }

  predicate SomeLoneDeletion(hunks: seq<Hunk>) {
    hunks != [] && (DropsItsOnlyLine(hunks[0]) || SomeLoneDeletion(hunks[1..]))
  }

  lemma {:induction false} LoneDeletionsAreMembers(hunks: seq<Hunk>)
    ensures SomeLoneDeletion(hunks) <==> exists h :: h in hunks && DropsItsOnlyLine(h)
  {
    if hunks != [] {
      LoneDeletionsAreMembers(hunks[1..]);
      assert hunks == [hunks[0]] + hunks[1..];
    }
  }

  lemma {:induction false} LeftOutCounts(file: seq<string>, hunks: seq<Hunk>, from: nat, newFrom: nat,
      tail: seq<string>)
    requires |file| <= MAX_INT64 && Placed(hunks, from, |file|) && Anchored(hunks) && Printable(hunks)
    requires tail == [] || tail == [""]
    requires DeletionsMatch(file, hunks, from)
    ensures var r := BetweenHunks(file, PrintHunks(hunks, from, newFrom, false, |file|) + tail, from);
      && KeepsEnough(r, ByPosition(file, hunks, from))
      && (SomeLoneDeletion(hunks) ==> KeepsTooMuch(r, ByPosition(file, hunks, from)))
    decreases hunks
  {
    hide BetweenHunks, InHunk, PrintHunk, PrintHeader, Copied, ByPosition, OneLine, OneLineEdits;
    LoneDeletionsAreMembers(hunks);
    if !SomeLoneDeletion(hunks) {
      AllHunks(file, hunks, from, newFrom, false, tail);
    } else {
      var h := hunks[0];
      assert h in hunks;
      var next, newNext := h.start + OldCount(h.edits), newFrom + (h.start - from) + NewCount(h.edits);
      LeftOutCounts(file, hunks[1..], next, newNext, tail);
      var printed := PrintHunks(hunks[1..], next, newNext, false, |file|) + tail;
      PrintHunksCons(hunks, from, newFrom, false, |file|, tail);
      var later := BetweenHunks(file, printed, next);
      if DropsItsOnlyLine(h) {
        LeftOutByLoneDeletion(file, hunks, from, newFrom, tail, later);
      } else {
        PrintHunksEnds(hunks[1..], next, newNext, false, |file|, tail);
        OneHunk(file, h, newFrom + (h.start - from), false, printed, from);
        SoundHunkKeeps(file, hunks, from, later);
      }
    }
  }

  lemma LeftOutByLoneDeletion(file: seq<string>, hunks: seq<Hunk>, from: nat, newFrom: nat, tail: seq<string>,
      later: LinesResult)
    requires |file| <= MAX_INT64 && Placed(hunks, from, |file|) && Anchored(hunks) && Printable(hunks)
    requires tail == [] || tail == [""]
    requires DeletionsMatch(file, hunks, from) && hunks != [] && DropsItsOnlyLine(hunks[0])
    requires var h := hunks[0];
      var next, newNext := h.start + OldCount(h.edits), newFrom + (h.start - from) + NewCount(h.edits);
      && later == BetweenHunks(file, PrintHunks(hunks[1..], next, newNext, false, |file|) + tail, next)
      && KeepsEnough(later, ByPosition(file, hunks[1..], next))
    ensures KeepsTooMuch(BetweenHunks(file, PrintHunks(hunks, from, newFrom, false, |file|) + tail, from),
        ByPosition(file, hunks, from))
  {
    hide BetweenHunks, InHunk, PrintHunk, PrintHeader, Copied, ByPosition, OneLine, OneLineEdits;
    var h := hunks[0];
    assert h in hunks;
    var next, newNext := h.start + OldCount(h.edits), newFrom + (h.start - from) + NewCount(h.edits);
    PrintHunksCons(hunks, from, newFrom, false, |file|, tail);
    OnlyOneDelete(h);
    LoneDeletion(file, h, newFrom + (h.start - from), PrintHunks(hunks[1..], next, newNext, false, |file|) + tail,
        from);
    EarlierStartAll(file, hunks[1..], next, newNext, tail, h.start);
    LoneDeletionKeepsItsLine(file, hunks, from, later);
  }

  lemma SoundHunkKeeps(file: seq<string>, hunks: seq<Hunk>, from: nat, later: LinesResult)
    requires hunks != [] && Placed(hunks, from, |file|)
    ensures var h := hunks[0];
      var wanted := ByPosition(file, hunks[1..], h.start + OldCount(h.edits));
      var r := Prepend(file[from..h.start] + Copied(file, h.edits, h.start), later);
      && (KeepsEnough(later, wanted) ==> KeepsEnough(r, ByPosition(file, hunks, from)))
      && (KeepsTooMuch(later, wanted) ==> KeepsTooMuch(r, ByPosition(file, hunks, from)))
  {
    if later.Done? && exists l :: l in later.value && l != "" {
      var l :| l in later.value && l != "";
      assert l in file[from..hunks[0].start] + Copied(file, hunks[0].edits, hunks[0].start) + later.value;
    }
  }

  lemma LoneDeletionKeepsItsLine(file: seq<string>, hunks: seq<Hunk>, from: nat, later: LinesResult)
    requires hunks != [] && Placed(hunks, from, |file|) && DropsItsOnlyLine(hunks[0])
    requires DeletionsMatch(file, hunks, from)
    requires KeepsEnough(later, ByPosition(file, hunks[1..], hunks[0].start + 1))
    ensures |hunks[0].edits| == 1
    ensures "--" <= hunks[0].edits[0].text ==>
      KeepsTooMuch(Prepend(file[from..hunks[0].start], Prepend(file[hunks[0].start..hunks[0].start + 1], later)),
          ByPosition(file, hunks, from))
  {
    var h := hunks[0];
    OnlyOneDelete(h);
    assert h.edits[1..] == [];
    var wanted := ByPosition(file, hunks, from);
    var rest := ByPosition(file, hunks[1..], h.start + 1);
    assert wanted == file[from..h.start] + rest by { assert Copied(file, h.edits, h.start) == []; }
    if "--" <= h.edits[0].text && later.Done? {
      KeptLine(file[from..h.start], file[h.start], later.value);
      assert file[h.start..h.start + 1] == [file[h.start]];
    }
  }

  lemma KeptLine(front: seq<string>, line: string, rest: seq<string>)
    ensures line in front + ([line] + rest)
    ensures |front + ([line] + rest)| == |front| + 1 + |rest|
  {
    assert (front + ([line] + rest))[|front|] == line;
  }

  lemma SliceIsOneLiners(lines: seq<string>, from: nat, to: nat)
    requires OneLiners(lines) && from <= to <= |lines|
    ensures OneLiners(lines[from..to])
  {
    assert forall l :: l in lines[from..to] ==> l in lines;
  }

  lemma {:induction false} ResultIsOneLiners(file: seq<string>, patch: seq<string>, o: nat)
    requires OneLiners(file) && OneLiners(patch)
    ensures BetweenHunks(file, patch, o).Done? ==> OneLiners(BetweenHunks(file, patch, o).value)
    decreases |patch|, 0
  {
    hide ParseHunkHeader, InHunk;
    if patch != [] {
      if Starts("@@", patch[0]) {
        assert patch[0][0] == '@';
        var header := ParseHunkHeader(patch[0]);
        if header.Some? && o <= header.value.start - 1 <= |file| {
          var s := header.value.start - 1;
          var body := InHunk(file, patch[1..], s, header.value.count, 0);
          HunkResultIsOneLiners(file, patch[1..], s, header.value.count, 0);
          assert BetweenHunks(file, patch, o) == Prepend(file[o..s], body);
          SliceIsOneLiners(file, o, s);
        }
      } else {
        ResultIsOneLiners(file, patch[1..], o);
      }
    }
  }

  lemma {:induction false} HunkResultIsOneLiners(file: seq<string>, patch: seq<string>, o: nat, count: int,
      consumed: nat)
    requires OneLiners(file) && OneLiners(patch)
    ensures InHunk(file, patch, o, count, consumed).Done? ==> OneLiners(InHunk(file, patch, o, count, consumed).value)
    decreases |patch|, 1
  {
    ResultIsOneLiners(file, patch, o);
    if patch != [] {
      assert patch[0] in patch;
      HunkResultIsOneLiners(file, patch[1..], o, count, consumed);
      HunkResultIsOneLiners(file, patch[1..], o, count, consumed + 1);
      HunkResultIsOneLiners(file, patch[1..], o + 1, count, consumed + 1);
    }
  }

  lemma LongerListsJoinApart(a: seq<string>, b: seq<string>)
    requires OneLiners(a) && OneLiners(b)
    requires |a| > |b| && exists l :: l in a && l != ""
    ensures Join(a) != Join(b)
  {
    SplitJoin(a);
    if b != [] {
      SplitJoin(b);
    } else {
      assert Split("") == [""];
    }
  }

  /** Headers in the short style are applied correctly exactly when no hunk removes one line and leaves none. */
  lemma LeftOutCountsApplyIff(original: string, hunks: seq<Hunk>, oldPath: string, newPath: string, finalNewline: bool)
    requires |SplitLines(original)| <= MAX_INT64 && OneLine(oldPath) && OneLine(newPath)
    requires Placed(hunks, 0, |SplitLines(original)|) && Anchored(hunks) && Printable(hunks)
    requires DeletionsMatch(SplitLines(original), hunks, 0)
    ensures var file := SplitLines(original);
      PatchedText(original, PrintPatch(hunks, oldPath, newPath, false, |file|, finalNewline))
          == Done(Join(ByPosition(file, hunks, 0)))
      <==> forall h :: h in hunks ==> !DropsItsOnlyLine(h)
  {
    var file := SplitLines(original);
    var wanted := ByPosition(file, hunks, 0);
    PatchIsHunks(original, hunks, oldPath, newPath, false, finalNewline);
    LoneDeletionsAreMembers(hunks);
    if !SomeLoneDeletion(hunks) {
      AllHunks(file, hunks, 0, 0, false, Tail(finalNewline));
    } else {
      LeftOutCounts(file, hunks, 0, 0, Tail(finalNewline));
      var r := BetweenHunks(file, PrintHunks(hunks, 0, 0, false, |file|) + Tail(finalNewline), 0);
      if r.Done? && Join(r.value) == Join(wanted) {
        SplitLinesShape(original);
        PrintHunksAreOneLiners(hunks, 0, 0, false, |file|);
        ResultIsOneLiners(file, PrintHunks(hunks, 0, 0, false, |file|) + Tail(finalNewline), 0);
        ResultsAreOneLiners(file, hunks, 0);
        LongerListsJoinApart(r.value, wanted);
        assert false;
      }
    }
  }

  // Hunks without old lines: the applier starts them one line early.

  function StartOf(h: Hunk): int {
    RangeStart(h.start, OldCount(h.edits)) - 1
  }

  /** What becomes of a placed script read from old line o. */
  function Applying(file: seq<string>, hunks: seq<Hunk>, from: nat, o: nat): LinesResult
    requires Placed(hunks, from, |file|) && o <= from
  {
    if hunks == [] then Done(file[o..])
    else
      var h := hunks[0];
      var s := StartOf(h);
      if s < 0 then Rejected(StartOutOfRange)
      else if s < o then Rejected(Overlap)
      else
        Prepend(file[o..s] + Copied(file, h.edits, s),
                Applying(file, hunks[1..], h.start + OldCount(h.edits), s + OldCount(h.edits)))
  }

  lemma OneHunkIsApplied(
    file: seq<string>, h: Hunk, newFrom: nat, explicit: bool, rest: seq<string>, o: nat)
    requires |file| < MAX_INT64 && |h.edits| <= MAX_INT64 && HunkEnds(rest)
    requires h.start + OldCount(h.edits) <= |file| && (explicit || !DropsItsOnlyLine(h))
    ensures var s := StartOf(h);
      BetweenHunks(file, PrintHunk(h, newFrom, explicit) + rest, o)
      == if s < 0 then Rejected(StartOutOfRange)
         else if s < o then Rejected(Overlap)
         else Prepend(file[o..s] + Copied(file, h.edits, s), BetweenHunks(file, rest, s + OldCount(h.edits)))
  {
    hide BetweenHunks, InHunk, PrintHunk;
    var s := StartOf(h);
    HunkStep(file, h, newFrom, explicit, rest, o);
    if 0 <= s && o <= s {
      CountsSum(h.edits);
      HunkBody(file, h.edits, rest, s, ReadCount(h, explicit), 0);
      PrependTwice(file[o..s], Copied(file, h.edits, s), BetweenHunks(file, rest, s + OldCount(h.edits)));
    }
  }

  /** What follows the first hunk of a printed script. */
  function Rest(hunks: seq<Hunk>, from: nat, newFrom: nat, explicit: bool, length: nat, tail: seq<string>): seq<string>
    requires hunks != [] && Placed(hunks, from, length)
  {
    var h := hunks[0];
    PrintHunks(hunks[1..], h.start + OldCount(h.edits), newFrom + (h.start - from) + NewCount(h.edits), explicit,
               length)
    + tail
  }

  lemma RestFollows(hunks: seq<Hunk>, from: nat, newFrom: nat, explicit: bool, length: nat, tail: seq<string>)
    requires hunks != [] && Placed(hunks, from, length) && Printable(hunks) && (tail == [] || tail == [""])
    ensures PrintHunks(hunks, from, newFrom, explicit, length) + tail
      == PrintHunk(hunks[0], newFrom + (hunks[0].start - from), explicit)
        + Rest(hunks, from, newFrom, explicit, length, tail)
    ensures HunkEnds(Rest(hunks, from, newFrom, explicit, length, tail)) && |hunks[0].edits| <= MAX_INT64
  {
    hide PrintHunks, PrintHunk, OldCount, NewCount, HunkEnds, OneLine, OneLineEdits;
    var h := hunks[0];
    assert h in hunks;
    var next, newNext := h.start + OldCount(h.edits), newFrom + (h.start - from) + NewCount(h.edits);
    PrintHunksEnds(hunks[1..], next, newNext, explicit, length, tail);
    PrintHunksCons(hunks, from, newFrom, explicit, length, tail);
  }

  lemma SoundStep(
    file: seq<string>, hunks: seq<Hunk>, from: nat, newFrom: nat, explicit: bool, tail: seq<string>, o: nat)
    requires |file| < MAX_INT64 && Placed(hunks, from, |file|) && Printable(hunks) && o <= from && hunks != []
    requires (tail == [] || tail == [""]) && (explicit || !DropsItsOnlyLine(hunks[0]))
    requires var h := hunks[0];
      StartOf(h) >= 0 ==>
        BetweenHunks(file, Rest(hunks, from, newFrom, explicit, |file|, tail), StartOf(h) + OldCount(h.edits))
        == Applying(file, hunks[1..], h.start + OldCount(h.edits), StartOf(h) + OldCount(h.edits))
    ensures BetweenHunks(file, PrintHunks(hunks, from, newFrom, explicit, |file|) + tail, o)
      == Applying(file, hunks, from, o)
  {
    hide BetweenHunks, PrintHunk, PrintHunks, Copied, OldCount, NewCount, DropsItsOnlyLine, Rest, Printable;
    PlacedInside(hunks, from, |file|);
    RestFollows(hunks, from, newFrom, explicit, |file|, tail);
    OneHunkIsApplied(file, hunks[0], newFrom + (hunks[0].start - from), explicit,
      Rest(hunks, from, newFrom, explicit, |file|, tail), o);
  }

  /** The printed script does that, whatever its hunks. */
  lemma {:induction false} ScriptIsApplied(
    file: seq<string>, hunks: seq<Hunk>, from: nat, newFrom: nat, explicit: bool, tail: seq<string>, o: nat)
    requires |file| < MAX_INT64 && Placed(hunks, from, |file|) && Printable(hunks) && o <= from
    requires (tail == [] || tail == [""]) && (explicit || forall h :: h in hunks ==> !DropsItsOnlyLine(h))
    ensures BetweenHunks(file, PrintHunks(hunks, from, newFrom, explicit, |file|) + tail, o)
      == Applying(file, hunks, from, o)
    decreases hunks
  {
    hide BetweenHunks, PrintHunk, Copied, OldCount, NewCount, DropsItsOnlyLine, OneLine, OneLineEdits;
    if hunks == [] {
      NoHunks(file, o, tail);
      assert PrintHunks(hunks, from, newFrom, explicit, |file|) + tail == tail;
    } else {
      hide Applying;
      var h := hunks[0];
      assert h in hunks;
      if 0 <= StartOf(h) {
        ScriptIsApplied(file, hunks[1..], h.start + OldCount(h.edits),
          newFrom + (h.start - from) + NewCount(h.edits), explicit, tail, StartOf(h) + OldCount(h.edits));
      }
      SoundStep(file, hunks, from, newFrom, explicit, tail, o);
    }
  }

  lemma {:induction false} PlacedInside(hunks: seq<Hunk>, from: nat, length: nat)
    requires Placed(hunks, from, length) && hunks != []
    ensures hunks[0].start + OldCount(hunks[0].edits) <= length
  {
  }

  /** Hunks without old lines go where they were meant: behind a line of the file that each of their lines repeats,
      and not directly behind a hunk with old lines. */
  predicate InsertionsSit(file: seq<string>, hunks: seq<Hunk>, from: nat, behindInsertion: bool)
    requires Placed(hunks, from, |file|)
  {
    hunks != [] ==>
      var h := hunks[0];
      var next := h.start + OldCount(h.edits);
      if OldCount(h.edits) == 0 then
        && h.start >= 1 && (from < h.start || behindInsertion)
        && Repeats(Meant(h.edits), file[h.start - 1])
        && InsertionsSit(file, hunks[1..], next, true)
      else InsertionsSit(file, hunks[1..], next, false)
  }

  lemma {:induction false} InsertionsAreCopied(file: seq<string>, edits: seq<Edit>, o: nat)
    requires OldCount(edits) == 0 && o <= |file|
    ensures Copied(file, edits, o) == Meant(edits) && ContextMatches(file, edits, o)
  {
    if edits != [] { InsertionsAreCopied(file, edits[1..], o); }
  }

  predicate Repeats(lines: seq<string>, x: string) {
    forall l :: l in lines ==> l == x
  }

  lemma RepeatsFromHead(lines: seq<string>, x: string)
    requires lines != []
    ensures Repeats(lines, x) <==> lines[0] == x && Repeats(lines[1..], x)
  {
    assert lines == [lines[0]] + lines[1..];
    assert lines[0] in lines;
    if Repeats(lines, x) {
      forall l | l in lines[1..] ensures l == x { assert l in lines; }
    }
  }

  lemma EqualFromHead(a: string, b: string, s: seq<string>, t: seq<string>)
    ensures [a] + s == [b] + t <==> a == b && s == t
  {
    assert ([a] + s)[0] == a && ([b] + t)[0] == b && ([a] + s)[1..] == s && ([b] + t)[1..] == t;
  }

  /** A line passes through lines in front of it only if they all repeat it. */
  lemma {:induction false} LinePassesThrough(x: string, lines: seq<string>, y: seq<string>, z: seq<string>)
    ensures lines + y == [x] + (lines + z) <==> Repeats(lines, x) && y == [x] + z
  {
    hide Repeats;
    if lines == [] {
      assert lines + y == y && lines + z == z;
      NothingRepeats(x);
    } else {
      var rest := lines[1..];
      LinePassesThrough(x, rest, y, z);
      RepeatsFromHead(lines, x);
      LinesAssoc([lines[0]], rest, y);
      LinesAssoc([lines[0]], rest, z);
      assert lines == [lines[0]] + rest;
      EqualFromHead(lines[0], x, rest + y, lines + z);
    }
  }

  lemma NothingRepeats(x: string)
    ensures Repeats([], x)
  {
  }

  /** Which scripts are applied as meant, from a point where the applier stands at the meant line, or, behind a hunk
      without old lines, one line before it. */
  lemma {:induction false} ApplyingIsMeantIff(
    file: seq<string>, hunks: seq<Hunk>, from: nat, o: nat, behindInsertion: bool)
    requires Placed(hunks, from, |file|) && (behindInsertion ==> from >= 1)
    requires o == if behindInsertion then from - 1 else from
    ensures var r := Applying(file, hunks, from, o);
      && (r.Done? ==> |r.value| == from - o + |Intended(file, hunks, from)|)
      && (r == Done(file[o..from] + Intended(file, hunks, from))
          <==> ContextsMatch(file, hunks, from) && InsertionsSit(file, hunks, from, behindInsertion))
    decreases hunks
  {
    hide Copied, Meant, ContextMatches, Applying, Intended, Repeats;
    if hunks == [] {
      EmptyScriptIsMeant(file, from, o);
    } else {
      var h := hunks[0];
      var next := h.start + OldCount(h.edits);
      CopiedIsMeant(file, h.edits, h.start);
      IntendedBehind(file, hunks, from, o);
      if OldCount(h.edits) == 0 {
        InsertionsAreCopied(file, h.edits, h.start);
        if h.start == 0 || h.start - 1 < o {
          EarlyHunkIsRefused(file, hunks, from, o);
        } else {
          ApplyingIsMeantIff(file, hunks[1..], next, next - 1, true);
          EarlyHunkIsMeantIff(file, hunks, from, o);
        }
      } else {
        ApplyingIsMeantIff(file, hunks[1..], next, next, false);
        AnchoredHunkIsMeantIff(file, hunks, from, o);
        assert file[next..next] + Intended(file, hunks[1..], next) == Intended(file, hunks[1..], next);
      }
    }
  }

  lemma EmptyScriptIsMeant(file: seq<string>, from: nat, o: nat)
    requires o <= from <= |file|
    ensures Applying(file, [], from, o) == Done(file[o..from] + Intended(file, [], from))
    ensures |file[o..from] + Intended(file, [], from)| == from - o + |Intended(file, [], from)|
  {
    assert file[o..] == file[o..from] + file[from..];
  }

  lemma EarlyHunkIsRefused(file: seq<string>, hunks: seq<Hunk>, from: nat, o: nat)
    requires hunks != [] && Placed(hunks, from, |file|) && o <= from && OldCount(hunks[0].edits) == 0
    requires hunks[0].start == 0 || hunks[0].start - 1 < o
    ensures Applying(file, hunks, from, o).Rejected?
  {
  }

  lemma AnchoredHunkIsMeantIff(file: seq<string>, hunks: seq<Hunk>, from: nat, o: nat)
    requires hunks != [] && Placed(hunks, from, |file|) && o <= from && OldCount(hunks[0].edits) >= 1
    ensures var h := hunks[0];
      var next := h.start + OldCount(h.edits);
      var later, r := Applying(file, hunks[1..], next, next), Applying(file, hunks, from, o);
      && r.Done? == later.Done?
      && (r.Done? ==> |r.value| == h.start - o + |Meant(h.edits)| + |later.value|)
      && (r == Done(file[o..from] + Intended(file, hunks, from)) <==>
           Copied(file, h.edits, h.start) == Meant(h.edits) && later == Done(Intended(file, hunks[1..], next)))
  {
    hide Copied, Meant, Intended;
    var h := hunks[0];
    var next := h.start + OldCount(h.edits);
    var later := Applying(file, hunks[1..], next, next);
    CopiedIsMeant(file, h.edits, h.start);
    IntendedBehind(file, hunks, from, o);
    if later.Done? {
      ConcatEqual(file[o..h.start], Copied(file, h.edits, h.start), Meant(h.edits), later.value,
                  Intended(file, hunks[1..], next));
    }
  }

  lemma IntendedBehind(file: seq<string>, hunks: seq<Hunk>, from: nat, o: nat)
    requires hunks != [] && Placed(hunks, from, |file|) && o <= from
    ensures var h := hunks[0];
      file[o..from] + Intended(file, hunks, from)
      == file[o..h.start] + Meant(h.edits) + Intended(file, hunks[1..], h.start + OldCount(h.edits))
  {
    hide Meant;
    var h := hunks[0];
    var z := Intended(file, hunks[1..], h.start + OldCount(h.edits));
    LinesAssoc(file[from..h.start], Meant(h.edits), z);
    LinesAssoc(file[o..from], file[from..h.start], Meant(h.edits) + z);
    assert file[o..from] + file[from..h.start] == file[o..h.start];
    LinesAssoc(file[o..h.start], Meant(h.edits), z);
  }

  lemma EarlyHunkIsMeantIff(file: seq<string>, hunks: seq<Hunk>, from: nat, o: nat)
    requires hunks != [] && Placed(hunks, from, |file|) && o <= from && OldCount(hunks[0].edits) == 0
    requires 1 <= hunks[0].start && o <= hunks[0].start - 1
    ensures var h := hunks[0];
      var p := h.start;
      var later, r := Applying(file, hunks[1..], p, p - 1), Applying(file, hunks, from, o);
      && r.Done? == later.Done?
      && (r.Done? ==> |r.value| == p - 1 - o + |Meant(h.edits)| + |later.value|)
      && (r == Done(file[o..from] + Intended(file, hunks, from)) <==>
           Repeats(Meant(h.edits), file[p - 1]) && later == Done(file[p - 1..p] + Intended(file, hunks[1..], p)))
  {
    hide Copied, Meant, Intended, Repeats;
    var p, lines := hunks[0].start, Meant(hunks[0].edits);
    var later, z := Applying(file, hunks[1..], p, p - 1), Intended(file, hunks[1..], p);
    var x, front := file[p - 1], file[o..p - 1];
    assert file[p - 1..p] == [x];
    InsertionsAreCopied(file, hunks[0].edits, p - 1);
    IntendedBehindALine(file, hunks, from, o);
    if later.Done? {
      LinesAssoc(front, lines, later.value);
      SameFront(front, lines + later.value, [x] + (lines + z));
      LinePassesThrough(x, lines, later.value, z);
    }
  }

  lemma IntendedBehindALine(file: seq<string>, hunks: seq<Hunk>, from: nat, o: nat)
    requires hunks != [] && Placed(hunks, from, |file|) && o <= from && OldCount(hunks[0].edits) == 0
    requires 1 <= hunks[0].start && o <= hunks[0].start - 1
    ensures var p := hunks[0].start;
      file[o..from] + Intended(file, hunks, from)
      == file[o..p - 1] + ([file[p - 1]] + (Meant(hunks[0].edits) + Intended(file, hunks[1..], p)))
  {
    hide Meant, Intended;
    var p, lines := hunks[0].start, Meant(hunks[0].edits);
    var z := Intended(file, hunks[1..], p);
    IntendedBehind(file, hunks, from, o);
    assert file[o..p] == file[o..p - 1] + [file[p - 1]];
    LinesAssoc(file[o..p - 1], [file[p - 1]], lines);
    LinesAssoc(file[o..p - 1], [file[p - 1]] + lines, z);
    LinesAssoc([file[p - 1]], lines, z);
  }

  lemma SameFront(front: seq<string>, a: seq<string>, b: seq<string>)
    ensures front + a == front + b <==> a == b
  {
    assert (front + a)[|front|..] == a && (front + b)[|front|..] == b;
  }

  /** A printed script gives the text it stands for exactly when every context line equals the file's line and every
      hunk without old lines sits; this covers all placed scripts with explicit counts. */
  lemma ScriptAppliesAsMeantIff(
    original: string, hunks: seq<Hunk>, oldPath: string, newPath: string, explicit: bool, finalNewline: bool)
    requires |SplitLines(original)| < MAX_INT64 && OneLine(oldPath) && OneLine(newPath)
    requires Placed(hunks, 0, |SplitLines(original)|) && Printable(hunks)
    requires explicit || forall h :: h in hunks ==> !DropsItsOnlyLine(h)
    ensures var file := SplitLines(original);
      PatchedText(original, PrintPatch(hunks, oldPath, newPath, explicit, |file|, finalNewline))
        == Done(Join(Intended(file, hunks, 0)))
      <==> ContextsMatch(file, hunks, 0) && InsertionsSit(file, hunks, 0, false)
  {
    hide BetweenHunks, PatchedText, PrintPatch, PrintHunks, SplitLines, Join, Intended, Applying, InsertionsSit,
         ContextsMatch, OneLine, DropsItsOnlyLine;
    var file, tail := SplitLines(original), Tail(finalNewline);
    var printed := PrintHunks(hunks, 0, 0, explicit, |file|) + tail;
    PatchIsHunks(original, hunks, oldPath, newPath, explicit, finalNewline);
    ScriptIsApplied(file, hunks, 0, 0, explicit, tail, 0);
    ApplyingIsMeantIff(file, hunks, 0, 0, false);
    assert file[0..0] + Intended(file, hunks, 0) == Intended(file, hunks, 0);
    var r, wanted := BetweenHunks(file, printed, 0), Intended(file, hunks, 0);
    if r.Done? && Join(r.value) == Join(wanted) && wanted != [] {
      SplitLinesShape(original);
      PrintHunksAreOneLiners(hunks, 0, 0, explicit, |file|);
      EmptyLineIsOneLine();
      ResultIsOneLiners(file, printed, 0);
      ResultsAreOneLiners(file, hunks, 0);
      JoinIsInjective(r.value, wanted);
    }
  }

  lemma EmptyLineIsOneLine()
    ensures OneLiners([]) && OneLiners([""])
  {
  }

  // Any script with counts left out.

  /** What becomes of such a script: a lone deletion whose text starts like a file header is passed over, any other
      one is refused. */
  function ApplyingShort(file: seq<string>, hunks: seq<Hunk>, from: nat, o: nat): LinesResult
    requires Placed(hunks, from, |file|) && o <= from
  {
    if hunks == [] then Done(file[o..])
    else
      var h := hunks[0];
      var next := h.start + OldCount(h.edits);
      var s := StartOf(h);
      if s < 0 then Rejected(StartOutOfRange)
      else if s < o then Rejected(Overlap)
      else if !DropsItsOnlyLine(h) then
        Prepend(file[o..s] + Copied(file, h.edits, s), ApplyingShort(file, hunks[1..], next, s + OldCount(h.edits)))
      else if "--" <= h.edits[0].text then Prepend(file[o..s], ApplyingShort(file, hunks[1..], next, s))
      else Rejected(UnexpectedLine)
  }

  lemma LoneHunkIsApplied(file: seq<string>, h: Hunk, newFrom: nat, rest: seq<string>, o: nat)
    requires |file| < MAX_INT64 && |h.edits| <= MAX_INT64 && h.start < |file| && DropsItsOnlyLine(h)
    ensures StartOf(h) == h.start && |h.edits| == 1
    ensures BetweenHunks(file, PrintHunk(h, newFrom, false) + rest, o)
      == if h.start < o then Rejected(Overlap)
         else if "--" <= h.edits[0].text then Prepend(file[o..h.start], BetweenHunks(file, rest, h.start))
         else Rejected(UnexpectedLine)
  {
    hide BetweenHunks, InHunk, PrintHunk;
    OnlyOneDelete(h);
    if h.start < o { HunkStep(file, h, newFrom, false, rest, o); } else { LoneDeletion(file, h, newFrom, rest, o); }
  }

  lemma ShortLoneStep(file: seq<string>, hunks: seq<Hunk>, from: nat, newFrom: nat, tail: seq<string>, o: nat)
    requires |file| < MAX_INT64 && Placed(hunks, from, |file|) && Printable(hunks) && o <= from && hunks != []
    requires (tail == [] || tail == [""]) && DropsItsOnlyLine(hunks[0])
    requires var h := hunks[0];
      BetweenHunks(file, Rest(hunks, from, newFrom, false, |file|, tail), h.start)
      == ApplyingShort(file, hunks[1..], h.start + OldCount(h.edits), h.start)
    ensures BetweenHunks(file, PrintHunks(hunks, from, newFrom, false, |file|) + tail, o)
      == ApplyingShort(file, hunks, from, o)
  {
    hide BetweenHunks, PrintHunk, PrintHunks, Copied, OldCount, NewCount, DropsItsOnlyLine, StartOf, Rest,
         Printable;
    PlacedInside(hunks, from, |file|);
    LoneHunkIsInside(hunks[0], |file|);
    RestFollows(hunks, from, newFrom, false, |file|, tail);
    LoneHunkIsApplied(file, hunks[0], newFrom + (hunks[0].start - from),
      Rest(hunks, from, newFrom, false, |file|, tail), o);
  }

  lemma ShortSoundStep(file: seq<string>, hunks: seq<Hunk>, from: nat, newFrom: nat, tail: seq<string>, o: nat)
    requires |file| < MAX_INT64 && Placed(hunks, from, |file|) && Printable(hunks) && o <= from && hunks != []
    requires (tail == [] || tail == [""]) && !DropsItsOnlyLine(hunks[0])
    requires var h := hunks[0];
      StartOf(h) >= 0 ==>
        BetweenHunks(file, Rest(hunks, from, newFrom, false, |file|, tail), StartOf(h) + OldCount(h.edits))
        == ApplyingShort(file, hunks[1..], h.start + OldCount(h.edits), StartOf(h) + OldCount(h.edits))
    ensures BetweenHunks(file, PrintHunks(hunks, from, newFrom, false, |file|) + tail, o)
      == ApplyingShort(file, hunks, from, o)
  {
    hide BetweenHunks, PrintHunk, PrintHunks, Copied, OldCount, NewCount, DropsItsOnlyLine, Rest, Printable;
    PlacedInside(hunks, from, |file|);
    RestFollows(hunks, from, newFrom, false, |file|, tail);
    OneHunkIsApplied(file, hunks[0], newFrom + (hunks[0].start - from), false,
      Rest(hunks, from, newFrom, false, |file|, tail), o);
  }

  lemma {:induction false} ShortScriptIsApplied(
    file: seq<string>, hunks: seq<Hunk>, from: nat, newFrom: nat, tail: seq<string>, o: nat)
    requires |file| < MAX_INT64 && Placed(hunks, from, |file|) && Printable(hunks) && o <= from
    requires tail == [] || tail == [""]
    ensures BetweenHunks(file, PrintHunks(hunks, from, newFrom, false, |file|) + tail, o)
      == ApplyingShort(file, hunks, from, o)
    decreases hunks
  {
    hide BetweenHunks, PrintHunk, Copied, OldCount, NewCount, DropsItsOnlyLine, ApplyingShort, OneLine, OneLineEdits;
    if hunks == [] {
      NoHunks(file, o, tail);
      assert PrintHunks(hunks, from, newFrom, false, |file|) + tail == tail;
      assert ApplyingShort(file, hunks, from, o) == Done(file[o..]) by { NothingToApply(file, from, o); }
    } else {
      var h := hunks[0];
      var next, newNext := h.start + OldCount(h.edits), newFrom + (h.start - from) + NewCount(h.edits);
      if DropsItsOnlyLine(h) {
        ShortScriptIsApplied(file, hunks[1..], next, newNext, tail, h.start);
        ShortLoneStep(file, hunks, from, newFrom, tail, o);
      } else {
        if StartOf(h) >= 0 {
          ShortScriptIsApplied(file, hunks[1..], next, newNext, tail, StartOf(h) + OldCount(h.edits));
        }
        ShortSoundStep(file, hunks, from, newFrom, tail, o);
      }
    }
  }

  lemma NothingToApply(file: seq<string>, from: nat, o: nat)
    requires o <= from <= |file|
    ensures ApplyingShort(file, [], from, o) == Done(file[o..])
  {
  }

  lemma LoneHunkIsInside(h: Hunk, length: nat)
    requires DropsItsOnlyLine(h) && h.start + OldCount(h.edits) <= length
    ensures h.start < length
  {
  }

  /** A line that was passed over stays in the result. */
  lemma {:induction false} SkippedLineStays(file: seq<string>, hunks: seq<Hunk>, from: nat, o: nat)
    requires Placed(hunks, from, |file|) && o < from
    ensures ApplyingShort(file, hunks, from, o).Done? ==> file[o] in ApplyingShort(file, hunks, from, o).value
    decreases hunks
  {
    hide Copied, DropsItsOnlyLine;
    if hunks == [] {
      assert file[o..][0] == file[o];
    } else if ApplyingShort(file, hunks, from, o).Done? {
      var h := hunks[0];
      var s := StartOf(h);
      if s == o {
        SkippedLineStays(file, hunks[1..], h.start, s);
      } else {
        assert file[o..s][0] == file[o];
      }
    }
  }

  lemma LoneDeletionIsMeant(file: seq<string>, h: Hunk)
    requires DropsItsOnlyLine(h) && h.start + OldCount(h.edits) <= |file| && DeletesMatch(file, h.edits, h.start)
    ensures OldCount(h.edits) == 1 && StartOf(h) == h.start && |h.edits| == 1 && Meant(h.edits) == []
    ensures "--" <= h.edits[0].text ==> file[h.start] != ""
  {
    OnlyOneDelete(h);
    assert h.edits[1..] == [];
  }

  lemma PrependKeepsLines(front: seq<string>, later: LinesResult, wanted: seq<string>, x: string)
    requires later.Done? && |wanted| <= |front| + |later.value|
    ensures KeepsEnough(Prepend(front, later), wanted)
    ensures |wanted| < |front| + |later.value| && x in later.value && x != "" ==>
      KeepsTooMuch(Prepend(front, later), wanted)
  {
    assert x in later.value ==> x in front + later.value;
  }

  ghost predicate ShortKeeps(file: seq<string>, hunks: seq<Hunk>, from: nat, o: nat)
    requires Placed(hunks, from, |file|) && o <= from
  {
    var r, wanted := ApplyingShort(file, hunks, from, o), file[o..from] + Intended(file, hunks, from);
    KeepsEnough(r, wanted) && (SomeLoneDeletion(hunks) ==> KeepsTooMuch(r, wanted))
  }

  lemma ShortLoneKeeps(file: seq<string>, hunks: seq<Hunk>, from: nat, o: nat)
    requires Placed(hunks, from, |file|) && o <= from && DeletionsMatch(file, hunks, from)
    requires hunks != [] && DropsItsOnlyLine(hunks[0]) && ApplyingShort(file, hunks, from, o).Done?
    requires ShortKeeps(file, hunks[1..], hunks[0].start + OldCount(hunks[0].edits), StartOf(hunks[0]))
    ensures ShortKeeps(file, hunks, from, o)
  {
    var h := hunks[0];
    PlacedInside(hunks, from, |file|);
    LoneDeletionIsMeant(file, h);
    hide Copied, Meant, Intended, DropsItsOnlyLine, OldCount;
    var later := ApplyingShort(file, hunks[1..], h.start + 1, h.start);
    IntendedBehind(file, hunks, from, o);
    SkippedLineStays(file, hunks[1..], h.start + 1, h.start);
    PrependKeepsLines(file[o..h.start], later, file[o..from] + Intended(file, hunks, from), file[h.start]);
  }

  lemma ShortSoundKeeps(file: seq<string>, hunks: seq<Hunk>, from: nat, o: nat)
    requires Placed(hunks, from, |file|) && o <= from
    requires hunks != [] && !DropsItsOnlyLine(hunks[0]) && ApplyingShort(file, hunks, from, o).Done?
    requires var h := hunks[0];
      StartOf(h) >= 0
      && ShortKeeps(file, hunks[1..], h.start + OldCount(h.edits), StartOf(h) + OldCount(h.edits))
    ensures ShortKeeps(file, hunks, from, o)
  {
    hide Copied, Meant, Intended, DropsItsOnlyLine, OldCount;
    var h := hunks[0];
    var next, s := h.start + OldCount(h.edits), StartOf(h);
    var later := ApplyingShort(file, hunks[1..], next, s + OldCount(h.edits));
    PlacedInside(hunks, from, |file|);
    IntendedBehind(file, hunks, from, o);
    CopiedIsMeant(file, h.edits, s);
    var x :| SomeLoneDeletion(hunks[1..]) ==> x in later.value && x != "";
    PrependKeepsLines(file[o..s] + Copied(file, h.edits, s), later, file[o..from] + Intended(file, hunks, from), x);
  }

  /** Every lone deletion leaves its line in the result, or the script is refused. */
  lemma {:induction false} ShortScriptKeeps(file: seq<string>, hunks: seq<Hunk>, from: nat, o: nat)
    requires Placed(hunks, from, |file|) && o <= from && DeletionsMatch(file, hunks, from)
    ensures ShortKeeps(file, hunks, from, o)
    decreases hunks
  {
    hide Copied, Intended, DropsItsOnlyLine, OldCount;
    if hunks == [] {
      EmptyScriptIsMeant(file, from, o);
    } else if ApplyingShort(file, hunks, from, o).Done? {
      hide ShortKeeps;
      var h := hunks[0];
      var next, s := h.start + OldCount(h.edits), StartOf(h);
      if DropsItsOnlyLine(h) {
        LoneStartsThere(h);
        ShortScriptKeeps(file, hunks[1..], next, s);
        ShortLoneKeeps(file, hunks, from, o);
      } else {
        ShortScriptKeeps(file, hunks[1..], next, s + OldCount(h.edits));
        ShortSoundKeeps(file, hunks, from, o);
      }
    }
  }

  lemma LoneStartsThere(h: Hunk)
    requires DropsItsOnlyLine(h)
    ensures StartOf(h) == h.start
  {
  }

  /** Whatever its hunks and its header style: a printed script gives the text it stands for exactly when every context
      line equals the file's line, every hunk without old lines sits, and no hunk drops its only line with counts left
      out. */
  lemma PrintedScriptAppliesAsMeantIff(
    original: string, hunks: seq<Hunk>, oldPath: string, newPath: string, explicit: bool, finalNewline: bool)
    requires |SplitLines(original)| < MAX_INT64 && OneLine(oldPath) && OneLine(newPath)
    requires Placed(hunks, 0, |SplitLines(original)|) && Printable(hunks)
    requires explicit || DeletionsMatch(SplitLines(original), hunks, 0)
    ensures var file := SplitLines(original);
      PatchedText(original, PrintPatch(hunks, oldPath, newPath, explicit, |file|, finalNewline))
        == Done(Join(Intended(file, hunks, 0)))
      <==>
        && ContextsMatch(file, hunks, 0) && InsertionsSit(file, hunks, 0, false)
        && (explicit || forall h :: h in hunks ==> !DropsItsOnlyLine(h))
  {
    hide BetweenHunks, PatchedText, PrintPatch, PrintHunks, SplitLines, Join, Intended, InsertionsSit, ContextsMatch,
         OneLine, DropsItsOnlyLine, DeletionsMatch, ApplyingShort;
    LoneDeletionsAreMembers(hunks);
    if explicit || !SomeLoneDeletion(hunks) {
      ScriptAppliesAsMeantIff(original, hunks, oldPath, newPath, explicit, finalNewline);
    } else {
      var file, tail := SplitLines(original), Tail(finalNewline);
      var printed, wanted := PrintHunks(hunks, 0, 0, false, |file|) + tail, Intended(file, hunks, 0);
      PatchIsHunks(original, hunks, oldPath, newPath, false, finalNewline);
      ShortScriptIsApplied(file, hunks, 0, 0, tail, 0);
      ShortScriptKeeps(file, hunks, 0, 0);
      assert file[0..0] + wanted == wanted;
      var r := BetweenHunks(file, printed, 0);
      if r.Done? {
        SplitLinesShape(original);
        PrintHunksAreOneLiners(hunks, 0, 0, false, |file|);
        EmptyLineIsOneLine();
        ResultIsOneLiners(file, printed, 0);
        ResultsAreOneLiners(file, hunks, 0);
        LongerListsJoinApart(r.value, wanted);
      }
    }
  }

  function Insertions(lines: seq<string>): seq<Edit> {
    if lines == [] then [] else [Insert(lines[0])] + Insertions(lines[1..])
  }

  lemma {:induction false} InsertionCounts(lines: seq<string>)
    ensures var e := Insertions(lines);
      |e| == |lines| && OldCount(e) == 0 && NewCount(e) == |lines| && Meant(e) == lines
    ensures forall x :: x in Insertions(lines) ==> x.text in lines
  {
    if lines != [] { InsertionCounts(lines[1..]); }
  }

  lemma InsertionHunkIsPrintable(h: Hunk, lines: seq<string>, length: nat)
    requires h.edits == Insertions(lines) && OneLiners(lines) && OneLine(h.heading) && |lines| <= MAX_INT64
        && h.start <= length
    ensures Placed([h], 0, length) && Printable([h])
  {
    hide OneLine, Insertions, OldCount, NewCount, Meant;
    InsertionCounts(lines);
    assert [h][1..] == [];
    forall e | e in h.edits ensures OneLine(e.text) { assert e.text in lines; }
  }

  /** Inserting after line p is applied as meant exactly when p is a line of the file that every
      inserted line repeats; inserting in front of the file, or into an empty one, is always refused. */
  lemma InsertionAppliesIff(original: string, p: nat, lines: seq<string>, heading: string, oldPath: string,
      newPath: string, explicit: bool, finalNewline: bool)
    requires |SplitLines(original)| < MAX_INT64 && OneLine(oldPath) && OneLine(newPath) && OneLine(heading)
    requires p <= |SplitLines(original)| && lines != [] && OneLiners(lines) && |lines| <= MAX_INT64
    ensures var file, hunks := SplitLines(original), [Hunk(p, Insertions(lines), heading)];
      Placed(hunks, 0, |file|) &&
      (PatchedText(original, PrintPatch(hunks, oldPath, newPath, explicit, |file|, finalNewline))
          == Done(Join(Intended(file, hunks, 0)))
       <==> p >= 1 && forall l :: l in lines ==> l == file[p - 1])
  {
    hide PatchedText, SplitLines, Join, PrintPatch, Insertions, Intended, OneLine, Printable, OldCount, NewCount, Meant;
    var file, h := SplitLines(original), Hunk(p, Insertions(lines), heading);
    InsertionCounts(lines);
    InsertionHunkIsPrintable(h, lines, |file|);
    InsertionsAreCopied(file, h.edits, p);
    assert [h][1..] == [];
    ScriptAppliesAsMeantIff(original, [h], oldPath, newPath, explicit, finalNewline);
  }

  // Hunks that run past the end of the file.

  /** Context stops at the end of the file; deletions do not. */
  function Reach(edits: seq<Edit>, o: nat, length: nat): nat {
    if edits == [] then o
    else
      match edits[0]
      case Context(_) => Reach(edits[1..], if o < length then o + 1 else o, length)
      case Delete(_) => Reach(edits[1..], o + 1, length)
      case Insert(_) => Reach(edits[1..], o, length)
  }

  predicate DeletesPastEnd(edits: seq<Edit>, o: nat, length: nat) {
    if edits == [] then false
    else
      match edits[0]
      case Context(_) => DeletesPastEnd(edits[1..], if o < length then o + 1 else o, length)
      case Delete(_) => o >= length || DeletesPastEnd(edits[1..], o + 1, length)
      case Insert(_) => DeletesPastEnd(edits[1..], o, length)
  }

  lemma {:induction false} ReachIsPastEnd(edits: seq<Edit>, o: nat, length: nat)
    ensures Reach(edits, o, length) > length <==> o > length || DeletesPastEnd(edits, o, length)
    decreases edits
  {
    if edits != [] {
      ReachIsPastEnd(edits[1..], if edits[0].Delete? || (edits[0].Context? && o < length) then o + 1 else o, length);
    }
  }

  lemma {:induction false} BodyReaches(file: seq<string>, edits: seq<Edit>, rest: seq<string>, o: nat, count: int,
      consumed: nat)
    requires HunkEnds(rest) && consumed + OldCount(edits) == count
    ensures InHunk(file, PrintEdits(edits) + rest, o, count, consumed).Crashed?
      <==> BetweenHunks(file, rest, Reach(edits, o, |file|)).Crashed?
    decreases edits
  {
    hide BetweenHunks;
    var patch := PrintEdits(edits) + rest;
    if edits == [] {
      assert patch == rest;
    } else {
      assert patch[0] == PrintEdit(edits[0]) && patch[1..] == PrintEdits(edits[1..]) + rest;
      PrintedEditHead(edits[0]);
      var next := if edits[0].Delete? || (edits[0].Context? && o < |file|) then o + 1 else o;
      BodyReaches(file, edits[1..], rest, next, count, if edits[0].Insert? then consumed else consumed + 1);
    }
  }

  /** Hunks printed with explicit counts; the new ranges do not matter. */
  function PrintAll(hunks: seq<Hunk>, newStarts: seq<nat>): seq<string>
    requires |newStarts| == |hunks|
  {
    if hunks == [] then [] else PrintHunk(hunks[0], newStarts[0], true) + PrintAll(hunks[1..], newStarts[1..])
  }

  /** The old line behind some hunks, unless one of them is refused. */
  function Position(hunks: seq<Hunk>, o: nat, length: nat): Option<nat> {
    if hunks == [] then Some(o)
    else
      var s := StartOf(hunks[0]);
      if s < 0 || s > length || s < o then None else Position(hunks[1..], Reach(hunks[0].edits, s, length), length)
  }

  lemma PrintAllEnds(hunks: seq<Hunk>, newStarts: seq<nat>, tail: seq<string>)
    requires |newStarts| == |hunks| && (tail == [] || tail == [""])
    ensures HunkEnds(PrintAll(hunks, newStarts) + tail)
  {
    var lines := PrintAll(hunks, newStarts) + tail;
    if hunks == [] {
      assert lines == tail;
    } else {
      assert Starts("@@", lines[0]);
    }
  }

  lemma {:induction false} ScriptReaches(
    file: seq<string>, hunks: seq<Hunk>, newStarts: seq<nat>, tail: seq<string>, o: nat)
    requires |newStarts| == |hunks| && Printable(hunks) && (tail == [] || tail == [""])
    requires forall h :: h in hunks ==> h.start < MAX_INT64
    ensures BetweenHunks(file, PrintAll(hunks, newStarts) + tail, o).Crashed?
      <==> Position(hunks, o, |file|).Some? && Position(hunks, o, |file|).value > |file|
    decreases hunks
  {
    hide BetweenHunks, InHunk, PrintHunk, PrintHeader, OldCount, NewCount, OneLine, OneLineEdits;
    if hunks == [] {
      assert PrintAll(hunks, newStarts) + tail == tail;
      EndCrashesIff(file, tail, o);
    } else {
      var h := hunks[0];
      var rest := PrintAll(hunks[1..], newStarts[1..]) + tail;
      assert h in hunks;
      LinesAssoc(PrintHunk(h, newStarts[0], true), PrintAll(hunks[1..], newStarts[1..]), tail);
      PrintAllEnds(hunks[1..], newStarts[1..], tail);
      HunkStep(file, h, newStarts[0], true, rest, o);
      var s := StartOf(h);
      if 0 <= s <= |file| && o <= s {
        BodyReaches(file, h.edits, rest, s, OldCount(h.edits), 0);
        ScriptReaches(file, hunks[1..], newStarts[1..], tail, Reach(h.edits, s, |file|));
      }
    }
  }

  lemma EndCrashesIff(file: seq<string>, tail: seq<string>, o: nat)
    requires tail == [] || tail == [""]
    ensures BetweenHunks(file, tail, o).Crashed? <==> o > |file|
  {
    assert tail != [] ==> tail[1..] == [];
  }

  /** Only the last hunk can leave the applier behind the end of the file. */
  lemma {:induction false} OnlyTheLastRunsPast(hunks: seq<Hunk>, o: nat, length: nat)
    requires hunks != []
    ensures var init, last := hunks[..|hunks| - 1], hunks[|hunks| - 1];
      Position(hunks, o, length).Some? && Position(hunks, o, length).value > length <==>
        && Position(init, o, length).Some? && Position(init, o, length).value <= StartOf(last) <= length
        && DeletesPastEnd(last.edits, StartOf(last), length)
    decreases hunks
  {
    hide Reach, DeletesPastEnd;
    var h := hunks[0];
    var s := StartOf(h);
    if |hunks| == 1 {
      if 0 <= s <= length { ReachIsPastEnd(h.edits, s, length); }
    } else if 0 <= s <= length && o <= s {
      OnlyTheLastRunsPast(hunks[1..], Reach(h.edits, s, length), length);
      assert hunks[1..][..|hunks| - 2] == hunks[..|hunks| - 1][1..];
    }
  }

  /** A patch with accurate headers brings the applier down exactly when no hunk in front of the last one is refused
      and the last one, starting inside the file behind them, deletes at or behind the end of the file. */
  lemma CrashesIffDeletesPastEnd(
    original: string, hunks: seq<Hunk>, newStarts: seq<nat>, oldPath: string, newPath: string, finalNewline: bool)
    requires hunks != [] && |newStarts| == |hunks| && Printable(hunks) && OneLine(oldPath) && OneLine(newPath)
    requires forall h :: h in hunks ==> h.start < MAX_INT64
    ensures var length := |SplitLines(original)|;
      var init, last := hunks[..|hunks| - 1], hunks[|hunks| - 1];
      PatchedText(original, Join(["--- " + oldPath, "+++ " + newPath]
          + (PrintAll(hunks, newStarts) + Tail(finalNewline)))).Crashed?
      <==>
        && Position(init, 0, length).Some? && Position(init, 0, length).value <= StartOf(last) <= length
        && DeletesPastEnd(last.edits, StartOf(last), length)
  {
    hide Join, PatchedText, BetweenHunks, InHunk, SplitLines, PrintHunk, PrintAll, Position, DeletesPastEnd, OneLine;
    var file := SplitLines(original);
    PrintAllIsOneLiners(hunks, newStarts);
    EmptyLineIsOneLine();
    PatchIsItsBody(original, oldPath, newPath, PrintAll(hunks, newStarts) + Tail(finalNewline));
    ScriptReaches(file, hunks, newStarts, Tail(finalNewline), 0);
    OnlyTheLastRunsPast(hunks, 0, |file|);
  }

  lemma {:induction false} PrintAllIsOneLiners(hunks: seq<Hunk>, newStarts: seq<nat>)
    requires |newStarts| == |hunks| && Printable(hunks)
    ensures OneLiners(PrintAll(hunks, newStarts))
  {
    hide PrintHunk, OneLine, OneLineEdits;
    if hunks != [] {
      assert hunks[0] in hunks;
      PrintAllIsOneLiners(hunks[1..], newStarts[1..]);
      PrintHunkIsOneLiners(hunks[0], newStarts[0], true);
    }
  }
}
