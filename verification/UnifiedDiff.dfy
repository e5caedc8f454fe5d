/** Applying a unified diff (internal/tool/patch.go, applyUnifiedDiff), against a printer of the format. */
module UnifiedDiff {
  import opened Strings
  import opened DiffText

  datatype DiffError = TooShort | BadHeader | StartOutOfRange | Overlap | InvalidLine | UnexpectedLine

  /** Crashed: the slice past the end of the file that ends the original's run. */
  datatype Applied<+T> = Done(value: T) | Rejected(error: DiffError) | Crashed

  type LinesResult = Applied<seq<string>>

  function Prepend(front: seq<string>, r: LinesResult): LinesResult {
    match r
    case Done(lines) => Done(front + lines)
    case _ => r
  }

  predicate Starts(marker: string, line: string) {
    marker <= line
  }

  // The two nested loops as functions of what remains of the patch; o counts consumed old lines.

  function BetweenHunks(file: seq<string>, patch: seq<string>, o: nat): LinesResult
    decreases |patch|, 0
  {
    if patch == [] then
      if o <= |file| then Done(file[o..]) else Crashed
    else if Starts("---", patch[0]) || Starts("+++", patch[0]) then
      BetweenHunks(file, patch[1..], o)
    else if Starts("@@", patch[0]) then
      match ParseHunkHeader(patch[0])
      case None => Rejected(BadHeader)
      case Some(header) =>
        var s := header.start - 1;
        if s < 0 || s > |file| then Rejected(StartOutOfRange)
        else if s < o then Rejected(Overlap)
        else Prepend(file[o..s], InHunk(file, patch[1..], s, header.count, 0))
    else if patch[0] == "" then
      BetweenHunks(file, patch[1..], o)
    else
      Rejected(UnexpectedLine)
  }

  function InHunk(file: seq<string>, patch: seq<string>, o: nat, count: int, consumed: nat): LinesResult
    decreases |patch|, 1
  {
    if patch == [] || Starts("@@", patch[0]) || (consumed >= count && !Starts("+", patch[0])) then
      BetweenHunks(file, patch, o)
    else if Starts(" ", patch[0]) || patch[0] == "" then
      if o < |file| then Prepend([file[o]], InHunk(file, patch[1..], o + 1, count, consumed + 1))
      else InHunk(file, patch[1..], o, count, consumed + 1)
    else if Starts("-", patch[0]) then
      InHunk(file, patch[1..], o + 1, count, consumed + 1)
    else if Starts("+", patch[0]) then
      Prepend([patch[0][1..]], InHunk(file, patch[1..], o, count, consumed))
    else
      Rejected(InvalidLine)
  }

  lemma PrependTwice(a: seq<string>, b: seq<string>, r: LinesResult)
    ensures Prepend(a, Prepend(b, r)) == Prepend(a + b, r)
  {
    if r.Done? { assert a + (b + r.value) == a + b + r.value; }
  }

  lemma PrependNothing(r: LinesResult)
    ensures Prepend([], r) == r
  {
    if r.Done? { assert [] + r.value == r.value; }
  }

  /** Empty, a body line with one of the three markers (file headers begin with two of them), or a hunk header. */
  predicate KnownLine(line: string) {
    || line == "" || line[0] in {' ', '-', '+'}
    || ("@@" <= line && ParseHunkHeader(line).Some?)
  }

  predicate AllKnown(patch: seq<string>) {
    forall l :: l in patch ==> KnownLine(l)
  }

  lemma OneMoreKnown(patch: seq<string>)
    requires patch != [] && KnownLine(patch[0]) && AllKnown(patch[1..])
    ensures AllKnown(patch)
  {
    hide KnownLine;
    assert patch == [patch[0]] + patch[1..];
  }

  /** A patch with any other line is refused, wherever the line stands. */
  lemma {:induction false} UnknownLinesAreRefused(file: seq<string>, patch: seq<string>, o: nat)
    ensures !BetweenHunks(file, patch, o).Rejected? ==> forall l :: l in patch ==> KnownLine(l)
  {
    OnlyKnownBetween(file, patch, o);
  }

  lemma {:induction false} OnlyKnownBetween(file: seq<string>, patch: seq<string>, o: nat)
    ensures !BetweenHunks(file, patch, o).Rejected? ==> AllKnown(patch)
    decreases |patch|, 0
  {
    hide ParseHunkHeader, AllKnown;
    if patch == [] {
      NothingIsKnown();
    } else if !BetweenHunks(file, patch, o).Rejected? {
      if Starts("---", patch[0]) || Starts("+++", patch[0]) || patch[0] == "" {
        OnlyKnownBetween(file, patch[1..], o);
      } else {
        var header := ParseHunkHeader(patch[0]);
        OnlyKnownInside(file, patch[1..], header.value.start - 1, header.value.count, 0);
      }
      OneMoreKnown(patch);
    }
  }

  lemma NothingIsKnown()
    ensures AllKnown([])
  {
  }

  lemma {:induction false} OnlyKnownInside(file: seq<string>, patch: seq<string>, o: nat, count: int, consumed: nat)
    ensures !InHunk(file, patch, o, count, consumed).Rejected? ==> AllKnown(patch)
    decreases |patch|, 1
  {
    hide ParseHunkHeader, AllKnown, BetweenHunks;
    if patch == [] {
      NothingIsKnown();
    } else if !InHunk(file, patch, o, count, consumed).Rejected? {
      if Starts("@@", patch[0]) || (consumed >= count && !Starts("+", patch[0])) {
        OnlyKnownBetween(file, patch, o);
      } else {
        OnlyKnownInside(file, patch[1..], o, count, consumed);
        OnlyKnownInside(file, patch[1..], o, count, consumed + 1);
        OnlyKnownInside(file, patch[1..], o + 1, count, consumed + 1);
        OneMoreKnown(patch);
      }
    }
  }

  function Rendered(r: LinesResult): Applied<string> {
    match r
    case Done(lines) => Done(Join(lines))
    case Rejected(e) => Rejected(e)
    case Crashed => Crashed
  }

  /** What the applier computes, as a function. */
  function PatchedText(original: string, patch: string): Applied<string> {
    if |SplitLines(patch)| < 2 then Rejected(TooShort)
    else Rendered(BetweenHunks(SplitLines(original), SplitLines(patch), 0))
  }

  /** One hunk body: consumes patch lines from patchIdx on. */
  method ApplyHunk(file: seq<string>, patch: seq<string>, patchStart: nat, oldStart: nat, count: int)
    returns (result: seq<string>, patchIdx: nat, oldIdx: nat, error: Option<DiffError>)
    requires patchStart <= |patch|
    ensures patchStart <= patchIdx <= |patch|
    ensures InHunk(file, patch[patchStart..], oldStart, count, 0)
      == if error.Some? then Rejected(error.value) else Prepend(result, BetweenHunks(file, patch[patchIdx..], oldIdx))
  {
    ghost var whole := InHunk(file, patch[patchStart..], oldStart, count, 0);
    result, patchIdx, oldIdx, error := [], patchStart, oldStart, None;
    var consumed: nat := 0;
    PrependNothing(whole);
    while patchIdx < |patch|
      invariant patchStart <= patchIdx <= |patch|
      invariant Prepend(result, InHunk(file, patch[patchIdx..], oldIdx, count, consumed)) == whole
    {
      var line := patch[patchIdx];
      ghost var rest := patch[patchIdx..];
      assert rest[1..] == patch[patchIdx + 1..];
      if Starts("@@", line) {
        break;
      }
      if consumed >= count && !Starts("+", line) {
        break;
      }
      if Starts(" ", line) || line == "" {
        if oldIdx < |file| {
          PrependTwice(result, [file[oldIdx]], InHunk(file, rest[1..], oldIdx + 1, count, consumed + 1));
          result := result + [file[oldIdx]];
          oldIdx := oldIdx + 1;
        }
        consumed := consumed + 1;
      } else if Starts("-", line) {
        oldIdx := oldIdx + 1;
        consumed := consumed + 1;
      } else if Starts("+", line) {
        PrependTwice(result, [line[1..]], InHunk(file, rest[1..], oldIdx, count, consumed));
        result := result + [line[1..]];
      } else {
        error := Some(InvalidLine);
        return;
      }
      patchIdx := patchIdx + 1;
    }
  }

  /** The applier. */
  method ApplyUnifiedDiff(original: string, patch: string) returns (r: Applied<string>)
    ensures r == PatchedText(original, patch)
  {
    var file := SplitLines(original);
    var lines := SplitLines(patch);
    if |lines| < 2 {
      return Rejected(TooShort);
    }
    var result: seq<string>, oldIdx: nat, patchIdx: nat := [], 0, 0;
    ghost var whole := BetweenHunks(file, lines, 0);
    PrependNothing(whole);
    while patchIdx < |lines|
      invariant patchIdx <= |lines|
      invariant Prepend(result, BetweenHunks(file, lines[patchIdx..], oldIdx)) == whole
    {
      var line := lines[patchIdx];
      assert lines[patchIdx..][1..] == lines[patchIdx + 1..];
      if Starts("---", line) || Starts("+++", line) {
        patchIdx := patchIdx + 1;
      } else if Starts("@@", line) {
        var header := ParseHunkHeader(line);
        if header.None? {
          return Rejected(BadHeader);
        }
        var startIdx := header.value.start - 1;
        if startIdx < 0 || startIdx > |file| {
          return Rejected(StartOutOfRange);
        }
        if startIdx < oldIdx {
          return Rejected(Overlap);
        }
        var body, nextPatch, nextOld, error := ApplyHunk(file, lines, patchIdx + 1, startIdx, header.value.count);
        if error.Some? {
          return Rejected(error.value);
        }
        PrependTwice(result, file[oldIdx..startIdx], Prepend(body, BetweenHunks(file, lines[nextPatch..], nextOld)));
        PrependTwice(result + file[oldIdx..startIdx], body, BetweenHunks(file, lines[nextPatch..], nextOld));
        result := result + file[oldIdx..startIdx] + body;
        patchIdx, oldIdx := nextPatch, nextOld;
      } else if line == "" {
        patchIdx := patchIdx + 1;
      } else {
        return Rejected(UnexpectedLine);
      }
    }
    if oldIdx > |file| {
      return Crashed;
    }
    result := result + file[oldIdx..];
    return Done(Join(result));
  }

  // Edit scripts.

  datatype Edit = Context(text: string) | Delete(text: string) | Insert(text: string)

  datatype Hunk = Hunk(start: nat, edits: seq<Edit>, heading: string)

  function OldCount(edits: seq<Edit>): nat {
    if edits == [] then 0 else (if edits[0].Insert? then 0 else 1) + OldCount(edits[1..])
  }

  function NewCount(edits: seq<Edit>): nat {
    if edits == [] then 0 else (if edits[0].Delete? then 0 else 1) + NewCount(edits[1..])
  }

  /** Hunks in order, disjoint, inside the file. */
  predicate Placed(hunks: seq<Hunk>, from: nat, length: nat) {
    if hunks == [] then from <= length
    else
      && from <= hunks[0].start
      && hunks[0].start + OldCount(hunks[0].edits) <= length
      && Placed(hunks[1..], hunks[0].start + OldCount(hunks[0].edits), length)
  }

  predicate Anchored(hunks: seq<Hunk>) {
    forall h :: h in hunks ==> OldCount(h.edits) >= 1
  }

  predicate OneLineEdits(edits: seq<Edit>) {
    forall e :: e in edits ==> OneLine(e.text)
  }

  predicate PrintableHunk(h: Hunk) {
    OneLine(h.heading) && OneLineEdits(h.edits) && |h.edits| <= MAX_INT64
  }

  predicate Printable(hunks: seq<Hunk>) {
    forall h :: h in hunks ==> PrintableHunk(h)
  }

  /** The text an edit script stands for: context and insertions as written. */
  function Meant(edits: seq<Edit>): seq<string> {
    if edits == [] then []
    else (if edits[0].Delete? then [] else [edits[0].text]) + Meant(edits[1..])
  }

  function Intended(file: seq<string>, hunks: seq<Hunk>, from: nat): seq<string>
    requires Placed(hunks, from, |file|)
  {
    if hunks == [] then file[from..]
    else
      file[from..hunks[0].start] + Meant(hunks[0].edits) +
      Intended(file, hunks[1..], hunks[0].start + OldCount(hunks[0].edits))
  }

  /** What position-only application yields: context is copied from the file. */
  function Copied(file: seq<string>, edits: seq<Edit>, o: nat): seq<string>
    requires o + OldCount(edits) <= |file|
  {
    if edits == [] then []
    else
      match edits[0]
      case Context(_) => [file[o]] + Copied(file, edits[1..], o + 1)
      case Delete(_) => Copied(file, edits[1..], o + 1)
      case Insert(text) => [text] + Copied(file, edits[1..], o)
  }

  function ByPosition(file: seq<string>, hunks: seq<Hunk>, from: nat): seq<string>
    requires Placed(hunks, from, |file|)
  {
    if hunks == [] then file[from..]
    else
      file[from..hunks[0].start] + Copied(file, hunks[0].edits, hunks[0].start) +
      ByPosition(file, hunks[1..], hunks[0].start + OldCount(hunks[0].edits))
  }

  // Printing.

  function PrintEdit(e: Edit): string {
    match e
    case Context(text) => " " + text
    case Delete(text) => "-" + text
    case Insert(text) => "+" + text
  }

  function PrintEdits(edits: seq<Edit>): seq<string> {
    if edits == [] then [] else [PrintEdit(edits[0])] + PrintEdits(edits[1..])
  }

  /** A range of no lines starts one line lower, as the format asks. */
  function RangeStart(from: nat, count: nat): nat {
    if count == 0 then from else from + 1
  }

  function PrintHunk(h: Hunk, newFrom: nat, explicit: bool): seq<string> {
    var o, n := OldCount(h.edits), NewCount(h.edits);
    [PrintHeader(RangeStart(h.start, o), o, RangeStart(newFrom, n), n, explicit, h.heading)] + PrintEdits(h.edits)
  }

  /** newFrom: length of the new file before the unchanged lines in front of the next hunk. */
  function PrintHunks(hunks: seq<Hunk>, from: nat, newFrom: nat, explicit: bool, length: nat): seq<string>
    requires Placed(hunks, from, length)
  {
    if hunks == [] then []
    else
      var newStart := newFrom + (hunks[0].start - from);
      PrintHunk(hunks[0], newStart, explicit) +
      PrintHunks(hunks[1..], hunks[0].start + OldCount(hunks[0].edits), newStart + NewCount(hunks[0].edits),
        explicit, length)
  }

  function PatchLines(hunks: seq<Hunk>, oldPath: string, newPath: string, explicit: bool, length: nat): seq<string>
    requires Placed(hunks, 0, length)
  {
    ["--- " + oldPath, "+++ " + newPath] + PrintHunks(hunks, 0, 0, explicit, length)
  }

  /** The printed patch, with or without a final newline. */
  function PrintPatch(hunks: seq<Hunk>, oldPath: string, newPath: string, explicit: bool, length: nat,
      finalNewline: bool): string
    requires Placed(hunks, 0, length)
  {
    Join(PatchLines(hunks, oldPath, newPath, explicit, length) + if finalNewline then [""] else [])
  }
}
