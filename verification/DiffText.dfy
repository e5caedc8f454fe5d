/** Line splitting and hunk headers of a unified diff (internal/tool/patch.go). */
module DiffText {
  import opened Strings

  // Lines.

  predicate OneLine(s: string) {
    forall i :: 0 <= i < |s| ==> s[i] != '\n' && s[i] != '\r'
  }

  predicate OneLiners(lines: seq<string>) {
    forall l :: l in lines ==> OneLine(l)
  }

  function DropCarriageReturns(s: string): string {
    if s == "" then ""
    else if s[0] == '\r' then
      "\n" + DropCarriageReturns(if |s| > 1 && s[1] == '\n' then s[2..] else s[1..])
    else [s[0]] + DropCarriageReturns(s[1..])
  }

  function Split(s: string): (lines: seq<string>)
    ensures lines != []
  {
    if s == "" then [""]
    else if s[0] == '\n' then [""] + Split(s[1..])
    else
      var rest := Split(s[1..]);
      [[s[0]] + rest[0]] + rest[1..]
  }

  function SplitLines(text: string): seq<string> {
    var unix := DropCarriageReturns(text);
    if unix == "" then [] else Split(unix)
  }

  function Join(lines: seq<string>): string {
    if lines == [] then ""
    else if |lines| == 1 then lines[0]
    else lines[0] + "\n" + Join(lines[1..])
  }

  lemma {:induction false} SplitOneLine(s: string)
    requires OneLine(s)
    ensures Split(s) == [s]
  {
    if s != "" {
      SplitOneLine(s[1..]);
      assert s == [s[0]] + s[1..];
    }
  }

  lemma {:induction false} SplitPrefix(l: string, rest: string)
    requires OneLine(l)
    ensures Split(l + "\n" + rest) == [l] + Split(rest)
  {
    var s := l + "\n" + rest;
    if l != "" {
      SplitPrefix(l[1..], rest);
      assert s[1..] == l[1..] + "\n" + rest;
      assert l == [l[0]] + l[1..];
    } else {
      assert s[1..] == rest;
    }
  }

  lemma {:induction false} SplitJoin(lines: seq<string>)
    requires lines != [] && OneLiners(lines)
    ensures Split(Join(lines)) == lines
  {
    assert lines[0] in lines;
    if |lines| == 1 {
      SplitOneLine(lines[0]);
    } else {
      SplitJoin(lines[1..]);
      SplitPrefix(lines[0], Join(lines[1..]));
    }
  }

  lemma {:induction false} JoinSplit(s: string)
    ensures Join(Split(s)) == s
  {
    if s != "" {
      JoinSplit(s[1..]);
      var rest := Split(s[1..]);
      assert s == [s[0]] + s[1..];
      if s[0] == '\n' {
        assert Split(s)[1..] == rest;
      } else if |rest| > 1 {
        assert Split(s)[1..] == rest[1..];
        ConcatAssoc([s[0]], rest[0], "\n");
        ConcatAssoc([s[0]], rest[0] + "\n", Join(rest[1..]));
      }
    }
  }

  predicate UnixText(s: string) {
    '\r' !in s
  }

  lemma {:induction false} UnixTextIsKept(s: string)
    requires UnixText(s)
    ensures DropCarriageReturns(s) == s
  {
    if s != "" {
      UnixTextIsKept(s[1..]);
      assert s == [s[0]] + s[1..];
    }
  }

  lemma {:induction false} JoinIsUnixText(lines: seq<string>)
    requires OneLiners(lines)
    ensures UnixText(Join(lines))
  {
    if |lines| == 1 {
      assert lines[0] in lines;
    } else if |lines| > 1 {
      assert lines[0] in lines;
      JoinIsUnixText(lines[1..]);
    }
  }

  /** Splitting inverts joining, except that the empty text has no lines. */
  lemma SplitLinesJoin(lines: seq<string>)
    requires OneLiners(lines) && lines != [""]
    ensures SplitLines(Join(lines)) == lines
  {
    JoinIsUnixText(lines);
    UnixTextIsKept(Join(lines));
    if lines != [] {
      SplitJoin(lines);
      assert Join(lines) != "" by {
        assert Split("") == [""];
      }
    }
  }

  lemma JoinSplitLines(text: string)
    requires UnixText(text)
    ensures Join(SplitLines(text)) == text
  {
    UnixTextIsKept(text);
    JoinSplit(text);
  }

  lemma {:induction false} SplitGivesOneLiners(s: string)
    requires UnixText(s)
    ensures OneLiners(Split(s))
  {
    if s != "" {
      SplitGivesOneLiners(s[1..]);
      var rest := Split(s[1..]);
      assert rest[0] in rest;
      forall l | l in Split(s) ensures OneLine(l) {
        if s[0] != '\n' && l != [s[0]] + rest[0] {
          assert l in rest[1..];
        }
      }
    }
  }

  lemma {:induction false} DropGivesUnixText(s: string)
    ensures UnixText(DropCarriageReturns(s))
  {
    if s != "" {
      DropGivesUnixText(if s[0] != '\r' then s[1..] else if |s| > 1 && s[1] == '\n' then s[2..] else s[1..]);
    }
  }

  lemma SplitLinesShape(text: string)
    ensures OneLiners(SplitLines(text)) && SplitLines(text) != [""]
  {
    DropGivesUnixText(text);
    SplitGivesOneLiners(DropCarriageReturns(text));
    JoinSplit(DropCarriageReturns(text));
  }

  lemma JoinIsInjective(a: seq<string>, b: seq<string>)
    requires OneLiners(a) && OneLiners(b)
    requires a != [] && b != [] && Join(a) == Join(b)
    ensures a == b
  {
    SplitJoin(a);
    SplitJoin(b);
  }

  // Hunk headers.

  datatype HunkHeader = HunkHeader(start: int, count: int)

  function UntilMarker(s: string): string {
    if s == "" || "@@" <= s then "" else [s[0]] + UntilMarker(s[1..])
  }

  function UntilComma(s: string): string {
    if s == "" || s[0] == ',' then "" else [s[0]] + UntilComma(s[1..])
  }

  lemma {:induction false} UntilCommaLength(s: string)
    ensures |UntilComma(s)| <= |s|
    ensures |UntilComma(s)| < |s| ==> s[|UntilComma(s)|] == ','
  {
    if s != "" && s[0] != ',' { UntilCommaLength(s[1..]); }
  }

  /** Start and old line count; an unreadable count reads as one, an unreadable start is an error. */
  function ParseHunkHeader(line: string): Option<HunkHeader>
    requires "@@" <= line
  {
    ParseRange(TrimSpace(UntilMarker(line[2..])))
  }

  function ParseRange(range: string): Option<HunkHeader> {
    var first := UntilComma(range);
    UntilCommaLength(range);
    if first == "" || first[0] != '-' then None
    else
      match ScanInt(first[1..])
      case None => None
      case Some(start) =>
        if |first| == |range| then Some(HunkHeader(start, 1))
        else
          match ScanInt(range[|first| + 1..])
          case None => Some(HunkHeader(start, 1))
          case Some(count) => Some(HunkHeader(start, count))
  }

  lemma {:induction false} UntilMarkerOf(s: string, rest: string)
    requires '@' !in s
    ensures UntilMarker(s + "@@" + rest) == s
  {
    var full := s + "@@" + rest;
    if s == "" {
      assert full == "@@" + rest;
    } else {
      assert full[0] == s[0] && s[0] in s;
      assert full[1..] == s[1..] + "@@" + rest;
      UntilMarkerOf(s[1..], rest);
    }
  }

  lemma {:induction false} UntilCommaOf(s: string, rest: string)
    requires ',' !in s && (rest == "" || rest[0] == ',')
    ensures UntilComma(s + rest) == s
  {
    if s == "" {
      assert s + rest == rest;
    } else {
      assert (s + rest)[1..] == s[1..] + rest;
      UntilCommaOf(s[1..], rest);
    }
  }

  lemma TrimOneSpace(s: string)
    requires s != "" && !IsSpace(s[0]) && !IsSpace(s[|s| - 1])
    ensures TrimSpace(" " + s + " ") == s
  {
    var padded := " " + s + " ";
    assert padded[1..] == s + " ";
    assert SkipSpace(padded) == SkipSpace(s + " ") == s + " ";
    assert (s + " ")[..|s + " "| - 1] == s;
    assert TrimRight(s + " ") == TrimRight(s) == s;
  }

  function RangeText(start: nat, count: nat, explicit: bool): string {
    if count == 1 && !explicit then Decimal(start) else Decimal(start) + "," + Decimal(count)
  }

  /** A header as diff prints it; a count of one may be left out. */
  function PrintHeader(oldStart: nat, oldCount: nat, newStart: nat, newCount: nat, explicit: bool,
      heading: string): string {
    "@@ -" + RangeText(oldStart, oldCount, explicit) + " +" + RangeText(newStart, newCount, explicit) + " @@" + heading
  }

  lemma RangeTextShape(start: nat, count: nat, explicit: bool)
    ensures var r := RangeText(start, count, explicit);
      r != "" && IsDigit(r[0]) && IsDigit(r[|r| - 1]) && OneLine(r) && forall c :: c in r ==> IsDigit(c) || c == ','
  {
    DecimalValue(start);
    DecimalValue(count);
    var a, b := Decimal(start), Decimal(count);
    assert a[0] in a && a[|a| - 1] in a && b[|b| - 1] in b;
  }

  /** The applier reads back what was printed, except that a left-out old count picks up the new count. */
  lemma HeaderRoundTrip(oldStart: nat, oldCount: nat, newStart: nat, newCount: nat, explicit: bool, heading: string)
    requires oldStart <= MAX_INT64 && oldCount <= MAX_INT64 && newCount <= MAX_INT64
    ensures ParseHunkHeader(PrintHeader(oldStart, oldCount, newStart, newCount, explicit, heading))
      == Some(HunkHeader(oldStart, if explicit || oldCount != 1 then oldCount else newCount))
  {
    var o := RangeText(oldStart, oldCount, explicit);
    var n := RangeText(newStart, newCount, explicit);
    RangeTextShape(oldStart, oldCount, explicit);
    RangeTextShape(newStart, newCount, explicit);
    RangeOfHeader(o, n, heading);
    if explicit || oldCount != 1 {
      ParseExplicitRange(oldStart, oldCount, " +" + n);
      ConcatAssoc("-", Decimal(oldStart) + ",", Decimal(oldCount));
      ConcatAssoc("-", Decimal(oldStart), ",");
      ConcatAssoc("-" + o, " +", n);
    } else {
      ParseShortRange(oldStart, newStart, newCount);
    }
  }

  lemma RangeOfHeader(o: string, n: string, heading: string)
    requires n != "" && !IsSpace(n[|n| - 1]) && '@' !in o && '@' !in n
    ensures TrimSpace(UntilMarker(("@@ -" + o + " +" + n + " @@" + heading)[2..])) == "-" + o + " +" + n
  {
    var range := "-" + o + " +" + n;
    assert ("@@ -" + o + " +" + n + " @@" + heading)[2..] == (" " + range + " ") + "@@" + heading;
    UntilMarkerOf(" " + range + " ", heading);
    TrimOneSpace(range);
  }

  lemma ParseExplicitRange(start: nat, count: nat, rest: string)
    requires start <= MAX_INT64 && count <= MAX_INT64 && (rest == "" || !IsDigit(rest[0]))
    ensures ParseRange("-" + Decimal(start) + "," + Decimal(count) + rest) == Some(HunkHeader(start, count))
  {
    var s, c := Decimal(start), Decimal(count);
    DecimalValue(start);
    ScanDecimal(start, "");
    assert s + "" == s;
    DropHead('-', s);
    ScanDecimal(count, rest);
    ParseWithComma("-" + s, c + rest, start, count);
    ConcatAssoc("-" + s, ",", c + rest);
    ConcatAssoc("-" + s + ",", c, rest);
  }

  lemma ParseShortRange(start: nat, newStart: nat, newCount: nat)
    requires start <= MAX_INT64 && newCount <= MAX_INT64
    ensures ParseRange("-" + Decimal(start) + " +" + RangeText(newStart, newCount, false))
        == Some(HunkHeader(start, newCount))
  {
    var s, t, c := Decimal(start), Decimal(newStart), Decimal(newCount);
    var first := "-" + (s + (" +" + t));
    DecimalValue(start);
    DecimalValue(newStart);
    ScanDecimal(start, " +" + t);
    DropHead('-', s + (" +" + t));
    ConcatAssoc("-", s, " +" + t);
    ConcatAssoc("-" + s, " +", t);
    assert ',' !in first by {
      assert first == "-" + s + " +" + t;
      DigitsHoldNoComma(s);
      DigitsHoldNoComma(t);
    }
    hide ParseRange, ScanInt, Decimal, ValueOf, AllDigits;
    if newCount == 1 {
      ParseWithoutComma(first, start);
    } else {
      ScanDecimal(newCount, "");
      assert c + "" == c;
      ParseWithComma(first, c, start, newCount);
      ConcatAssoc(t, ",", c);
      ConcatAssoc("-" + s + " +", t, "," + c);
    }
  }

  lemma DigitsHoldNoComma(s: string)
    requires AllDigits(s)
    ensures ',' !in s
  {
  }

  lemma ParseWithoutComma(first: string, start: int)
    requires ',' !in first && first != "" && first[0] == '-'
    requires ScanInt(first[1..]) == Some(start)
    ensures ParseRange(first) == Some(HunkHeader(start, 1))
  {
    UntilCommaOf(first, "");
    assert first + "" == first;
  }

  /** Any old range: an error exactly if no number follows its minus sign, and without a readable count, one line. */
  lemma RangeIsReadIff(first: string, rest: string, comma: bool)
    requires ',' !in first
    ensures var r := ParseRange(if comma then first + ("," + rest) else first);
      && (r.Some? <==> first != "" && first[0] == '-' && ScanInt(first[1..]).Some?)
      && (r.Some? ==> ScanInt(first[1..]) == Some(r.value.start))
      && (r.Some? ==> r.value.count == if comma && ScanInt(rest).Some? then ScanInt(rest).value else 1)
  {
    hide ScanInt;
    if comma {
      UntilCommaOf(first, "," + rest);
      assert (first + ("," + rest))[|first| + 1..] == rest;
    } else {
      UntilCommaOf(first, "");
      assert first + "" == first;
    }
  }

  lemma ParseWithComma(first: string, rest: string, start: int, count: int)
    requires ',' !in first && first != "" && first[0] == '-'
    requires ScanInt(first[1..]) == Some(start) && ScanInt(rest) == Some(count)
    ensures ParseRange(first + ("," + rest)) == Some(HunkHeader(start, count))
  {
    UntilCommaOf(first, "," + rest);
    assert (first + ("," + rest))[|first| + 1..] == rest;
  }
}
