/** What the JSON scanners find, on every text and on printed objects in particular. */
module JsonRoundTrip {
  import opened Strings
  import opened JsonScan

  /** Starts with a brace that its last character closes. */
  predicate Balanced(o: string) {
    o != "" && o[0] == '{' && CloseAt(o[1..], 1, Plain) == Some(|o| - 1)
  }

  predicate NoBrace(s: string) {
    '{' !in s
  }

  datatype Part = Part(gap: string, found: string)

  predicate WellFormed(parts: seq<Part>) {
    forall p :: p in parts ==> NoBrace(p.gap) && Balanced(p.found)
  }

  function ObjectsOf(parts: seq<Part>): seq<string> {
    if parts == [] then [] else [parts[0].found] + ObjectsOf(parts[1..])
  }

  function Weave(parts: seq<Part>, last: string): string {
    if parts == [] then last else parts[0].gap + (parts[0].found + Weave(parts[1..], last))
  }

  lemma {:induction false} SkipGap(gap: string, rest: string)
    requires NoBrace(gap)
    ensures Objects(gap + rest) == Objects(rest)
  {
    if gap == "" {
      assert gap + rest == rest;
    } else {
      assert (gap + rest)[1..] == gap[1..] + rest;
      assert (gap + rest)[0] == gap[0] && gap[0] in gap;
      SkipGap(gap[1..], rest);
    }
  }

  lemma TakeObject(o: string, rest: string)
    requires Balanced(o)
    ensures Objects(o + rest) == Found(o, Objects(rest))
  {
    var text := o + rest;
    assert text[1..] == o[1..] + rest;
    CloseIsLocal(o[1..], rest, 1, Plain);
    assert text[..|o|] == o && text[|o|..] == rest;
  }

  /** Balanced objects in brace-free text are found, all of them and in order. */
  lemma {:induction false} WeaveIsScanned(parts: seq<Part>, last: string)
    requires WellFormed(parts)
    ensures Objects(Weave(parts, last)) == AfterAll(ObjectsOf(parts), Objects(last))
  {
    if parts == [] {
      assert ObjectsOf(parts) + Objects(last).objects == Objects(last).objects;
    } else {
      var p := parts[0];
      WeaveIsScanned(parts[1..], last);
      SkipGap(p.gap, p.found + Weave(parts[1..], last));
      TakeObject(p.found, Weave(parts[1..], last));
      AfterAllFound([], p.found, AfterAll(ObjectsOf(parts[1..]), Objects(last)));
      assert [p.found] + (ObjectsOf(parts[1..]) + Objects(last).objects) == ObjectsOf(parts) + Objects(last).objects;
    }
  }

  /** Brace-free text, or brace-free text and then an object that never closes. */
  ghost predicate Remainder(last: string) {
    NoBrace(last) ||
    exists i :: 0 <= i < |last| && last[i] == '{' && NoBrace(last[..i]) && CloseAt(last[i + 1..], 1, Plain) == None
  }

  lemma LongerRemainder(c: char, last: string)
    requires c != '{' && Remainder(last)
    ensures Remainder([c] + last)
  {
    hide CloseAt;
    var longer := [c] + last;
    if !NoBrace(last) {
      var i :| 0 <= i < |last| && last[i] == '{' && NoBrace(last[..i]) && CloseAt(last[i + 1..], 1, Plain) == None;
      assert longer[i + 1] == '{' && longer[..i + 1] == [c] + last[..i] && longer[i + 1 + 1..] == last[i + 1..];
    }
  }

  /** A character that opens nothing joins the first gap. */
  lemma LongerGap(c: char, parts: seq<Part>, last: string) returns (parts': seq<Part>, last': string)
    requires c != '{' && WellFormed(parts) && Remainder(last)
    ensures [c] + Weave(parts, last) == Weave(parts', last')
    ensures WellFormed(parts') && Remainder(last') && ObjectsOf(parts') == ObjectsOf(parts)
    ensures NoBrace(last') <==> NoBrace(last)
  {
    hide CloseAt;
    if parts == [] {
      LongerRemainder(c, last);
      return [], [c] + last;
    }
    var p := parts[0];
    assert p in parts;
    ConcatAssoc([c], p.gap, p.found + Weave(parts[1..], last));
    parts' := [Part([c] + p.gap, p.found)] + parts[1..];
    last' := last;
    assert parts'[1..] == parts[1..];
  }

  lemma FirstObject(text: string)
    requires text != "" && text[0] == '{' && CloseAt(text[1..], 1, Plain).Some?
    ensures var n := CloseAt(text[1..], 1, Plain).value;
      n + 1 <= |text| && Balanced(text[..n + 1]) && Objects(text) == Found(text[..n + 1], Objects(text[n + 1..]))
  {
    hide CloseAt;
    CloseIsInside(text[1..], 1, Plain);
    CloseOfPrefix(text[1..], 1, Plain);
    var n := CloseAt(text[1..], 1, Plain).value;
    assert text[..n + 1][1..] == text[1..][..n];
  }

  /** Every text decomposes that way: what was found, then a remainder in which nothing is complete. */
  lemma {:induction false} EveryTextIsAWeave(text: string) returns (parts: seq<Part>, last: string)
    ensures text == Weave(parts, last) && WellFormed(parts) && Remainder(last)
    ensures ObjectsOf(parts) == Objects(text).objects
    ensures Objects(text).unterminated <==> !NoBrace(last)
    decreases |text|
  {
    hide CloseAt;
    if text == "" {
      return [], "";
    }
    if text[0] != '{' {
      parts, last := EveryTextIsAWeave(text[1..]);
      assert text == [text[0]] + text[1..];
      parts, last := LongerGap(text[0], parts, last);
    } else if CloseAt(text[1..], 1, Plain) == None {
      assert text[..0] == "";
      return [], text;
    } else {
      FirstObject(text);
      var n := CloseAt(text[1..], 1, Plain).value;
      parts, last := EveryTextIsAWeave(text[n + 1..]);
      assert text == "" + (text[..n + 1] + text[n + 1..]);
      assert ([Part("", text[..n + 1])] + parts)[1..] == parts;
      parts := [Part("", text[..n + 1])] + parts;
    }
  }

  /** Scanning a found object again finds exactly that object. */
  lemma FoundObjectsAreBalanced(text: string)
    ensures forall o :: o in Objects(text).objects ==> Balanced(o) && Objects(o) == Scan([o], false)
  {
    var parts, last := EveryTextIsAWeave(text);
    forall o | o in Objects(text).objects ensures Balanced(o) && Objects(o) == Scan([o], false) {
      MemberIsBalanced(parts, o);
      TakeObject(o, "");
      assert o + "" == o;
    }
  }

  lemma {:induction false} MemberIsBalanced(parts: seq<Part>, o: string)
    requires WellFormed(parts) && o in ObjectsOf(parts)
    ensures Balanced(o)
  {
    assert parts[0] in parts;
    if o != parts[0].found { MemberIsBalanced(parts[1..], o); }
  }

  // JSON values and their text.

  datatype Json =
    | Word(text: string)                // null, true, false and numbers
    | Text(value: string)
    | Array(items: Items)
    | Object(fields: Fields)

  datatype Items = NoItems | Item(head: Json, tail: Items)

  datatype Fields = NoFields | Field(name: string, value: Json, rest: Fields)

  /** None of the characters that guide the scanner. */
  predicate PlainChar(c: char) {
    c != '"' && c != '\\' && c != '{' && c != '}'
  }

  predicate PlainText(s: string) {
    forall i :: 0 <= i < |s| ==> PlainChar(s[i])
  }

  predicate WordsArePlain(v: Json) {
    match v
    case Word(text) => PlainText(text)
    case Text(_) => true
    case Array(items) => ItemsArePlain(items)
    case Object(fields) => FieldsArePlain(fields)
  }

  predicate ItemsArePlain(items: Items) {
    items.Item? ==> WordsArePlain(items.head) && ItemsArePlain(items.tail)
  }

  predicate FieldsArePlain(fields: Fields) {
    fields.Field? ==> WordsArePlain(fields.value) && FieldsArePlain(fields.rest)
  }

  function HexDigit(n: nat): char
    requires n < 16
  {
    "0123456789abcdef"[n]
  }

  /** Quote, backslash and control characters, as section 7 of RFC 8259 requires. */
  function EscapeChar(c: char): string {
    if c == '"' || c == '\\' then ['\\', c]
    else if c as int < 0x20 then "\\u00" + [HexDigit(c as int / 16), HexDigit(c as int % 16)]
    else [c]
  }

  function Escape(s: string): string {
    if s == "" then "" else EscapeChar(s[0]) + Escape(s[1..])
  }

  function Quote(s: string): string {
    "\"" + (Escape(s) + "\"")
  }

  function Print(v: Json): string {
    match v
    case Word(text) => text
    case Text(s) => Quote(s)
    case Array(items) => "[" + (PrintItems(items) + "]")
    case Object(fields) => "{" + (PrintFields(fields) + "}")
  }

  function PrintItems(items: Items): string {
    match items
    case NoItems => ""
    case Item(head, tail) => Print(head) + ((if tail.Item? then "," else "") + PrintItems(tail))
  }

  function PrintFields(fields: Fields): string {
    match fields
    case NoFields => ""
    case Field(name, value, rest) =>
      Quote(name) + (":" + (Print(value) + ((if rest.Field? then "," else "") + PrintFields(rest))))
  }

  /** Reading s in front of rest leaves the scanner where it was. */
  ghost predicate Neutral(s: string, rest: string, depth: nat)
    requires depth >= 1
  {
    CloseAt(s + rest, depth, Plain) == Shift(|s|, CloseAt(rest, depth, Plain))
  }

  lemma {:induction false} PlainIsNeutral(s: string, rest: string, depth: nat)
    requires PlainText(s) && depth >= 1
    ensures Neutral(s, rest, depth)
  {
    if s == "" {
      assert s + rest == rest;
    } else {
      assert (s + rest)[1..] == s[1..] + rest;
      PlainIsNeutral(s[1..], rest, depth);
    }
  }

  lemma NeutralConcat(a: string, b: string, rest: string, depth: nat)
    requires depth >= 1 && Neutral(a, b + rest, depth) && Neutral(b, rest, depth)
    ensures Neutral(a + b, rest, depth)
  {
    hide CloseAt;
    ConcatAssoc(a, b, rest);
  }

  lemma EscapedCharStaysInside(c: char, rest: string, depth: nat)
    requires depth >= 1
    ensures CloseAt(EscapeChar(c) + rest, depth, InString) == Shift(|EscapeChar(c)|, CloseAt(rest, depth, InString))
  {
    var e := EscapeChar(c);
    var s := e + rest;
    if c == '"' || c == '\\' {
      assert s[1..][1..] == rest;
    } else if c as int < 0x20 {
      assert s[1..][1..][1..][1..][1..][1..] == rest;
      PlainStaysInside(e[2..], rest, depth);
      assert s[1..][1..] == e[2..] + rest;
    } else {
      assert s[1..] == rest;
    }
  }

  lemma {:induction false} PlainStaysInside(s: string, rest: string, depth: nat)
    requires PlainText(s) && depth >= 1
    ensures CloseAt(s + rest, depth, InString) == Shift(|s|, CloseAt(rest, depth, InString))
  {
    if s == "" {
      assert s + rest == rest;
    } else {
      assert (s + rest)[1..] == s[1..] + rest;
      PlainStaysInside(s[1..], rest, depth);
    }
  }

  lemma {:induction false} EscapedStaysInside(s: string, rest: string, depth: nat)
    requires depth >= 1
    ensures CloseAt(Escape(s) + rest, depth, InString) == Shift(|Escape(s)|, CloseAt(rest, depth, InString))
  {
    hide CloseAt, EscapeChar;
    if s == "" {
      assert Escape(s) + rest == rest;
    } else {
      EscapedStaysInside(s[1..], rest, depth);
      EscapedCharStaysInside(s[0], Escape(s[1..]) + rest, depth);
      ConcatAssoc(EscapeChar(s[0]), Escape(s[1..]), rest);
    }
  }

  lemma QuotedIsNeutral(s: string, rest: string, depth: nat)
    requires depth >= 1
    ensures Neutral(Quote(s), rest, depth)
  {
    var inner := "\"" + rest;
    EscapedStaysInside(s, inner, depth);
    assert inner[1..] == rest;
    assert (Quote(s) + rest)[1..] == Escape(s) + inner;
  }

  lemma {:induction false} ValueIsNeutral(v: Json, rest: string, depth: nat)
    requires WordsArePlain(v) && depth >= 1
    ensures Neutral(Print(v), rest, depth)
    decreases v
  {
    hide CloseAt, Neutral;
    match v
    case Word(text) => PlainIsNeutral(text, rest, depth);
    case Text(s) => QuotedIsNeutral(s, rest, depth);
    case Array(items) =>
      ItemsAreNeutral(items, "]" + rest, depth);
      BracketsAreNeutral(PrintItems(items), rest, depth);
    case Object(fields) =>
      ObjectCloses(fields, rest, depth);
      BracesAreNeutral(PrintFields(fields), rest, depth);
  }

  lemma BracesAreNeutral(s: string, rest: string, depth: nat)
    requires depth >= 1
    requires CloseAt(s + ("}" + rest), depth + 1, Plain) == Shift(|s| + 1, CloseAt(rest, depth, Plain))
    ensures Neutral("{" + (s + "}"), rest, depth)
  {
    assert ("{" + (s + "}") + rest)[1..] == s + ("}" + rest);
  }

  lemma BracketsAreNeutral(s: string, rest: string, depth: nat)
    requires depth >= 1 && Neutral(s, "]" + rest, depth)
    ensures Neutral("[" + (s + "]"), rest, depth)
  {
    PlainIsNeutral("]", rest, depth);
    NeutralConcat(s, "]", rest, depth);
    PlainIsNeutral("[", s + "]" + rest, depth);
    NeutralConcat("[", s + "]", rest, depth);
  }

  /** The closing brace of a printed object undoes its opening one. */
  lemma {:induction false} ObjectCloses(fields: Fields, rest: string, depth: nat)
    requires FieldsArePlain(fields) && depth >= 1
    ensures var n := PrintFields(fields) + ("}" + rest);
      && CloseAt(n, depth + 1, Plain) == Shift(|PrintFields(fields)| + 1, CloseAt(rest, depth, Plain))
      && CloseAt(n, 1, Plain) == Some(|PrintFields(fields)| + 1)
    decreases fields, 1
  {
    FieldsAreNeutral(fields, "}" + rest, depth + 1);
    FieldsAreNeutral(fields, "}" + rest, 1);
    assert ("}" + rest)[1..] == rest;
  }

  lemma {:induction false} ItemsAreNeutral(items: Items, rest: string, depth: nat)
    requires ItemsArePlain(items) && depth >= 1
    ensures Neutral(PrintItems(items), rest, depth)
    decreases items
  {
    if items == NoItems {
      PlainIsNeutral("", rest, depth);
    } else {
      var comma := if items.tail.Item? then "," else "";
      ItemsAreNeutral(items.tail, rest, depth);
      PlainIsNeutral(comma, PrintItems(items.tail) + rest, depth);
      NeutralConcat(comma, PrintItems(items.tail), rest, depth);
      ValueIsNeutral(items.head, comma + PrintItems(items.tail) + rest, depth);
      NeutralConcat(Print(items.head), comma + PrintItems(items.tail), rest, depth);
    }
  }

  lemma {:induction false} FieldsAreNeutral(fields: Fields, rest: string, depth: nat)
    requires FieldsArePlain(fields) && depth >= 1
    ensures Neutral(PrintFields(fields), rest, depth)
    decreases fields, 0
  {
    if fields == NoFields {
      PlainIsNeutral("", rest, depth);
    } else {
      var comma := if fields.rest.Field? then "," else "";
      var more := comma + PrintFields(fields.rest);
      FieldsAreNeutral(fields.rest, rest, depth);
      PlainIsNeutral(comma, PrintFields(fields.rest) + rest, depth);
      NeutralConcat(comma, PrintFields(fields.rest), rest, depth);
      ValueIsNeutral(fields.value, more + rest, depth);
      NeutralConcat(Print(fields.value), more, rest, depth);
      PlainIsNeutral(":", Print(fields.value) + more + rest, depth);
      NeutralConcat(":", Print(fields.value) + more, rest, depth);
      QuotedIsNeutral(fields.name, ":" + (Print(fields.value) + more) + rest, depth);
      NeutralConcat(Quote(fields.name), ":" + (Print(fields.value) + more), rest, depth);
    }
  }

  lemma PrintedObjectIsBalanced(fields: Fields)
    requires FieldsArePlain(fields)
    ensures Balanced(Print(Object(fields)))
  {
    ObjectCloses(fields, "", 1);
    assert "}" + "" == "}";
    assert Print(Object(fields))[1..] == PrintFields(fields) + "}";
  }

  function PrintedParts(gaps: seq<string>, objects: seq<Fields>): seq<Part>
    requires |gaps| == |objects|
  {
    seq(|gaps|, i requires 0 <= i < |gaps| => Part(gaps[i], Print(Object(objects[i]))))
  }

  /** Scanning inverts printing: printed objects between brace-free texts come back unchanged and in order. */
  lemma PrintedObjectsAreFound(gaps: seq<string>, objects: seq<Fields>, last: string)
    requires |gaps| == |objects| && (forall g :: g in gaps ==> NoBrace(g)) && NoBrace(last)
    requires forall o :: o in objects ==> FieldsArePlain(o)
    ensures Objects(Weave(PrintedParts(gaps, objects), last))
      == Scan(seq(|objects|, i requires 0 <= i < |objects| => Print(Object(objects[i]))), false)
  {
    var parts := PrintedParts(gaps, objects);
    forall p | p in parts ensures NoBrace(p.gap) && Balanced(p.found) {
      var i :| 0 <= i < |parts| && parts[i] == p;
      PrintedObjectIsBalanced(objects[i]);
    }
    WeaveIsScanned(parts, last);
    SkipGap(last, "");
    assert last + "" == last;
    ObjectsOfAt(parts);
  }

  lemma {:induction false} ObjectsOfAt(parts: seq<Part>)
    ensures |ObjectsOf(parts)| == |parts| && forall i :: 0 <= i < |parts| ==> ObjectsOf(parts)[i] == parts[i].found
  {
    if parts != [] { ObjectsOfAt(parts[1..]); }
  }
}
