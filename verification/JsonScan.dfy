/** Finding JSON objects in model output (internal/horizon/horizon.go, extractJSONObjects;
    internal/planner/planner.go, extractPlanJSONObject). */
module JsonScan {
  import opened Strings

  datatype Mode = Plain | InString | Escaped

  /** Length of the shortest prefix of s that closes depth open braces. */
  function CloseAt(s: string, depth: nat, mode: Mode): Option<nat>
    requires depth >= 1
  {
    if s == "" then None
    else if mode.Escaped? then Later(CloseAt(s[1..], depth, InString))
    else if mode.InString? then
      Later(CloseAt(s[1..], depth, if s[0] == '\\' then Escaped else if s[0] == '"' then Plain else InString))
    else if s[0] == '"' then Later(CloseAt(s[1..], depth, InString))
    else if s[0] == '{' then Later(CloseAt(s[1..], depth + 1, Plain))
    else if s[0] != '}' then Later(CloseAt(s[1..], depth, Plain))
    else if depth == 1 then Some(1)
    else Later(CloseAt(s[1..], depth - 1, Plain))
  }

  function Shift(k: nat, n: Option<nat>): Option<nat> {
    match n
    case None => None
    case Some(m) => Some(k + m)
  }

  function Later(n: Option<nat>): Option<nat> {
    Shift(1, n)
  }

  lemma {:induction false} CloseIsInside(s: string, depth: nat, mode: Mode)
    requires depth >= 1
    ensures CloseAt(s, depth, mode).Some? ==>
      var n := CloseAt(s, depth, mode).value; 1 <= n <= |s| && s[n - 1] == '}'
  {
    if s != "" {
      if mode.Escaped? { CloseIsInside(s[1..], depth, InString); }
      else if mode.InString? {
        CloseIsInside(s[1..], depth, if s[0] == '\\' then Escaped else if s[0] == '"' then Plain else InString);
      }
      else if s[0] == '"' { CloseIsInside(s[1..], depth, InString); }
      else if s[0] == '{' { CloseIsInside(s[1..], depth + 1, Plain); }
      else if s[0] != '}' { CloseIsInside(s[1..], depth, Plain); }
      else if depth > 1 { CloseIsInside(s[1..], depth - 1, Plain); }
    }
  }

  /** A closing position depends only on the text up to it. */
  lemma {:induction false} CloseIsLocal(s: string, rest: string, depth: nat, mode: Mode)
    requires depth >= 1 && CloseAt(s, depth, mode).Some?
    ensures CloseAt(s + rest, depth, mode) == CloseAt(s, depth, mode)
  {
    assert (s + rest)[1..] == s[1..] + rest;
    if mode.Escaped? { CloseIsLocal(s[1..], rest, depth, InString); }
    else if mode.InString? {
      CloseIsLocal(s[1..], rest, depth, if s[0] == '\\' then Escaped else if s[0] == '"' then Plain else InString);
    }
    else if s[0] == '"' { CloseIsLocal(s[1..], rest, depth, InString); }
    else if s[0] == '{' { CloseIsLocal(s[1..], rest, depth + 1, Plain); }
    else if s[0] != '}' { CloseIsLocal(s[1..], rest, depth, Plain); }
    else if depth > 1 { CloseIsLocal(s[1..], rest, depth - 1, Plain); }
  }

  lemma {:induction false} CloseOfPrefix(s: string, depth: nat, mode: Mode)
    requires depth >= 1 && CloseAt(s, depth, mode).Some?
    ensures var n := CloseAt(s, depth, mode).value;
      n <= |s| && CloseAt(s[..n], depth, mode) == Some(n)
  {
    CloseIsInside(s, depth, mode);
    var n := CloseAt(s, depth, mode).value;
    assert n > 1 ==> s[..n][1..] == s[1..][..n - 1];
    if mode.Escaped? { CloseOfPrefix(s[1..], depth, InString); }
    else if mode.InString? {
      CloseOfPrefix(s[1..], depth, if s[0] == '\\' then Escaped else if s[0] == '"' then Plain else InString);
    }
    else if s[0] == '"' { CloseOfPrefix(s[1..], depth, InString); }
    else if s[0] == '{' { CloseOfPrefix(s[1..], depth + 1, Plain); }
    else if s[0] != '}' { CloseOfPrefix(s[1..], depth, Plain); }
    else if depth > 1 { CloseOfPrefix(s[1..], depth - 1, Plain); }
  }

  datatype Scan = Scan(objects: seq<string>, unterminated: bool)

  function Found(first: string, later: Scan): Scan {
    Scan([first] + later.objects, later.unterminated)
  }

  /** The top-level objects of a text, left to right. */
  function Objects(text: string): Scan {
    if text == "" then Scan([], false)
    else if text[0] != '{' then Objects(text[1..])
    else
      match CloseAt(text[1..], 1, Plain)
      case None => Scan([], true)
      case Some(n) =>
        CloseIsInside(text[1..], 1, Plain);
        Found(text[..n + 1], Objects(text[n + 1..]))
  }

  /** The state inside an object: what the scan still owes from index on. */
  function Pending(text: string, start: nat, index: nat, depth: nat, mode: Mode): Scan
    requires start < index <= |text| && depth >= 1
  {
    match CloseAt(text[index..], depth, mode)
    case None => Scan([], true)
    case Some(n) =>
      CloseIsInside(text[index..], depth, mode);
      Found(text[start..index + n], Objects(text[index + n..]))
  }

  function AfterAll(front: seq<string>, later: Scan): Scan {
    Scan(front + later.objects, later.unterminated)
  }

  method ExtractJsonObjects(text: string) returns (r: Scan)
    ensures r == Objects(text)
  {
    var objects: seq<string> := [];
    var start, depth: nat, inString, escaped := -1, 0, false, false;
    for index := 0 to |text|
      invariant start < index
      invariant start < 0 ==> !inString && !escaped && AfterAll(objects, Objects(text[index..])) == Objects(text)
      invariant start >= 0 ==> depth >= 1 && (escaped ==> inString)
      invariant start >= 0 ==>
        AfterAll(objects, Pending(text, start, index, depth, ModeOf(inString, escaped))) == Objects(text)
    {
      var c := text[index];
      assert text[index..][1..] == text[index + 1..];
      if start < 0 {
        if c == '{' {
          start, depth := index, 1;
          assert Objects(text[index..]) == Pending(text, index, index + 1, 1, Plain) by { OpenObject(text, index); }
        }
      } else if inString {
        if escaped {
          escaped := false;
        } else if c == '\\' {
          escaped := true;
        } else if c == '"' {
          inString := false;
        }
      } else if c == '"' {
        inString := true;
      } else if c == '{' {
        depth := depth + 1;
      } else if c == '}' {
        depth := depth - 1;
        if depth == 0 {
          ghost var before := objects;
          objects := objects + [text[start..index + 1]];
          AfterAllFound(before, text[start..index + 1], Objects(text[index + 1..]));
          start := -1;
        }
      }
    }
    assert text[|text|..] == "";
    return Scan(objects, start >= 0 || inString);
  }

  function ModeOf(inString: bool, escaped: bool): Mode {
    if escaped then Escaped else if inString then InString else Plain
  }

  lemma OpenObject(text: string, index: nat)
    requires index < |text| && text[index] == '{'
    ensures Objects(text[index..]) == Pending(text, index, index + 1, 1, Plain)
  {
    var t := text[index..];
    assert t[1..] == text[index + 1..];
    match CloseAt(t[1..], 1, Plain)
    case None =>
    case Some(n) =>
      CloseIsInside(t[1..], 1, Plain);
      assert t[..n + 1] == text[index..index + 1 + n];
      assert t[n + 1..] == text[index + 1 + n..];
  }

  lemma AfterAllFound(front: seq<string>, o: string, later: Scan)
    ensures AfterAll(front, Found(o, later)) == AfterAll(front + [o], later)
  {
    assert front + ([o] + later.objects) == front + [o] + later.objects;
  }

  method IndexOfBrace(text: string) returns (start: int)
    ensures start < 0 ==> Objects(text) == Scan([], false)
    ensures start >= 0 ==>
        start < |text| && Objects(text) == Pending(text, start, start + 1, 1, Plain) && text[start] == '{'
  {
    start := 0;
    while start < |text|
      invariant 0 <= start <= |text| && Objects(text[start..]) == Objects(text)
    {
      if text[start] == '{' {
        OpenObject(text, start);
        return;
      }
      assert text[start..][1..] == text[start + 1..];
      start := start + 1;
    }
    assert text[start..] == "";
    return -1;
  }

  /** The planner's scanner: the first complete object, or the whole text. */
  method ExtractPlanJsonObject(text: string) returns (r: string)
    ensures r == if Objects(text).objects == [] then text else Objects(text).objects[0]
  {
    hide Objects;
    var start := IndexOfBrace(text);
    if start < 0 {
      return text;
    }
    var depth: nat, inString, escaped := 0, false, false;
    for index := start to |text|
      invariant index == start ==> depth == 0 && !inString && !escaped
      invariant index > start ==> depth >= 1 && (escaped ==> inString)
      invariant index > start ==> Pending(text, start, index, depth, ModeOf(inString, escaped)) == Objects(text)
    {
      var character := text[index];
      assert text[index..][1..] == text[index + 1..];
      if inString {
        if escaped {
          escaped := false;
        } else if character == '\\' {
          escaped := true;
        } else if character == '"' {
          inString := false;
        }
      } else if character == '"' {
        inString := true;
      } else if character == '{' {
        depth := depth + 1;
      } else if character == '}' {
        depth := depth - 1;
        if depth == 0 {
          return text[start..index + 1];
        }
      }
    }
    assert text[|text|..] == "";
    return text;
  }
}
