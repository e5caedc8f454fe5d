/** The message list a worker keeps, and its compaction (internal/worker/worker.go). */
module Transcript {
  import opened Strings

  /** `arguments` is the canonical form of the arguments, absent when they do not fit the tool's schema. */
  datatype ToolCall = ToolCall(id: string, name: string, arguments: Option<string>)

  datatype Message =
    | SystemMessage(content: string)
    | UserMessage(content: string)
    | AssistantMessage(content: string, calls: seq<ToolCall>)
    | ToolMessage(callId: string, content: string)

  function CallIds(calls: seq<ToolCall>): (ids: seq<string>)
    ensures |ids| == |calls| && forall i :: 0 <= i < |calls| ==> ids[i] == calls[i].id
  {
    seq(|calls|, i requires 0 <= i < |calls| => calls[i].id)
  }

  function AnswerId(m: Message): string {
    if m.ToolMessage? then m.callId else ""
  }

  function AnswerIds(messages: seq<Message>): (ids: seq<string>)
    ensures |ids| == |messages| && forall i :: 0 <= i < |messages| ==> ids[i] == AnswerId(messages[i])
  {
    seq(|messages|, i requires 0 <= i < |messages| => AnswerId(messages[i]))
  }

  /** Exactly one tool message for each call. */
  ghost predicate Answers(tools: seq<Message>, calls: seq<ToolCall>) {
    && |tools| == |calls|
    && (forall i :: 0 <= i < |tools| ==> tools[i].ToolMessage?)
    && multiset(AnswerIds(tools)) == multiset(CallIds(calls))
  }

  predicate CallsTools(m: Message) {
    m.AssistantMessage? && m.calls != []
  }

  /** The tool message at j answers a call of the message at i. */
  predicate Covers(messages: seq<Message>, i: int, j: int) {
    0 <= i < j < |messages| && CallsTools(messages[i]) && j <= i + |messages[i].calls|
  }

  /** The calls of the message at i are answered by the messages right behind it. */
  ghost predicate AnsweredAt(messages: seq<Message>, i: int) {
    && 0 <= i < |messages| && CallsTools(messages[i]) && i + |messages[i].calls| < |messages|
    && Answers(messages[i + 1..i + 1 + |messages[i].calls|], messages[i].calls)
  }

  /** What OpenAI-compatible endpoints demand: tool calls are answered at once, completely,
      and no tool message stands alone. */
  ghost predicate Valid(messages: seq<Message>) {
    && (forall i :: 0 <= i < |messages| && CallsTools(messages[i]) ==> AnsweredAt(messages, i))
    && (forall j :: 0 <= j < |messages| && messages[j].ToolMessage? ==> exists i :: Covers(messages, i, j))
  }

  lemma AppendPlain(messages: seq<Message>, m: Message)
    requires Valid(messages) && !CallsTools(m) && !m.ToolMessage?
    ensures Valid(messages + [m])
  {
    var longer := messages + [m];
    forall i | 0 <= i < |longer| && CallsTools(longer[i]) ensures AnsweredAt(longer, i) {
      AnswersStay(messages, longer, i);
    }
    forall j | 0 <= j < |longer| && longer[j].ToolMessage? ensures exists i :: Covers(longer, i, j) {
      var i :| Covers(messages, i, j);
      assert Covers(longer, i, j);
    }
  }

  lemma AnswersStay(messages: seq<Message>, longer: seq<Message>, i: nat)
    requires messages <= longer && i < |messages| && CallsTools(messages[i]) && AnsweredAt(messages, i)
    ensures CallsTools(longer[i]) && AnsweredAt(longer, i)
  {
    assert longer[i] == messages[i];
    assert longer[i + 1..i + 1 + |longer[i].calls|] == messages[i + 1..i + 1 + |messages[i].calls|];
  }

  lemma AnswersCount(tools: seq<Message>, calls: seq<ToolCall>)
    requires Answers(tools, calls)
    ensures |tools| == |calls| && forall k :: 0 <= k < |tools| ==> tools[k].ToolMessage?
  {
  }

  lemma BatchIsAnswered(messages: seq<Message>, head: Message, tools: seq<Message>)
    requires CallsTools(head) && Answers(tools, head.calls)
    ensures AnsweredAt(messages + [head] + tools, |messages|)
  {
    hide Answers;
    var longer := messages + [head] + tools;
    var n, k := |messages|, |head.calls|;
    AnswersCount(tools, head.calls);
    assert longer[n] == head;
    assert longer[n + 1..n + 1 + k] == tools;
  }

  lemma AppendBatch(messages: seq<Message>, text: string, calls: seq<ToolCall>, tools: seq<Message>)
    requires Valid(messages) && calls != [] && Answers(tools, calls)
    ensures Valid(messages + [AssistantMessage(text, calls)] + tools)
  {
    hide Answers, AnsweredAt;
    var n, head := |messages|, AssistantMessage(text, calls);
    var longer := messages + [head] + tools;
    AnswersCount(tools, calls);
    assert messages <= longer && longer[n] == head;
    forall i | 0 <= i < |longer| && CallsTools(longer[i]) ensures AnsweredAt(longer, i) {
      if i < n {
        AnswersStay(messages, longer, i);
      } else if i == n {
        BatchIsAnswered(messages, head, tools);
      }
    }
    forall j | 0 <= j < |longer| && longer[j].ToolMessage? ensures exists i :: Covers(longer, i, j) {
      if j < n {
        var i :| Covers(messages, i, j);
        assert Covers(longer, i, j);
      } else {
        assert Covers(longer, n, j);
      }
    }
  }

  // Compaction.

  predicate SameShape(a: Message, b: Message) {
    match a
    case SystemMessage(_) => a == b
    case UserMessage(_) => b.UserMessage?
    case AssistantMessage(_, calls) => b.AssistantMessage? && b.calls == calls
    case ToolMessage(id, _) => b.ToolMessage? && b.callId == id
  }

  ghost predicate SameShapes(a: seq<Message>, b: seq<Message>) {
    |a| == |b| && forall i :: 0 <= i < |a| ==> SameShape(a[i], b[i])
  }

  lemma ShapeDecidesAnswers(s: seq<Message>, t: seq<Message>, calls: seq<ToolCall>)
    requires SameShapes(s, t) && Answers(s, calls)
    ensures Answers(t, calls)
  {
    forall k | 0 <= k < |s| ensures t[k].ToolMessage? && AnswerId(s[k]) == AnswerId(t[k]) {
      assert SameShape(s[k], t[k]);
    }
    assert AnswerIds(s) == AnswerIds(t);
  }

  lemma ShapeDecidesAnsweredAt(a: seq<Message>, b: seq<Message>, i: nat)
    requires SameShapes(a, b) && AnsweredAt(a, i)
    ensures AnsweredAt(b, i)
  {
    hide Answers;
    assert SameShape(a[i], b[i]);
    var n := |a[i].calls|;
    var s, t := a[i + 1..i + 1 + n], b[i + 1..i + 1 + n];
    assert SameShapes(s, t);
    ShapeDecidesAnswers(s, t, a[i].calls);
  }

  /** Validity is a matter of roles and ids only. */
  lemma ShapeDecidesValidity(a: seq<Message>, b: seq<Message>)
    requires SameShapes(a, b) && Valid(a)
    ensures Valid(b)
  {
    hide AnsweredAt;
    forall i | 0 <= i < |b| && CallsTools(b[i]) ensures AnsweredAt(b, i) {
      assert SameShape(a[i], b[i]);
      ShapeDecidesAnsweredAt(a, b, i);
    }
    forall j | 0 <= j < |b| && b[j].ToolMessage? ensures exists i :: Covers(b, i, j) {
      assert SameShape(a[j], b[j]);
      var i :| Covers(a, i, j);
      assert SameShape(a[i], b[i]);
      assert Covers(b, i, j);
    }
  }

  const MARKER_HEAD := "\n\n[context recompiled after provider overflow; original_sha256="
  const MARKER_MIDDLE := "; omitted_runes="
  const MARKER_TAIL := "]\n\n"

  function Kept(content: string): nat {
    if |content| / 4 < 256 then 256 else |content| / 4
  }

  /** Head and tail of a long text around a note on what was left out. */
  function Compacted(content: string, digest: string): string {
    var keep := Kept(content);
    if |content| < 512 || keep * 2 >= |content| then content
    else
      content[..keep] + MARKER_HEAD + digest + MARKER_MIDDLE + Decimal(|content| - keep * 2) + MARKER_TAIL
          + content[|content| - keep..]
  }

  function CompactedMessage(m: Message, digest: string -> string): Message {
    match m
    case SystemMessage(_) => m
    case UserMessage(content) => UserMessage(Compacted(content, digest(content)))
    case AssistantMessage(content, calls) => AssistantMessage(Compacted(content, digest(content)), calls)
    case ToolMessage(id, content) => ToolMessage(id, Compacted(content, digest(content)))
  }

  method CompactText(content: string, digest: string) returns (text: string)
    ensures text == Compacted(content, digest)
  {
    hide Decimal;
    if |content| < 512 {
      return content;
    }
    var keep := |content| / 4;
    if keep < 256 {
      keep := 256;
    }
    if keep * 2 >= |content| {
      return content;
    }
    text := content[..keep] + MARKER_HEAD + digest + MARKER_MIDDLE + Decimal(|content| - keep * 2) + MARKER_TAIL
        + content[|content| - keep..];
  }

  method CompactOverflowMessages(messages: seq<Message>, digest: string -> string) returns (compacted: seq<Message>)
    ensures SameShapes(messages, compacted)
    ensures forall i :: 0 <= i < |messages| ==> compacted[i] == CompactedMessage(messages[i], digest)
  {
    hide Compacted;
    compacted := messages;
    for index := 0 to |messages|
      invariant |compacted| == |messages|
      invariant forall i :: 0 <= i < index ==> compacted[i] == CompactedMessage(messages[i], digest)
      invariant forall i :: index <= i < |messages| ==> compacted[i] == messages[i]
    {
      var m := compacted[index];
      if m.SystemMessage? {
        continue;
      }
      var text := CompactText(m.content, digest(m.content));
      compacted := compacted[index := m.(content := text)];
    }
  }

  /** What repeated compaction makes of a text. */
  function Times(content: string, n: nat, digest: string -> string): string {
    if n == 0 then content
    else
      var before := Times(content, n - 1, digest);
      Compacted(before, digest(before))
  }

  /** The text itself, or what is left of it after some compactions. */
  ghost predicate Descends(now: string, original: string, digest: string -> string) {
    exists n: nat :: now == Times(original, n, digest)
  }

  ghost predicate MessageDescends(original: Message, now: Message, digest: string -> string) {
    && SameShape(original, now) && Descends(now.content, original.content, digest)
    && (original.SystemMessage? ==> now == original)
  }

  ghost predicate AllDescend(original: seq<Message>, now: seq<Message>, digest: string -> string) {
    |original| == |now| && forall i :: 0 <= i < |original| ==> MessageDescends(original[i], now[i], digest)
  }

  lemma {:induction false} TimesAdd(content: string, m: nat, n: nat, digest: string -> string)
    ensures Times(Times(content, m, digest), n, digest) == Times(content, m + n, digest)
  {
    hide Compacted;
    if n > 0 { TimesAdd(content, m, n - 1, digest); }
  }

  lemma DescentChains(a: string, b: string, c: string, digest: string -> string)
    requires Descends(b, a, digest) && Descends(c, b, digest)
    ensures Descends(c, a, digest)
  {
    hide Times;
    var m: nat :| b == Times(a, m, digest);
    var n: nat :| c == Times(b, n, digest);
    TimesAdd(a, m, n, digest);
    assert c == Times(a, m + n, digest);
  }

  lemma UntouchedDescends(content: string, digest: string -> string)
    ensures Descends(content, content, digest)
  {
    assert content == Times(content, 0, digest);
  }

  lemma CompactedDescends(content: string, digest: string -> string)
    ensures Descends(Compacted(content, digest(content)), content, digest)
  {
    hide Compacted;
    assert Times(content, 0, digest) == content;
    assert Compacted(content, digest(content)) == Times(content, 1, digest);
  }

  lemma CompactedMessageDescends(m: Message, digest: string -> string)
    ensures MessageDescends(m, CompactedMessage(m, digest), digest) && MessageDescends(m, m, digest)
  {
    hide Compacted, Descends;
    UntouchedDescends(m.content, digest);
    CompactedDescends(m.content, digest);
  }

  lemma UntouchedMessagesDescend(messages: seq<Message>, digest: string -> string)
    ensures AllDescend(messages, messages, digest)
  {
    hide MessageDescends;
    forall i | 0 <= i < |messages| ensures MessageDescends(messages[i], messages[i], digest) {
      CompactedMessageDescends(messages[i], digest);
    }
  }

  lemma CompactedMessagesDescend(messages: seq<Message>, compacted: seq<Message>, digest: string -> string)
    requires |compacted| == |messages|
    requires forall i :: 0 <= i < |messages| ==> compacted[i] == CompactedMessage(messages[i], digest)
    ensures AllDescend(messages, compacted, digest)
  {
    hide MessageDescends, CompactedMessage;
    forall i | 0 <= i < |messages| ensures MessageDescends(messages[i], compacted[i], digest) {
      CompactedMessageDescends(messages[i], digest);
    }
  }

  lemma DescentsChain(a: seq<Message>, b: seq<Message>, c: seq<Message>, digest: string -> string)
    requires AllDescend(a, b, digest) && AllDescend(b, c, digest)
    ensures AllDescend(a, c, digest)
  {
    hide Descends;
    forall i | 0 <= i < |a| ensures MessageDescends(a[i], c[i], digest) {
      assert MessageDescends(a[i], b[i], digest) && MessageDescends(b[i], c[i], digest);
      DescentChains(a[i].content, b[i].content, c[i].content, digest);
    }
  }

  lemma DescentKeepsShapes(a: seq<Message>, b: seq<Message>, digest: string -> string)
    requires AllDescend(a, b, digest)
    ensures SameShapes(a, b)
  {
    hide Descends;
    forall i | 0 <= i < |a| ensures SameShape(a[i], b[i]) { assert MessageDescends(a[i], b[i], digest); }
  }

  lemma FrontAndBack(a: string, h: string, d: string, m: string, n: string, t: string, z: string)
    ensures var all := a + h + d + m + n + t + z;
      && all[..|a|] == a && all[|all| - |z|..] == z && all[|a|..|all| - |z|] == h + d + m + n + t
  {
    var note := h + d + m + n + t;
    assert a + h + d + m + n + t + z == a + note + z;
    assert (a + note + z)[|a|..|a| + |note|] == note;
  }

  /** From 513 runes on a text keeps a quarter at each end, 256 runes at least, around a note with its hash and the
      number of runes left out; a shorter one is not touched. */
  lemma CompactionKeepsBothEnds(content: string, digest: string)
    ensures |content| <= 512 ==> Compacted(content, digest) == content
    ensures |content| > 512 ==>
      var c, k := Compacted(content, digest), if |content| >= 1024 then |content| / 4 else 256;
      && 2 * k < |c| && c[..k] == content[..k] && c[|c| - k..] == content[|content| - k..]
      && c[k..|c| - k] == MARKER_HEAD + digest + MARKER_MIDDLE + Decimal(|content| - 2 * k) + MARKER_TAIL
  {
    hide Decimal;
    if |content| > 512 {
      var k := if |content| >= 1024 then |content| / 4 else 256;
      assert Kept(content) == k;
      FrontAndBack(content[..k], MARKER_HEAD, digest, MARKER_MIDDLE, Decimal(|content| - k * 2), MARKER_TAIL,
        content[|content| - k..]);
    }
  }

  lemma {:induction false} DecimalIsShort(n: nat)
    ensures n < 10 ==> |Decimal(n)| == 1
    ensures 10 <= n < 100 ==> |Decimal(n)| == 2
    ensures 100 <= n < 1000 ==> |Decimal(n)| == 3
    ensures n >= 100 ==> |Decimal(n)| <= 2 + n / 100
  {
    if n >= 10 { DecimalIsShort(n / 10); }
  }

  /** Compaction leaves short texts alone, and makes a text shorter exactly from 662 runes on:
      between 513 and 660 runes the note is longer than what it replaces. */
  lemma CompactionShrinksIff(content: string, digest: string)
    requires |digest| == 64
    ensures |Compacted(content, digest)| < |content| <==> |content| >= 662
    ensures |content| <= 512 ==> Compacted(content, digest) == content
    ensures 513 <= |content| <= 660 ==> |Compacted(content, digest)| > |content|
  {
    hide Decimal;
    var keep := Kept(content);
    if |content| > 512 {
      MarkerLengths();
      DecimalIsShort(|content| - keep * 2);
    }
  }

  lemma MarkerLengths()
    ensures |MARKER_HEAD| == 63 && |MARKER_MIDDLE| == 16 && |MARKER_TAIL| == 3
  {
  }
}
