/** What a worker's message list tells the model (internal/worker/worker.go, Run): the assignment, the model's own
    responses, and the results of its tool calls, each behind the call it answers. */
module WorkerTelling {
  import opened Strings
  import opened Transcript
  import opened WorkerModel

  /** `replayed` marks an answer that was served again for a repeated read. */
  datatype Answer = Answer(key: Key, result: ToolResult, replayed: bool)

  const WRITE_REPAIR := "call a write tool now"
  const CALL_REPAIR := "the tool request was rejected; fix it and retry"

  function ToolCount(messages: seq<Message>): nat {
    if messages == [] then 0
    else ToolCount(messages[..|messages| - 1]) + if messages[|messages| - 1].ToolMessage? then 1 else 0
  }

  /** A tool message that shows the result of an answer, whole or compacted. */
  ghost predicate Shows(env: Env, m: Message, a: Answer) {
    m.ToolMessage? && Descends(m.content, env.render(a.replayed, a.result), env.digest)
  }

  /** The tool message at j answers a call for that action. */
  ghost predicate AnswersCallFor(messages: seq<Message>, j: int, key: Key) {
    exists i, c :: Covers(messages, i, j) && 0 <= c < |messages[i].calls|
      && messages[i].calls[c].id == AnswerId(messages[j])
      && messages[i].calls[c].arguments.Some? && KeyOfCall(messages[i].calls[c]) == key
  }

  ghost predicate TellsAt(env: Env, messages: seq<Message>, answers: seq<Answer>, j: int)
    requires 0 <= j < |messages|
  {
    && ToolCount(messages[..j]) < |answers|
    && Shows(env, messages[j], answers[ToolCount(messages[..j])])
    && AnswersCallFor(messages, j, answers[ToolCount(messages[..j])].key)
  }

  /** The n-th tool message shows the n-th answer, behind a call for its action. */
  ghost predicate TellsAnswers(env: Env, messages: seq<Message>, answers: seq<Answer>) {
    && ToolCount(messages) <= |answers|
    && forall j :: 0 <= j < |messages| && messages[j].ToolMessage? ==> TellsAt(env, messages, answers, j)
  }

  /** One of the first responses. */
  ghost predicate SaidBefore(env: Env, heard: nat, n: nat, m: Message) {
    && n < heard && env.chat(n).Response? && m.AssistantMessage? && m.calls == env.chat(n).calls
    && Descends(m.content, env.chat(n).text, env.digest)
  }

  /** What is not a tool message: the system message, the assignment, responses heard before, and the two repair
      instructions. */
  ghost predicate SpeaksAt(env: Env, input: Input, messages: seq<Message>, heard: nat, j: int)
    requires 0 <= j < |messages|
  {
    match messages[j]
    case SystemMessage(content) => j == 0 && content == input.system
    case UserMessage(content) =>
      if j == 1 then Descends(content, input.assignment, env.digest)
      else Descends(content, WRITE_REPAIR, env.digest) || Descends(content, CALL_REPAIR, env.digest)
    case AssistantMessage(_, _) => exists n: nat :: SaidBefore(env, heard, n, messages[j])
    case ToolMessage(_, _) => true
  }

  ghost predicate Tells(env: Env, input: Input, messages: seq<Message>, answers: seq<Answer>, heard: nat) {
    && |messages| >= 2 && messages[0].SystemMessage? && messages[1].UserMessage?
    && TellsAnswers(env, messages, answers)
    && forall j :: 0 <= j < |messages| ==> SpeaksAt(env, input, messages, heard, j)
  }

  // What keeps it.

  lemma CountAppends(messages: seq<Message>, m: Message)
    ensures ToolCount(messages + [m]) == ToolCount(messages) + if m.ToolMessage? then 1 else 0
  {
    assert (messages + [m])[..|messages|] == messages;
  }

  lemma {:induction false} CountAdds(a: seq<Message>, b: seq<Message>)
    ensures ToolCount(a + b) == ToolCount(a) + ToolCount(b)
    ensures (forall i :: 0 <= i < |b| ==> b[i].ToolMessage?) ==> ToolCount(b) == |b|
  {
    if b == [] {
      assert a + b == a;
    } else {
      var init, last := b[..|b| - 1], b[|b| - 1];
      CountAdds(a, init);
      assert a + b == a + init + [last];
      CountAppends(a + init, last);
    }
  }

  lemma {:induction false} CountOfShape(a: seq<Message>, b: seq<Message>)
    requires SameShapes(a, b)
    ensures ToolCount(a) == ToolCount(b)
  {
    if a != [] {
      var n := |a| - 1;
      assert SameShape(a[n], b[n]);
      forall i | 0 <= i < n ensures SameShape(a[..n][i], b[..n][i]) { assert SameShape(a[i], b[i]); }
      CountOfShape(a[..n], b[..n]);
    }
  }

  lemma CallsOfShape(a: seq<Message>, b: seq<Message>, j: int, key: Key)
    requires SameShapes(a, b) && AnswersCallFor(a, j, key)
    ensures AnswersCallFor(b, j, key)
  {
    var i, c :| Covers(a, i, j) && 0 <= c < |a[i].calls| && a[i].calls[c].id == AnswerId(a[j])
      && a[i].calls[c].arguments.Some? && KeyOfCall(a[i].calls[c]) == key;
    assert SameShape(a[i], b[i]) && SameShape(a[j], b[j]);
    assert Covers(b, i, j);
  }

  /** Compaction keeps what is told. */
  lemma CompactionTells(env: Env, input: Input, a: seq<Message>, b: seq<Message>, answers: seq<Answer>, heard: nat)
    requires Tells(env, input, a, answers, heard) && AllDescend(a, b, env.digest)
    ensures Tells(env, input, b, answers, heard) && ToolCount(b) == ToolCount(a)
  {
    hide Descends, AnswersCallFor;
    DescentKeepsShapes(a, b, env.digest);
    CountOfShape(a, b);
    assert MessageDescends(a[0], b[0], env.digest) && MessageDescends(a[1], b[1], env.digest);
    forall j | 0 <= j < |b| ensures SpeaksAt(env, input, b, heard, j) {
      assert SpeaksAt(env, input, a, heard, j) && MessageDescends(a[j], b[j], env.digest);
      CompactionSpeaks(env, input, a, b, heard, j);
    }
    forall j | 0 <= j < |b| && b[j].ToolMessage? ensures TellsAt(env, b, answers, j) {
      assert MessageDescends(a[j], b[j], env.digest);
      assert TellsAt(env, a, answers, j);
      forall i | 0 <= i < j ensures SameShape(a[..j][i], b[..j][i]) { assert SameShape(a[i], b[i]); }
      CountOfShape(a[..j], b[..j]);
      var answer := answers[ToolCount(a[..j])];
      DescentChains(env.render(answer.replayed, answer.result), a[j].content, b[j].content, env.digest);
      CallsOfShape(a, b, j, answer.key);
    }
  }

  lemma CompactionSpeaks(env: Env, input: Input, a: seq<Message>, b: seq<Message>, heard: nat, j: int)
    requires 0 <= j < |a| == |b| && SpeaksAt(env, input, a, heard, j) && MessageDescends(a[j], b[j], env.digest)
    ensures SpeaksAt(env, input, b, heard, j)
  {
    hide Descends;
    match a[j]
    case SystemMessage(_) =>
    case UserMessage(content) =>
      if j == 1 {
        DescentChains(input.assignment, content, b[j].content, env.digest);
      } else if Descends(content, WRITE_REPAIR, env.digest) {
        DescentChains(WRITE_REPAIR, content, b[j].content, env.digest);
      } else {
        DescentChains(CALL_REPAIR, content, b[j].content, env.digest);
      }
    case AssistantMessage(content, _) =>
      var n: nat :| SaidBefore(env, heard, n, a[j]);
      DescentChains(env.chat(n).text, content, b[j].content, env.digest);
      assert SaidBefore(env, heard, n, b[j]);
    case ToolMessage(_, _) =>
  }

  lemma AnswersCallStays(messages: seq<Message>, longer: seq<Message>, j: int, key: Key)
    requires messages <= longer && 0 <= j < |messages| && AnswersCallFor(messages, j, key)
    ensures AnswersCallFor(longer, j, key)
  {
    var i, c :| Covers(messages, i, j) && 0 <= c < |messages[i].calls|
        && messages[i].calls[c].id == AnswerId(messages[j])
      && messages[i].calls[c].arguments.Some? && KeyOfCall(messages[i].calls[c]) == key;
    assert Covers(longer, i, j);
  }

  /** What was told stays told as messages, answers and responses are added. */
  lemma OldStaysTold(
    env: Env, input: Input, messages: seq<Message>, longer: seq<Message>, answers: seq<Answer>, more: seq<Answer>,
    heard: nat, later: nat, j: int)
    requires Tells(env, input, messages, answers, heard) && messages <= longer && answers <= more && heard <= later
    requires 0 <= j < |messages|
    ensures SpeaksAt(env, input, longer, later, j)
    ensures longer[j].ToolMessage? ==> TellsAt(env, longer, more, j)
  {
    hide Descends, AnswersCallFor, Shows;
    assert SpeaksAt(env, input, messages, heard, j) && longer[j] == messages[j];
    if messages[j].AssistantMessage? {
      var n: nat :| SaidBefore(env, heard, n, messages[j]);
      assert SaidBefore(env, later, n, longer[j]);
    }
    if messages[j].ToolMessage? {
      assert TellsAt(env, messages, answers, j);
      assert longer[..j] == messages[..j];
      AnswersCallStays(messages, longer, j, answers[ToolCount(messages[..j])].key);
    }
  }

  lemma MoreStaysTold(
    env: Env, input: Input, messages: seq<Message>, answers: seq<Answer>, more: seq<Answer>, heard: nat, later: nat)
    requires Tells(env, input, messages, answers, heard) && answers <= more && heard <= later
    ensures Tells(env, input, messages, more, later)
  {
    hide TellsAt, SpeaksAt;
    forall j | 0 <= j < |messages|
      ensures SpeaksAt(env, input, messages, later, j)
      ensures messages[j].ToolMessage? ==> TellsAt(env, messages, more, j)
    {
      OldStaysTold(env, input, messages, messages, answers, more, heard, later, j);
    }
  }

  lemma OpeningTells(env: Env, input: Input)
    ensures var messages := [SystemMessage(input.system), UserMessage(input.assignment)];
      Tells(env, input, messages, [], 0) && ToolCount(messages) == 0
  {
    assert ToolCount([]) == 0;
    hide Descends, ToolCount, TellsAt;
    var messages := [SystemMessage(input.system), UserMessage(input.assignment)];
    UntouchedDescends(input.assignment, env.digest);
    CountAppends([], messages[0]);
    CountAppends([messages[0]], messages[1]);
    assert [] + [messages[0]] == [messages[0]] && [messages[0]] + [messages[1]] == messages;
  }

  lemma RepairTells(
    env: Env, input: Input, messages: seq<Message>, text: string, answers: seq<Answer>, heard: nat)
    requires Tells(env, input, messages, answers, heard) && text in {WRITE_REPAIR, CALL_REPAIR}
    ensures Tells(env, input, messages + [UserMessage(text)], answers, heard)
    ensures ToolCount(messages + [UserMessage(text)]) == ToolCount(messages)
  {
    hide TellsAt, Descends;
    var longer := messages + [UserMessage(text)];
    UntouchedDescends(text, env.digest);
    CountAppends(messages, UserMessage(text));
    forall j | 0 <= j < |longer|
      ensures SpeaksAt(env, input, longer, heard, j)
      ensures longer[j].ToolMessage? ==> TellsAt(env, longer, answers, j)
    {
      if j < |messages| { OldStaysTold(env, input, messages, longer, answers, answers, heard, heard, j); }
    }
  }

  /** Tool messages that show answers to the calls of one response. */
  ghost predicate Exchange(env: Env, calls: seq<ToolCall>, tools: seq<Message>, latest: seq<Answer>) {
    && |tools| == |calls| == |latest|
    && forall k :: 0 <= k < |tools| ==> ExchangeAt(env, calls, tools[k], latest[k])
  }

  ghost predicate ExchangeAt(env: Env, calls: seq<ToolCall>, m: Message, a: Answer) {
    && m.ToolMessage? && m.content == env.render(a.replayed, a.result)
    && exists c :: 0 <= c < |calls| && calls[c].id == m.callId && calls[c].arguments.Some?
        && KeyOfCall(calls[c]) == a.key
  }

  lemma CallInFront(messages: seq<Message>, head: Message, tools: seq<Message>, k: nat, c: nat)
    requires head.AssistantMessage? && k < |tools| == |head.calls| && c < |head.calls| && tools[k].ToolMessage?
    requires head.calls[c].id == tools[k].callId && head.calls[c].arguments.Some?
    ensures AnswersCallFor(messages + [head] + tools, |messages| + 1 + k, KeyOfCall(head.calls[c]))
  {
    var longer, j := messages + [head] + tools, |messages| + 1 + k;
    assert longer[|messages|] == head && longer[j] == tools[k];
    assert Covers(longer, |messages|, j);
  }

  lemma CountInFront(messages: seq<Message>, head: Message, tools: seq<Message>, k: nat)
    requires !head.ToolMessage? && k < |tools| && forall i :: 0 <= i < |tools| ==> tools[i].ToolMessage?
    ensures ToolCount((messages + [head] + tools)[..|messages| + 1 + k]) == ToolCount(messages) + k
  {
    hide ToolCount;
    assert (messages + [head] + tools)[..|messages| + 1 + k] == messages + [head] + tools[..k];
    CountAppends(messages, head);
    CountAdds(messages + [head], tools[..k]);
  }

  lemma AnswerIsShown(
    env: Env, calls: seq<ToolCall>, longer: seq<Message>, m: Message, a: Answer, all: seq<Answer>, j: nat, n: nat)
    requires j < |longer| && longer[j] == m && ToolCount(longer[..j]) == n < |all| && all[n] == a
    requires m.ToolMessage? && m.content == env.render(a.replayed, a.result) && AnswersCallFor(longer, j, a.key)
    ensures TellsAt(env, longer, all, j)
  {
    hide AnswersCallFor, Descends, ToolCount;
    UntouchedDescends(m.content, env.digest);
  }

  lemma CallOfTool(env: Env, calls: seq<ToolCall>, tools: seq<Message>, latest: seq<Answer>, k: nat) returns (c: nat)
    requires Exchange(env, calls, tools, latest) && k < |tools|
    ensures tools[k].ToolMessage? && tools[k].content == env.render(latest[k].replayed, latest[k].result)
    ensures c < |calls| && calls[c].id == tools[k].callId && calls[c].arguments.Some?
    ensures KeyOfCall(calls[c]) == latest[k].key
  {
    assert ExchangeAt(env, calls, tools[k], latest[k]);
    var found :| 0 <= found < |calls| && calls[found].id == tools[k].callId && calls[found].arguments.Some?
      && KeyOfCall(calls[found]) == latest[k].key;
    c := found;
  }

  lemma ExchangeTellsAt(
    env: Env, messages: seq<Message>, head: Message, tools: seq<Message>, answers: seq<Answer>, latest: seq<Answer>,
    k: nat)
    requires head.AssistantMessage? && Exchange(env, head.calls, tools, latest) && ToolCount(messages) == |answers|
    requires k < |tools|
    ensures TellsAt(env, messages + [head] + tools, answers + latest, |messages| + 1 + k)
  {
    hide ToolCount, AnswersCallFor, TellsAt, ExchangeAt, KeyOfCall;
    ToolsOfExchange(env, head.calls, tools, latest);
    var c := CallOfTool(env, head.calls, tools, latest, k);
    CountInFront(messages, head, tools, k);
    CallInFront(messages, head, tools, k, c);
    AnswerIsShown(env, head.calls, messages + [head] + tools, tools[k], latest[k], answers + latest,
      |messages| + 1 + k, |answers| + k);
  }

  /** A response with its answers continues what is told. */
  lemma ExchangeTells(
    env: Env, input: Input, messages: seq<Message>, text: string, calls: seq<ToolCall>, tools: seq<Message>,
    answers: seq<Answer>, latest: seq<Answer>, heard: nat)
    requires Tells(env, input, messages, answers, heard) && ToolCount(messages) == |answers|
    requires Exchange(env, calls, tools, latest)
    requires heard > 0 && env.chat(heard - 1).Response? && env.chat(heard - 1).calls == calls
    requires env.chat(heard - 1).text == text
    ensures var longer := messages + [AssistantMessage(text, calls)] + tools;
      Tells(env, input, longer, answers + latest, heard) && ToolCount(longer) == |answers + latest|
  {
    hide TellsAt, Descends, ExchangeAt;
    var head := AssistantMessage(text, calls);
    var longer := messages + [head] + tools;
    UntouchedDescends(text, env.digest);
    assert SaidBefore(env, heard, heard - 1, head);
    ToolsOfExchange(env, calls, tools, latest);
    CountAppends(messages, head);
    CountAdds(messages + [head], tools);
    forall j | 0 <= j < |longer|
      ensures SpeaksAt(env, input, longer, heard, j)
      ensures longer[j].ToolMessage? ==> TellsAt(env, longer, answers + latest, j)
    {
      if j < |messages| {
        OldStaysTold(env, input, messages, longer, answers, answers + latest, heard, heard, j);
      } else if j > |messages| {
        ExchangeTellsAt(env, messages, head, tools, answers, latest, j - |messages| - 1);
      }
    }
  }

  lemma ToolsOfExchange(env: Env, calls: seq<ToolCall>, tools: seq<Message>, latest: seq<Answer>)
    requires Exchange(env, calls, tools, latest)
    ensures forall k :: 0 <= k < |tools| ==> tools[k].ToolMessage?
  {
    forall k | 0 <= k < |tools| ensures tools[k].ToolMessage? { assert ExchangeAt(env, calls, tools[k], latest[k]); }
  }
}
