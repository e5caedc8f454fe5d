/** What the worker works with, and the checks it makes before it sends or invokes anything
    (internal/worker/worker.go). */
module WorkerModel {
  import opened Contracts
  import opened Strings
  import opened Segment
  import opened Transcript

  /** `Failed(true)` also stands for a failure without an error object. */
  datatype ResultStatus = Succeeded | Failed(retryable: bool) | WaitsForApproval | WaitsForUser | OtherStatus

  datatype ToolResult = ToolResult(status: ResultStatus, data: string)

  /** A tool with the canonical form of its arguments; the program compares a hash of this pair. */
  datatype Key = Key(tool: string, arguments: string)

  datatype WorkerError =
    | InvalidInput | StepTimedOut | ContextOverflow | ProviderFailed | ResponseTooLong | NoWriteProposal
    | InvalidCall | ToolNotAllowed | RepeatedMutation | RepeatedWithoutCache | DuplicateInBatch
    | ToolBroke | CumulativeBudgetExceeded | IterationsExhausted

  datatype ProviderCode = Overflow | Transient | Permanent | Expired

  datatype ChatReply =
    | Response(text: string, calls: seq<ToolCall>, outputTokens: int)
    | ProviderError(code: ProviderCode)

  /** `raise` is what the budget tool added to the output budget of one response. */
  datatype ToolReply = Returned(result: ToolResult, raise: nat) | InvocationFailed | InvocationExpired

  /** Answers of the outside, by the number of the call that asks; a tokenizer may count the same messages
      differently each time. `render` is what the model gets to see of a result, replayed or fresh: the two are cut
      to different lengths. */
  datatype Env = Env(
    chat: nat -> ChatReply, invoke: nat -> ToolReply, expired: nat -> bool,
    count: (nat, seq<Message>) -> nat, digest: string -> string, render: (bool, ToolResult) -> string)

  datatype Input = Input(
    system: string, assignment: string, allowed: seq<ToolDef>, risk: RiskClass,
    maxIterations: int, maxOutput: int, reliableContext: int, callLimit: int, writeRequired: bool)

  const SAFETY_TOKENS := 96
  const MINIMUM_RESPONSE := 256

  predicate Offered(allowed: seq<ToolDef>, name: string) {
    exists i :: 0 <= i < |allowed| && allowed[i].name == name
  }

  /** The risk of the first definition with that name. */
  function RiskOf(allowed: seq<ToolDef>, name: string): RiskClass {
    if allowed == [] then ExternalSideEffect
    else if allowed[0].name == name then allowed[0].risk
    else RiskOf(allowed[1..], name)
  }

  predicate ReadOnly(allowed: seq<ToolDef>, name: string) {
    RiskOf(allowed, name).Read?
  }

  predicate OffersMutation(allowed: seq<ToolDef>) {
    exists i :: 0 <= i < |allowed| && !allowed[i].risk.Read?
  }

  function Window(input: Input): int {
    if input.reliableContext > 0 then input.reliableContext else 8192
  }

  function CallLimit(input: Input): int {
    if input.callLimit <= 0 then 8 else input.callLimit
  }

  predicate MustWrite(input: Input) {
    input.writeRequired && input.risk.Write? && OffersMutation(input.allowed)
  }

  // The size of a response.

  /** How many output tokens a request may ask for; the last check of the program can never fail. */
  method RequestOutputLimit(prompt: nat, window: int, maxOutput: int) returns (limit: Option<int>)
    ensures limit.Some? <==> prompt * 10 < window * 9 && prompt + 96 + 256 <= window
    ensures limit.Some? ==> 1 <= limit.value && prompt + limit.value + 96 <= window
    ensures limit.Some? ==>
      limit.value == if 0 < maxOutput <= window - prompt - 96 then maxOutput else window - prompt - 96
  {
    if prompt * 10 >= window * 9 {
      return None;
    }
    var available := window - prompt - SAFETY_TOKENS;
    if available < MINIMUM_RESPONSE {
      return None;
    }
    var value := maxOutput;
    if value <= 0 || value > available {
      value := available;
    }
    if maxOutput > 0 && maxOutput < MINIMUM_RESPONSE {
      return Some(maxOutput);
    }
    if value < MINIMUM_RESPONSE {
      return None;
    }
    return Some(value);
  }

  // Requests and retries.

  /** One request to the provider; `attempt` 0 is the first of its turn. */
  datatype Request = Request(messages: seq<Message>, maxOutput: int, turn: nat, attempt: nat)

  predicate Retryable(reply: ChatReply) {
    reply.ProviderError? && (reply.code.Overflow? || reply.code.Transient?)
  }

  predicate RetriedAt(env: Env, n: nat) {
    Retryable(env.chat(n))
  }

  /** How many of those replies failed with that code. */
  function Failures(env: Env, from: nat, to: nat, code: ProviderCode): nat
    decreases to
  {
    if from >= to then 0
    else Failures(env, from, to - 1, code) + if env.chat(to - 1) == ProviderError(code) then 1 else 0
  }

  /** Sends one turn: an overflow is retried once, transient failures twice; any other reply ends it. */
  method ChatWithRetry(env: Env, messages: seq<Message>, maxOutput: int, turn: nat, first: nat)
    returns (reply: ChatReply, recompilations: nat, sent: seq<Request>)
    ensures 1 <= |sent| <= 4 && recompilations <= 1
    ensures sent[0] == Request(messages, maxOutput, turn, 0)
    ensures forall k :: 0 <= k < |sent| ==>
        AllDescend(messages, sent[k].messages, env.digest)
        && sent[k] == Request(sent[k].messages, maxOutput, turn, k)
    ensures reply == env.chat(first + |sent| - 1)
    ensures forall n :: first <= n < first + |sent| - 1 ==> RetriedAt(env, n)
    ensures Failures(env, first, first + |sent| - 1, Overflow) <= 1
    ensures Failures(env, first, first + |sent| - 1, Transient) <= 2
    ensures reply == ProviderError(Overflow) ==> Failures(env, first, first + |sent| - 1, Overflow) == 1
    ensures reply == ProviderError(Transient) ==> Failures(env, first, first + |sent| - 1, Transient) == 2
    ensures Failures(env, first, first + |sent| - 1, Overflow)
        + Failures(env, first, first + |sent| - 1, Transient) == |sent| - 1
  {
    var working := messages;
    var contextRetried := false;
    var transientRetries := 0;
    recompilations := 0;
    sent := [];
    UntouchedMessagesDescend(messages, env.digest);
    hide AllDescend;
    while true
      invariant |sent| == transientRetries + (if contextRetried then 1 else 0)
      invariant 0 <= transientRetries <= 2 && recompilations == if contextRetried then 1 else 0
      invariant transientRetries == Failures(env, first, first + |sent|, Transient)
      invariant recompilations == Failures(env, first, first + |sent|, Overflow)
      invariant AllDescend(messages, working, env.digest) && (sent == [] ==> working == messages)
      invariant sent != [] ==> sent[0] == Request(messages, maxOutput, turn, 0)
      invariant forall k :: 0 <= k < |sent| ==>
        AllDescend(messages, sent[k].messages, env.digest) && sent[k] == Request(sent[k].messages, maxOutput, turn, k)
      invariant forall n :: first <= n < first + |sent| ==> RetriedAt(env, n)
      decreases 3 - |sent|
    {
      reply := env.chat(first + |sent|);
      sent := sent + [Request(working, maxOutput, turn, |sent|)];
      if reply.Response? || reply.code.Expired? {
        return;
      }
      if reply.code.Overflow? && !contextRetried {
        working := Recompact(messages, working, env.digest);
        contextRetried := true;
        recompilations := recompilations + 1;
        continue;
      }
      if !reply.code.Transient? || transientRetries >= 2 {
        return;
      }
      transientRetries := transientRetries + 1;
    }
  }

  method Recompact(original: seq<Message>, messages: seq<Message>, digest: string -> string)
      returns (compacted: seq<Message>)
    requires AllDescend(original, messages, digest)
    ensures AllDescend(original, compacted, digest)
  {
    compacted := CompactOverflowMessages(messages, digest);
    CompactedMessagesDescend(messages, compacted, digest);
    DescentsChain(original, messages, compacted, digest);
  }

  // Tool calls.

  datatype Accepted = Accepted(call: ToolCall, key: Key)
  datatype Replay = Replay(call: ToolCall, key: Key, result: ToolResult)

  function KeyOfCall(call: ToolCall): Key
    requires call.arguments.Some?
  {
    Key(call.name, call.arguments.value)
  }

  /** The k-th call has an id of its own, an offered tool and well-formed arguments; it repeats an earlier
      action only if that was a read of an earlier response. */
  ghost predicate CallFits(calls: seq<ToolCall>, k: nat, allowed: seq<ToolDef>, seen: set<Key>)
    requires k < |calls|
  {
    && (forall i :: 0 <= i < k ==> calls[i].id != calls[k].id)
    && Offered(allowed, calls[k].name) && calls[k].arguments.Some?
    && (KeyOfCall(calls[k]) in seen ==> ReadOnly(allowed, calls[k].name))
    && (KeyOfCall(calls[k]) !in seen ==> forall i :: 0 <= i < k && calls[i].arguments.Some? ==>
        KeyOfCall(calls[i]) != KeyOfCall(calls[k]))
  }

  /** A response whose calls are all carried out or answered from the cache. */
  ghost predicate CallsAcceptable(calls: seq<ToolCall>, allowed: seq<ToolDef>, seen: set<Key>, limit: int) {
    |calls| <= limit && forall k :: 0 <= k < |calls| ==> CallFits(calls, k, allowed, seen)
  }

  /** The error of the k-th call: of its id, its tool, its arguments, and then of its action. */
  ghost predicate RefusedFor(calls: seq<ToolCall>, k: nat, allowed: seq<ToolDef>, seen: set<Key>, error: WorkerError)
    requires k < |calls|
  {
    if exists i :: 0 <= i < k && calls[i].id == calls[k].id then error == InvalidCall
    else if !exists d :: d in allowed && d.name == calls[k].name then error == ToolNotAllowed
    else if calls[k].arguments.None? then error == InvalidCall
    else if KeyOfCall(calls[k]) in seen then error == RepeatedMutation
    else error == DuplicateInBatch
  }

  /** Calls are refused for their number, or for the first one that does not fit. */
  ghost predicate RefusedBatch(calls: seq<ToolCall>, allowed: seq<ToolDef>, seen: set<Key>, limit: int,
      error: WorkerError)
  {
    if |calls| > limit then error == InvalidCall
    else
      exists k: nat ::
        && k < |calls| && !CallFits(calls, k, allowed, seen) && RefusedFor(calls, k, allowed, seen, error)
        && forall i :: 0 <= i < k ==> CallFits(calls, i, allowed, seen)
  }

  /** One of the calls asks for the action. */
  ghost predicate RequestedBy(key: Key, calls: seq<ToolCall>) {
    exists i :: 0 <= i < |calls| && calls[i].arguments.Some? && KeyOfCall(calls[i]) == key
  }

  function AcceptedIds(items: seq<Accepted>): (ids: seq<string>)
    ensures |ids| == |items| && forall i :: 0 <= i < |items| ==> ids[i] == items[i].call.id
  {
    seq(|items|, i requires 0 <= i < |items| => items[i].call.id)
  }

  function ReplayIds(items: seq<Replay>): (ids: seq<string>)
    ensures |ids| == |items| && forall i :: 0 <= i < |items| ==> ids[i] == items[i].call.id
  {
    seq(|items|, i requires 0 <= i < |items| => items[i].call.id)
  }

  /** One of the calls, with its own action. */
  ghost predicate IsCallOf(call: ToolCall, key: Key, calls: seq<ToolCall>) {
    call in calls && call.arguments.Some? && KeyOfCall(call) == key
  }

  /** Fresh work: keys that differ from each other and from everything seen. */
  ghost predicate Fresh(accepted: seq<Accepted>, seen: set<Key>) {
    && (forall i :: 0 <= i < |accepted| ==> accepted[i].key !in seen)
    && (forall i, j :: 0 <= i < j < |accepted| ==> accepted[i].key != accepted[j].key)
  }

  ghost predicate FromCache(replays: seq<Replay>, cached: map<Key, ToolResult>, allowed: seq<ToolDef>) {
    forall i :: 0 <= i < |replays| ==>
      replays[i].key in cached && replays[i].result == cached[replays[i].key] && ReadOnly(allowed, replays[i].key.tool)
  }

  ghost predicate ReadsAreCached(seen: set<Key>, cached: map<Key, ToolResult>, allowed: seq<ToolDef>) {
    forall k :: k in seen && ReadOnly(allowed, k.tool) ==> k in cached
  }

  lemma AppendedIds(a: seq<Accepted>, r: seq<Replay>, calls: seq<ToolCall>, k: nat, accepted: Accepted, replay: Replay)
    requires k < |calls|
    requires multiset(AcceptedIds(a)) + multiset(ReplayIds(r)) == multiset(CallIds(calls[..k]))
    ensures accepted.call == calls[k] ==>
      multiset(AcceptedIds(a + [accepted])) + multiset(ReplayIds(r)) == multiset(CallIds(calls[..k + 1]))
    ensures replay.call == calls[k] ==>
      multiset(AcceptedIds(a)) + multiset(ReplayIds(r + [replay])) == multiset(CallIds(calls[..k + 1]))
  {
    assert CallIds(calls[..k + 1]) == CallIds(calls[..k]) + [calls[k].id];
    assert AcceptedIds(a + [accepted]) == AcceptedIds(a) + [accepted.call.id];
    assert ReplayIds(r + [replay]) == ReplayIds(r) + [replay.call.id];
  }

  /** The checks on one call that do not depend on what was seen. */
  method CheckCall(call: ToolCall, ids: set<string>, allowed: seq<ToolDef>) returns (error: Option<WorkerError>)
    ensures error.None? <==> call.id !in ids && Offered(allowed, call.name) && call.arguments.Some?
    ensures error.Some? ==>
      error.value == if call.id !in ids && !Offered(allowed, call.name) then ToolNotAllowed else InvalidCall
  {
    if call.id in ids {
      return Some(InvalidCall);
    }
    if !exists i :: 0 <= i < |allowed| && allowed[i].name == call.name {
      return Some(ToolNotAllowed);
    }
    if call.arguments.None? {
      return Some(InvalidCall);
    }
    return None;
  }

  lemma CallIsItsOwn(calls: seq<ToolCall>, k: nat)
    requires k < |calls| && calls[k].arguments.Some?
    ensures IsCallOf(calls[k], KeyOfCall(calls[k]), calls)
  {
  }

  lemma CallsAreRequested(accepted: seq<Accepted>, calls: seq<ToolCall>)
    requires forall i :: 0 <= i < |accepted| ==> IsCallOf(accepted[i].call, accepted[i].key, calls)
    ensures forall i :: 0 <= i < |accepted| ==> RequestedBy(accepted[i].key, calls)
  {
    forall i | 0 <= i < |accepted| ensures RequestedBy(accepted[i].key, calls) {
      assert IsCallOf(accepted[i].call, accepted[i].key, calls);
      var n :| 0 <= n < |calls| && calls[n] == accepted[i].call;
    }
  }

  lemma OfferedIsMember(allowed: seq<ToolDef>, name: string)
    ensures Offered(allowed, name) <==> exists d :: d in allowed && d.name == name
  {
  }

  datatype Decision = Refuse(error: WorkerError) | Serve(result: ToolResult) | Perform

  /** The decision on the k-th call, given the ids and the fresh keys of the calls before it. */
  method Decide(calls: seq<ToolCall>, k: nat, allowed: seq<ToolDef>, seen: set<Key>, cached: map<Key, ToolResult>,
      ids: set<string>, batch: set<Key>)
    returns (d: Decision)
    requires k < |calls| && ReadsAreCached(seen, cached, allowed)
    requires ids == set i | 0 <= i < k :: calls[i].id
    requires forall i :: 0 <= i < k ==> calls[i].arguments.Some?
    requires forall key :: key in batch <==> key !in seen && exists i :: 0 <= i < k && KeyOfCall(calls[i]) == key
    ensures d.Refuse? <==> !CallFits(calls, k, allowed, seen)
    ensures d.Refuse? ==> d.error in {InvalidCall, ToolNotAllowed, RepeatedMutation, DuplicateInBatch}
    ensures d.Refuse? ==> RefusedFor(calls, k, allowed, seen, d.error)
    ensures d.Serve? ==>
        KeyOfCall(calls[k]) in seen && KeyOfCall(calls[k]) in cached && d.result == cached[KeyOfCall(calls[k])]
    ensures d.Perform? ==> KeyOfCall(calls[k]) !in seen && KeyOfCall(calls[k]) !in batch
  {
    OfferedIsMember(allowed, calls[k].name);
    hide Offered, ReadOnly;
    var call := calls[k];
    var refusal := CheckCall(call, ids, allowed);
    if refusal.Some? {
      return Refuse(refusal.value);
    }
    var key := KeyOfCall(call);
    if key in seen {
      if !ReadOnly(allowed, call.name) {
        return Refuse(RepeatedMutation);
      }
      if key !in cached {
        return Refuse(RepeatedWithoutCache);
      }
      return Serve(cached[key]);
    }
    if key in batch {
      return Refuse(DuplicateInBatch);
    }
    return Perform;
  }

  /** The first k calls, split into the fresh work of the batch and answers from the cache. */
  ghost predicate Split(calls: seq<ToolCall>, k: nat, allowed: seq<ToolDef>, seen: set<Key>,
      cached: map<Key, ToolResult>, batch: set<Key>, accepted: seq<Accepted>, replays: seq<Replay>)
    requires k <= |calls|
  {
    && Fresh(accepted, seen) && FromCache(replays, cached, allowed)
    && (forall i :: 0 <= i < |accepted| ==> accepted[i].key in batch && Offered(allowed, accepted[i].key.tool))
    && (forall i :: 0 <= i < |accepted| ==> IsCallOf(accepted[i].call, accepted[i].key, calls))
    && (forall i :: 0 <= i < |replays| ==> IsCallOf(replays[i].call, replays[i].key, calls))
    && multiset(AcceptedIds(accepted)) + multiset(ReplayIds(replays)) == multiset(CallIds(calls[..k]))
  }

  lemma SplitPerforms(calls: seq<ToolCall>, k: nat, allowed: seq<ToolDef>, seen: set<Key>,
      cached: map<Key, ToolResult>, batch: set<Key>, accepted: seq<Accepted>, replays: seq<Replay>, key: Key)
    requires k < |calls| && Split(calls, k, allowed, seen, cached, batch, accepted, replays)
    requires calls[k].arguments.Some? && key == KeyOfCall(calls[k])
    requires Offered(allowed, key.tool) && key !in seen && key !in batch
    ensures Split(calls, k + 1, allowed, seen, cached, batch + {key}, accepted + [Accepted(calls[k], key)], replays)
  {
    hide Offered, ReadOnly, IsCallOf, AcceptedIds, ReplayIds, CallIds, FromCache;
    CallIsItsOwn(calls, k);
    AppendedIds(accepted, replays, calls, k, Accepted(calls[k], key),
      Replay(calls[k], key, ToolResult(Succeeded, "")));
  }

  lemma SplitServes(calls: seq<ToolCall>, k: nat, allowed: seq<ToolDef>, seen: set<Key>,
      cached: map<Key, ToolResult>, batch: set<Key>, accepted: seq<Accepted>, replays: seq<Replay>, key: Key)
    requires k < |calls| && Split(calls, k, allowed, seen, cached, batch, accepted, replays)
    requires calls[k].arguments.Some? && key == KeyOfCall(calls[k])
    requires ReadOnly(allowed, key.tool) && key in cached
    ensures Split(calls, k + 1, allowed, seen, cached, batch, accepted, replays + [Replay(calls[k], key, cached[key])])
  {
    hide Offered, ReadOnly, IsCallOf, AcceptedIds, ReplayIds, CallIds, Fresh;
    CallIsItsOwn(calls, k);
    AppendedIds(accepted, replays, calls, k, Accepted(calls[k], key), Replay(calls[k], key, cached[key]));
  }

  /** Splits the calls of a response into fresh work and answers from the cache, or refuses them all. */
  method ValidateToolCalls(calls: seq<ToolCall>, allowed: seq<ToolDef>, seen: set<Key>, cached: map<Key, ToolResult>,
      limit: int)
    returns (accepted: seq<Accepted>, replays: seq<Replay>, error: Option<WorkerError>)
    requires ReadsAreCached(seen, cached, allowed)
    ensures error.None? <==> CallsAcceptable(calls, allowed, seen, limit)
    ensures error.Some? ==> error.value in {InvalidCall, ToolNotAllowed, RepeatedMutation, DuplicateInBatch}
    ensures error.Some? ==> RefusedBatch(calls, allowed, seen, limit, error.value)
    ensures error.None? ==> Fresh(accepted, seen) && FromCache(replays, cached, allowed)
    ensures error.None? ==> multiset(AcceptedIds(accepted)) + multiset(ReplayIds(replays)) == multiset(CallIds(calls))
    ensures error.None? ==> forall i :: 0 <= i < |accepted| ==>
        Offered(allowed, accepted[i].key.tool) && RequestedBy(accepted[i].key, calls)
    ensures error.None? ==> forall i :: 0 <= i < |accepted| ==> IsCallOf(accepted[i].call, accepted[i].key, calls)
    ensures error.None? ==> forall i :: 0 <= i < |replays| ==> IsCallOf(replays[i].call, replays[i].key, calls)
  {
    hide Offered, ReadOnly, IsCallOf, RequestedBy, Split, RefusedFor;
    accepted, replays := [], [];
    if |calls| > limit {
      return [], [], Some(InvalidCall);
    }
    var batch: set<Key> := {};
    var ids: set<string> := {};
    NothingIsSplit(calls, allowed, seen, cached);
    for k := 0 to |calls|
      invariant ids == set i | 0 <= i < k :: calls[i].id
      invariant forall i :: 0 <= i < k ==> CallFits(calls, i, allowed, seen)
      invariant forall i :: 0 <= i < k ==> calls[i].arguments.Some?
      invariant forall key :: key in batch <==> key !in seen && exists i :: 0 <= i < k && KeyOfCall(calls[i]) == key
      invariant Split(calls, k, allowed, seen, cached, batch, accepted, replays)
    {
      var d := Decide(calls, k, allowed, seen, cached, ids, batch);
      if d.Refuse? {
        return [], [], Some(d.error);
      }
      var call := calls[k];
      var key := KeyOfCall(call);
      ids := ids + {call.id};
      match d
      case Serve(result) =>
        SplitServes(calls, k, allowed, seen, cached, batch, accepted, replays, key);
        replays := replays + [Replay(call, key, result)];
      case Perform =>
        SplitPerforms(calls, k, allowed, seen, cached, batch, accepted, replays, key);
        batch := batch + {key};
        accepted := accepted + [Accepted(call, key)];
    }
    AllAreSplit(calls, allowed, seen, cached, batch, accepted, replays);
    error := None;
  }

  lemma NothingIsSplit(calls: seq<ToolCall>, allowed: seq<ToolDef>, seen: set<Key>, cached: map<Key, ToolResult>)
    ensures Split(calls, 0, allowed, seen, cached, {}, [], [])
  {
  }

  lemma AllAreSplit(calls: seq<ToolCall>, allowed: seq<ToolDef>, seen: set<Key>, cached: map<Key, ToolResult>,
      batch: set<Key>, accepted: seq<Accepted>, replays: seq<Replay>)
    requires Split(calls, |calls|, allowed, seen, cached, batch, accepted, replays)
    ensures Fresh(accepted, seen) && FromCache(replays, cached, allowed)
    ensures multiset(AcceptedIds(accepted)) + multiset(ReplayIds(replays)) == multiset(CallIds(calls))
    ensures forall i :: 0 <= i < |accepted| ==>
        Offered(allowed, accepted[i].key.tool) && RequestedBy(accepted[i].key, calls)
    ensures forall i :: 0 <= i < |accepted| ==> IsCallOf(accepted[i].call, accepted[i].key, calls)
    ensures forall i :: 0 <= i < |replays| ==> IsCallOf(replays[i].call, replays[i].key, calls)
  {
    hide Fresh, FromCache, Offered, IsCallOf, RequestedBy;
    assert calls[..|calls|] == calls;
    CallsAreRequested(accepted, calls);
  }
}
