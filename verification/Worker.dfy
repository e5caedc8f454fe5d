/** The bounded model and tool conversation of one step (internal/worker/worker.go, Run). */
module Worker {
  import opened Strings
  import opened Segment
  import opened Transcript
  import opened WorkerModel
  import opened WorkerTelling
  import opened WorkerCourse

  /** How a run without an error ended. */
  datatype Ending = Unfinished | Answered(text: string) | Evidence | Waiting

  datatype Result = Result(ending: Ending, answers: seq<Answer>, output: int, iterations: nat, recompilations: nat)

  /** The variables of the conversation; `invoked` lists the actions carried out so far. */
  datatype State = State(
    messages: seq<Message>, seen: set<Key>, cached: map<Key, ToolResult>, mutated: bool,
    answers: seq<Answer>, invoked: seq<Key>, maxOutput: int)

  predicate WaitsForSomeone(result: ToolResult) {
    result.status.WaitsForApproval? || result.status.WaitsForUser?
  }

  // What a conversation keeps.

  ghost predicate DistinctActions(invoked: seq<Key>) {
    forall i, j :: 0 <= i < j < |invoked| ==> invoked[i] != invoked[j]
  }

  predicate IsFirst(answers: seq<Answer>, i: int) {
    0 <= i < |answers| && !answers[i].replayed
  }

  /** Every replayed answer repeats the one first answer to its action. */
  ghost predicate Faithful(answers: seq<Answer>) {
    && (forall j :: 0 <= j < |answers| && answers[j].replayed ==>
         exists i :: IsFirst(answers, i) && i < j && answers[i].key == answers[j].key
             && answers[i].result == answers[j].result)
    && (forall i, j :: IsFirst(answers, i) && IsFirst(answers, j) && i < j ==> answers[i].key != answers[j].key)
  }

  ghost predicate CacheHoldsFirstAnswers(cached: map<Key, ToolResult>, answers: seq<Answer>) {
    forall k :: k in cached ==> exists i :: IsFirst(answers, i) && answers[i].key == k && answers[i].result == cached[k]
  }

  ghost predicate Mutates(invoked: seq<Key>, allowed: seq<ToolDef>) {
    exists i :: 0 <= i < |invoked| && !ReadOnly(allowed, invoked[i].tool)
  }

  ghost predicate Sound(s: State, allowed: seq<ToolDef>) {
    && DistinctActions(s.invoked) && Faithful(s.answers)
    && (forall i :: 0 <= i < |s.invoked| ==> Offered(allowed, s.invoked[i].tool))
  }

  ghost predicate NoneWaits(answers: seq<Answer>) {
    forall i :: 0 <= i < |answers| ==> !WaitsForSomeone(answers[i].result)
  }

  ghost predicate Consistent(s: State, allowed: seq<ToolDef>) {
    && Sound(s, allowed)
    && (forall k :: k in s.seen <==> k in s.invoked)
    && (forall i :: IsFirst(s.answers, i) ==> s.answers[i].key in s.invoked)
    && ReadsAreCached(s.seen, s.cached, allowed)
    && CacheHoldsFirstAnswers(s.cached, s.answers)
    && (s.mutated <==> Mutates(s.invoked, allowed))
  }

  function Replayed(s: State, r: Replay): State {
    s.(answers := s.answers + [Answer(r.key, r.result, true)])
  }

  lemma ReplayIsFaithful(answers: seq<Answer>, a: Answer, first: int)
    requires Faithful(answers) && a.replayed
    requires IsFirst(answers, first) && answers[first].key == a.key && answers[first].result == a.result
    ensures Faithful(answers + [a])
  {
    var longer := answers + [a];
    GrowingAnswers(answers, longer);
    forall j | 0 <= j < |longer| && longer[j].replayed
      ensures exists i ::
          IsFirst(longer, i) && i < j && longer[i].key == longer[j].key && longer[i].result == longer[j].result
    {
      if j < |answers| {
        var i :| IsFirst(answers, i) && i < j && answers[i].key == answers[j].key
            && answers[i].result == answers[j].result;
        assert IsFirst(longer, i);
      } else {
        assert IsFirst(longer, first);
      }
    }
  }

  lemma ReplayKeepsConsistent(s: State, r: Replay, allowed: seq<ToolDef>)
    requires Consistent(s, allowed) && r.key in s.cached && r.result == s.cached[r.key]
    ensures Consistent(Replayed(s, r), allowed)
    ensures NoneWaits(s.answers) ==> NoneWaits(Replayed(s, r).answers)
  {
    hide Offered, ReadOnly, WaitsForSomeone, Faithful, DistinctActions, Mutates, ReadsAreCached;
    var first :| IsFirst(s.answers, first) && s.answers[first].key == r.key
        && s.answers[first].result == s.cached[r.key];
    ReplayIsFaithful(s.answers, Answer(r.key, r.result, true), first);
    KeepCache(s, Replayed(s, r));
  }

  lemma GrowingAnswers(a: seq<Answer>, b: seq<Answer>)
    requires a <= b
    ensures forall i :: IsFirst(a, i) ==> IsFirst(b, i)
    ensures forall i :: IsFirst(b, i) && i < |a| ==> IsFirst(a, i)
  {
  }

  lemma KeepCache(s: State, t: State)
    requires CacheHoldsFirstAnswers(s.cached, s.answers) && t.cached == s.cached && s.answers <= t.answers
    ensures CacheHoldsFirstAnswers(t.cached, t.answers)
  {
    forall k | k in t.cached ensures exists i ::
        IsFirst(t.answers, i) && t.answers[i].key == k && t.answers[i].result == t.cached[k] {
      var i :| IsFirst(s.answers, i) && s.answers[i].key == k && s.answers[i].result == s.cached[k];
      assert IsFirst(t.answers, i);
    }
  }

  function Begun(s: State, key: Key): State {
    s.(seen := s.seen + {key}, invoked := s.invoked + [key])
  }

  function Recorded(s: State, key: Key, result: ToolResult, raise: nat, allowed: seq<ToolDef>): State {
    Begun(s, key).(
      cached := if ReadOnly(allowed, key.tool) then s.cached[key := result] else s.cached,
      mutated := s.mutated || !ReadOnly(allowed, key.tool),
      answers := s.answers + [Answer(key, result, false)],
      maxOutput := s.maxOutput + raise)
  }

  lemma BeginningIsSound(s: State, key: Key, allowed: seq<ToolDef>)
    requires Consistent(s, allowed) && key !in s.seen && Offered(allowed, key.tool)
    ensures Sound(Begun(s, key), allowed)
  {
  }

  lemma RecordingKeepsAnswers(s: State, key: Key, result: ToolResult, raise: nat, allowed: seq<ToolDef>)
    requires Consistent(s, allowed) && key !in s.seen
    ensures Faithful(Recorded(s, key, result, raise, allowed).answers)
    ensures CacheHoldsFirstAnswers(Recorded(s, key, result, raise, allowed).cached,
        Recorded(s, key, result, raise, allowed).answers)
  {
    hide Offered, ReadOnly, Mutates, DistinctActions;
    var t := Recorded(s, key, result, raise, allowed);
    GrowingAnswers(s.answers, t.answers);
    forall j | 0 <= j < |t.answers| && t.answers[j].replayed
      ensures exists i ::
          IsFirst(t.answers, i) && i < j && t.answers[i].key == t.answers[j].key
          && t.answers[i].result == t.answers[j].result
    {
      var i :| IsFirst(s.answers, i) && i < j && s.answers[i].key == s.answers[j].key
          && s.answers[i].result == s.answers[j].result;
      assert IsFirst(t.answers, i);
    }
    forall k | k in t.cached ensures exists i ::
        IsFirst(t.answers, i) && t.answers[i].key == k && t.answers[i].result == t.cached[k] {
      if k == key && ReadOnly(allowed, key.tool) {
        assert IsFirst(t.answers, |s.answers|);
      } else {
        var i :| IsFirst(s.answers, i) && s.answers[i].key == k && s.answers[i].result == s.cached[k];
        assert IsFirst(t.answers, i);
      }
    }
  }

  lemma RecordingKeepsConsistent(s: State, key: Key, result: ToolResult, raise: nat, allowed: seq<ToolDef>)
    requires Consistent(s, allowed) && key !in s.seen && Offered(allowed, key.tool)
    ensures Consistent(Recorded(s, key, result, raise, allowed), allowed)
  {
    hide Offered, ReadOnly, Faithful, CacheHoldsFirstAnswers;
    RecordingKeepsAnswers(s, key, result, raise, allowed);
    BeginningIsSound(s, key, allowed);
    var t := Recorded(s, key, result, raise, allowed);
    if s.mutated {
      var i :| 0 <= i < |s.invoked| && !ReadOnly(allowed, s.invoked[i].tool);
      assert t.invoked[i] == s.invoked[i];
    } else if !ReadOnly(allowed, key.tool) {
      assert t.invoked[|s.invoked|] == key;
    }
  }

  // One batch of tool calls.

  datatype Stop = GoesOn | Waits | Breaks(error: WorkerError)

  /** Serves repeated reads from the cache: behind each call id stands what the model may see of the cached result. */
  method ServeReplays(env: Env, replays: seq<Replay>, allowed: seq<ToolDef>, s: State)
    returns (t: State, tools: seq<Message>)
    requires Consistent(s, allowed) && FromCache(replays, s.cached, allowed) && NoneWaits(s.answers)
    ensures Consistent(t, allowed) && NoneWaits(t.answers)
    ensures t == s.(answers := t.answers) && s.answers <= t.answers && |t.answers| == |s.answers| + |replays|
    ensures forall j :: |s.answers| <= j < |t.answers| ==>
        t.answers[j] == Answer(replays[j - |s.answers|].key, replays[j - |s.answers|].result, true)
    ensures |tools| == |replays| && forall i :: 0 <= i < |tools| ==>
        tools[i] == ToolMessage(replays[i].call.id, env.render(true, replays[i].result))
  {
    hide Consistent, NoneWaits, ReadOnly;
    t, tools := s, [];
    for k := 0 to |replays|
      invariant Consistent(t, allowed) && NoneWaits(t.answers)
      invariant t == s.(answers := t.answers) && s.answers <= t.answers && |t.answers| == |s.answers| + k
      invariant forall j :: |s.answers| <= j < |t.answers| ==>
          t.answers[j] == Answer(replays[j - |s.answers|].key, replays[j - |s.answers|].result, true)
      invariant |tools| == k && forall i :: 0 <= i < k ==>
          tools[i] == ToolMessage(replays[i].call.id, env.render(true, replays[i].result))
    {
      ReplayKeepsConsistent(t, replays[k], allowed);
      t := t.(answers := t.answers + [Answer(replays[k].key, replays[k].result, true)]);
      tools := tools + [ToolMessage(replays[k].call.id, env.render(true, replays[k].result))];
    }
  }

  /** The last answer is the first one somebody has to decide on. */
  ghost predicate EndsWaiting(answers: seq<Answer>) {
    && |answers| > 0 && WaitsForSomeone(answers[|answers| - 1].result) && NoneWaits(answers[..|answers| - 1])
  }

  /** The n-th invocation ended the run with that error. */
  predicate BrokenBy(env: Env, n: int, error: WorkerError) {
    n >= 0 && match env.invoke(n)
      case InvocationFailed => error == ToolBroke
      case InvocationExpired => error == StepTimedOut
      case Returned(_, _) => false
  }

  /** Carries out one fresh action. */
  method InvokeOne(env: Env, key: Key, allowed: seq<ToolDef>, s: State) returns (t: State, stop: Stop)
    requires Consistent(s, allowed) && NoneWaits(s.answers) && key !in s.seen && Offered(allowed, key.tool)
    ensures Sound(t, allowed) && t.seen == s.seen + {key} && t.invoked == s.invoked + [key] && t.messages == s.messages
        && s.answers <= t.answers
    ensures t.maxOutput == s.maxOutput + Raises(env, |s.invoked| + 1) - Raises(env, |s.invoked|)
    ensures stop.Breaks? ==> BrokenBy(env, |s.invoked|, stop.error) && t.answers == s.answers
    ensures stop.Waits? ==> EndsWaiting(t.answers)
    ensures stop.GoesOn? ==> Consistent(t, allowed) && NoneWaits(t.answers)
    ensures !stop.Breaks? ==>
        && env.invoke(|s.invoked|).Returned?
        && t.answers == s.answers + [Answer(key, env.invoke(|s.invoked|).result, false)]
  {
    hide Faithful, CacheHoldsFirstAnswers, DistinctActions, Mutates, ReadsAreCached, Offered, ReadOnly, WaitsForSomeone;
    BeginningIsSound(s, key, allowed);
    var reply := env.invoke(|s.invoked|);
    match reply {
      case InvocationFailed =>
        return Begun(s, key), Breaks(ToolBroke);
      case InvocationExpired =>
        return Begun(s, key), Breaks(StepTimedOut);
      case Returned(result, raise) =>
        RecordingKeepsConsistent(s, key, result, raise, allowed);
        t := Recorded(s, key, result, raise, allowed);
        assert t.answers[..|t.answers| - 1] == s.answers;
        stop := if WaitsForSomeone(result) then Waits else GoesOn;
    }
  }

  /** The answer to an action is what its invocation returned. */
  predicate InvokedAt(env: Env, n: int, key: Key, a: Answer) {
    n >= 0 && env.invoke(n).Returned? && a == Answer(key, env.invoke(n).result, false)
  }

  /** The action was carried out, and this is its result. */
  ghost predicate WasInvoked(env: Env, invoked: seq<Key>, a: Answer) {
    exists n: nat :: n < |invoked| && invoked[n] == a.key && env.invoke(n).Returned? && env.invoke(n).result == a.result
  }

  ghost predicate HasAnswer(env: Env, answers: seq<Answer>, key: Key, n: nat) {
    env.invoke(n).Returned? && exists i :: IsFirst(answers, i) && answers[i] == Answer(key, env.invoke(n).result, false)
  }

  /** Every first answer is the result of its action, and every action that returned has its answer. */
  ghost predicate RealAnswers(env: Env, answers: seq<Answer>, invoked: seq<Key>) {
    && (forall i :: IsFirst(answers, i) ==> WasInvoked(env, invoked, answers[i]))
    && (forall n :: 0 <= n < |invoked| && Returns(env, n) ==> HasAnswer(env, answers, invoked[n], n))
  }

  lemma AnswerStays(env: Env, answers: seq<Answer>, more: seq<Answer>, key: Key, n: nat)
    requires HasAnswer(env, answers, key, n) && answers <= more
    ensures HasAnswer(env, more, key, n)
  {
    var i :| IsFirst(answers, i) && answers[i] == Answer(key, env.invoke(n).result, false);
    assert IsFirst(more, i);
  }

  lemma InvokedStays(env: Env, invoked: seq<Key>, key: Key, a: Answer)
    requires WasInvoked(env, invoked, a)
    ensures WasInvoked(env, invoked + [key], a)
  {
    var n: nat :| n < |invoked| && invoked[n] == a.key && env.invoke(n).Returned? && env.invoke(n).result == a.result;
    assert (invoked + [key])[n] == invoked[n];
  }

  lemma RealAnswersGrow(env: Env, answers: seq<Answer>, invoked: seq<Key>, key: Key, more: seq<Answer>)
    requires if Returns(env, |invoked|) then more == answers + [Answer(key, env.invoke(|invoked|).result, false)]
             else more == answers
    ensures RealAnswers(env, answers, invoked) ==> RealAnswers(env, more, invoked + [key])
  {
    if RealAnswers(env, answers, invoked) {
      forall i | IsFirst(more, i) ensures WasInvoked(env, invoked + [key], more[i]) {
        if i < |answers| {
          assert IsFirst(answers, i);
          InvokedStays(env, invoked, key, answers[i]);
        } else {
          assert (invoked + [key])[|invoked|] == key;
        }
      }
      forall n | 0 <= n < |invoked + [key]| && Returns(env, n) ensures HasAnswer(env, more, (invoked + [key])[n], n) {
        if n < |invoked| {
          AnswerStays(env, answers, more, invoked[n], n);
        } else {
          assert IsFirst(more, |answers|);
        }
      }
    }
  }

  lemma ReplaysAreNoFirsts(env: Env, answers: seq<Answer>, more: seq<Answer>, invoked: seq<Key>)
    requires answers <= more && forall i :: |answers| <= i < |more| ==> more[i].replayed
    ensures RealAnswers(env, answers, invoked) ==> RealAnswers(env, more, invoked)
  {
    if RealAnswers(env, answers, invoked) {
      hide WasInvoked, HasAnswer;
      forall i | IsFirst(more, i) ensures IsFirst(answers, i) {
      }
      forall n | 0 <= n < |invoked| && Returns(env, n) ensures HasAnswer(env, more, invoked[n], n) {
        AnswerStays(env, answers, more, invoked[n], n);
      }
    }
  }

  /** The actions carried out since are accepted ones, in order. */
  ghost predicate OnlyAdds(before: seq<Key>, now: seq<Key>, accepted: seq<Accepted>) {
    && before <= now && |now| <= |before| + |accepted|
    && forall i :: |before| <= i < |now| ==> now[i] == accepted[i - |before|].key
  }

  /** What carrying out some of the accepted actions adds: their keys and, in the same order, their results. */
  ghost predicate CarriedOut(env: Env, s: State, t: State, accepted: seq<Accepted>) {
    && s.answers <= t.answers && t.messages == s.messages
    && t.maxOutput == s.maxOutput + Raises(env, |t.invoked|) - Raises(env, |s.invoked|)
    && OnlyAdds(s.invoked, t.invoked, accepted)
    && (RealAnswers(env, s.answers, s.invoked) ==> RealAnswers(env, t.answers, t.invoked))
    && |t.answers| - |s.answers| <= |accepted|
    && forall j :: |s.answers| <= j < |t.answers| ==>
         InvokedAt(env, |s.invoked| + j - |s.answers|, accepted[j - |s.answers|].key, t.answers[j])
  }

  lemma CarriedOutOneMore(env: Env, s: State, t: State, u: State, accepted: seq<Accepted>, k: nat, stop: Stop)
    requires CarriedOut(env, s, t, accepted) && k < |accepted|
    requires |t.answers| == |s.answers| + k && |t.invoked| == |s.invoked| + k
    requires u.invoked == t.invoked + [accepted[k].key] && u.messages == t.messages
    requires u.maxOutput == t.maxOutput + Raises(env, |t.invoked| + 1) - Raises(env, |t.invoked|)
    requires stop.Breaks? ==> BrokenBy(env, |t.invoked|, stop.error) && u.answers == t.answers
    requires !stop.Breaks? ==>
      && env.invoke(|t.invoked|).Returned?
      && u.answers == t.answers + [Answer(accepted[k].key, env.invoke(|t.invoked|).result, false)]
    ensures CarriedOut(env, s, u, accepted)
  {
    hide Raises, RealAnswers;
    RealAnswersGrow(env, t.answers, t.invoked, accepted[k].key, u.answers);
  }

  /** Behind the ids of accepted calls stands what the model may see of their results. */
  ghost predicate Renders(env: Env, tools: seq<Message>, accepted: seq<Accepted>, answers: seq<Answer>, start: nat) {
    && |tools| <= |accepted| && start + |tools| <= |answers|
    && forall i :: 0 <= i < |tools| ==>
         tools[i] == ToolMessage(accepted[i].call.id, env.render(false, answers[start + i].result))
  }

  lemma RendersOneMore(
    env: Env, tools: seq<Message>, accepted: seq<Accepted>, answers: seq<Answer>, more: seq<Answer>, start: nat)
    requires Renders(env, tools, accepted, answers, start) && |tools| < |accepted| && answers <= more
    requires |answers| == start + |tools| && |more| == |answers| + 1
    ensures var m := ToolMessage(accepted[|tools|].call.id, env.render(false, more[|answers|].result));
      Renders(env, tools + [m], accepted, more, start)
  {
  }

  /** Invokes fresh actions one by one; stops at an error or at a result someone has to decide on. */
  method InvokeAccepted(env: Env, accepted: seq<Accepted>, allowed: seq<ToolDef>, s: State)
    returns (t: State, tools: seq<Message>, stop: Stop)
    requires Consistent(s, allowed) && Fresh(accepted, s.seen) && NoneWaits(s.answers)
    requires forall i :: 0 <= i < |accepted| ==> Offered(allowed, accepted[i].key.tool)
    ensures Sound(t, allowed) && CarriedOut(env, s, t, accepted)
    ensures stop.Breaks? ==> NoneWaits(t.answers) && BrokenBy(env, |t.invoked| - 1, stop.error)
    ensures AllReturn(env, |s.invoked|, if stop.Breaks? then |t.invoked| - 1 else |t.invoked|)
    ensures stop.Waits? ==> EndsWaiting(t.answers)
    ensures stop.GoesOn? ==> Consistent(t, allowed) && NoneWaits(t.answers)
    ensures stop.GoesOn? ==> |t.answers| == |s.answers| + |accepted| && |t.invoked| == |s.invoked| + |accepted|
    ensures stop.GoesOn? ==> |tools| == |accepted| && Renders(env, tools, accepted, t.answers, |s.answers|)
  {
    hide Consistent, Sound, Offered, NoneWaits, EndsWaiting, CarriedOut, Renders, Raises, BrokenBy;
    NothingCarriedOut(env, s, accepted);
    t, tools := s, [];
    for k := 0 to |accepted|
      invariant Consistent(t, allowed) && NoneWaits(t.answers) && CarriedOut(env, s, t, accepted)
      invariant |t.answers| == |s.answers| + k && |t.invoked| == |s.invoked| + k && |tools| == k
      invariant AllReturn(env, |s.invoked|, |t.invoked|)
      invariant forall i :: k <= i < |accepted| ==> accepted[i].key !in t.seen
      invariant Renders(env, tools, accepted, t.answers, |s.answers|)
    {
      ghost var before := t;
      t, stop := InvokeOne(env, accepted[k].key, allowed, t);
      CarriedOutOneMore(env, s, before, t, accepted, k, stop);
      if !stop.GoesOn? {
        return;
      }
      RendersOneMore(env, tools, accepted, before.answers, t.answers, |s.answers|);
      tools := tools + [ToolMessage(accepted[k].call.id, env.render(false, t.answers[|t.answers| - 1].result))];
    }
    ConsistentIsSound(t, allowed);
    stop := GoesOn;
  }

  lemma ConsistentIsSound(s: State, allowed: seq<ToolDef>)
    requires Consistent(s, allowed)
    ensures Sound(s, allowed)
  {
  }

  lemma NothingCarriedOut(env: Env, s: State, accepted: seq<Accepted>)
    ensures CarriedOut(env, s, s, accepted) && Renders(env, [], accepted, s.answers, |s.answers|)
  {
    hide RealAnswers;
  }

  predicate IsStable(result: ToolResult) {
    result.status.Succeeded? || (result.status.Failed? && !result.status.retryable)
  }

  /** The last n answers are reads with a definite outcome. */
  ghost predicate StableReads(answers: seq<Answer>, n: int, allowed: seq<ToolDef>) {
    && 0 < n <= |answers|
    && forall i :: |answers| - n <= i < |answers| ==>
         RiskOf(allowed, answers[i].key.tool).Read? && answers[i].result.status in {Succeeded, Failed(false)}
  }

  method FinalizableReadBatch(answers: seq<Answer>, start: nat, allowed: seq<ToolDef>) returns (ok: bool)
    ensures ok <==> StableReads(answers, |answers| - start, allowed)
  {
    if start >= |answers| {
      return false;
    }
    for i := start to |answers|
      invariant forall k :: start <= k < i ==> ReadOnly(allowed, answers[k].key.tool) && IsStable(answers[k].result)
    {
      if !ReadOnly(allowed, answers[i].key.tool) || !IsStable(answers[i].result) {
        return false;
      }
    }
    ok := true;
  }

  lemma BatchAnswers(replayed: seq<Message>, done: seq<Message>, replays: seq<Replay>, accepted: seq<Accepted>,
      calls: seq<ToolCall>)
    requires AnswerIds(replayed) == ReplayIds(replays) && AnswerIds(done) == AcceptedIds(accepted)
    requires multiset(AcceptedIds(accepted)) + multiset(ReplayIds(replays)) == multiset(CallIds(calls))
    requires forall i :: 0 <= i < |replayed| ==> replayed[i].ToolMessage?
    requires forall i :: 0 <= i < |done| ==> done[i].ToolMessage?
    ensures Answers(replayed + done, calls)
  {
    hide AnswerIds, ReplayIds, AcceptedIds, CallIds;
    AnswerIdsAppend(replayed, done);
    assert |multiset(AnswerIds(replayed + done))| == |multiset(CallIds(calls))|;
  }

  /** The k-th message of a batch and its answer: replays first, then fresh work. */
  ghost predicate PairedAt(env: Env, replays: seq<Replay>, accepted: seq<Accepted>, m: Message, a: Answer, k: nat)
    requires k < |replays| + |accepted|
  {
    && a.key == (if k < |replays| then replays[k].key else accepted[k - |replays|].key)
    && m == ToolMessage(if k < |replays| then replays[k].call.id else accepted[k - |replays|].call.id,
                        env.render(a.replayed, a.result))
  }

  /** The messages of a batch and its answers, call by call. */
  ghost predicate Paired(env: Env, replays: seq<Replay>, accepted: seq<Accepted>, tools: seq<Message>,
      latest: seq<Answer>)
  {
    && |tools| == |latest| == |replays| + |accepted|
    && forall k :: 0 <= k < |tools| ==> PairedAt(env, replays, accepted, tools[k], latest[k], k)
  }

  lemma CarriedOutKeys(env: Env, s: State, t: State, accepted: seq<Accepted>)
    requires CarriedOut(env, s, t, accepted)
    ensures s.answers <= t.answers && |t.answers| - |s.answers| <= |accepted|
    ensures forall j :: |s.answers| <= j < |t.answers| ==>
      t.answers[j].key == accepted[j - |s.answers|].key && !t.answers[j].replayed
  {
    hide OnlyAdds, Raises, RealAnswers;
    forall j | |s.answers| <= j < |t.answers|
      ensures t.answers[j].key == accepted[j - |s.answers|].key && !t.answers[j].replayed
    {
      assert InvokedAt(env, |s.invoked| + j - |s.answers|, accepted[j - |s.answers|].key, t.answers[j]);
    }
  }

  lemma BatchIsPaired(env: Env, replays: seq<Replay>, accepted: seq<Accepted>, replayed: seq<Message>,
      done: seq<Message>, s: State, served: State, u: State)
    requires |replayed| == |replays| && |done| == |accepted|
    requires s.answers <= served.answers && |served.answers| == |s.answers| + |replays|
    requires forall j :: |s.answers| <= j < |served.answers| ==>
      served.answers[j] == Answer(replays[j - |s.answers|].key, replays[j - |s.answers|].result, true)
    requires forall i :: 0 <= i < |replays| ==>
      replayed[i] == ToolMessage(replays[i].call.id, env.render(true, replays[i].result))
    requires CarriedOut(env, served, u, accepted) && |u.answers| == |served.answers| + |accepted|
    requires Renders(env, done, accepted, u.answers, |served.answers|)
    ensures Paired(env, replays, accepted, replayed + done, u.answers[|s.answers|..])
  {
    hide CarriedOut, Renders, PairedAt;
    CarriedOutKeys(env, served, u, accepted);
    var tools, latest := replayed + done, u.answers[|s.answers|..];
    forall k | 0 <= k < |tools| ensures PairedAt(env, replays, accepted, tools[k], latest[k], k) {
      if k < |replays| {
        var j := |s.answers| + k;
        assert u.answers[j] == served.answers[j] && latest[k] == u.answers[j] && tools[k] == replayed[k];
        ReplayIsPaired(env, replays, accepted, k);
      } else {
        var i, n := k - |replays|, |served.answers| + (k - |replays|);
        assert latest[k] == u.answers[n] && tools[k] == done[i];
        FreshIsPaired(env, replays, accepted, done, u.answers, |served.answers|, i);
      }
    }
  }

  lemma ReplayIsPaired(env: Env, replays: seq<Replay>, accepted: seq<Accepted>, k: nat)
    requires k < |replays|
    ensures PairedAt(env, replays, accepted, ToolMessage(replays[k].call.id, env.render(true, replays[k].result)),
        Answer(replays[k].key, replays[k].result, true), k)
  {
  }

  lemma FreshIsPaired(env: Env, replays: seq<Replay>, accepted: seq<Accepted>, done: seq<Message>,
      answers: seq<Answer>, start: nat, i: nat)
    requires i < |accepted| && |answers| == start + |accepted| && |done| == |accepted|
    requires Renders(env, done, accepted, answers, start)
    requires answers[start + i].key == accepted[i].key && !answers[start + i].replayed
    ensures PairedAt(env, replays, accepted, done[i], answers[start + i], |replays| + i)
  {
    assert done[i].content == env.render(false, answers[start + i].result);
  }

  lemma BatchIsExchange(env: Env, calls: seq<ToolCall>, replays: seq<Replay>, accepted: seq<Accepted>,
      tools: seq<Message>, latest: seq<Answer>)
    requires Answers(tools, calls) && Paired(env, replays, accepted, tools, latest)
    requires forall i :: 0 <= i < |accepted| ==> IsCallOf(accepted[i].call, accepted[i].key, calls)
    requires forall i :: 0 <= i < |replays| ==> IsCallOf(replays[i].call, replays[i].key, calls)
    ensures Exchange(env, calls, tools, latest)
  {
    hide IsCallOf, Answers, ExchangeAt;
    AnswersCount(tools, calls);
    forall k | 0 <= k < |calls| ensures ExchangeAt(env, calls, tools[k], latest[k]) {
      if k < |replays| {
        CallAnswered(env, calls, replays[k].call, replays[k].key, tools[k], latest[k]);
      } else {
        var a := accepted[k - |replays|];
        CallAnswered(env, calls, a.call, a.key, tools[k], latest[k]);
      }
    }
  }

  lemma CallAnswered(env: Env, calls: seq<ToolCall>, call: ToolCall, key: Key, m: Message, a: Answer)
    requires IsCallOf(call, key, calls) && m == ToolMessage(call.id, env.render(a.replayed, a.result)) && a.key == key
    ensures ExchangeAt(env, calls, m, a)
  {
    var c :| 0 <= c < |calls| && calls[c] == call;
  }

  lemma AnswerIdsAppend(a: seq<Message>, b: seq<Message>)
    ensures AnswerIds(a + b) == AnswerIds(a) + AnswerIds(b)
  {
  }

  /** A protocol-valid list that starts with the untouched system message. */
  ghost predicate OpensWith(messages: seq<Message>, input: Input) {
    Valid(messages) && messages != [] && messages[0] == SystemMessage(input.system)
  }

  /** Answers all calls of a response, from the cache first, and adds the exchange to the messages. */
  method RunBatch(env: Env, text: string, calls: seq<ToolCall>, accepted: seq<Accepted>, replays: seq<Replay>,
      input: Input, s: State, ghost heard: nat)
    returns (t: State, stop: Stop)
    requires Consistent(s, input.allowed) && OpensWith(s.messages, input) && NoneWaits(s.answers) && calls != []
    requires Fresh(accepted, s.seen) && FromCache(replays, s.cached, input.allowed)
    requires multiset(AcceptedIds(accepted)) + multiset(ReplayIds(replays)) == multiset(CallIds(calls))
    requires forall i :: 0 <= i < |accepted| ==> Offered(input.allowed, accepted[i].key.tool)
    requires forall i :: 0 <= i < |accepted| ==> IsCallOf(accepted[i].call, accepted[i].key, calls)
    requires forall i :: 0 <= i < |replays| ==> IsCallOf(replays[i].call, replays[i].key, calls)
    requires heard > 0 && env.chat(heard - 1).Response? && env.chat(heard - 1).calls == calls
    requires env.chat(heard - 1).text == text
    requires Tells(env, input, s.messages, s.answers, heard) && ToolCount(s.messages) == |s.answers|
    ensures stop.GoesOn? ==> Tells(env, input, t.messages, t.answers, heard) && ToolCount(t.messages) == |t.answers|
    ensures RealAnswers(env, s.answers, s.invoked) ==> RealAnswers(env, t.answers, t.invoked)
    ensures Sound(t, input.allowed) && s.answers <= t.answers
    ensures t.maxOutput == s.maxOutput + Raises(env, |t.invoked|) - Raises(env, |s.invoked|)
    ensures OnlyAdds(s.invoked, t.invoked, accepted) && (stop.GoesOn? ==> |t.invoked| == |s.invoked| + |accepted|)
    ensures stop.Breaks? ==> NoneWaits(t.answers) && BrokenBy(env, |t.invoked| - 1, stop.error)
    ensures AllReturn(env, |s.invoked|, if stop.Breaks? then |t.invoked| - 1 else |t.invoked|)
    ensures stop.Waits? ==> EndsWaiting(t.answers)
    ensures stop.GoesOn? ==> Consistent(t, input.allowed) && NoneWaits(t.answers)
    ensures stop.GoesOn? ==> OpensWith(t.messages, input) && s.messages + [AssistantMessage(text, calls)] <= t.messages
    ensures stop.GoesOn? ==>
      |t.messages| == |s.messages| + 1 + |calls| && |t.answers| == |s.answers| + |calls|
  {
    hide Consistent, Sound, Offered, Fresh, FromCache, Valid, Answers, NoneWaits, EndsWaiting, Tells, RealAnswers,
         IsCallOf, Renders, Paired, AnswerIds, ReplayIds, AcceptedIds, CallIds, Exchange, Raises, BrokenBy, AllReturn;
    var served, replayed := ServeReplays(env, replays, input.allowed, s);
    ReplaysAreNoFirsts(env, s.answers, served.answers, s.invoked);
    var u, done, how := InvokeAccepted(env, accepted, input.allowed, served);
    if !how.GoesOn? {
      return u, how;
    }
    IdsOfBatch(env, replayed, done, replays, accepted, u.answers, |served.answers|);
    BatchAnswers(replayed, done, replays, accepted, calls);
    AnswersCount(replayed + done, calls);
    AppendBatch(s.messages, text, calls, replayed + done);
    ghost var latest := u.answers[|s.answers|..];
    BatchIsPaired(env, replays, accepted, replayed, done, s, served, u);
    BatchIsExchange(env, calls, replays, accepted, replayed + done, latest);
    ExchangeTells(env, input, s.messages, text, calls, replayed + done, s.answers, latest, heard);
    assert s.answers + latest == u.answers;
    t := u.(messages := s.messages + [AssistantMessage(text, calls)] + (replayed + done));
    MessagesKeepConsistent(u, t, input.allowed);
    stop := GoesOn;
  }

  lemma MessagesKeepConsistent(s: State, t: State, allowed: seq<ToolDef>)
    requires Consistent(s, allowed) && t == s.(messages := t.messages)
    ensures Consistent(t, allowed) && Sound(t, allowed)
  {
    hide Faithful, CacheHoldsFirstAnswers, DistinctActions, Mutates, ReadsAreCached;
  }

  lemma IdsOfBatch(env: Env, replayed: seq<Message>, done: seq<Message>, replays: seq<Replay>, accepted: seq<Accepted>,
      answers: seq<Answer>, start: nat)
    requires |replayed| == |replays| && |done| == |accepted| && Renders(env, done, accepted, answers, start)
    requires forall i :: 0 <= i < |replays| ==>
      replayed[i] == ToolMessage(replays[i].call.id, env.render(true, replays[i].result))
    ensures AnswerIds(replayed) == ReplayIds(replays) && AnswerIds(done) == AcceptedIds(accepted)
    ensures forall i :: 0 <= i < |replayed| ==> replayed[i].ToolMessage?
    ensures forall i :: 0 <= i < |done| ==> done[i].ToolMessage?
  {
  }

  // One turn with the provider.

  /** The first request of a turn asks for the output budget, or for what the prompt leaves of the window if that is
      less; the prompt stays below 90 percent of it and leaves 256 tokens at least. */
  ghost predicate FitsWindow(env: Env, input: Input, r: Request, maxOutput: int) {
    r.attempt == 0 ==>
      var window := if input.reliableContext > 0 then input.reliableContext else 8192;
      var prompt := env.count(2 * r.turn + 1, r.messages);
      var room := window - prompt - 96;
      && prompt * 10 < window * 9 && room >= 256
      && r.maxOutput == if 0 < maxOutput <= room then maxOutput else room
  }

  /** The prompt of that turn leaves no room for a response. */
  ghost predicate NoRoom(env: Env, input: Input, messages: seq<Message>, turn: nat) {
    var window := if input.reliableContext > 0 then input.reliableContext else 8192;
    var prompt := env.count(2 * turn + 1, messages);
    prompt * 10 >= window * 9 || window - prompt - 96 < 256
  }

  /** Compacts at 80 percent of the window, then asks for what is left. */
  method SendTurn(env: Env, input: Input, messages: seq<Message>, maxOutput: int, turn: nat, first: nat)
    returns (compacted: seq<Message>, recompilations: nat, limit: Option<int>, reply: ChatReply, sent: seq<Request>)
    ensures SameShapes(messages, compacted) && |sent| <= 4
    ensures limit.None? <==> sent == []
    ensures limit.None? ==> NoRoom(env, input, compacted, turn)
    ensures sent != [] ==> reply == env.chat(first + |sent| - 1) && sent[|sent| - 1].maxOutput == limit.value
    ensures limit.Some? ==> limit.value >= 1 && (maxOutput > 0 ==> limit.value <= maxOutput)
    ensures forall k :: 0 <= k < |sent| ==>
        AllDescend(messages, sent[k].messages, env.digest) && FitsWindow(env, input, sent[k], maxOutput)
    ensures forall k :: 0 <= k < |sent| ==>
        AllDescend(compacted, sent[k].messages, env.digest)
        && sent[k] == Request(sent[k].messages, sent[0].maxOutput, turn, k)
    ensures forall n :: first <= n < first + |sent| - 1 ==> RetriedAt(env, n)
    ensures sent != [] && reply == ProviderError(Overflow) ==> |sent| >= 2
    ensures sent != [] && reply == ProviderError(Transient) ==> |sent| >= 3
    ensures AllDescend(messages, compacted, env.digest)
    ensures var window := if input.reliableContext > 0 then input.reliableContext else 8192;
      if env.count(2 * turn, messages) * 10 < window * 8 then compacted == messages
      else forall i :: 0 <= i < |messages| ==> compacted[i] == CompactedMessage(messages[i], env.digest)
  {
    hide AllDescend, CompactedMessage;
    UntouchedMessagesDescend(messages, env.digest);
    compacted, recompilations, sent, reply := messages, 0, [], ProviderError(Permanent);
    if env.count(2 * turn, messages) * 10 >= Window(input) * 8 {
      compacted := CompactOverflowMessages(messages, env.digest);
      CompactedMessagesDescend(messages, compacted, env.digest);
      recompilations := 1;
    }
    limit := RequestOutputLimit(env.count(2 * turn + 1, compacted), Window(input), maxOutput);
    if limit.None? {
      return;
    }
    var extra: nat;
    reply, extra, sent := ChatWithRetry(env, compacted, limit.value, turn, first);
    recompilations := recompilations + extra;
    DescentKeepsShapes(messages, compacted, env.digest);
    forall k | 0 <= k < |sent| ensures AllDescend(messages, sent[k].messages, env.digest) {
      DescentsChain(messages, compacted, sent[k].messages, env.digest);
    }
  }

  function ErrorOf(code: ProviderCode): WorkerError {
    match code
    case Overflow => ContextOverflow
    case Expired => StepTimedOut
    case _ => ProviderFailed
  }

  /** Rejected calls that one repair turn may correct. */
  predicate Repairable(error: WorkerError, calls: seq<ToolCall>, allowed: seq<ToolDef>) {
    || error in {InvalidCall, ToolNotAllowed}
    || (error in {RepeatedMutation, RepeatedWithoutCache, DuplicateInBatch} && calls != []
        && forall i :: 0 <= i < |calls| ==> ReadOnly(allowed, calls[i].name))
  }

  // The run.

  ghost predicate RequestsValid(sent: seq<Request>, input: Input) {
    forall k :: 0 <= k < |sent| ==> OpensWith(sent[k].messages, input)
  }

  /** What each request tells the model, by the number of responses heard before it. */
  ghost predicate RequestsTell(env: Env, input: Input, sent: seq<Request>, answers: seq<Answer>) {
    forall k :: 0 <= k < |sent| ==> Tells(env, input, sent[k].messages, answers, k)
  }

  lemma RequestsStayTold(env: Env, input: Input, sent: seq<Request>, answers: seq<Answer>, more: seq<Answer>)
    requires RequestsTell(env, input, sent, answers) && answers <= more
    ensures RequestsTell(env, input, sent, more)
  {
    hide Tells;
    forall k | 0 <= k < |sent| ensures Tells(env, input, sent[k].messages, more, k) {
      MoreStaysTold(env, input, sent[k].messages, answers, more, k, k);
    }
  }

  lemma NewRequestsTell(
    env: Env, input: Input, messages: seq<Message>, sent: seq<Request>, more: seq<Request>, answers: seq<Answer>)
    requires RequestsTell(env, input, sent, answers) && Tells(env, input, messages, answers, |sent|)
    requires forall k :: 0 <= k < |more| ==> AllDescend(messages, more[k].messages, env.digest)
    ensures RequestsTell(env, input, sent + more, answers)
  {
    hide Tells, AllDescend;
    forall k | 0 <= k < |more| ensures Tells(env, input, more[k].messages, answers, |sent| + k) {
      CompactionTells(env, input, messages, more[k].messages, answers, |sent|);
      MoreStaysTold(env, input, more[k].messages, answers, answers, |sent|, |sent| + k);
    }
  }

  /** The output budget of a request is the step's, with what some of the invocations added. */
  ghost predicate FitsBudget(env: Env, r: Request, input: Input, invocations: nat) {
    exists n: nat :: n <= invocations && FitsWindow(env, input, r, input.maxOutput + Raises(env, n))
  }

  ghost predicate RequestsFit(env: Env, sent: seq<Request>, input: Input, invocations: nat) {
    forall k :: 0 <= k < |sent| ==> FitsBudget(env, sent[k], input, invocations)
  }

  lemma RequestsStayFit(env: Env, sent: seq<Request>, input: Input, before: nat, now: nat)
    requires RequestsFit(env, sent, input, before) && before <= now
    ensures RequestsFit(env, sent, input, now)
  {
    hide FitsWindow;
    forall k | 0 <= k < |sent| ensures FitsBudget(env, sent[k], input, now) {
      assert FitsBudget(env, sent[k], input, before);
    }
  }

  lemma ShapeKeepsOpening(a: seq<Message>, b: seq<Message>, input: Input)
    requires SameShapes(a, b) && OpensWith(a, input)
    ensures OpensWith(b, input)
  {
    hide Valid;
    ShapeDecidesValidity(a, b);
    assert SameShape(a[0], b[0]);
  }

  lemma RequestsGrow(env: Env, sent: seq<Request>, more: seq<Request>, messages: seq<Message>, input: Input,
      invocations: nat)
    requires RequestsValid(sent, input) && RequestsFit(env, sent, input, invocations) && OpensWith(messages, input)
    requires forall k :: 0 <= k < |more| ==>
        AllDescend(messages, more[k].messages, env.digest)
        && FitsWindow(env, input, more[k], input.maxOutput + Raises(env, invocations))
    ensures RequestsValid(sent + more, input) && RequestsFit(env, sent + more, input, invocations)
  {
    hide OpensWith, FitsWindow, AllDescend;
    forall k | 0 <= k < |more| ensures OpensWith(more[k].messages, input) {
      DescentKeepsShapes(messages, more[k].messages, env.digest);
      ShapeKeepsOpening(messages, more[k].messages, input);
    }
    forall k | 0 <= k < |more| ensures FitsBudget(env, more[k], input, invocations) {
      assert invocations <= invocations && FitsWindow(env, input, more[k], input.maxOutput + Raises(env, invocations));
    }
  }

  lemma PlainKeepsOpening(messages: seq<Message>, text: string, input: Input)
    requires OpensWith(messages, input)
    ensures OpensWith(messages + [UserMessage(text)], input)
  {
    hide Valid;
    AppendPlain(messages, UserMessage(text));
  }

  lemma OpeningIsValid(input: Input)
    ensures OpensWith([SystemMessage(input.system), UserMessage(input.assignment)], input)
  {
  }

  lemma StartIsConsistent(env: Env, s: State, input: Input)
    requires s.seen == {} && s.cached == map[] && !s.mutated && s.answers == [] && s.invoked == []
    ensures Consistent(s, input.allowed) && NoneWaits(s.answers) && RequestsValid([], input)
        && RequestsFit(env, [], input, 0)
    ensures DistinctActions([]) && Faithful([]) && OnlyRequested(env, [], [])
  {
  }

  /** The step is there to write: it says so, and has a tool for it. */
  ghost predicate OwesWrite(input: Input) {
    input.writeRequired && input.risk.Write? && exists d :: d in input.allowed && !d.risk.Read?
  }

  ghost predicate WroteSomething(input: Input, invoked: seq<Key>) {
    exists k :: k in invoked && !RiskOf(input.allowed, k.tool).Read?
  }

  lemma WriteObligation(input: Input, invoked: seq<Key>)
    ensures MustWrite(input) <==> OwesWrite(input)
    ensures Mutates(invoked, input.allowed) <==> WroteSomething(input, invoked)
  {
    if i :| 0 <= i < |input.allowed| && !input.allowed[i].risk.Read? { assert input.allowed[i] in input.allowed; }
    if k :| k in invoked && !RiskOf(input.allowed, k.tool).Read? {
      var i :| 0 <= i < |invoked| && invoked[i] == k;
      assert !ReadOnly(input.allowed, invoked[i].tool);
    }
    if i :| 0 <= i < |invoked| && !ReadOnly(input.allowed, invoked[i].tool) { assert invoked[i] in invoked; }
  }

  ghost predicate Pending(a: Answer) {
    a.result.status in {WaitsForApproval, WaitsForUser}
  }

  /** How a run may end: with an answer or evidence only when its write obligation is met, and waiting exactly if
      somebody has to decide on its last answer. */
  ghost predicate EndsWell(input: Input, result: Result, invoked: seq<Key>) {
    && (forall i :: 0 <= i < |result.answers| ==>
         (Pending(result.answers[i]) <==> result.ending.Waiting? && i == |result.answers| - 1))
    && (result.ending.Waiting? ==> result.answers != [])
    && (result.ending.Evidence? || result.ending.Answered? ==> (OwesWrite(input) ==> WroteSomething(input, invoked)))
    && (result.ending.Evidence? ==> result.iterations == input.maxIterations)
  }

  /** What the conversation knows at its end. */
  ghost predicate EndsAs(input: Input, result: Result, invoked: seq<Key>) {
    match result.ending
    case Unfinished => NoneWaits(result.answers)
    case Answered(_) => NoneWaits(result.answers) && (MustWrite(input) ==> Mutates(invoked, input.allowed))
    case Evidence =>
      && NoneWaits(result.answers) && (MustWrite(input) ==> Mutates(invoked, input.allowed))
      && result.iterations == input.maxIterations
    case Waiting => EndsWaiting(result.answers)
  }

  lemma EndingIsWell(input: Input, result: Result, invoked: seq<Key>)
    requires EndsAs(input, result, invoked)
    ensures EndsWell(input, result, invoked)
  {
    hide MustWrite, OwesWrite, Mutates, WroteSomething;
    WriteObligation(input, invoked);
    if result.ending.Waiting? {
      var n := |result.answers| - 1;
      forall i | 0 <= i < n ensures !Pending(result.answers[i]) { assert result.answers[..n][i] == result.answers[i]; }
    }
  }

  ghost predicate AskedIn(env: Env, n: nat, key: Key) {
    env.chat(n).Response? && RequestedBy(key, env.chat(n).calls)
  }

  /** One of the first responses asked for the action. */
  ghost predicate AskedBefore(env: Env, count: nat, key: Key) {
    exists n: nat :: n < count && AskedIn(env, n, key)
  }

  /** Only what a response asked for is carried out. */
  ghost predicate OnlyRequested(env: Env, sent: seq<Request>, invoked: seq<Key>) {
    forall i :: 0 <= i < |invoked| ==> AskedBefore(env, |sent|, invoked[i])
  }

  /** The last reply was a response with these calls. */
  ghost predicate LastAsked(env: Env, sent: seq<Request>, calls: seq<ToolCall>) {
    sent != [] && env.chat(|sent| - 1).Response? && env.chat(|sent| - 1).calls == calls
  }

  ghost predicate LastFailed(env: Env, sent: seq<Request>, code: ProviderCode) {
    sent != [] && env.chat(|sent| - 1) == ProviderError(code)
  }

  ghost predicate RepairWasAsked(env: Env, sent: seq<Request>, ofCalls: bool) {
    exists k :: RepairsAt(env, sent, k, ofCalls)
  }

  /** The calls are refused for that error, and no repair is left: it is the last turn, one was asked for before, or a
      repeated action is not among reads only. */
  ghost predicate RefusedForGood(env: Env, input: Input, iterations: int, error: WorkerError, sent: seq<Request>,
      invoked: seq<Key>, calls: seq<ToolCall>)
  {
    && RefusedBatch(calls, input.allowed, (set k | k in invoked), if input.callLimit > 0 then input.callLimit else 8,
         error)
    && (iterations == input.maxIterations || RepairWasAsked(env, sent, true)
        || (error in {RepeatedMutation, DuplicateInBatch}
            && exists c :: c in calls && !ReadOnly(input.allowed, c.name)))
  }

  /** The conversation so far leaves no room for a response. */
  ghost predicate OutOfRoom(env: Env, input: Input, result: Result, sent: seq<Request>) {
    exists messages ::
      NoRoom(env, input, messages, result.iterations) && Tells(env, input, messages, result.answers, |sent|)
  }

  /** The step's time was over when the run looked, or while it waited for a reply or a tool. */
  ghost predicate RanOutOfTime(env: Env, result: Result, sent: seq<Request>, invoked: seq<Key>) {
    || env.expired(2 * result.iterations) || env.expired(2 * result.iterations + 1)
    || LastFailed(env, sent, Expired) || (invoked != [] && env.invoke(|invoked| - 1).InvocationExpired?)
  }

  /** More was answered than the whole budget, the step's with all raises, for every turn. */
  ghost predicate Overspent(env: Env, input: Input, output: int, invocations: nat) {
    var budget := input.maxOutput + Raises(env, invocations);
    budget > 0 && output > budget * (if input.maxIterations > 1 then input.maxIterations else 1)
  }

  /** Why a run ended as it did. */
  ghost predicate Explained(env: Env, input: Input, result: Result, error: Option<WorkerError>, sent: seq<Request>,
      invoked: seq<Key>)
  {
    match error
    case None =>
      exists calls :: LastAsked(env, sent, calls) &&
        (match result.ending
         case Answered(text) => calls == [] && env.chat(|sent| - 1).text == text
         case Evidence => StableReads(result.answers, |calls|, input.allowed)
         case _ => calls != [])
    case Some(InvalidInput) => input.maxIterations <= 0 && sent == [] && invoked == []
    case Some(IterationsExhausted) =>
      result.iterations == input.maxIterations
      && exists calls :: LastAsked(env, sent, calls) && calls != []
          && !StableReads(result.answers, |calls|, input.allowed) && !Overspent(env, input, result.output, |invoked|)
    case Some(NoWriteProposal) =>
      && OwesWrite(input) && !WroteSomething(input, invoked)
      && (result.iterations == input.maxIterations || RepairWasAsked(env, sent, false))
    case Some(ProviderFailed) =>
      LastFailed(env, sent, Permanent) || (LastFailed(env, sent, Transient) && sent[|sent| - 1].attempt >= 2)
    case Some(ResponseTooLong) =>
      sent != [] && env.chat(|sent| - 1).Response? && env.chat(|sent| - 1).outputTokens > sent[|sent| - 1].maxOutput
    case Some(ToolBroke) => invoked != [] && env.invoke(|invoked| - 1).InvocationFailed?
    case Some(CumulativeBudgetExceeded) => input.maxOutput <= 0 && Overspent(env, input, result.output, |invoked|)
    case Some(ContextOverflow) =>
      (LastFailed(env, sent, Overflow) && sent[|sent| - 1].attempt >= 1) || OutOfRoom(env, input, result, sent)
    case Some(StepTimedOut) => RanOutOfTime(env, result, sent, invoked)
    case Some(RepeatedWithoutCache) => false
    case Some(refusal) =>
      exists calls :: LastAsked(env, sent, calls)
        && RefusedForGood(env, input, result.iterations, refusal, sent, invoked, calls)
  }

  /** The iterations of a run are the responses it heard and its output is theirs, without one that came too late. */
  ghost predicate Counted(env: Env, sent: seq<Request>, result: Result, error: Option<WorkerError>) {
    || (result.iterations == Replies(env, |sent|) && result.output == Spent(env, |sent|))
    || (error == Some(StepTimedOut) && env.expired(2 * result.iterations + 1) && sent != []
        && env.chat(|sent| - 1).Response?
        && result.iterations == Replies(env, |sent| - 1) && result.output == Spent(env, |sent| - 1))
  }

  /** Only the last action may not have returned, and then the run ended with that. */
  ghost predicate ReturnedUnless(env: Env, error: Option<WorkerError>, invoked: seq<Key>) {
    && AllReturn(env, 0, |invoked| - 1)
    && (error !in {Some(ToolBroke), Some(StepTimedOut)} ==> AllReturn(env, 0, |invoked|))
  }

  lemma RequestsStayAsked(env: Env, sent: seq<Request>, more: seq<Request>, invoked: seq<Key>)
    requires OnlyRequested(env, sent, invoked)
    ensures OnlyRequested(env, sent + more, invoked)
  {
    forall i | 0 <= i < |invoked| ensures AskedBefore(env, |sent + more|, invoked[i]) {
      assert AskedBefore(env, |sent|, invoked[i]);
    }
  }

  lemma BatchWasAsked(env: Env, sent: seq<Request>, before: seq<Key>, now: seq<Key>, accepted: seq<Accepted>)
    requires OnlyRequested(env, sent, before) && OnlyAdds(before, now, accepted)
    requires sent != [] && forall i :: 0 <= i < |accepted| ==> AskedIn(env, |sent| - 1, accepted[i].key)
    ensures OnlyRequested(env, sent, now)
  {
    hide AskedIn;
    forall i | 0 <= i < |now| ensures AskedBefore(env, |sent|, now[i]) {
      if i < |before| {
        assert AskedBefore(env, |sent|, before[i]);
      } else {
        assert AskedIn(env, |sent| - 1, now[i]);
      }
    }
  }

  lemma OutputStaysBounded(output: int, before: nat, now: int, later: int, added: int, limit: int)
    requires output <= before * now && 0 < now <= later && (added <= 0 || added <= limit) && limit <= now
    ensures output + added <= (before + 1) * later
  {
    assert before * now <= before * later;
  }

  predicate CumulativeExceeded(maxOutput: int, output: int, maxIterations: int) {
    maxOutput > 0 && output > maxOutput * (if maxIterations > 1 then maxIterations else 1)
  }

  lemma NeverExceeded(output: int, iterations: int, maxOutput: int, maxIterations: int)
    requires output <= iterations * maxOutput && 0 <= iterations <= maxIterations && maxOutput > 0
    ensures !CumulativeExceeded(maxOutput, output, maxIterations)
  {
    var factor := if maxIterations > 1 then maxIterations else 1;
    assert iterations * maxOutput <= factor * maxOutput;
  }

  /** The conversation between two turns. */
  datatype Conversation = Conversation(
    s: State, sent: seq<Request>, output: int, recompilations: nat, repaired: bool, writeRepaired: bool)

  /** What holds of the requests and the spent output after some turns. */
  ghost predicate Accounted(env: Env, input: Input, c: Conversation, turns: nat) {
    && RequestsValid(c.sent, input) && RequestsFit(env, c.sent, input, |c.s.invoked|) && |c.sent| <= 4 * turns
    && OnlyRequested(env, c.sent, c.s.invoked)
    && c.s.maxOutput == input.maxOutput + Raises(env, |c.s.invoked|)
    && (input.maxOutput > 0 ==> c.output <= turns * c.s.maxOutput)
    && RequestsTell(env, input, c.sent, c.s.answers) && RealAnswers(env, c.s.answers, c.s.invoked)
  }

  ghost predicate Underway(env: Env, input: Input, c: Conversation, turns: nat) {
    && Accounted(env, input, c, turns) && Consistent(c.s, input.allowed) && NoneWaits(c.s.answers)
    && OpensWith(c.s.messages, input)
    && Tells(env, input, c.s.messages, c.s.answers, |c.sent|) && ToolCount(c.s.messages) == |c.s.answers|
  }

  /** The last batch was carried out, and neither settles the run nor overspends. */
  ghost predicate Unsettled(env: Env, input: Input, c: Conversation) {
    exists calls :: LastAsked(env, c.sent, calls) && calls != []
      && !StableReads(c.s.answers, |calls|, input.allowed) && !Overspent(env, input, c.output, |c.s.invoked|)
  }

  /** Between two turns: the conversation as it stands is the next request. */
  ghost predicate Tracked(env: Env, input: Input, c: Conversation, turns: nat) {
    && OnCourse(env, input, c.sent + [Request(c.s.messages, 0, turns, 0)], c.repaired, c.writeRepaired)
    && c.output == Spent(env, |c.sent|) && turns == Replies(env, |c.sent|) && AllReturn(env, 0, |c.s.invoked|)
    && (0 < turns == input.maxIterations ==> Unsettled(env, input, c))
  }

  /** Within a turn: a response to the conversation was heard. */
  ghost predicate Listening(env: Env, input: Input, c: Conversation, turns: nat) {
    && c.sent != [] && env.chat(|c.sent| - 1).Response?
    && OnCourse(env, input, c.sent, c.repaired, c.writeRepaired)
    && SameShapes(c.sent[|c.sent| - 1].messages, c.s.messages) && c.sent[|c.sent| - 1].turn + 1 == turns
    && c.output == Spent(env, |c.sent|) && turns == Replies(env, |c.sent|) && AllReturn(env, 0, |c.s.invoked|)
  }

  /** What the course of a finished run was. */
  ghost predicate Traced(env: Env, input: Input, result: Result, error: Option<WorkerError>, sent: seq<Request>,
      invoked: seq<Key>)
  {
    && Course(env, input, sent) && RepairsOnce(env, sent)
    && Counted(env, sent, result, error) && ReturnedUnless(env, error, invoked)
  }

  lemma TrackedIsTraced(env: Env, input: Input, c: Conversation, turns: nat, result: Result,
      error: Option<WorkerError>)
    requires Tracked(env, input, c, turns) && result.iterations == turns && result.output == c.output
    ensures Traced(env, input, result, error, c.sent, c.s.invoked)
  {
    hide Unsettled, Spent, Replies, Course, RepairsOnce;
    CourseOfPrefix(env, input, c.sent, Request(c.s.messages, 0, turns, 0));
  }

  lemma ListeningIsTraced(env: Env, input: Input, c: Conversation, turns: nat, result: Result,
      error: Option<WorkerError>)
    requires Listening(env, input, c, turns) && result.iterations == turns && result.output == c.output
    ensures Traced(env, input, result, error, c.sent, c.s.invoked)
  {
    hide Spent, Replies, Course, RepairsOnce;
  }

  /** A reply was heard: the last request got it, within the limit that request set. */
  ghost predicate Heard(env: Env, c: Conversation, reply: ChatReply, limit: int) {
    && c.sent != [] && reply == env.chat(|c.sent| - 1) && reply.Response?
    && c.sent[|c.sent| - 1].maxOutput == limit && (reply.outputTokens <= 0 || reply.outputTokens <= limit)
  }

  datatype Exit = Exit(result: Result, error: Option<WorkerError>)

  /** Everything a finished run promises. */
  ghost predicate Finished(env: Env, input: Input, result: Result, error: Option<WorkerError>, sent: seq<Request>,
      invoked: seq<Key>) {
    && RequestsValid(sent, input) && RequestsFit(env, sent, input, |invoked|)
    && |sent| <= (if input.maxIterations > 0 then 4 * input.maxIterations else 0)
    && DistinctActions(invoked) && Faithful(result.answers) && OnlyRequested(env, sent, invoked)
    && (forall i :: 0 <= i < |invoked| ==> Offered(input.allowed, invoked[i].tool))
    && (error.None? <==> !result.ending.Unfinished?)
    && EndsWell(input, result, invoked) && Explained(env, input, result, error, sent, invoked)
    && RequestsTell(env, input, sent, result.answers) && RealAnswers(env, result.answers, invoked)
    && Traced(env, input, result, error, sent, invoked)
  }

  function Outcome(c: Conversation, ending: Ending, turns: nat): Result {
    Result(ending, c.s.answers, c.output, turns, c.recompilations)
  }

  /** Leaving a conversation whose answers are all definite. */
  lemma Leave(env: Env, input: Input, c: Conversation, turns: nat, result: Result, error: Option<WorkerError>)
    requires Accounted(env, input, c, turns) && Sound(c.s, input.allowed) && turns <= input.maxIterations
    requires error.None? <==> !result.ending.Unfinished?
    requires result.answers == c.s.answers && EndsAs(input, result, c.s.invoked)
    requires Explained(env, input, result, error, c.sent, c.s.invoked)
    requires Traced(env, input, result, error, c.sent, c.s.invoked)
    ensures Finished(env, input, result, error, c.sent, c.s.invoked)
  {
    hide RequestsValid, RequestsFit, OnlyRequested, DistinctActions, Faithful, Offered, EndsWell, EndsAs, Explained,
         RequestsTell, RealAnswers, Tells, ToolCount, Traced, Raises;
    EndingIsWell(input, result, c.s.invoked);
  }

  lemma TracedAlike(env: Env, input: Input, result: Result, other: Result, error: Option<WorkerError>,
      sent: seq<Request>, invoked: seq<Key>)
    requires Traced(env, input, result, None, sent, invoked)
    requires other.iterations == result.iterations && other.output == result.output
    ensures Traced(env, input, other, error, sent, invoked)
  {
    hide Course, RepairsOnce, Replies, Spent;
  }

  lemma MissingWriteIsExplained(env: Env, input: Input, c: Conversation, result: Result)
    requires MustWrite(input) && Consistent(c.s, input.allowed) && !c.s.mutated
    requires result.iterations == input.maxIterations || RepairWasAsked(env, c.sent, false)
    ensures Explained(env, input, result, Some(NoWriteProposal), c.sent, c.s.invoked)
  {
    hide Sound, ReadsAreCached, CacheHoldsFirstAnswers, MustWrite, OwesWrite, Mutates, WroteSomething, RepairWasAsked;
    WriteObligation(input, c.s.invoked);
  }

  lemma RepairsAreOnRecord(env: Env, input: Input, c: Conversation, turns: nat)
    requires Listening(env, input, c, turns)
    ensures c.repaired <==> RepairWasAsked(env, c.sent, true)
    ensures c.writeRepaired <==> RepairWasAsked(env, c.sent, false)
  {
    hide Course, RepairsOnce, RepairsAt;
  }

  /** A response without tool calls: the answer, a request to write after all, or a failure. */
  method HandleText(env: Env, input: Input, iteration: nat, c: Conversation, reply: ChatReply, limit: int)
    returns (d: Conversation, exit: Option<Exit>)
    requires Underway(env, input, c, iteration + 1) && iteration < input.maxIterations
    requires Heard(env, c, reply, limit) && reply.calls == [] && Listening(env, input, c, iteration + 1)
    ensures exit.None? ==> Underway(env, input, d, iteration + 1) && Tracked(env, input, d, iteration + 1)
    ensures exit.Some? ==> Finished(env, input, exit.value.result, exit.value.error, d.sent, d.s.invoked)
  {
    hide RequestsValid, RequestsFit, OnlyRequested, DistinctActions, Faithful, Offered, Mutates, NoneWaits,
         OffersMutation, Finished, OpensWith, CacheHoldsFirstAnswers, ReadsAreCached, RequestsTell, RealAnswers, Tells,
         ToolCount, Listening, Tracked, Traced, Raises, RepairWasAsked;
    RepairsAreOnRecord(env, input, c, iteration + 1);
    if MustWrite(input) && !c.s.mutated {
      if !c.writeRepaired && iteration + 1 < input.maxIterations {
        PlainKeepsOpening(c.s.messages, WRITE_REPAIR, input);
        RepairTells(env, input, c.s.messages, WRITE_REPAIR, c.s.answers, |c.sent|);
        d := c.(s := c.s.(messages := c.s.messages + [UserMessage(WRITE_REPAIR)]), writeRepaired := true);
        RepairIsTracked(env, input, c, d, iteration + 1);
        return d, None;
      }
      var result := Outcome(c, Unfinished, iteration + 1);
      ListeningIsTraced(env, input, c, iteration + 1, result, Some(NoWriteProposal));
      MissingWriteIsExplained(env, input, c, result);
      Leave(env, input, c, iteration + 1, result, Some(NoWriteProposal));
      return c, Some(Exit(result, Some(NoWriteProposal)));
    }
    var result := Outcome(c, Answered(reply.text), iteration + 1);
    ListeningIsTraced(env, input, c, iteration + 1, result, None);
    assert LastAsked(env, c.sent, []);
    Leave(env, input, c, iteration + 1, result, None);
    return c, Some(Exit(result, None));
  }

  lemma RepairIsTracked(env: Env, input: Input, c: Conversation, d: Conversation, turns: nat)
    requires Listening(env, input, c, turns) && turns < input.maxIterations
    requires d.sent == c.sent && d.output == c.output && d.s.invoked == c.s.invoked
    requires var calls := env.chat(|c.sent| - 1).calls;
      && (if calls == [] then !c.writeRepaired else !c.repaired)
      && d.repaired == (c.repaired || calls != []) && d.writeRepaired == (c.writeRepaired || calls == [])
      && d.s.messages == c.s.messages + [UserMessage(if calls == [] then WRITE_REPAIR else CALL_REPAIR)]
    ensures Tracked(env, input, d, turns)
  {
    hide OnCourse, SameShapes, Spent, Replies;
    RepairFollows(env, input, c.sent, c.s.messages, turns, c.repaired, c.writeRepaired);
  }

  /** The calls of a response were refused: one repair turn, or a failure. */
  method HandleRefusal(env: Env, input: Input, iteration: nat, c: Conversation, reply: ChatReply, limit: int,
      refusal: WorkerError)
    returns (d: Conversation, exit: Option<Exit>)
    requires Underway(env, input, c, iteration + 1) && iteration < input.maxIterations && Heard(env, c, reply, limit)
    requires refusal in {InvalidCall, ToolNotAllowed, RepeatedMutation, DuplicateInBatch} && reply.calls != []
    requires RefusedBatch(reply.calls, input.allowed, c.s.seen, CallLimit(input), refusal)
    requires Listening(env, input, c, iteration + 1)
    ensures exit.None? ==> Underway(env, input, d, iteration + 1) && Tracked(env, input, d, iteration + 1)
    ensures exit.Some? ==> Finished(env, input, exit.value.result, exit.value.error, d.sent, d.s.invoked)
  {
    hide RequestsValid, RequestsFit, OnlyRequested, DistinctActions, Faithful, Offered, Mutates, NoneWaits,
         OffersMutation, Finished, OpensWith, CacheHoldsFirstAnswers, ReadsAreCached, RefusedBatch, Repairable,
         RequestsTell, RealAnswers, Tells, ToolCount, Listening, Tracked, Traced, Raises, RepairWasAsked, Explained;
    RepairsAreOnRecord(env, input, c, iteration + 1);
    if !c.repaired && iteration + 1 < input.maxIterations && Repairable(refusal, reply.calls, input.allowed) {
      PlainKeepsOpening(c.s.messages, CALL_REPAIR, input);
      RepairTells(env, input, c.s.messages, CALL_REPAIR, c.s.answers, |c.sent|);
      d := c.(s := c.s.(messages := c.s.messages + [UserMessage(CALL_REPAIR)]), repaired := true);
      RepairIsTracked(env, input, c, d, iteration + 1);
      return d, None;
    }
    var result := Outcome(c, Unfinished, iteration + 1);
    ListeningIsTraced(env, input, c, iteration + 1, result, Some(refusal));
    RefusalIsExplained(env, input, c, reply, result, refusal);
    Leave(env, input, c, iteration + 1, result, Some(refusal));
    return c, Some(Exit(result, Some(refusal)));
  }

  lemma RefusalIsExplained(env: Env, input: Input, c: Conversation, reply: ChatReply, result: Result,
      refusal: WorkerError)
    requires c.sent != [] && reply == env.chat(|c.sent| - 1) && reply.Response? && reply.calls != []
    requires forall k :: k in c.s.seen <==> k in c.s.invoked
    requires refusal in {InvalidCall, ToolNotAllowed, RepeatedMutation, DuplicateInBatch}
    requires RefusedBatch(reply.calls, input.allowed, c.s.seen, CallLimit(input), refusal)
    requires result.iterations == input.maxIterations || RepairWasAsked(env, c.sent, true)
      || !Repairable(refusal, reply.calls, input.allowed)
    ensures Explained(env, input, result, Some(refusal), c.sent, c.s.invoked)
  {
    hide RefusedBatch, RepairWasAsked, ReadOnly;
    assert c.s.seen == set k | k in c.s.invoked;
    assert LastAsked(env, c.sent, reply.calls);
    if !Repairable(refusal, reply.calls, input.allowed) {
      var i :| 0 <= i < |reply.calls| && !ReadOnly(input.allowed, reply.calls[i].name);
      assert reply.calls[i] in reply.calls;
    }
    assert RefusedForGood(env, input, result.iterations, refusal, c.sent, c.s.invoked, reply.calls);
  }

  lemma BatchKeepsAccount(env: Env, input: Input, c: Conversation, t: State, accepted: seq<Accepted>, turns: nat)
    requires Accounted(env, input, c, turns) && c.sent != []
    requires OnlyAdds(c.s.invoked, t.invoked, accepted) && c.s.answers <= t.answers
    requires RealAnswers(env, t.answers, t.invoked)
    requires t.maxOutput == c.s.maxOutput + Raises(env, |t.invoked|) - Raises(env, |c.s.invoked|)
    requires forall i :: 0 <= i < |accepted| ==> AskedIn(env, |c.sent| - 1, accepted[i].key)
    ensures Accounted(env, input, c.(s := t), turns)
  {
    hide RequestsValid, RequestsFit, OnlyRequested, AskedIn, RequestsTell, RealAnswers, Raises;
    RequestsStayTold(env, input, c.sent, c.s.answers, t.answers);
    BatchWasAsked(env, c.sent, c.s.invoked, t.invoked, accepted);
    RaisesGrow(env, |c.s.invoked|, |t.invoked|);
    RequestsStayFit(env, c.sent, input, |c.s.invoked|, |t.invoked|);
    assert turns * c.s.maxOutput <= turns * t.maxOutput;
  }

  lemma BudgetIsOverspent(env: Env, input: Input, c: Conversation)
    requires c.s.maxOutput == input.maxOutput + Raises(env, |c.s.invoked|)
    ensures CumulativeExceeded(c.s.maxOutput, c.output, input.maxIterations)
        <==> Overspent(env, input, c.output, |c.s.invoked|)
  {
  }

  /** The end of a batch that left everything definite. */
  method SettleBatch(env: Env, input: Input, iteration: nat, c: Conversation, start: nat)
    returns (exit: Option<Exit>)
    requires Underway(env, input, c, iteration + 1) && iteration < input.maxIterations
    requires c.sent != [] && env.chat(|c.sent| - 1).Response?
    requires var calls := env.chat(|c.sent| - 1).calls; calls != [] && |c.s.answers| - start == |calls|
    requires Traced(env, input, Outcome(c, Unfinished, iteration + 1), None, c.sent, c.s.invoked)
    ensures exit.None? && iteration + 1 == input.maxIterations ==> Unsettled(env, input, c)
    ensures exit.Some? ==> Finished(env, input, exit.value.result, exit.value.error, c.sent, c.s.invoked)
  {
    hide RequestsValid, RequestsFit, OnlyRequested, DistinctActions, Faithful, Offered, Mutates, NoneWaits,
         OffersMutation, Finished, OpensWith, CacheHoldsFirstAnswers, ReadsAreCached, RequestsTell,
         RealAnswers, Tells, ToolCount, Traced, Raises, Overspent, StableReads, RepairWasAsked;
    if input.maxOutput > 0 { NeverExceeded(c.output, iteration + 1, c.s.maxOutput, input.maxIterations); }
    var result := Outcome(c, Unfinished, iteration + 1);
    BudgetIsOverspent(env, input, c);
    TracedAlike(env, input, result, result, Some(CumulativeBudgetExceeded), c.sent, c.s.invoked);
    if CumulativeExceeded(c.s.maxOutput, c.output, input.maxIterations) {
      Leave(env, input, c, iteration + 1, result, Some(CumulativeBudgetExceeded));
      return Some(Exit(result, Some(CumulativeBudgetExceeded)));
    }
    if iteration + 1 == input.maxIterations {
      var finalizable := FinalizableReadBatch(c.s.answers, start, input.allowed);
      assert LastAsked(env, c.sent, env.chat(|c.sent| - 1).calls);
      if finalizable {
        if MustWrite(input) && !c.s.mutated {
          MissingWriteIsExplained(env, input, c, result);
          TracedAlike(env, input, result, result, Some(NoWriteProposal), c.sent, c.s.invoked);
          Leave(env, input, c, iteration + 1, result, Some(NoWriteProposal));
          return Some(Exit(result, Some(NoWriteProposal)));
        }
        TracedAlike(env, input, result, Outcome(c, Evidence, iteration + 1), None, c.sent, c.s.invoked);
        result := Outcome(c, Evidence, iteration + 1);
        Leave(env, input, c, iteration + 1, result, None);
        return Some(Exit(result, None));
      }
    }
    return None;
  }

  lemma AcceptedWereAsked(env: Env, n: nat, accepted: seq<Accepted>)
    requires env.chat(n).Response? && forall i :: 0 <= i < |accepted| ==>
        RequestedBy(accepted[i].key, env.chat(n).calls)
    ensures forall i :: 0 <= i < |accepted| ==> AskedIn(env, n, accepted[i].key)
  {
  }

  /** After a batch: what the run may be left with, and where it stands if it goes on. */
  lemma BatchIsTracked(env: Env, input: Input, c: Conversation, d: Conversation, turns: nat, stop: Stop)
    requires Listening(env, input, c, turns) && d.sent == c.sent && d.output == c.output && d == c.(s := d.s)
    requires |c.s.invoked| <= |d.s.invoked|
    requires AllReturn(env, |c.s.invoked|, if stop.Breaks? then |d.s.invoked| - 1 else |d.s.invoked|)
    requires stop.Breaks? ==> stop.error in {ToolBroke, StepTimedOut}
    requires stop.GoesOn? ==>
      var reply := env.chat(|c.sent| - 1);
      && Orderly(input, reply.calls) && |d.s.messages| == |c.s.messages| + 1 + |reply.calls|
      && c.s.messages + [AssistantMessage(reply.text, reply.calls)] <= d.s.messages
    ensures stop.Breaks? ==>
      Traced(env, input, Outcome(d, Unfinished, turns), Some(stop.error), c.sent, d.s.invoked)
    ensures stop.Waits? ==> Traced(env, input, Outcome(d, Waiting, turns), None, c.sent, d.s.invoked)
    ensures stop.GoesOn? ==> Traced(env, input, Outcome(d, Unfinished, turns), None, c.sent, d.s.invoked)
    ensures stop.GoesOn? && (turns == input.maxIterations ==> Unsettled(env, input, d)) ==>
      Tracked(env, input, d, turns)
  {
    hide Course, RepairsOnce, RepairsAt, Orderly, Unsettled, Spent, Replies, SameShapes;
    if stop.GoesOn? {
      ExchangeFollows(env, input, c.sent, c.s.messages, d.s.messages, turns, c.repaired, c.writeRepaired);
    }
  }

  lemma BreakIsExplained(env: Env, input: Input, result: Result, error: WorkerError, sent: seq<Request>,
      invoked: seq<Key>)
    requires BrokenBy(env, |invoked| - 1, error)
    ensures Explained(env, input, result, Some(error), sent, invoked) && error in {ToolBroke, StepTimedOut}
  {
  }

  lemma WaitIsExplained(env: Env, input: Input, result: Result, sent: seq<Request>, invoked: seq<Key>)
    requires result.ending.Waiting? && sent != [] && env.chat(|sent| - 1).Response? && env.chat(|sent| - 1).calls != []
    ensures Explained(env, input, result, None, sent, invoked)
  {
    assert LastAsked(env, sent, env.chat(|sent| - 1).calls);
  }

  /** A response with tool calls. */
  method HandleCalls(env: Env, input: Input, iteration: nat, c: Conversation, reply: ChatReply, limit: int)
    returns (d: Conversation, exit: Option<Exit>)
    requires Underway(env, input, c, iteration + 1) && iteration < input.maxIterations
    requires Heard(env, c, reply, limit) && reply.calls != [] && Listening(env, input, c, iteration + 1)
    ensures exit.None? ==> Underway(env, input, d, iteration + 1) && Tracked(env, input, d, iteration + 1)
    ensures exit.Some? ==> Finished(env, input, exit.value.result, exit.value.error, d.sent, d.s.invoked)
  {
    hide RequestsValid, RequestsFit, OnlyRequested, DistinctActions, Faithful, Offered, Mutates, NoneWaits,
         Finished, OpensWith, CacheHoldsFirstAnswers, CallsAcceptable, FromCache, Fresh, Accounted, RequestsTell,
         RealAnswers, Tells, ToolCount, Listening, Tracked, RefusedBatch, Orderly, IsCallOf, RequestedBy;
    var accepted, replays, refusal := ValidateToolCalls(reply.calls, input.allowed, c.s.seen, c.s.cached,
        CallLimit(input));
    if refusal.Some? {
      d, exit := HandleRefusal(env, input, iteration, c, reply, limit, refusal.value);
      return;
    }
    AcceptableIsOrderly(input, reply.calls, c.s.seen);
    AcceptedWereAsked(env, |c.sent| - 1, accepted);
    d, exit := CarryOut(env, input, iteration, c, reply, limit, accepted, replays);
  }

  /** Accepted calls: their batch, and what it means for the run. */
  method CarryOut(env: Env, input: Input, iteration: nat, c: Conversation, reply: ChatReply, limit: int,
      accepted: seq<Accepted>, replays: seq<Replay>)
    returns (d: Conversation, exit: Option<Exit>)
    requires Underway(env, input, c, iteration + 1) && iteration < input.maxIterations
    requires Heard(env, c, reply, limit) && Orderly(input, reply.calls) && Listening(env, input, c, iteration + 1)
    requires Fresh(accepted, c.s.seen) && FromCache(replays, c.s.cached, input.allowed)
    requires multiset(AcceptedIds(accepted)) + multiset(ReplayIds(replays)) == multiset(CallIds(reply.calls))
    requires forall i :: 0 <= i < |accepted| ==>
        Offered(input.allowed, accepted[i].key.tool) && AskedIn(env, |c.sent| - 1, accepted[i].key)
    requires forall i :: 0 <= i < |accepted| ==> IsCallOf(accepted[i].call, accepted[i].key, reply.calls)
    requires forall i :: 0 <= i < |replays| ==> IsCallOf(replays[i].call, replays[i].key, reply.calls)
    ensures exit.None? ==> Underway(env, input, d, iteration + 1) && Tracked(env, input, d, iteration + 1)
    ensures exit.Some? ==> Finished(env, input, exit.value.result, exit.value.error, d.sent, d.s.invoked)
  {
    OrderlyIsNotEmpty(input, reply.calls);
    hide RequestsValid, RequestsFit, OnlyRequested, Offered, NoneWaits, Consistent, Sound, Finished, OpensWith,
         FromCache, Fresh, OnlyAdds, EndsWaiting, AskedIn, RequestsTell, Tells, ToolCount, Listening, Tracked, Traced,
         Raises, AllReturn, BrokenBy, Unsettled, Orderly, Explained, AcceptedIds, ReplayIds, CallIds, IsCallOf,
         RealAnswers;
    var t, stop := RunBatch(env, reply.text, reply.calls, accepted, replays, input, c.s, |c.sent|);
    BatchKeepsAccount(env, input, c, t, accepted, iteration + 1);
    hide Accounted;
    d := c.(s := t);
    InvokedGrows(c.s.invoked, t.invoked, accepted);
    exit := LeaveBatch(env, input, iteration, c, d, stop);
  }

  /** What a batch means for the run. */
  method LeaveBatch(env: Env, input: Input, iteration: nat, c: Conversation, d: Conversation, stop: Stop)
    returns (exit: Option<Exit>)
    requires iteration < input.maxIterations && Listening(env, input, c, iteration + 1) && d == c.(s := d.s)
    requires c.sent != [] && env.chat(|c.sent| - 1).Response? && Orderly(input, env.chat(|c.sent| - 1).calls)
    requires Accounted(env, input, d, iteration + 1) && Sound(d.s, input.allowed) && |c.s.invoked| <= |d.s.invoked|
    requires stop.Breaks? ==> NoneWaits(d.s.answers) && BrokenBy(env, |d.s.invoked| - 1, stop.error)
    requires AllReturn(env, |c.s.invoked|, if stop.Breaks? then |d.s.invoked| - 1 else |d.s.invoked|)
    requires stop.Waits? ==> EndsWaiting(d.s.answers)
    requires stop.GoesOn? ==>
      var reply := env.chat(|c.sent| - 1);
      && Underway(env, input, d, iteration + 1)
      && |d.s.messages| == |c.s.messages| + 1 + |reply.calls| && |d.s.answers| == |c.s.answers| + |reply.calls|
      && c.s.messages + [AssistantMessage(reply.text, reply.calls)] <= d.s.messages
    ensures exit.None? ==> Underway(env, input, d, iteration + 1) && Tracked(env, input, d, iteration + 1)
    ensures exit.Some? ==> Finished(env, input, exit.value.result, exit.value.error, d.sent, d.s.invoked)
  {
    OrderlyIsNotEmpty(input, env.chat(|c.sent| - 1).calls);
    hide Accounted, NoneWaits, Sound, Finished, Underway, EndsWaiting, Listening, Tracked, Traced, AllReturn, BrokenBy,
         Unsettled, Orderly, Explained;
    if stop.Breaks? {
      BreakIsExplained(env, input, Outcome(d, Unfinished, iteration + 1), stop.error, d.sent, d.s.invoked);
    }
    BatchIsTracked(env, input, c, d, iteration + 1, stop);
    if stop.Breaks? {
      Leave(env, input, d, iteration + 1, Outcome(d, Unfinished, iteration + 1), Some(stop.error));
      return Some(Exit(Outcome(d, Unfinished, iteration + 1), Some(stop.error)));
    }
    if stop.Waits? {
      WaitIsExplained(env, input, Outcome(d, Waiting, iteration + 1), d.sent, d.s.invoked);
      Leave(env, input, d, iteration + 1, Outcome(d, Waiting, iteration + 1), None);
      return Some(Exit(Outcome(d, Waiting, iteration + 1), None));
    }
    exit := SettleBatch(env, input, iteration, d, |c.s.answers|);
  }

  lemma InvokedGrows(before: seq<Key>, now: seq<Key>, accepted: seq<Accepted>)
    requires OnlyAdds(before, now, accepted)
    ensures |before| <= |now|
  {
  }

  lemma ProviderErrorIsExplained(env: Env, input: Input, result: Result, reply: ChatReply, sent: seq<Request>,
      invoked: seq<Key>)
    requires sent != [] && reply == env.chat(|sent| - 1) && reply.ProviderError?
    requires reply.code.Overflow? ==> sent[|sent| - 1].attempt >= 1
    requires reply.code.Transient? ==> sent[|sent| - 1].attempt >= 2
    ensures Explained(env, input, result, Some(ErrorOf(reply.code)), sent, invoked)
  {
    hide OutOfRoom;
  }

  /** After a turn was sent. */
  lemma TurnIsTraced(env: Env, input: Input, c: Conversation, d: Conversation, requests: seq<Request>, turns: nat)
    requires Tracked(env, input, c, turns) && requests != []
    requires d.sent == c.sent + requests && d.output == c.output && d.s == c.s.(messages := d.s.messages)
    requires d.repaired == c.repaired && d.writeRepaired == c.writeRepaired
    requires AllDescend(c.s.messages, d.s.messages, env.digest)
    requires forall k :: 0 <= k < |requests| ==>
        AllDescend(c.s.messages, requests[k].messages, env.digest)
        && AllDescend(d.s.messages, requests[k].messages, env.digest)
        && requests[k] == Request(requests[k].messages, requests[0].maxOutput, turns, k)
    requires forall n :: |c.sent| <= n < |c.sent| + |requests| - 1 ==> RetriedAt(env, n)
    ensures env.chat(|d.sent| - 1).ProviderError? ==>
      Traced(env, input, Outcome(d, Unfinished, turns), None, d.sent, d.s.invoked)
    ensures env.chat(|d.sent| - 1).Response? ==>
      && Listening(env, input, d.(output := c.output + env.chat(|d.sent| - 1).outputTokens), turns + 1)
      && (env.expired(2 * turns + 1) ==>
        Traced(env, input, Outcome(d, Unfinished, turns), Some(StepTimedOut), d.sent, d.s.invoked))
  {
    hide Course, RepairsOnce, RepairsAt, AllDescend, Unsettled;
    TurnFollows(env, input, c.sent, Request(c.s.messages, 0, turns, 0), requests, c.repaired, c.writeRepaired);
    RetriesAreNoReplies(env, |c.sent|, |d.sent| - 1);
    var last := requests[|requests| - 1];
    assert d.sent[|d.sent| - 1] == last;
    DescentKeepsShapes(d.s.messages, last.messages, env.digest);
    ShapesChain(d.s.messages, last.messages, []);
  }

  /** One request of the conversation; on `None` a reply within its limit was heard. */
  method Ask(env: Env, input: Input, iteration: nat, c: Conversation)
    returns (d: Conversation, reply: ChatReply, limit: int, exit: Option<Exit>)
    requires Underway(env, input, c, iteration) && iteration < input.maxIterations
    requires Tracked(env, input, c, iteration)
    ensures exit.None? ==>
        Underway(env, input, d, iteration + 1) && Heard(env, d, reply, limit)
        && Listening(env, input, d, iteration + 1)
    ensures exit.Some? ==> Finished(env, input, exit.value.result, exit.value.error, d.sent, d.s.invoked)
  {
    hide RequestsValid, RequestsFit, OnlyRequested, DistinctActions, Faithful, Offered, Mutates, NoneWaits, Finished,
         OpensWith, CacheHoldsFirstAnswers, ReadsAreCached, SameShapes, RequestsTell, RealAnswers, Tells, ToolCount,
         Tracked, Listening, Traced, Raises, FitsWindow, NoRoom;
    var compacted, extra, maybe, answer, requests :=
      SendTurn(env, input, c.s.messages, c.s.maxOutput, iteration, |c.sent|);
    reply := answer;
    limit := if maybe.Some? then maybe.value else 0;
    RequestsGrow(env, c.sent, requests, c.s.messages, input, |c.s.invoked|);
    RequestsStayAsked(env, c.sent, requests, c.s.invoked);
    NewRequestsTell(env, input, c.s.messages, c.sent, requests, c.s.answers);
    CompactionTells(env, input, c.s.messages, compacted, c.s.answers, |c.sent|);
    MoreStaysTold(env, input, compacted, c.s.answers, c.s.answers, |c.sent|, |c.sent| + |requests|);
    DescentKeepsShapes(c.s.messages, compacted, env.digest);
    ShapeKeepsOpening(c.s.messages, compacted, input);
    d := c.(s := c.s.(messages := compacted), sent := c.sent + requests, recompilations := c.recompilations + extra);
    if input.maxOutput > 0 { OutputStaysBounded(c.output, iteration, c.s.maxOutput, c.s.maxOutput, 0, 0); }
    assert Accounted(env, input, d, iteration + 1);
    var result := Outcome(d, Unfinished, iteration);
    if maybe.None? {
      TrackedIsTraced(env, input, c, iteration, result, Some(ContextOverflow));
      assert d.sent == c.sent && OutOfRoom(env, input, result, d.sent);
      Leave(env, input, d, iteration + 1, result, Some(ContextOverflow));
      return d, reply, limit, Some(Exit(result, Some(ContextOverflow)));
    }
    TurnIsTraced(env, input, c, d, requests, iteration);
    d, exit := Judge(env, input, iteration, d, reply, limit);
  }

  /** What the reply to a turn means for the run. */
  method Judge(env: Env, input: Input, iteration: nat, c: Conversation, reply: ChatReply, limit: int)
    returns (d: Conversation, exit: Option<Exit>)
    requires Underway(env, input, c, iteration + 1) && iteration < input.maxIterations
    requires c.sent != [] && reply == env.chat(|c.sent| - 1) && c.sent[|c.sent| - 1].maxOutput == limit
    requires limit >= 1 && (input.maxOutput > 0 ==> c.output <= iteration * c.s.maxOutput && limit <= c.s.maxOutput)
    requires reply == ProviderError(Overflow) ==> c.sent[|c.sent| - 1].attempt >= 1
    requires reply == ProviderError(Transient) ==> c.sent[|c.sent| - 1].attempt >= 2
    requires reply.ProviderError? ==>
      Traced(env, input, Outcome(c, Unfinished, iteration), None, c.sent, c.s.invoked)
    requires reply.Response? ==>
      && Listening(env, input, c.(output := c.output + reply.outputTokens), iteration + 1)
      && (env.expired(2 * iteration + 1) ==>
        Traced(env, input, Outcome(c, Unfinished, iteration), Some(StepTimedOut), c.sent, c.s.invoked))
    ensures exit.None? ==>
      Underway(env, input, d, iteration + 1) && Heard(env, d, reply, limit) && Listening(env, input, d, iteration + 1)
    ensures exit.Some? ==> Finished(env, input, exit.value.result, exit.value.error, d.sent, d.s.invoked)
  {
    hide RequestsValid, RequestsFit, OnlyRequested, Sound, ReadsAreCached, CacheHoldsFirstAnswers, NoneWaits, Finished,
         OpensWith, RequestsTell, RealAnswers, Tells, ToolCount, Listening, Traced, Raises;
    d := c;
    var result := Outcome(c, Unfinished, iteration);
    if reply.ProviderError? {
      TracedAlike(env, input, result, result, Some(ErrorOf(reply.code)), c.sent, c.s.invoked);
      ProviderErrorIsExplained(env, input, result, reply, c.sent, c.s.invoked);
      Leave(env, input, c, iteration + 1, result, Some(ErrorOf(reply.code)));
      return c, Some(Exit(result, Some(ErrorOf(reply.code))));
    }
    if env.expired(2 * iteration + 1) {
      Leave(env, input, c, iteration + 1, result, Some(StepTimedOut));
      return c, Some(Exit(result, Some(StepTimedOut)));
    }
    if reply.outputTokens > 0 && reply.outputTokens > limit {
      result := Outcome(c, Unfinished, iteration + 1).(output := c.output + reply.outputTokens);
      ListeningIsTraced(env, input, c.(output := result.output), iteration + 1, result, Some(ResponseTooLong));
      Leave(env, input, c, iteration + 1, result, Some(ResponseTooLong));
      return c, Some(Exit(result, Some(ResponseTooLong)));
    }
    if input.maxOutput > 0 {
      OutputStaysBounded(c.output, iteration, c.s.maxOutput, c.s.maxOutput, reply.outputTokens, limit);
    }
    d := c.(output := c.output + reply.outputTokens);
    exit := None;
  }

  /** The run of one step. Requests are protocol-valid and fit the window, and each continues the one before it by the
      response to it; no action is carried out twice, repeated reads get their first answer, a write step ends well
      only after a write or a wait, and every other end has its reason. */
  method Run(env: Env, input: Input)
      returns (result: Result, error: Option<WorkerError>, sent: seq<Request>, invoked: seq<Key>)
    ensures RequestsValid(sent, input) && RequestsFit(env, sent, input, |invoked|)
    ensures |sent| <= if input.maxIterations > 0 then 4 * input.maxIterations else 0
    ensures Course(env, input, sent) && RepairsOnce(env, sent)
    ensures DistinctActions(invoked) && OnlyRequested(env, sent, invoked)
    ensures forall i :: 0 <= i < |invoked| ==> Offered(input.allowed, invoked[i].tool)
    ensures Faithful(result.answers)
    ensures error.None? <==> !result.ending.Unfinished?
    ensures EndsWell(input, result, invoked)
    ensures Explained(env, input, result, error, sent, invoked)
    ensures Counted(env, sent, result, error) && ReturnedUnless(env, error, invoked)
    ensures input.maxOutput > 0 ==> error != Some(CumulativeBudgetExceeded)
    ensures RequestsTell(env, input, sent, result.answers) && RealAnswers(env, result.answers, invoked)
  {
    hide RequestsValid, RequestsFit, OnlyRequested, DistinctActions, Faithful, Offered, EndsWell, Explained, Underway,
         Heard, Finished, RequestsTell, RealAnswers, Tells, ToolCount, Tracked, Listening, Course, RepairsOnce,
         Counted, ReturnedUnless;
    if input.maxIterations <= 0 {
      NothingRan(env, input);
      return Result(Unfinished, [], 0, 0, 0), Some(InvalidInput), [], [];
    }
    var s := State([SystemMessage(input.system), UserMessage(input.assignment)], {}, map[], false, [], [],
        input.maxOutput);
    var c := Conversation(s, [], 0, 0, false, false);
    StartIsUnderway(env, c, input);
    for iteration := 0 to input.maxIterations
      invariant Underway(env, input, c, iteration) && Tracked(env, input, c, iteration)
    {
      if env.expired(2 * iteration) {
        Stopped(env, input, c, iteration, StepTimedOut);
        result, error, sent, invoked := Outcome(c, Unfinished, iteration), Some(StepTimedOut), c.sent, c.s.invoked;
        FinishedPromises(env, input, result, error, sent, invoked);
        return;
      }
      var reply, limit, exit;
      c, reply, limit, exit := Ask(env, input, iteration, c);
      if exit.None? {
        HeardIsResponse(env, c, reply, limit);
        if |reply.calls| == 0 {
          c, exit := HandleText(env, input, iteration, c, reply, limit);
        } else {
          c, exit := HandleCalls(env, input, iteration, c, reply, limit);
        }
      }
      if exit.Some? {
        result, error, sent, invoked := exit.value.result, exit.value.error, c.sent, c.s.invoked;
        FinishedPromises(env, input, result, error, sent, invoked);
        return;
      }
    }
    Stopped(env, input, c, input.maxIterations, IterationsExhausted);
    result, error := Outcome(c, Unfinished, input.maxIterations), Some(IterationsExhausted);
    sent, invoked := c.sent, c.s.invoked;
    FinishedPromises(env, input, result, error, sent, invoked);
  }

  lemma HeardIsResponse(env: Env, c: Conversation, reply: ChatReply, limit: int)
    requires Heard(env, c, reply, limit)
    ensures reply.Response?
  {
  }

  lemma FinishedPromises(env: Env, input: Input, result: Result, error: Option<WorkerError>, sent: seq<Request>,
      invoked: seq<Key>)
    requires Finished(env, input, result, error, sent, invoked)
    ensures RequestsValid(sent, input) && RequestsFit(env, sent, input, |invoked|)
    ensures |sent| <= if input.maxIterations > 0 then 4 * input.maxIterations else 0
    ensures Course(env, input, sent) && RepairsOnce(env, sent)
    ensures DistinctActions(invoked) && OnlyRequested(env, sent, invoked)
    ensures forall i :: 0 <= i < |invoked| ==> Offered(input.allowed, invoked[i].tool)
    ensures Faithful(result.answers) && (error.None? <==> !result.ending.Unfinished?)
    ensures EndsWell(input, result, invoked) && Explained(env, input, result, error, sent, invoked)
    ensures Counted(env, sent, result, error) && ReturnedUnless(env, error, invoked)
    ensures input.maxOutput > 0 ==> error != Some(CumulativeBudgetExceeded)
    ensures RequestsTell(env, input, sent, result.answers) && RealAnswers(env, result.answers, invoked)
  {
    assert input.maxOutput > 0 ==> error != Some(CumulativeBudgetExceeded);
    hide RequestsValid, RequestsFit, OnlyRequested, DistinctActions, Faithful, Offered, EndsWell, Explained,
         RequestsTell, RealAnswers, Tells, ToolCount, Course, RepairsOnce, Counted, ReturnedUnless;
  }

  lemma StartIsUnderway(env: Env, c: Conversation, input: Input)
    requires input.maxIterations > 0
    requires c == Conversation(State([SystemMessage(input.system), UserMessage(input.assignment)], {}, map[], false,
        [], [], input.maxOutput), [], 0, 0, false, false)
    ensures Underway(env, input, c, 0) && Tracked(env, input, c, 0)
  {
    hide Tells, OnCourse, OpensWith;
    OpeningIsValid(input);
    OpeningTells(env, input);
    StartIsConsistent(env, c.s, input);
    CourseStarts(env, input, c.s.messages);
    assert [] + [Request(c.s.messages, 0, 0, 0)] == [Request(c.s.messages, 0, 0, 0)];
  }

  lemma NothingRan(env: Env, input: Input)
    requires input.maxIterations <= 0
    ensures RequestsValid([], input) && RequestsFit(env, [], input, 0) && DistinctActions([])
        && OnlyRequested(env, [], []) && Faithful([])
    ensures RequestsTell(env, input, [], []) && RealAnswers(env, [], [])
    ensures var result := Result(Unfinished, [], 0, 0, 0);
      && EndsWell(input, result, []) && Explained(env, input, result, Some(InvalidInput), [], [])
      && Course(env, input, []) && RepairsOnce(env, []) && Counted(env, [], result, Some(InvalidInput))
      && ReturnedUnless(env, Some(InvalidInput), [])
  {
  }

  lemma Stopped(env: Env, input: Input, c: Conversation, turns: nat, error: WorkerError)
    requires Underway(env, input, c, turns) && Tracked(env, input, c, turns) && turns <= input.maxIterations
    requires (error == StepTimedOut && env.expired(2 * turns))
      || (error == IterationsExhausted && 0 < turns == input.maxIterations)
    ensures Finished(env, input, Outcome(c, Unfinished, turns), Some(error), c.sent, c.s.invoked)
  {
    hide RequestsValid, RequestsFit, OnlyRequested, DistinctActions, Faithful, Offered, Finished, Accounted, NoneWaits,
         RequestsTell, RealAnswers, Tells, ToolCount, OnCourse, StableReads, Overspent, Traced;
    TrackedIsTraced(env, input, c, turns, Outcome(c, Unfinished, turns), Some(error));
    Leave(env, input, c, turns, Outcome(c, Unfinished, turns), Some(error));
  }
}
