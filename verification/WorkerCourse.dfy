/** The course of a worker run (internal/worker/worker.go, Run): how each request follows from the one before it and
    the reply to it, and what the replies and invocations of a run add up to. */
module WorkerCourse {
  import opened Segment
  import opened Transcript
  import opened WorkerModel
  import opened WorkerTelling

  // Sums over replies and invocations.

  /** The responses among the first n replies. */
  function Replies(env: Env, n: nat): nat {
    if n == 0 then 0 else Replies(env, n - 1) + if env.chat(n - 1).Response? then 1 else 0
  }

  /** The output tokens of the first n replies. */
  function Spent(env: Env, n: nat): int {
    if n == 0 then 0 else Spent(env, n - 1) + if env.chat(n - 1).Response? then env.chat(n - 1).outputTokens else 0
  }

  /** What the first n invocations added to the output budget. */
  function Raises(env: Env, n: nat): nat {
    if n == 0 then 0 else Raises(env, n - 1) + if env.invoke(n - 1).Returned? then env.invoke(n - 1).raise else 0
  }

  predicate Returns(env: Env, n: nat) {
    env.invoke(n).Returned?
  }

  ghost predicate AllReturn(env: Env, from: nat, to: int) {
    forall n: nat :: from <= n < to ==> Returns(env, n)
  }

  lemma {:induction false} RaisesGrow(env: Env, m: nat, n: nat)
    requires m <= n
    ensures Raises(env, m) <= Raises(env, n)
  {
    if m < n { RaisesGrow(env, m, n - 1); }
  }

  lemma {:induction false} RetriesAreNoReplies(env: Env, from: nat, to: nat)
    requires from <= to && forall n :: from <= n < to ==> RetriedAt(env, n)
    ensures Replies(env, to) == Replies(env, from) && Spent(env, to) == Spent(env, from)
  {
    if from < to {
      assert RetriedAt(env, to - 1);
      RetriesAreNoReplies(env, from, to - 1);
    }
  }

  // One request after another.

  /** Calls that may be carried out together: not too many, with ids of their own, offered tools and well-formed
      arguments. */
  ghost predicate Orderly(input: Input, calls: seq<ToolCall>) {
    && 0 < |calls| <= (if input.callLimit > 0 then input.callLimit else 8)
    && (forall i :: 0 <= i < |calls| ==>
         calls[i].arguments.Some? && exists d :: d in input.allowed && d.name == calls[i].name)
    && (forall i, j :: 0 <= i < j < |calls| ==> calls[i].id != calls[j].id)
  }

  lemma FittingCall(calls: seq<ToolCall>, k: nat, allowed: seq<ToolDef>, seen: set<Key>)
    requires k < |calls| && CallFits(calls, k, allowed, seen)
    ensures calls[k].arguments.Some? && exists d :: d in allowed && d.name == calls[k].name
    ensures forall i :: 0 <= i < k ==> calls[i].id != calls[k].id
  {
    hide Offered, ReadOnly, KeyOfCall;
    OfferedIsMember(allowed, calls[k].name);
  }

  lemma AcceptableIsOrderly(input: Input, calls: seq<ToolCall>, seen: set<Key>)
    requires calls != [] && CallsAcceptable(calls, input.allowed, seen, CallLimit(input))
    ensures Orderly(input, calls)
  {
    hide CallFits;
    forall k | 0 <= k < |calls|
      ensures calls[k].arguments.Some? && exists d :: d in input.allowed && d.name == calls[k].name
      ensures forall i :: 0 <= i < k ==> calls[i].id != calls[k].id
    {
      FittingCall(calls, k, input.allowed, seen);
    }
  }

  /** Everything said before, and then the response to it with its answers, or an instruction to repair it. */
  ghost predicate Extends(env: Env, input: Input, n: nat, a: seq<Message>, b: seq<Message>) {
    && env.chat(n).Response? && |a| < |b| && SameShapes(a, b[..|a|])
    && match b[|a|]
       case AssistantMessage(text, calls) =>
         && calls == env.chat(n).calls && Descends(text, env.chat(n).text, env.digest)
         && Orderly(input, calls) && |b| == |a| + 1 + |calls|
       case UserMessage(text) =>
         && |b| == |a| + 1
         && Descends(text, if env.chat(n).calls == [] then WRITE_REPAIR else CALL_REPAIR, env.digest)
       case _ => false
  }

  /** A retry says the same; anything else is the next turn. */
  ghost predicate Follows(env: Env, input: Input, n: nat, p: Request, q: Request) {
    if RetriedAt(env, n) then
      && SameShapes(p.messages, q.messages) && q.maxOutput == p.maxOutput
      && q.turn == p.turn && q.attempt == p.attempt + 1
    else
      && Extends(env, input, n, p.messages, q.messages) && q.turn == p.turn + 1 && q.attempt == 0
  }

  ghost predicate FollowsAt(env: Env, input: Input, sent: seq<Request>, k: int) {
    0 < k < |sent| && Follows(env, input, k - 1, sent[k - 1], sent[k])
  }

  ghost predicate Course(env: Env, input: Input, sent: seq<Request>) {
    && (sent != [] ==> |sent[0].messages| == 2 && sent[0].turn == 0 && sent[0].attempt == 0)
    && forall k :: 0 < k < |sent| ==> FollowsAt(env, input, sent, k)
  }

  /** The request asks to repair the reply before it: an answer without the write, or refused calls. */
  ghost predicate Repairs(env: Env, n: nat, p: Request, q: Request, ofCalls: bool) {
    && env.chat(n).Response? && (env.chat(n).calls != [] <==> ofCalls)
    && |q.messages| == |p.messages| + 1 && q.messages[|p.messages|].UserMessage?
  }

  ghost predicate RepairsAt(env: Env, sent: seq<Request>, k: int, ofCalls: bool) {
    0 < k < |sent| && Repairs(env, k - 1, sent[k - 1], sent[k], ofCalls)
  }

  /** Each kind of repair is asked for once at most. */
  ghost predicate RepairsOnce(env: Env, sent: seq<Request>) {
    forall ofCalls, j, k :: j < k && RepairsAt(env, sent, j, ofCalls) ==> !RepairsAt(env, sent, k, ofCalls)
  }

  ghost predicate OnCourse(env: Env, input: Input, sent: seq<Request>, repaired: bool, writeRepaired: bool) {
    && Course(env, input, sent) && RepairsOnce(env, sent)
    && (repaired <==> exists k :: RepairsAt(env, sent, k, true))
    && (writeRepaired <==> exists k :: RepairsAt(env, sent, k, false))
  }

  // What keeps it.

  lemma ShapesChain(a: seq<Message>, b: seq<Message>, c: seq<Message>)
    requires SameShapes(a, b)
    ensures SameShapes(b, a) && (SameShapes(b, c) ==> SameShapes(a, c))
  {
    forall i | 0 <= i < |a| ensures SameShape(b[i], a[i]) { assert SameShape(a[i], b[i]); }
    if SameShapes(b, c) {
      forall i | 0 <= i < |a| ensures SameShape(a[i], c[i]) { assert SameShape(a[i], b[i]) && SameShape(b[i], c[i]); }
    }
  }

  lemma CompactionExtends(env: Env, input: Input, n: nat, a: seq<Message>, b: seq<Message>, c: seq<Message>)
    requires Extends(env, input, n, a, b) && AllDescend(b, c, env.digest)
    ensures Extends(env, input, n, a, c)
  {
    hide Descends, Orderly;
    var k := |a|;
    DescentKeepsShapes(b, c, env.digest);
    assert SameShapes(b[..k], c[..k]) by {
      forall i | 0 <= i < k ensures SameShape(b[..k][i], c[..k][i]) { assert SameShape(b[i], c[i]); }
    }
    ShapesChain(a, b[..k], c[..k]);
    assert MessageDescends(b[k], c[k], env.digest);
    if b[k].AssistantMessage? {
      DescentChains(env.chat(n).text, b[k].content, c[k].content, env.digest);
    } else {
      var text := if env.chat(n).calls == [] then WRITE_REPAIR else CALL_REPAIR;
      DescentChains(text, b[k].content, c[k].content, env.digest);
    }
  }

  lemma CompactionFollows(env: Env, input: Input, n: nat, p: Request, q: Request, r: Request)
    requires !RetriedAt(env, n) && Follows(env, input, n, p, q) && AllDescend(q.messages, r.messages, env.digest)
    requires r.turn == q.turn && r.attempt == q.attempt
    ensures Follows(env, input, n, p, r)
    ensures forall ofCalls :: Repairs(env, n, p, q, ofCalls) <==> Repairs(env, n, p, r, ofCalls)
  {
    hide Extends, AllDescend;
    CompactionExtends(env, input, n, p.messages, q.messages, r.messages);
    DescentKeepsShapes(q.messages, r.messages, env.digest);
    ShapesChain(q.messages, r.messages, []);
    if |q.messages| == |p.messages| + 1 {
      assert SameShape(q.messages[|p.messages|], r.messages[|p.messages|]);
    }
  }

  lemma FollowersMatch(env: Env, input: Input, sent: seq<Request>, q: Request)
    ensures forall k :: 0 <= k < |sent| ==>
        (FollowsAt(env, input, sent + [q], k) <==> FollowsAt(env, input, sent, k))
    ensures forall k, ofCalls :: k < |sent| ==>
        (RepairsAt(env, sent + [q], k, ofCalls) <==> RepairsAt(env, sent, k, ofCalls))
  {
    hide Follows, Repairs;
  }

  lemma NewestFollows(env: Env, input: Input, sent: seq<Request>, q: Request)
    requires sent != []
    ensures FollowsAt(env, input, sent + [q], |sent|) <==> Follows(env, input, |sent| - 1, sent[|sent| - 1], q)
    ensures forall ofCalls ::
        RepairsAt(env, sent + [q], |sent|, ofCalls) <==> Repairs(env, |sent| - 1, sent[|sent| - 1], q, ofCalls)
  {
    hide Follows, Repairs;
  }

  /** One more request keeps the course if it follows and does not ask twice for the same repair. */
  lemma CourseGrows(env: Env, input: Input, sent: seq<Request>, q: Request, r: bool, w: bool)
    requires sent != [] && OnCourse(env, input, sent, r, w)
    requires Follows(env, input, |sent| - 1, sent[|sent| - 1], q)
    requires r ==> !Repairs(env, |sent| - 1, sent[|sent| - 1], q, true)
    requires w ==> !Repairs(env, |sent| - 1, sent[|sent| - 1], q, false)
    ensures OnCourse(env, input, sent + [q], r || Repairs(env, |sent| - 1, sent[|sent| - 1], q, true),
        w || Repairs(env, |sent| - 1, sent[|sent| - 1], q, false))
  {
    hide Follows, Repairs, FollowsAt, RepairsAt;
    var longer := sent + [q];
    NewestFollows(env, input, sent, q);
    FollowersMatch(env, input, sent, q);
    RepairsAreInside(env, sent);
    RepairsAreInside(env, longer);
    RepairsOfLonger(env, input, sent, q, true);
    RepairsOfLonger(env, input, sent, q, false);
  }

  lemma RepairsOfLonger(env: Env, input: Input, sent: seq<Request>, q: Request, ofCalls: bool)
    requires sent != []
    ensures (exists k :: RepairsAt(env, sent + [q], k, ofCalls))
        <==> (exists k :: RepairsAt(env, sent, k, ofCalls)) || Repairs(env, |sent| - 1, sent[|sent| - 1], q, ofCalls)
  {
    hide Repairs, RepairsAt;
    RepairsAreInside(env, sent);
    RepairsAreInside(env, sent + [q]);
    FollowersMatch(env, input, sent, q);
    NewestFollows(env, input, sent, q);
    if k :| RepairsAt(env, sent, k, ofCalls) { assert RepairsAt(env, sent + [q], k, ofCalls); }
    if Repairs(env, |sent| - 1, sent[|sent| - 1], q, ofCalls) {
      assert RepairsAt(env, sent + [q], |sent|, ofCalls);
    }
  }

  lemma RepairsAreInside(env: Env, sent: seq<Request>)
    ensures forall k, ofCalls :: RepairsAt(env, sent, k, ofCalls) ==> 0 < k < |sent|
  {
  }

  /** The course is one up to any request. */
  lemma CourseOfPrefix(env: Env, input: Input, sent: seq<Request>, q: Request)
    requires Course(env, input, sent + [q]) && RepairsOnce(env, sent + [q])
    ensures Course(env, input, sent) && RepairsOnce(env, sent)
  {
    hide Follows, Repairs, FollowsAt, RepairsAt;
    FollowersMatch(env, input, sent, q);
    RepairsAreInside(env, sent);
    assert sent != [] ==> (sent + [q])[0] == sent[0];
  }

  lemma CompactedCourse(env: Env, input: Input, sent: seq<Request>, q: Request, c: Request, r: bool, w: bool)
    requires OnCourse(env, input, sent + [q], r, w) && AllDescend(q.messages, c.messages, env.digest)
    requires c.turn == q.turn && c.attempt == q.attempt == 0
    ensures OnCourse(env, input, sent + [c], r, w)
  {
    hide Follows, Repairs, FollowsAt, RepairsAt, AllDescend;
    DescentKeepsShapes(q.messages, c.messages, env.digest);
    if sent != [] {
      NewestFollows(env, input, sent, q);
      NewestFollows(env, input, sent, c);
      assert FollowsAt(env, input, sent + [q], |sent|);
      NextTurnIsNoRetry(env, input, |sent| - 1, sent[|sent| - 1], q);
      CompactionFollows(env, input, |sent| - 1, sent[|sent| - 1], q, c);
    }
    FollowersMatch(env, input, sent, q);
    FollowersMatch(env, input, sent, c);
    RepairsAreInside(env, sent + [q]);
    RepairsAreInside(env, sent + [c]);
    forall k, ofCalls ensures RepairsAt(env, sent + [c], k, ofCalls) <==> RepairsAt(env, sent + [q], k, ofCalls) {
    }
    assert sent != [] ==> (sent + [q])[0] == sent[0] == (sent + [c])[0];
  }

  lemma NextTurnIsNoRetry(env: Env, input: Input, n: nat, p: Request, q: Request)
    requires Follows(env, input, n, p, q) && q.attempt == 0
    ensures !RetriedAt(env, n)
  {
  }

  /** The requests of one turn. */
  lemma {:induction false} TurnFollows(
    env: Env, input: Input, sent: seq<Request>, next: Request, more: seq<Request>, r: bool, w: bool)
    requires OnCourse(env, input, sent + [next], r, w) && more != [] && next.attempt == 0
    requires forall k :: 0 <= k < |more| ==>
        AllDescend(next.messages, more[k].messages, env.digest)
        && more[k] == Request(more[k].messages, more[0].maxOutput, next.turn, k)
    requires forall k :: |sent| <= k < |sent| + |more| - 1 ==> RetriedAt(env, k)
    ensures OnCourse(env, input, sent + more, r, w)
  {
    hide OnCourse, AllDescend, Retryable;
    if |more| == 1 {
      CompactedCourse(env, input, sent, next, more[0], r, w);
      assert more == [more[0]];
    } else {
      var n := |more| - 1;
      TurnFollows(env, input, sent, next, more[..n], r, w);
      DescentKeepsShapes(next.messages, more[n - 1].messages, env.digest);
      DescentKeepsShapes(next.messages, more[n].messages, env.digest);
      ShapesChain(next.messages, more[n - 1].messages, more[n].messages);
      ShapesChain(more[n - 1].messages, next.messages, more[n].messages);
      var before := sent + more[..n];
      assert before[|before| - 1] == more[n - 1] && RetriedAt(env, |before| - 1);
      RetryIsNoRepair(env, |before| - 1, more[n - 1], more[n]);
      CourseGrows(env, input, before, more[n], r, w);
      assert before + [more[n]] == sent + more;
    }
  }

  lemma RetryIsNoRepair(env: Env, n: nat, p: Request, q: Request)
    requires RetriedAt(env, n)
    ensures forall ofCalls :: !Repairs(env, n, p, q, ofCalls)
  {
  }

  lemma ResponseIsNoRetry(env: Env, n: nat)
    requires env.chat(n).Response?
    ensures !RetriedAt(env, n)
  {
  }

  /** After an exchange. */
  lemma ExchangeFollows(
    env: Env, input: Input, sent: seq<Request>, messages: seq<Message>, longer: seq<Message>, turn: nat, r: bool,
    w: bool)
    requires sent != [] && OnCourse(env, input, sent, r, w) && env.chat(|sent| - 1).Response?
    requires SameShapes(sent[|sent| - 1].messages, messages) && sent[|sent| - 1].turn + 1 == turn
    requires Orderly(input, env.chat(|sent| - 1).calls)
    requires messages + [AssistantMessage(env.chat(|sent| - 1).text, env.chat(|sent| - 1).calls)] <= longer
    requires |longer| == |messages| + 1 + |env.chat(|sent| - 1).calls|
    ensures OnCourse(env, input, sent + [Request(longer, 0, turn, 0)], r, w)
  {
    hide OnCourse, Orderly, Descends;
    var n, q := |sent| - 1, Request(longer, 0, turn, 0);
    UntouchedDescends(env.chat(n).text, env.digest);
    assert longer[..|messages|] == messages;
    assert longer[|messages|] == AssistantMessage(env.chat(n).text, env.chat(n).calls);
    ResponseIsNoRetry(env, n);
    assert env.chat(n).calls != [] by { OrderlyIsNotEmpty(input, env.chat(n).calls); }
    CourseGrows(env, input, sent, q, r, w);
  }

  lemma OrderlyIsNotEmpty(input: Input, calls: seq<ToolCall>)
    requires Orderly(input, calls)
    ensures calls != []
  {
  }

  /** After a response that has to be repaired. */
  lemma RepairFollows(
    env: Env, input: Input, sent: seq<Request>, messages: seq<Message>, turn: nat, r: bool, w: bool)
    requires sent != [] && OnCourse(env, input, sent, r, w) && env.chat(|sent| - 1).Response?
    requires SameShapes(sent[|sent| - 1].messages, messages) && sent[|sent| - 1].turn + 1 == turn
    requires if env.chat(|sent| - 1).calls == [] then !w else !r
    ensures var calls := env.chat(|sent| - 1).calls;
      var text := if calls == [] then WRITE_REPAIR else CALL_REPAIR;
      OnCourse(env, input, sent + [Request(messages + [UserMessage(text)], 0, turn, 0)], r || calls != [],
          w || calls == [])
  {
    hide OnCourse, Descends;
    var n := |sent| - 1;
    var text := if env.chat(n).calls == [] then WRITE_REPAIR else CALL_REPAIR;
    var q := Request(messages + [UserMessage(text)], 0, turn, 0);
    UntouchedDescends(text, env.digest);
    assert q.messages[..|messages|] == messages && q.messages[|messages|] == UserMessage(text);
    ResponseIsNoRetry(env, n);
    CourseGrows(env, input, sent, q, r, w);
  }

  lemma CourseStarts(env: Env, input: Input, messages: seq<Message>)
    requires |messages| == 2
    ensures OnCourse(env, input, [Request(messages, 0, 0, 0)], false, false)
  {
    hide Follows, Repairs;
  }
}
