/** The LLM tool loop, in process and as a chain of tasks. */
module ToolLoops {
  import opened Options

  // Both are proved against one account of how a loop ends and against one description of its conversation.

  datatype Call = Call(id: string, name: string, arguments: string)

  datatype Response = Response(finishReason: string, content: string, calls: seq<Call>)

  datatype Message =
    | Prior(text: string)
    | Assistant(content: string, calls: seq<Call>)
    | Tool(callID: string, content: string, isError: bool)

  datatype Entry = Entry(name: string, arguments: string, result: string, isError: bool)

  datatype Reply = Reply(content: string, isError: bool)

  /** What the loop gets when it turns to the provider: a response, an error, or word that its context is done. */
  datatype Answer = Complete(response: Response) | Failed | Cancelled

  /**
   * The outside world: the provider at its k-th turn, built-in tools, routed tools. Tools are told apart by how many calls
   * came before. A routed call is None when its headers do not resolve or there is no client for it.
   */
  datatype Env = Env(
    respond: nat -> Answer,
    intercept: (nat, Call) -> Option<string>,
    routed: string -> bool,
    callTool: (nat, Call) -> Option<Reply>)

  /** A result, or an error without one. */
  datatype Ending =
    | Ending(iterations: nat, totalCalls: nat, finishReason: string, providerCalls: nat)
    | Error(providerCalls: nat)

  predicate CallBreaks(env: Env, at: nat, tc: Call) {
    env.intercept(at, tc).None? && env.routed(tc.name) && env.callTool(at, tc).None?
  }

  /** One of these calls ends the loop with an error. */
  predicate Breaks(env: Env, calls: seq<Call>, total: nat) {
    exists i :: 0 <= i < |calls| && CallBreaks(env, total + i, calls[i])
  }

  predicate AsksForTools(resp: Response) {
    resp.finishReason == "tool_calls" && resp.calls != []
  }

  /** How a loop ends from iteration k with `total` calls made; the limits are as configured, of any sign. */
  function EndingFrom(env: Env, maxIterations: int, maxCalls: int, k: nat, total: nat): Ending
    decreases if maxIterations > k then maxIterations - k else 0
  {
    match env.respond(k)
    case Cancelled => Ending(k, total, "cancelled", k)
    case Failed => Error(k + 1)
    case Complete(resp) =>
      if !AsksForTools(resp) then Ending(k, total, resp.finishReason, k + 1)
      else if k >= maxIterations || total + |resp.calls| > maxCalls then Ending(k, total, "limit_reached", k + 1)
      else if Breaks(env, resp.calls, total) then Error(k + 1)
      else EndingFrom(env, maxIterations, maxCalls, k + 1, total + |resp.calls|)
  }

  /** The calls of the rounds that are completed, in order. */
  function CallsFrom(env: Env, maxIterations: int, maxCalls: int, k: nat, total: nat): seq<Call>
    decreases if maxIterations > k then maxIterations - k else 0
  {
    match env.respond(k)
    case Complete(resp) =>
      if !AsksForTools(resp) || k >= maxIterations || total + |resp.calls| > maxCalls || Breaks(env, resp.calls, total) then []
      else resp.calls + CallsFrom(env, maxIterations, maxCalls, k + 1, total + |resp.calls|)
    case _ => []
  }

  /** The history records these calls. */
  predicate Records(history: seq<Entry>, calls: seq<Call>) {
    |history| == |calls| &&
    forall i :: 0 <= i < |calls| ==> history[i].name == calls[i].name && history[i].arguments == calls[i].arguments
  }

  ghost function CallIDs(calls: seq<Call>): multiset<string> {
    if calls == [] then multiset{} else CallIDs(calls[..|calls| - 1]) + multiset{calls[|calls| - 1].id}
  }

  ghost function AnsweredIDs(ms: seq<Message>): multiset<string> {
    if ms == [] then multiset{}
    else AnsweredIDs(ms[..|ms| - 1]) + if ms[|ms| - 1].Tool? then multiset{ms[|ms| - 1].callID} else multiset{}
  }

  /** Tool messages only, answering exactly the requested calls, each as often as it was requested. */
  ghost predicate Answers(calls: seq<Call>, replies: seq<Message>) {
    (forall m :: m in replies ==> m.Tool?) && AnsweredIDs(replies) == CallIDs(calls)
  }

  /** The conversation of k rounds: each an assistant message followed by the answers to its calls. */
  ghost predicate Conversation(env: Env, k: nat, ms: seq<Message>) {
    if k == 0 then ms == [] else exists before :: Round(env, k, ms, before) && Conversation(env, k - 1, before)
  }

  /** ms is `before` followed by round k, which answers a response that asks for tools. */
  ghost predicate Round(env: Env, k: nat, ms: seq<Message>, before: seq<Message>)
    requires k > 0
  {
    && env.respond(k - 1).Complete?
    && var resp := env.respond(k - 1).response;
       && resp.finishReason == "tool_calls" && resp.calls != []
       && exists replies :: ms == before + [Assistant(resp.content, resp.calls)] + replies && Answers(resp.calls, replies)
  }

  lemma CallIDsMore(calls: seq<Call>, c: Call)
    ensures CallIDs(calls + [c]) == CallIDs(calls) + multiset{c.id}
  {
    assert (calls + [c])[..|calls|] == calls;
  }

  /** Rounds after a prior conversation do not depend on it. */
  lemma RoundAfter(env: Env, k: nat, prior: seq<Message>, ms: seq<Message>, before: seq<Message>)
    requires k > 0 && prior <= before && Round(env, k, ms, before)
    ensures prior <= ms && Round(env, k, ms[|prior|..], before[|prior|..])
  {
    var resp := env.respond(k - 1).response;
    var replies :| ms == before + [Assistant(resp.content, resp.calls)] + replies && Answers(resp.calls, replies);
    assert ms[|prior|..] == before[|prior|..] + [Assistant(resp.content, resp.calls)] + replies;
  }

  lemma AnswerMore(calls: seq<Call>, replies: seq<Message>, c: Call, m: Message)
    requires Answers(calls, replies) && m.Tool? && m.callID == c.id
    ensures Answers(calls + [c], replies + [m])
  {
    assert (calls + [c])[..|calls|] == calls && (replies + [m])[..|replies|] == replies;
  }

  lemma {:induction false} CallIDsConcat(a: seq<Call>, b: seq<Call>)
    ensures CallIDs(a + b) == CallIDs(a) + CallIDs(b)
  {
    if b == [] {
      assert a + b == a;
    } else {
      assert (a + b)[..|a + b| - 1] == a + b[..|b| - 1];
      CallIDsConcat(a, b[..|b| - 1]);
    }
  }

  /** With distinct call IDs, every requested call gets exactly one tool message, and nothing else is answered. */
  lemma {:induction false} DistinctCallsAnsweredOnce(calls: seq<Call>, replies: seq<Message>)
    requires Answers(calls, replies)
    requires forall i, j :: 0 <= i < j < |calls| ==> calls[i].id != calls[j].id
    ensures forall c :: c in calls ==> AnsweredIDs(replies)[c.id] == 1
    ensures forall id :: id in AnsweredIDs(replies) ==> exists c :: c in calls && c.id == id
  {
    DistinctIDs(calls);
  }

  lemma {:induction false} DistinctIDs(calls: seq<Call>)
    requires forall i, j :: 0 <= i < j < |calls| ==> calls[i].id != calls[j].id
    ensures forall c :: c in calls ==> CallIDs(calls)[c.id] == 1
    ensures forall id :: id in CallIDs(calls) ==> exists c :: c in calls && c.id == id
  {
    if calls != [] {
      var prefix, last := calls[..|calls| - 1], calls[|calls| - 1];
      assert calls == prefix + [last];
      DistinctIDs(prefix);
      assert forall i :: 0 <= i < |prefix| ==> prefix[i] == calls[i];
      assert last.id !in CallIDs(prefix);
    }
  }

  // ---------- In process ----------

  datatype Outcome = Outcome(ending: Ending, messages: seq<Message>, history: seq<Entry>, providerCalls: nat)

  /** This message and this entry are what the call gets: interceptor first, then routing, then the tool itself. */
  predicate Replied(env: Env, at: nat, tc: Call, m: Message, entry: Entry) {
    && m.Tool? && m.callID == tc.id && entry.name == tc.name && entry.arguments == tc.arguments
    && m.content == entry.result && m.isError == entry.isError
    && if env.intercept(at, tc).Some? then !entry.isError && entry.result == env.intercept(at, tc).value
       else if env.routed(tc.name) then
         env.callTool(at, tc).Some? && env.callTool(at, tc).value == Reply(entry.result, entry.isError)
       else entry.isError
  }

  /** One requested call; None is an error that ends the loop. */
  method RunCall(env: Env, at: nat, tc: Call) returns (answered: Option<(Message, Entry)>)
    ensures answered.None? <==> CallBreaks(env, at, tc)
    ensures answered.Some? ==> Replied(env, at, tc, answered.value.0, answered.value.1)
  {
    var handled := env.intercept(at, tc);
    if handled.Some? {
      return Some((Tool(tc.id, handled.value, false), Entry(tc.name, tc.arguments, handled.value, false)));
    }
    if !env.routed(tc.name) {
      var errMsg := "Error: tool " + tc.name + " is not available.";
      return Some((Tool(tc.id, errMsg, true), Entry(tc.name, tc.arguments, errMsg, true)));
    }
    var reply := env.callTool(at, tc);
    if reply.None? {
      return None;
    }
    return Some((Tool(tc.id, reply.value.content, reply.value.isError),
                 Entry(tc.name, tc.arguments, reply.value.content, reply.value.isError)));
  }

  /** The calls of one response, each answered by a tool message; false is an error that ends the loop. */
  method RunCalls(env: Env, calls: seq<Call>, messages: seq<Message>, history: seq<Entry>, total: nat)
    returns (ok: bool, messages': seq<Message>, history': seq<Entry>, total': nat)
    ensures ok <==> !Breaks(env, calls, total)
    ensures ok ==> messages <= messages' && history <= history' && total' == total + |calls|
    ensures ok ==> AllReplied(env, calls, total, messages'[|messages|..], history'[|history|..])
  {
    hide Replied, CallBreaks;
    ok, messages', history', total' := true, messages, history, total;
    ghost var replies, entries := [], [];
    for i := 0 to |calls|
      invariant messages' == messages + replies && history' == history + entries && total' == total + i
      invariant AllReplied(env, calls[..i], total, replies, entries)
      invariant forall j :: 0 <= j < i ==> !CallBreaks(env, total + j, calls[j])
    {
      var answered := RunCall(env, total', calls[i]);
      if answered.None? {
        return false, messages', history', total';
      }
      var (m, entry) := answered.value;
      history' := history' + [entry];
      total' := total' + 1;
      messages' := messages' + [m];
      replies, entries := replies + [m], entries + [entry];
    }
    assert calls[..|calls|] == calls;
  }

  /** One message and one entry for each call, in order. */
  ghost predicate AllReplied(env: Env, calls: seq<Call>, total: nat, replies: seq<Message>, entries: seq<Entry>) {
    && |replies| == |entries| == |calls|
    && forall i :: 0 <= i < |calls| ==> Replied(env, total + i, calls[i], replies[i], entries[i])
  }

  lemma {:induction false} RepliedAnswers(env: Env, calls: seq<Call>, total: nat, replies: seq<Message>, entries: seq<Entry>)
    requires AllReplied(env, calls, total, replies, entries)
    ensures Answers(calls, replies) && Records(entries, calls)
  {
    if calls != [] {
      var last := |calls| - 1;
      RepliedAnswers(env, calls[..last], total, replies[..last], entries[..last]);
      assert Replied(env, total + last, calls[last], replies[last], entries[last]);
      AnswerMore(calls[..last], replies[..last], calls[last], replies[last]);
      assert calls == calls[..last] + [calls[last]] && replies == replies[..last] + [replies[last]];
    }
  }

  method RunToolLoop(env: Env, maxIterations: int, maxCalls: int, prior: seq<Message>) returns (out: Outcome)
    ensures out.ending == EndingFrom(env, maxIterations, maxCalls, 0, 0) && out.providerCalls == out.ending.providerCalls
    ensures out.ending.Ending? ==>
              && Records(out.history, CallsFrom(env, maxIterations, maxCalls, 0, 0)) && |out.history| == out.ending.totalCalls
              && prior <= out.messages && Conversation(env, out.ending.iterations, out.messages[|prior|..])
    ensures out.ending.Error? ==> out.messages == prior && out.history == []
  {
    hide Answers, Round, Records, Breaks, AllReplied, EndingFrom, CallsFrom, Conversation;
    ghost var made: seq<Call> := [];
    var messages, history := prior, [];
    var totalToolCalls: nat, iteration: nat, providerCalls := 0, 0, 0;
    assert messages[|prior|..] == [];
    NothingRecorded();
    NothingSaid(env);
    while true
      invariant EndingFrom(env, maxIterations, maxCalls, 0, 0) == EndingFrom(env, maxIterations, maxCalls, iteration, totalToolCalls)
      invariant |made| == totalToolCalls && providerCalls == iteration && Records(history, made)
      invariant CallsFrom(env, maxIterations, maxCalls, 0, 0) ==
                made + CallsFrom(env, maxIterations, maxCalls, iteration, totalToolCalls)
      invariant prior <= messages && Conversation(env, iteration, messages[|prior|..])
      decreases if maxIterations > iteration then maxIterations - iteration else 0
    {
      RecordsCount(history, made);
      OneTurn(env, maxIterations, maxCalls, iteration, totalToolCalls);
      assert made + [] == made;
      var answer := env.respond(iteration);
      if answer.Cancelled? {
        return Outcome(Ending(iteration, totalToolCalls, "cancelled", iteration), messages, history, providerCalls);
      }
      providerCalls := providerCalls + 1;
      if answer.Failed? {
        return Outcome(Error(iteration + 1), prior, [], providerCalls);
      }
      var resp := answer.response;
      if resp.finishReason != "tool_calls" || resp.calls == [] {
        return Outcome(Ending(iteration, totalToolCalls, resp.finishReason, iteration + 1), messages, history, providerCalls);
      }
      if iteration >= maxIterations || totalToolCalls + |resp.calls| > maxCalls {
        return Outcome(Ending(iteration, totalToolCalls, "limit_reached", iteration + 1), messages, history, providerCalls);
      }
      ghost var before, history0, total0 := messages, history, totalToolCalls;
      messages := messages + [Assistant(resp.content, resp.calls)];
      ghost var asked := messages;
      var ok;
      ok, messages, history, totalToolCalls := RunCalls(env, resp.calls, messages, history, totalToolCalls);
      if !ok {
        return Outcome(Error(iteration + 1), prior, [], providerCalls);
      }
      iteration := iteration + 1;
      RepliedAnswers(env, resp.calls, total0, messages[|asked|..], history[|history0|..]);
      RecordsMore(history0, history, made, resp.calls);
      made := made + resp.calls;
      RoundDone(env, iteration, messages, before, messages[|asked|..]);
      OneMoreRound(env, iteration, prior, messages, before);
    }
  }

  /** The two accounts of a loop, one turn at a time. */
  lemma OneTurn(env: Env, maxIterations: int, maxCalls: int, k: nat, total: nat)
    ensures var (e, calls) := (EndingFrom(env, maxIterations, maxCalls, k, total), CallsFrom(env, maxIterations, maxCalls, k, total));
            && (env.respond(k).Cancelled? ==> e == Ending(k, total, "cancelled", k) && calls == [])
            && (env.respond(k).Failed? ==> e == Error(k + 1) && calls == [])
            && (env.respond(k).Complete? ==>
                  var resp := env.respond(k).response;
                  if !AsksForTools(resp) then e == Ending(k, total, resp.finishReason, k + 1) && calls == []
                  else if k >= maxIterations || total + |resp.calls| > maxCalls then e == Ending(k, total, "limit_reached", k + 1) && calls == []
                  else if Breaks(env, resp.calls, total) then e == Error(k + 1) && calls == []
                  else && e == EndingFrom(env, maxIterations, maxCalls, k + 1, total + |resp.calls|)
                       && calls == resp.calls + CallsFrom(env, maxIterations, maxCalls, k + 1, total + |resp.calls|))
  {
    hide Breaks;
  }

  lemma NothingSaid(env: Env)
    ensures Conversation(env, 0, [])
  {
  }

  lemma OneMoreRound(env: Env, k: nat, prior: seq<Message>, ms: seq<Message>, before: seq<Message>)
    requires k > 0 && prior <= before && Round(env, k, ms, before) && Conversation(env, k - 1, before[|prior|..])
    ensures prior <= ms && Conversation(env, k, ms[|prior|..])
  {
    hide Round;
    RoundAfter(env, k, prior, ms, before);
  }

  lemma NothingRecorded()
    ensures Records([], [])
  {
  }

  lemma RecordsCount(history: seq<Entry>, calls: seq<Call>)
    requires Records(history, calls)
    ensures |history| == |calls|
  {
  }

  lemma RecordsMore(history: seq<Entry>, history': seq<Entry>, made: seq<Call>, calls: seq<Call>)
    requires history <= history' && Records(history, made) && Records(history'[|history|..], calls)
    ensures Records(history', made + calls)
  {
    forall i | 0 <= i < |made + calls|
      ensures history'[i].name == (made + calls)[i].name && history'[i].arguments == (made + calls)[i].arguments
    {
      if i >= |made| {
        assert history'[i] == history'[|history|..][i - |made|];
      }
    }
  }

  lemma NothingAsked()
    ensures Answers([], [])
  {
  }

  lemma RoundDone(env: Env, k: nat, ms: seq<Message>, before: seq<Message>, replies: seq<Message>)
    requires k > 0 && env.respond(k - 1).Complete? && Answers(env.respond(k - 1).response.calls, replies)
    requires env.respond(k - 1).response.finishReason == "tool_calls" && env.respond(k - 1).response.calls != []
    requires ms == before + [Assistant(env.respond(k - 1).response.content, env.respond(k - 1).response.calls)] + replies
    ensures Round(env, k, ms, before)
  {
  }

  // ---------- As a chain of tasks ----------

  /** The workers' outside world: each attempt of each iteration at the provider may fail; tools always answer. */
  datatype Service = Service(
    attempt: (nat, nat) -> Option<Response>,
    routed: string -> bool,
    callTool: Call -> Reply)

  /** The first attempt from `a` on that does not fail, with at most `retries` retries in all. */
  function Settled(service: Service, retries: int, k: nat, a: nat): Answer
    decreases if retries > a then retries - a else 0
  {
    match service.attempt(k, a)
    case Some(resp) => Complete(resp)
    case None => if a < retries then Settled(service, retries, k, a + 1) else Failed
  }

  /** The chain's world as a tool loop sees it: no interceptor, and a provider that fails when its last attempt does. */
  function AsEnv(service: Service, retries: int): Env {
    Env((k: nat) => Settled(service, retries, k, 0), (at: nat, tc: Call) => None, service.routed,
        (at: nat, tc: Call) => Some(service.callTool(tc)))
  }

  lemma NothingBreaks(service: Service, retries: int, calls: seq<Call>, total: nat)
    ensures !Breaks(AsEnv(service, retries), calls, total)
  {
    assert forall at: nat, tc :: !CallBreaks(AsEnv(service, retries), at, tc);
  }

  /** The payload an LLM task carries on to its successor. */
  class LLMTask {
    const service: Service
    const retries: int
    const maxIterations: int
    const maxCalls: int
    var messages: seq<Message>
    var history: seq<Entry>
    var iteration: nat
    var totalToolCalls: nat
    var attempt: nat

    constructor (service: Service, retries: int, maxIterations: int, maxCalls: int, prior: seq<Message>)
      ensures this.service == service && this.retries == retries
      ensures this.maxIterations == maxIterations && this.maxCalls == maxCalls
      ensures messages == prior && history == [] && iteration == 0 && totalToolCalls == 0 && attempt == 0
    {
      this.service, this.retries, this.maxIterations, this.maxCalls := service, retries, maxIterations, maxCalls;
      messages, history, iteration, totalToolCalls, attempt := prior, [], 0, 0, 0;
    }

    ghost function Expected(): Ending
      reads this
    {
      EndingFrom(AsEnv(service, retries), maxIterations, maxCalls, iteration, totalToolCalls)
    }

    /** The attempts before this one failed. */
    ghost predicate Trying()
      reads this
    {
      Settled(service, retries, iteration, 0) == Settled(service, retries, iteration, attempt)
    }

    /** An entry names a requested call; it has the arguments only of a call to an unknown tool. */
    ghost predicate LoggedFor(toolCalls: seq<Call>, e: Entry) {
      exists tc :: tc in toolCalls && tc.name == e.name &&
        if service.routed(tc.name) then e.arguments == "" else e.arguments == tc.arguments && e.isError
    }

    /** Unknown tools are answered at once; the others are dispatched and their results popped in any order. */
    method DispatchAndCollect(toolCalls: seq<Call>)
      modifies this`messages, this`history
      ensures old(messages) <= messages && Answers(toolCalls, messages[|old(messages)|..])
      ensures |history| == |old(history)| + |toolCalls| && old(history) <= history
      ensures forall e :: e in history[|old(history)|..] ==> LoggedFor(toolCalls, e)
    {
      hide Answers, CallIDs, AnsweredIDs;
      NothingAsked();
      ghost var asked := messages;
      ghost var replies, answered := [], [];
      CallIDsNone();
      assert toolCalls[..0] == [];
      var dispatched: seq<Call> := [];
      ghost var logged: seq<Entry> := [];
      for i := 0 to |toolCalls|
        invariant history == old(history) + logged && forall e :: e in logged ==> LoggedFor(toolCalls, e)
        invariant forall tc :: tc in dispatched ==> tc in toolCalls && service.routed(tc.name)
        invariant messages == asked + replies && Answers(answered, replies)
        invariant CallIDs(answered) + CallIDs(dispatched) == CallIDs(toolCalls[..i])
        invariant |history| == |old(history)| + i - |dispatched| && |dispatched| <= i
      {
        var tc := toolCalls[i];
        assert toolCalls[..i + 1] == toolCalls[..i] + [tc];
        CallIDsMore(toolCalls[..i], tc);
        if !service.routed(tc.name) {
          var errMsg := "Error: tool " + tc.name + " is not available";
          messages := messages + [Tool(tc.id, errMsg, true)];
          history := history + [Entry(tc.name, tc.arguments, errMsg, true)];
          logged := logged + [Entry(tc.name, tc.arguments, errMsg, true)];
          AnswerMore(answered, replies, tc, Tool(tc.id, errMsg, true));
          CallIDsMore(answered, tc);
          replies, answered := replies + [Tool(tc.id, errMsg, true)], answered + [tc];
          continue;
        }
        CallIDsMore(dispatched, tc);
        dispatched := dispatched + [tc];
      }
      assert toolCalls[..|toolCalls|] == toolCalls;
      var outstanding := dispatched;
      for i := 0 to |dispatched|
        invariant |outstanding| == |dispatched| - i
        invariant history == old(history) + logged && forall e :: e in logged ==> LoggedFor(toolCalls, e)
        invariant forall tc :: tc in outstanding ==> tc in toolCalls && service.routed(tc.name)
        invariant messages == asked + replies && Answers(answered, replies)
        invariant CallIDs(answered) + CallIDs(outstanding) == CallIDs(toolCalls)
        invariant |history| == |old(history)| + |toolCalls| - |outstanding|
      {
        var k: nat :| k < |outstanding|;  // whichever tool finished next
        var tc := outstanding[k];
        var reply := service.callTool(tc);
        messages := messages + [Tool(tc.id, reply.content, reply.isError)];
        history := history + [Entry(tc.name, "", reply.content, reply.isError)];
        logged := logged + [Entry(tc.name, "", reply.content, reply.isError)];
        AnswerMore(answered, replies, tc, Tool(tc.id, reply.content, reply.isError));
        TakeOut(outstanding, k);
        CallIDsMore(answered, tc);
        replies, answered := replies + [Tool(tc.id, reply.content, reply.isError)], answered + [tc];
        outstanding := outstanding[..k] + outstanding[k + 1..];
      }
      assert outstanding == [] && messages[|asked|..] == replies;
      AnsweredAll(toolCalls, answered, replies);
    }

    /** One task: None means it enqueued a retry or its successor, which this object now describes. */
    method ProcessTask() returns (result: Option<Ending>)
      requires Trying()
      modifies this
      ensures result.Some? ==> unchanged(this) && result.value == Expected()
      ensures result.Some? && result.value.Ending? ==>
                result.value.iterations == iteration && result.value.totalCalls == totalToolCalls
      ensures result.None? ==> Expected() == old(Expected()) && Trying()
      ensures result.None? ==>
                || (attempt == old(attempt) + 1 && old(attempt) < retries && unchanged(this`iteration, this`messages)
                    && unchanged(this`history, this`totalToolCalls))
                || (iteration == old(iteration) + 1 && old(iteration) < maxIterations
                    && |history| - |old(history)| == totalToolCalls - old(totalToolCalls)
                    && Round(AsEnv(service, retries), iteration, messages, old(messages)))
    {
      hide Answers, Round, Breaks;
      var answer := service.attempt(iteration, attempt);
      if answer.None? {
        if attempt < retries {
          attempt := attempt + 1;
          return None;
        }
        return Some(Error(iteration + 1));
      }
      var resp := answer.value;
      if resp.finishReason != "tool_calls" || resp.calls == [] {
        return Some(Ending(iteration, totalToolCalls, resp.finishReason, iteration + 1));
      }
      if iteration >= maxIterations || totalToolCalls + |resp.calls| > maxCalls {
        return Some(Ending(iteration, totalToolCalls, "limit_reached", iteration + 1));
      }
      ghost var before := messages;
      messages := messages + [Assistant(resp.content, resp.calls)];
      ghost var asked := messages;
      DispatchAndCollect(resp.calls);
      NothingBreaks(service, retries, resp.calls, totalToolCalls);
      assert messages == asked + messages[|asked|..];
      iteration := iteration + 1;
      attempt := 0;
      RoundDone(AsEnv(service, retries), iteration, messages, before, messages[|asked|..]);
      totalToolCalls := totalToolCalls + |resp.calls|;
      return None;
    }
  }

  lemma CallIDsNone()
    ensures CallIDs([]) == multiset{}
  {
  }

  lemma AnsweredAll(calls: seq<Call>, answered: seq<Call>, replies: seq<Message>)
    requires Answers(answered, replies) && CallIDs(answered) + CallIDs([]) == CallIDs(calls)
    ensures Answers(calls, replies)
  {
  }

  lemma TakeOut(calls: seq<Call>, k: nat)
    requires k < |calls|
    ensures CallIDs(calls) == CallIDs(calls[..k] + calls[k + 1..]) + multiset{calls[k].id}
  {
    hide CallIDs;
    var a, b := calls[..k], calls[k + 1..];
    assert calls == (a + [calls[k]]) + b;
    CallIDsConcat(a + [calls[k]], b);
    CallIDsMore(a, calls[k]);
    CallIDsConcat(a, b);
  }

  /** The whole chain, from the first task to the one that pushes a result. */
  method RunChain(service: Service, retries: int, maxIterations: int, maxCalls: int, prior: seq<Message>) returns (out: Outcome)
    ensures out.ending == EndingFrom(AsEnv(service, retries), maxIterations, maxCalls, 0, 0)
    ensures out.ending.Ending? ==>
              && |out.history| == out.ending.totalCalls
              && prior <= out.messages && Conversation(AsEnv(service, retries), out.ending.iterations, out.messages[|prior|..])
  {
    hide Round, EndingFrom, Settled, AsEnv, Conversation;
    NothingSaid(AsEnv(service, retries));
    var t := new LLMTask(service, retries, maxIterations, maxCalls, prior);
    assert t.messages[|prior|..] == [];
    while true
      invariant fresh(t) && t.service == service && t.retries == retries && t.maxIterations == maxIterations && t.maxCalls == maxCalls
      invariant t.Trying() && t.Expected() == EndingFrom(AsEnv(service, retries), maxIterations, maxCalls, 0, 0)
      invariant |t.history| == t.totalToolCalls
      invariant prior <= t.messages && Conversation(AsEnv(service, retries), t.iteration, t.messages[|prior|..])
      decreases if maxIterations > t.iteration then maxIterations - t.iteration else 0,
                if retries > t.attempt then retries - t.attempt else 0
    {
      ghost var before, k := t.messages, t.iteration;
      var result := t.ProcessTask();
      if result.Some? {
        return Outcome(result.value, t.messages, t.history, t.iteration + 1);
      }
      if t.iteration > k {
        OneMoreRound(AsEnv(service, retries), t.iteration, prior, t.messages, before);
      }
    }
  }

  // ---------- Bounds ----------

  /**
   * A loop never exceeds its limits. Unless the provider itself says so, it reports a limit only when a further round would
   * have exceeded one.
   */
  lemma {:induction false} EndingBounds(env: Env, maxIterations: int, maxCalls: int, k: nat, total: nat)
    requires k <= maxIterations && total <= maxCalls
    ensures var e := EndingFrom(env, maxIterations, maxCalls, k, total);
            && k <= e.providerCalls <= maxIterations + 1
            && (e.Ending? ==>
                  && k <= e.iterations <= maxIterations && total <= e.totalCalls <= maxCalls
                  && e.iterations <= e.providerCalls <= e.iterations + 1
                  && (e.finishReason == "limit_reached" ==> StoppedForLimit(env, maxIterations, maxCalls, e)))
    decreases maxIterations - k
  {
    hide Breaks;
    if env.respond(k).Complete? {
      var resp := env.respond(k).response;
      if AsksForTools(resp) && k < maxIterations && total + |resp.calls| <= maxCalls && !Breaks(env, resp.calls, total) {
        EndingBounds(env, maxIterations, maxCalls, k + 1, total + |resp.calls|);
      }
    }
  }

  predicate StoppedForLimit(env: Env, maxIterations: int, maxCalls: int, e: Ending)
    requires e.Ending?
  {
    && env.respond(e.iterations).Complete?
    && var resp := env.respond(e.iterations).response;
       if AsksForTools(resp) then e.iterations == maxIterations || e.totalCalls + |resp.calls| > maxCalls
       else resp.finishReason == "limit_reached"
  }
}
