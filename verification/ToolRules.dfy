/** How tool loops end. */
module ToolRules {
  import opened Options
  import opened ToolLoops

  // Said of the provider's responses one by one.

  /** The calls that the first n responses ask for. */
  ghost function Requested(env: Env, n: nat): seq<Call> {
    if n == 0 then []
    else Requested(env, n - 1) + if env.respond(n - 1).Complete? then env.respond(n - 1).response.calls else []
  }

  /** A call that is handled within, or whose tool is unknown, or whose tool answers. */
  predicate Answerable(env: Env, at: nat, c: Call) {
    env.intercept(at, c).Some? || !env.routed(c.name) || env.callTool(at, c).Some?
  }

  predicate WantsTools(resp: Response) {
    resp.finishReason == "tool_calls" && |resp.calls| > 0
  }

  /** The i-th response asks for tools, the limits allow its round, and all its calls can be answered. */
  ghost predicate RoundRuns(env: Env, maxIterations: int, maxCalls: int, i: nat) {
    && env.respond(i).Complete? && WantsTools(env.respond(i).response)
    && i < maxIterations && |Requested(env, i)| + |env.respond(i).response.calls| <= maxCalls
    && forall j :: 0 <= j < |env.respond(i).response.calls| ==>
         Answerable(env, |Requested(env, i)| + j, env.respond(i).response.calls[j])
  }

  /**
   * A loop runs round after round, n of them, while each response asks for tools within the limits; what the next turn at
   * the provider brings decides its ending. It has made exactly the calls requested in these rounds.
   */
  ghost predicate EndsAfter(env: Env, maxIterations: int, maxCalls: int, n: nat, e: Ending) {
    var made := |Requested(env, n)|;
    && (forall i :: 0 <= i < n ==> RoundRuns(env, maxIterations, maxCalls, i))
    && match env.respond(n)
       case Cancelled => e == Ending(n, made, "cancelled", n)
       case Failed => e == Error(n + 1)
       case Complete(resp) =>
         if resp.finishReason != "tool_calls" || resp.calls == [] then e == Ending(n, made, resp.finishReason, n + 1)
         else if n >= maxIterations || made + |resp.calls| > maxCalls then e == Ending(n, made, "limit_reached", n + 1)
         else e == Error(n + 1) && exists j :: 0 <= j < |resp.calls| && !Answerable(env, made + j, resp.calls[j])
  }

  /** Every loop ends like that. */
  lemma LoopEnds(env: Env, maxIterations: int, maxCalls: int) returns (n: nat)
    ensures EndsAfter(env, maxIterations, maxCalls, n, EndingFrom(env, maxIterations, maxCalls, 0, 0))
    ensures CallsFrom(env, maxIterations, maxCalls, 0, 0) == Requested(env, n)
  {
    n := LoopEndsFrom(env, maxIterations, maxCalls, 0);
    assert Requested(env, 0) + CallsFrom(env, maxIterations, maxCalls, 0, 0) == CallsFrom(env, maxIterations, maxCalls, 0, 0);
  }

  lemma {:induction false} LoopEndsFrom(env: Env, maxIterations: int, maxCalls: int, k: nat) returns (n: nat)
    requires forall i :: 0 <= i < k ==> RoundRuns(env, maxIterations, maxCalls, i)
    ensures EndsAfter(env, maxIterations, maxCalls, n, EndingFrom(env, maxIterations, maxCalls, k, |Requested(env, k)|))
    ensures Requested(env, k) + CallsFrom(env, maxIterations, maxCalls, k, |Requested(env, k)|) == Requested(env, n)
    decreases if maxIterations > k then maxIterations - k else 0
  {
    hide EndingFrom, CallsFrom, Requested;
    var made := |Requested(env, k)|;
    OneTurn(env, maxIterations, maxCalls, k, made);
    n := k;
    assert Requested(env, k) + [] == Requested(env, k);
    if env.respond(k).Complete? {
      var resp := env.respond(k).response;
      BreaksMeans(env, resp.calls, made);
      if WantsTools(resp) && k < maxIterations && made + |resp.calls| <= maxCalls && !Breaks(env, resp.calls, made) {
        OneMoreRequest(env, k);
        n := LoopEndsFrom(env, maxIterations, maxCalls, k + 1);
        var rest := CallsFrom(env, maxIterations, maxCalls, k + 1, made + |resp.calls|);
        assert Requested(env, k) + resp.calls + rest == Requested(env, k) + (resp.calls + rest);
      }
    }
  }

  lemma OneMoreRequest(env: Env, k: nat)
    requires env.respond(k).Complete?
    ensures Requested(env, k + 1) == Requested(env, k) + env.respond(k).response.calls
  {
  }

  lemma BreaksMeans(env: Env, calls: seq<Call>, total: nat)
    ensures Breaks(env, calls, total) <==> exists j :: 0 <= j < |calls| && !Answerable(env, total + j, calls[j])
  {
    if j :| 0 <= j < |calls| && !Answerable(env, total + j, calls[j]) {
      assert CallBreaks(env, total + j, calls[j]);
    }
    if Breaks(env, calls, total) {
      var i :| 0 <= i < |calls| && CallBreaks(env, total + i, calls[i]);
      assert !Answerable(env, total + i, calls[i]);
    }
  }

  /** Of the attempts at one response the first that succeeds counts, if it is among the first and the retries allowed. */
  lemma {:induction false} AttemptsSettle(service: Service, retries: int, k: nat, a: nat) returns (b: nat)
    requires a == 0 || a <= retries
    ensures a <= b && (b == 0 || b <= retries) && forall c :: a <= c < b ==> service.attempt(k, c).None?
    ensures Settled(service, retries, k, a) ==
            match service.attempt(k, b) case Some(resp) => Complete(resp) case None => Failed
    ensures service.attempt(k, b).None? ==> b >= retries
    decreases if retries > a then retries - a else 0
  {
    b := a;
    if service.attempt(k, a).None? && a < retries {
      b := AttemptsSettle(service, retries, k, a + 1);
    }
  }
}
