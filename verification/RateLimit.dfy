/** The token bucket in front of a provider. */
module RateLimit {
  // Times are seconds and tokens are real numbers. A call holds the lock while it sleeps, so calls follow one another;
  // what the clock shows is the environment's choice.

  /** One call: when it got the lock, when its sleep ended, and whether the context ended the sleep. */
  datatype Arrival = Arrival(now: real, finish: real, cancelled: bool)

  /** The bucket, the moment up to which calls have been served, and how many were admitted. */
  datatype Bucket = Bucket(tokens: real, lastRefill: real, clock: real, admitted: nat)

  datatype Limit = Limit(maxTokens: real, refillRate: real)

  predicate Sound(l: Limit) {
    l.maxTokens >= 1.0 && l.refillRate > 0.0
  }

  /** What d seconds are worth. */
  function Earned(l: Limit, d: real): real {
    d * l.refillRate
  }

  lemma EarnedAdds(l: Limit, a: real, b: real)
    requires Sound(l)
    ensures Earned(l, a + b) == Earned(l, a) + Earned(l, b)
    ensures a >= 0.0 ==> Earned(l, a) >= 0.0
    ensures b >= 0.0 ==> Earned(l, b) >= 0.0
  {
  }

  lemma NothingEarned(l: Limit)
    ensures Earned(l, 0.0) == 0.0
  {
  }

  function Refilled(l: Limit, b: Bucket, now: real): real {
    var t := b.tokens + Earned(l, now - b.lastRefill);
    if t > l.maxTokens then l.maxTokens else t
  }

  /** Time does not run backwards, and an uncancelled sleep lasts as long as it was asked to. */
  predicate Possible(l: Limit, b: Bucket, a: Arrival)
    requires Sound(l)
  {
    var t := Refilled(l, b, a.now);
    b.clock <= a.now <= a.finish && (t < 1.0 && !a.cancelled ==> a.finish >= a.now + (1.0 - t) / l.refillRate)
  }

  function Served(l: Limit, b: Bucket, a: Arrival): Bucket {
    var t := Refilled(l, b, a.now);
    if t >= 1.0 then Bucket(t - 1.0, a.now, a.now, b.admitted + 1)
    else Bucket(0.0, a.now, a.finish, b.admitted + if a.cancelled then 0 else 1)
  }

  function Full(l: Limit, start: real): Bucket {
    Bucket(l.maxTokens, start, start, 0)
  }

  class TokenBucketLimiter {
    const limit: Limit
    var tokens: real
    var lastRefill: real

    constructor (requestsPerMinute: int, now: real)
      ensures limit.maxTokens == (if requestsPerMinute <= 0 then 1000 else requestsPerMinute) as real
      ensures limit.refillRate == limit.maxTokens / 60.0
      ensures Sound(limit) && Holds(Full(limit, now))
    {
      var n := if requestsPerMinute <= 0 then 1000 else requestsPerMinute;
      limit := Limit(n as real, n as real / 60.0);
      tokens, lastRefill := n as real, now;
    }

    ghost predicate Holds(b: Bucket)
      reads this
    {
      tokens == b.tokens && lastRefill == b.lastRefill
    }

    method Wait(ghost b: Bucket, a: Arrival) returns (ok: bool, waitTime: real)
      requires Sound(limit) && Holds(b) && Possible(limit, b, a)
      modifies this
      ensures var b' := Served(limit, b, a);
              Holds(b') && b'.admitted == b.admitted + if ok then 1 else 0
      ensures waitTime == if Refilled(limit, b, a.now) >= 1.0 then 0.0 else (1.0 - Refilled(limit, b, a.now)) / limit.refillRate
    {
      var elapsed := a.now - lastRefill;
      tokens := tokens + Earned(limit, elapsed);
      if tokens > limit.maxTokens {
        tokens := limit.maxTokens;
      }
      lastRefill := a.now;
      if tokens >= 1.0 {
        tokens := tokens - 1.0;
        return true, 0.0;
      }
      waitTime := (1.0 - tokens) / limit.refillRate;
      tokens := 0.0;
      ok := !a.cancelled;
    }
  }

  // ---------- Whole runs ----------

  function Run(l: Limit, b: Bucket, arrivals: seq<Arrival>): Bucket
    decreases |arrivals|
  {
    if arrivals == [] then b else Run(l, Served(l, b, arrivals[0]), arrivals[1..])
  }

  predicate PossibleRun(l: Limit, b: Bucket, arrivals: seq<Arrival>)
    requires Sound(l)
    decreases |arrivals|
  {
    arrivals == [] || (Possible(l, b, arrivals[0]) && PossibleRun(l, Served(l, b, arrivals[0]), arrivals[1..]))
  }

  /** Tokens stay in the bucket's range, and the last refill never lies ahead of the clock. */
  predicate InRange(l: Limit, b: Bucket) {
    0.0 <= b.tokens <= l.maxTokens && b.lastRefill <= b.clock
  }

  /**
   * What has been admitted, what is left, and what the time since the last refill is still worth: the time slept
   * by an admitted call is credited once to that call and once more at the next refill.
   */
  function Credit(l: Limit, b: Bucket): real {
    b.admitted as real + b.tokens + Earned(l, b.clock - b.lastRefill)
  }

  lemma ServedKeeps(l: Limit, b: Bucket, a: Arrival)
    requires Sound(l) && InRange(l, b) && Possible(l, b, a)
    ensures var b' := Served(l, b, a);
            InRange(l, b') && b'.clock >= b.clock && Credit(l, b') <= Credit(l, b) + 2.0 * Earned(l, b'.clock - b.clock)
  {
    hide Earned;
    var t, b' := Refilled(l, b, a.now), Served(l, b, a);
    EarnedAdds(l, b.clock - b.lastRefill, a.now - b.clock);
    assert (b.clock - b.lastRefill) + (a.now - b.clock) == a.now - b.lastRefill;
    EarnedAdds(l, a.now - b.clock, a.finish - a.now);
    assert (a.now - b.clock) + (a.finish - a.now) == a.finish - b.clock;
    EarnedAdds(l, 0.0, 0.0);
    if t < 1.0 && !a.cancelled {
      SleepEarns(l, 1.0 - t, a.finish - a.now);
    }
  }

  lemma SleepEarns(l: Limit, missing: real, slept: real)
    requires Sound(l) && slept >= missing / l.refillRate
    ensures Earned(l, slept) >= missing
  {
    assert Earned(l, missing / l.refillRate) == missing;
    EarnedAdds(l, missing / l.refillRate, slept - missing / l.refillRate);
  }

  lemma {:induction false} RunKeeps(l: Limit, b: Bucket, arrivals: seq<Arrival>)
    requires Sound(l) && InRange(l, b) && PossibleRun(l, b, arrivals)
    ensures var b' := Run(l, b, arrivals);
            InRange(l, b') && b'.clock >= b.clock && Credit(l, b') <= Credit(l, b) + 2.0 * Earned(l, b'.clock - b.clock)
    decreases |arrivals|
  {
    hide Earned, Served, Possible;
    if arrivals != [] {
      var b1 := Served(l, b, arrivals[0]);
      ServedKeeps(l, b, arrivals[0]);
      RunKeeps(l, b1, arrivals[1..]);
      var b' := Run(l, b1, arrivals[1..]);
      EarnedAdds(l, b'.clock - b1.clock, b1.clock - b.clock);
      assert (b'.clock - b1.clock) + (b1.clock - b.clock) == b'.clock - b.clock;
    } else {
      EarnedAdds(l, 0.0, 0.0);
    }
  }

  /** A run of T seconds from creation admits at most maxTokens + 2 * refillRate * T calls. */
  lemma RateBound(l: Limit, start: real, arrivals: seq<Arrival>)
    requires Sound(l) && PossibleRun(l, Full(l, start), arrivals)
    ensures var b := Run(l, Full(l, start), arrivals);
            && 0.0 <= b.tokens <= l.maxTokens
            && b.admitted as real <= l.maxTokens + 2.0 * Earned(l, b.clock - start)
  {
    hide Run, PossibleRun, Earned;
    RunKeeps(l, Full(l, start), arrivals);
    var b := Run(l, Full(l, start), arrivals);
    NothingEarned(l);
    EarnedAdds(l, b.clock - b.lastRefill, 0.0);
    EarnedAdds(l, b.clock - start, 0.0);
  }

  // ---------- When the configured rate holds ----------

  /** What an admitted call got ahead of the bucket: the part of its token that it slept for. */
  function Advance(l: Limit, b: Bucket, a: Arrival): real {
    var t := Refilled(l, b, a.now);
    if t < 1.0 && !a.cancelled then 1.0 - t else 0.0
  }

  /** What the bucket lost: tokens over its maximum, and those a cancelled call threw away. */
  function Waste(l: Limit, b: Bucket, a: Arrival): real {
    var t := Refilled(l, b, a.now);
    (b.tokens + Earned(l, a.now - b.lastRefill) - t) + if t < 1.0 && a.cancelled then t else 0.0
  }

  function Advances(l: Limit, b: Bucket, arrivals: seq<Arrival>): real
    decreases |arrivals|
  {
    if arrivals == [] then 0.0 else Advance(l, b, arrivals[0]) + Advances(l, Served(l, b, arrivals[0]), arrivals[1..])
  }

  function Wastes(l: Limit, b: Bucket, arrivals: seq<Arrival>): real
    decreases |arrivals|
  {
    if arrivals == [] then 0.0 else Waste(l, b, arrivals[0]) + Wastes(l, Served(l, b, arrivals[0]), arrivals[1..])
  }

  lemma ServedAccounts(l: Limit, b: Bucket, a: Arrival)
    requires Sound(l) && InRange(l, b) && Possible(l, b, a)
    ensures var b' := Served(l, b, a);
            Credit(l, b') == Credit(l, b) + Earned(l, b'.clock - b.clock) + Advance(l, b, a) - Waste(l, b, a)
    ensures Waste(l, b, a) >= 0.0
  {
    hide Earned;
    var t, b' := Refilled(l, b, a.now), Served(l, b, a);
    EarnedAdds(l, b.clock - b.lastRefill, a.now - b.clock);
    assert (b.clock - b.lastRefill) + (a.now - b.clock) == a.now - b.lastRefill;
    EarnedAdds(l, a.now - b.clock, a.finish - a.now);
    assert (a.now - b.clock) + (a.finish - a.now) == a.finish - b.clock;
    NothingEarned(l);
  }

  /** The exact balance of a run: what is credited is the nominal amount, plus what calls slept for, less what was lost. */
  lemma {:induction false} RunAccounts(l: Limit, b: Bucket, arrivals: seq<Arrival>)
    requires Sound(l) && InRange(l, b) && PossibleRun(l, b, arrivals)
    ensures var b' := Run(l, b, arrivals);
            Credit(l, b') == Credit(l, b) + Earned(l, b'.clock - b.clock) + Advances(l, b, arrivals) - Wastes(l, b, arrivals)
    ensures Wastes(l, b, arrivals) >= 0.0
    decreases |arrivals|
  {
    hide Earned, Served, Possible, Advance, Waste, Credit;
    if arrivals == [] {
      NothingEarned(l);
    } else {
      var b1 := Served(l, b, arrivals[0]);
      ServedKeeps(l, b, arrivals[0]);
      ServedAccounts(l, b, arrivals[0]);
      RunAccounts(l, b1, arrivals[1..]);
      var b' := Run(l, b1, arrivals[1..]);
      EarnedAdds(l, b'.clock - b1.clock, b1.clock - b.clock);
      assert (b'.clock - b1.clock) + (b1.clock - b.clock) == b'.clock - b.clock;
    }
  }

  /**
   * A run of T seconds keeps to maxTokens + refillRate * T exactly when what calls got ahead by sleeping is covered by
   * what was lost, what is left in the bucket, and what the time since the last refill is still worth.
   */
  lemma NominalBoundIff(l: Limit, start: real, arrivals: seq<Arrival>)
    requires Sound(l) && PossibleRun(l, Full(l, start), arrivals)
    ensures var b := Run(l, Full(l, start), arrivals);
            b.admitted as real <= l.maxTokens + Earned(l, b.clock - start) <==>
            Advances(l, Full(l, start), arrivals) <=
            Wastes(l, Full(l, start), arrivals) + b.tokens + Earned(l, b.clock - b.lastRefill)
    ensures var b := Run(l, Full(l, start), arrivals);
            b.admitted as real <= l.maxTokens + Earned(l, b.clock - start) + Advances(l, Full(l, start), arrivals)
  {
    hide Run, PossibleRun, Earned, Advances, Wastes;
    RunAccounts(l, Full(l, start), arrivals);
    RunKeeps(l, Full(l, start), arrivals);
    var b := Run(l, Full(l, start), arrivals);
    NothingEarned(l);
    EarnedAdds(l, b.clock - b.lastRefill, 0.0);
  }

  /** No arrival finds less than one token, so none has to sleep. */
  predicate NeverShort(l: Limit, b: Bucket, arrivals: seq<Arrival>)
    decreases |arrivals|
  {
    arrivals == [] ||
    (Refilled(l, b, arrivals[0].now) >= 1.0 && NeverShort(l, Served(l, b, arrivals[0]), arrivals[1..]))
  }

  lemma {:induction false} NoAdvances(l: Limit, b: Bucket, arrivals: seq<Arrival>)
    requires NeverShort(l, b, arrivals)
    ensures Advances(l, b, arrivals) == 0.0
    decreases |arrivals|
  {
    if arrivals != [] {
      NoAdvances(l, Served(l, b, arrivals[0]), arrivals[1..]);
    }
  }

  /** The configured rate holds for every run in which nobody has to sleep. */
  lemma NominalBound(l: Limit, start: real, arrivals: seq<Arrival>)
    requires Sound(l) && PossibleRun(l, Full(l, start), arrivals) && NeverShort(l, Full(l, start), arrivals)
    ensures var b := Run(l, Full(l, start), arrivals);
            b.admitted as real <= l.maxTokens + Earned(l, b.clock - start)
  {
    NoAdvances(l, Full(l, start), arrivals);
    NominalBoundIff(l, start, arrivals);
  }

  /** One admitted sleep with a call right behind it exceeds the configured rate by one. */
  lemma OneSleepExceeds(l: Limit, start: real, n: nat)
    requires Sound(l) && l.maxTokens == n as real
    ensures var arrivals := Burst(start, n) + Pairs(l, start, 1);
            var b := Run(l, Full(l, start), arrivals);
            PossibleRun(l, Full(l, start), arrivals) && b.admitted as real == l.maxTokens + Earned(l, b.clock - start) + 1.0
  {
    RateBoundReached(l, start, n, 1);
    assert Earned(l, 1.0 / l.refillRate) == 1.0;
    var b := Run(l, Full(l, start), Burst(start, n) + Pairs(l, start, 1));
    assert b.clock - start == 1.0 / l.refillRate;
  }

  // ---------- The bound is reached ----------

  /** n calls at the same moment. */
  function Burst(now: real, n: nat): seq<Arrival>
    decreases n
  {
    if n == 0 then [] else [Arrival(now, now, false)] + Burst(now, n - 1)
  }

  /** Twice per period: one call that sleeps a whole period, and one right behind it. */
  function Pairs(l: Limit, now: real, k: nat): seq<Arrival>
    requires Sound(l)
    decreases k
  {
    if k == 0 then []
    else
      var next := now + 1.0 / l.refillRate;
      [Arrival(now, next, false), Arrival(next, next, false)] + Pairs(l, next, k - 1)
  }

  lemma {:induction false} BurstEmpties(l: Limit, now: real, n: nat, admitted: nat)
    requires Sound(l) && n as real <= l.maxTokens
    ensures var b := Bucket(n as real, now, now, admitted);
            PossibleRun(l, b, Burst(now, n)) && Run(l, b, Burst(now, n)) == Bucket(0.0, now, now, admitted + n)
    decreases n
  {
    if n > 0 {
      var b := Bucket(n as real, now, now, admitted);
      assert Refilled(l, b, now) == n as real;
      assert Burst(now, n)[1..] == Burst(now, n - 1);
      BurstEmpties(l, now, n - 1, admitted + 1);
    }
  }

  lemma {:induction false} PairsEarnTwice(l: Limit, now: real, k: nat, admitted: nat)
    requires Sound(l)
    ensures var b := Bucket(0.0, now, now, admitted);
            && PossibleRun(l, b, Pairs(l, now, k))
            && Run(l, b, Pairs(l, now, k)).admitted == admitted + 2 * k
            && Run(l, b, Pairs(l, now, k)).clock == now + k as real / l.refillRate
    decreases k
  {
    if k > 0 {
      var next := now + 1.0 / l.refillRate;
      var b := Bucket(0.0, now, now, admitted);
      var first, second := Arrival(now, next, false), Arrival(next, next, false);
      var b1 := Bucket(0.0, now, next, admitted + 1);
      var b2 := Bucket(0.0, next, next, admitted + 2);
      assert Refilled(l, b, now) == 0.0 && Served(l, b, first) == b1 && Possible(l, b, first);
      assert (next - now) * l.refillRate == 1.0;
      assert Refilled(l, b1, next) == 1.0 && Served(l, b1, second) == b2;
      PairsEarnTwice(l, next, k - 1, admitted + 2);
      var arrivals := Pairs(l, now, k);
      assert arrivals[0] == first && arrivals[1..][0] == second && arrivals[1..][1..] == Pairs(l, next, k - 1);
      assert now + k as real / l.refillRate == next + (k - 1) as real / l.refillRate;
    } else {
      assert 0.0 / l.refillRate == 0.0;
    }
  }

  lemma {:induction false} RunConcat(l: Limit, b: Bucket, first: seq<Arrival>, second: seq<Arrival>)
    requires Sound(l) && PossibleRun(l, b, first) && PossibleRun(l, Run(l, b, first), second)
    ensures PossibleRun(l, b, first + second) && Run(l, b, first + second) == Run(l, Run(l, b, first), second)
    decreases |first|
  {
    if first == [] {
      assert first + second == second;
    } else {
      assert (first + second)[1..] == first[1..] + second;
      RunConcat(l, Served(l, b, first[0]), first[1..], second);
    }
  }

  /** For every k some run of k / refillRate seconds admits maxTokens + 2k calls: the factor 2 is the true rate. */
  lemma RateBoundReached(l: Limit, start: real, n: nat, k: nat)
    requires Sound(l) && l.maxTokens == n as real
    ensures var arrivals := Burst(start, n) + Pairs(l, start, k);
            var b := Run(l, Full(l, start), arrivals);
            && PossibleRun(l, Full(l, start), arrivals)
            && b.admitted == n + 2 * k && b.clock == start + k as real / l.refillRate
  {
    BurstEmpties(l, start, n, 0);
    PairsEarnTwice(l, start, k, n);
    RunConcat(l, Full(l, start), Burst(start, n), Pairs(l, start, k));
  }
}
