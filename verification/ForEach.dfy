/** ForEach under every schedule. */
module ForEach {
  import opened Options

  // One goroutine per item runs behind an optional semaphore; the spawning loop and the goroutines interleave freely,
  // and one step is one critical section.

  datatype Outcome = Ok(output: string) | Err(message: string)

  /** What one execution is given: the items, what the inner graph does with each, and the node's settings. */
  datatype Plan = Plan(n: nat, run: nat -> Outcome, concurrency: int, abort: bool)

  datatype End = Succeeded | Failed | Skipped

  datatype Phase = Unspawned | Spawned | Holding | Running | Done(end: End)

  datatype State = State(
    next: nat,
    broke: bool,
    tasks: seq<Phase>,
    results: seq<Option<string>>,
    errors: seq<nat>,
    firstAbortErr: Option<string>)

  datatype Action = Spawn | Break | Acquire(i: nat) | Check(i: nat) | Finish(i: nat)

  function Start(p: Plan): State {
    State(0, false, seq(p.n, _ => Unspawned), seq(p.n, _ => None), [], None)
  }

  predicate Spawning(p: Plan, s: State) {
    !s.broke && s.next < p.n
  }

  predicate Aborted(p: Plan, s: State) {
    p.abort && s.firstAbortErr.Some?
  }

  /** The items that occupy the semaphore. */
  function Holders(s: State): set<nat> {
    set i | 0 <= i < |s.tasks| && (s.tasks[i] == Holding || s.tasks[i] == Running)
  }

  predicate Enabled(p: Plan, s: State, a: Action)
    requires |s.tasks| == p.n
  {
    match a
    case Spawn => Spawning(p, s) && !Aborted(p, s)
    case Break => Spawning(p, s) && Aborted(p, s)
    case Acquire(i) => i < p.n && s.tasks[i] == Spawned && (p.concurrency > 0 ==> |Holders(s)| < p.concurrency)
    case Check(i) => i < p.n && s.tasks[i] == Holding
    case Finish(i) => i < p.n && s.tasks[i] == Running
  }

  function Apply(p: Plan, s: State, a: Action): State
    requires |s.tasks| == |s.results| == p.n && Enabled(p, s, a)
  {
    match a
    case Spawn => s.(tasks := s.tasks[s.next := Spawned], next := s.next + 1)
    case Break => s.(broke := true)
    case Acquire(i) => s.(tasks := s.tasks[i := Holding])
    case Check(i) => s.(tasks := s.tasks[i := if Aborted(p, s) then Done(Skipped) else Running])
    case Finish(i) =>
      match p.run(i)
      case Ok(output) => s.(tasks := s.tasks[i := Done(Succeeded)], results := s.results[i := Some(output)])
      case Err(message) =>
        s.(tasks := s.tasks[i := Done(Failed)], errors := s.errors + [i],
           firstAbortErr := if p.abort && s.firstAbortErr.None? then Some(message) else s.firstAbortErr)
  }

  /** The loop is over and every goroutine it started has finished. */
  predicate Waited(p: Plan, s: State)
    requires |s.tasks| == p.n
  {
    !Spawning(p, s) && forall i :: 0 <= i < p.n ==> s.tasks[i] == Unspawned || s.tasks[i].Done?
  }

  // ---------- The result ----------

  datatype Result = Outputs(results: seq<string>, errors: seq<nat>) | Aborts(message: string)

  function Collect(rs: seq<Option<string>>): seq<string> {
    if rs == [] then []
    else
      var before := Collect(rs[..|rs| - 1]);
      if rs[|rs| - 1].Some? then before + [rs[|rs| - 1].value] else before
  }

  function ResultOf(p: Plan, s: State): Result {
    if Aborted(p, s) then Aborts(s.firstAbortErr.value) else Outputs(Collect(s.results), s.errors)
  }

  // ---------- What the execution should give, without schedules ----------

  function Successes(p: Plan, k: nat): seq<string> {
    if k == 0 then []
    else match p.run(k - 1)
      case Ok(output) => Successes(p, k - 1) + [output]
      case Err(_) => Successes(p, k - 1)
  }

  function Failures(p: Plan, k: nat): seq<nat> {
    if k == 0 then []
    else if p.run(k - 1).Err? then Failures(p, k - 1) + [k - 1]
    else Failures(p, k - 1)
  }

  // ---------- Every step ----------

  ghost predicate TasksInOrder(p: Plan, s: State) {
    && |s.tasks| == |s.results| == p.n && s.next <= p.n
    && forall i :: 0 <= i < p.n ==> (s.tasks[i] == Unspawned <==> i >= s.next)
  }

  ghost predicate ResultsRight(p: Plan, s: State)
    requires |s.tasks| == |s.results| == p.n
  {
    forall i :: 0 <= i < p.n ==>
      if s.tasks[i] == Done(Succeeded) then p.run(i).Ok? && s.results[i] == Some(p.run(i).output) else s.results[i].None?
  }

  ghost predicate ErrorsRight(p: Plan, s: State)
    requires |s.tasks| == p.n
  {
    && (forall k :: 0 <= k < |s.errors| ==> s.errors[k] < p.n && s.tasks[s.errors[k]] == Done(Failed))
    && (forall i :: 0 <= i < p.n && s.tasks[i] == Done(Failed) ==> i in s.errors)
    && (forall k :: 0 <= k < |s.errors| ==> p.run(s.errors[k]).Err?)
    && (forall k, m :: 0 <= k < m < |s.errors| ==> s.errors[k] != s.errors[m])
  }

  /** The abort error is the first failure, and nothing is given up without one. */
  ghost predicate AbortRight(p: Plan, s: State)
    requires |s.tasks| == p.n
  {
    && (s.firstAbortErr.Some? <==> (p.abort && s.errors != []))
    && (s.firstAbortErr.Some? ==> p.run(s.errors[0]) == Err(s.firstAbortErr.value))
    && (s.broke ==> s.firstAbortErr.Some?)
    && (forall i :: 0 <= i < p.n && s.tasks[i] == Done(Skipped) ==> s.firstAbortErr.Some?)
  }

  ghost predicate Invariant(p: Plan, s: State) {
    && TasksInOrder(p, s) && ResultsRight(p, s) && ErrorsRight(p, s) && AbortRight(p, s)
    && (p.concurrency > 0 ==> |Holders(s)| <= p.concurrency)
  }

  lemma StartHolds(p: Plan)
    ensures Invariant(p, Start(p))
  {
    assert Holders(Start(p)) == {};
  }

  lemma HoldersMove(s: State, s': State, i: nat)
    requires i < |s.tasks| == |s'.tasks| && s'.tasks == s.tasks[i := s'.tasks[i]]
    ensures Holders(s') == if s'.tasks[i] == Holding || s'.tasks[i] == Running then Holders(s) + {i} else Holders(s) - {i}
  {
    assert forall j :: 0 <= j < |s.tasks| && j != i ==> s'.tasks[j] == s.tasks[j];
  }

  lemma HoldersKept(p: Plan, s: State, a: Action)
    requires Invariant(p, s) && Enabled(p, s, a) && p.concurrency > 0
    ensures |Holders(Apply(p, s, a))| <= p.concurrency
  {
    hide ResultsRight, ErrorsRight, AbortRight, Holders;
    var s' := Apply(p, s, a);
    if a.Break? {
      HoldersSame(s, s');
    } else {
      var i := if a.Spawn? then s.next else a.i;
      HoldersMove(s, s', i);
      if a.Check? {
        HolderKept(s, i);
      } else if !a.Acquire? {
        Fewer(Holders(s), i);
      }
    }
  }

  lemma HoldersSame(s: State, s': State)
    requires s.tasks == s'.tasks
    ensures Holders(s') == Holders(s)
  {
  }

  lemma HolderKept(s: State, i: nat)
    requires i < |s.tasks| && s.tasks[i] == Holding
    ensures Holders(s) + {i} == Holders(s) && |Holders(s) - {i}| <= |Holders(s)|
  {
    assert i in Holders(s);
  }

  lemma Fewer(xs: set<nat>, i: nat)
    ensures |xs - {i}| <= |xs|
  {
    if i in xs {
      assert xs == xs - {i} + {i};
    } else {
      assert xs - {i} == xs;
    }
  }

  lemma SuccessKeeps(p: Plan, s: State, i: nat)
    requires Invariant(p, s) && Enabled(p, s, Finish(i)) && p.run(i).Ok?
    ensures var s' := Apply(p, s, Finish(i)); TasksInOrder(p, s') && ResultsRight(p, s') && ErrorsRight(p, s') && AbortRight(p, s')
  {
    hide Holders;
  }

  lemma FailureKeeps(p: Plan, s: State, i: nat)
    requires Invariant(p, s) && Enabled(p, s, Finish(i)) && p.run(i).Err?
    ensures var s' := Apply(p, s, Finish(i)); TasksInOrder(p, s') && ResultsRight(p, s') && AbortRight(p, s')
    ensures ErrorsRight(p, Apply(p, s, Finish(i)))
  {
    hide Holders;
    FailureListed(p, s, i);
  }

  lemma FailureListed(p: Plan, s: State, i: nat)
    requires TasksInOrder(p, s) && ErrorsRight(p, s) && Enabled(p, s, Finish(i)) && p.run(i).Err?
    ensures ErrorsRight(p, Apply(p, s, Finish(i)))
  {
    var errors := s.errors + [i];
    assert forall k :: 0 <= k < |s.errors| ==> errors[k] == s.errors[k] && s.errors[k] != i;
    assert errors[|s.errors|] == i;
    assert forall j :: j in s.errors ==> j in errors;
  }

  lemma StepKeeps(p: Plan, s: State, a: Action)
    requires Invariant(p, s) && Enabled(p, s, a)
    ensures Invariant(p, Apply(p, s, a))
  {
    hide Holders;
    if p.concurrency > 0 {
      HoldersKept(p, s, a);
    }
    if a.Finish? {
      if p.run(a.i).Ok? {
        SuccessKeeps(p, s, a.i);
      } else {
        FailureKeeps(p, s, a.i);
      }
    }
  }

  // ---------- Whole runs ----------

  ghost predicate Reaches(p: Plan, s: State, actions: seq<Action>, s': State)
    requires |s.tasks| == |s.results| == p.n
    decreases |actions|
  {
    if actions == [] then s == s'
    else Enabled(p, s, actions[0]) && Reaches(p, Apply(p, s, actions[0]), actions[1..], s')
  }

  lemma {:induction false} RunKeeps(p: Plan, s: State, actions: seq<Action>, s': State)
    requires Invariant(p, s) && Reaches(p, s, actions, s')
    ensures Invariant(p, s')
    decreases |actions|
  {
    hide ResultsRight, ErrorsRight, AbortRight, Apply;
    if actions != [] {
      StepKeeps(p, s, actions[0]);
      RunKeeps(p, Apply(p, s, actions[0]), actions[1..], s');
    }
  }

  /** Until everything has been waited for, something can happen: the semaphore cannot deadlock. */
  lemma NoDeadlock(p: Plan, s: State)
    requires Invariant(p, s) && !Waited(p, s)
    ensures exists a :: Enabled(p, s, a)
  {
    if i :| 0 <= i < p.n && s.tasks[i] == Holding {
      assert Enabled(p, s, Check(i));
    } else if i :| 0 <= i < p.n && s.tasks[i] == Running {
      assert Enabled(p, s, Finish(i));
    } else if i :| 0 <= i < p.n && s.tasks[i] == Spawned {
      assert Holders(s) == {};
      assert Enabled(p, s, Acquire(i));
    } else {
      assert Spawning(p, s);
      assert Enabled(p, s, Spawn) || Enabled(p, s, Break);
    }
  }

  function Work(t: Phase): nat {
    match t
    case Unspawned => 4
    case Spawned => 3
    case Holding => 2
    case Running => 1
    case Done(_) => 0
  }

  function TotalWork(ts: seq<Phase>): nat {
    if ts == [] then 0 else TotalWork(ts[..|ts| - 1]) + Work(ts[|ts| - 1])
  }

  function Measure(s: State): nat {
    TotalWork(s.tasks) + if s.broke then 0 else 1
  }

  lemma {:induction false} WorkMoves(ts: seq<Phase>, i: nat, t: Phase)
    requires i < |ts|
    ensures TotalWork(ts[i := t]) == TotalWork(ts) - Work(ts[i]) + Work(t)
  {
    var n := |ts| - 1;
    if i == n {
      assert ts[i := t][..n] == ts[..n];
    } else {
      assert ts[i := t][..n] == ts[..n][i := t];
      WorkMoves(ts[..n], i, t);
    }
  }

  lemma StepWorks(p: Plan, s: State, a: Action)
    requires TasksInOrder(p, s) && Enabled(p, s, a)
    ensures Measure(Apply(p, s, a)) < Measure(s)
  {
    match a
    case Spawn => WorkMoves(s.tasks, s.next, Spawned);
    case Break =>
    case Acquire(i) => WorkMoves(s.tasks, i, Holding);
    case Check(i) => WorkMoves(s.tasks, i, if Aborted(p, s) then Done(Skipped) else Running);
    case Finish(i) => WorkMoves(s.tasks, i, if p.run(i).Ok? then Done(Succeeded) else Done(Failed));
  }

  /** No run is longer than its work: all of them end. */
  lemma {:induction false} RunsEnd(p: Plan, s: State, actions: seq<Action>, s': State)
    requires Invariant(p, s) && Reaches(p, s, actions, s')
    ensures |actions| + Measure(s') <= Measure(s)
    decreases |actions|
  {
    hide ResultsRight, ErrorsRight, AbortRight, Apply;
    if actions != [] {
      StepKeeps(p, s, actions[0]);
      StepWorks(p, s, actions[0]);
      RunsEnd(p, Apply(p, s, actions[0]), actions[1..], s');
    }
  }

  // ---------- The result does not depend on the schedule ----------

  lemma {:induction false} CollectsOutputs(p: Plan, rs: seq<Option<string>>, k: nat)
    requires k <= |rs|
    requires forall i :: 0 <= i < k ==> if p.run(i).Ok? then rs[i] == Some(p.run(i).output) else rs[i].None?
    ensures Collect(rs[..k]) == Successes(p, k)
  {
    if k > 0 {
      assert rs[..k][..k - 1] == rs[..k - 1];
      CollectsOutputs(p, rs, k - 1);
    }
  }

  lemma {:induction false} FailuresMeaning(p: Plan, k: nat)
    ensures forall i: nat :: i in Failures(p, k) <==> i < k && p.run(i).Err?
    ensures forall a, b :: 0 <= a < b < |Failures(p, k)| ==> Failures(p, k)[a] != Failures(p, k)[b]
    ensures |Failures(p, k)| + |Successes(p, k)| == k
  {
    if k > 0 {
      FailuresMeaning(p, k - 1);
      assert k - 1 !in Failures(p, k - 1);
    }
  }

  lemma {:induction false} DistinctOnce(xs: seq<nat>)
    requires forall k, m :: 0 <= k < m < |xs| ==> xs[k] != xs[m]
    ensures forall x :: multiset(xs)[x] == if x in xs then 1 else 0
  {
    if xs != [] {
      var init, last := xs[..|xs| - 1], xs[|xs| - 1];
      DistinctOnce(init);
      assert xs == init + [last];
      assert last !in init;
    }
  }

  function OksBefore(p: Plan, i: nat): nat {
    if i == 0 then 0 else OksBefore(p, i - 1) + if p.run(i - 1).Ok? then 1 else 0
  }

  /** The successes are the outputs of the items that succeed, each at the place that the successes before it leave it. */
  lemma {:induction false} SuccessesMean(p: Plan, n: nat)
    ensures |Successes(p, n)| == OksBefore(p, n)
    ensures forall i: nat :: i < n && p.run(i).Ok? ==>
              OksBefore(p, i) < |Successes(p, n)| && Successes(p, n)[OksBefore(p, i)] == p.run(i).output
  {
    if n > 0 {
      SuccessesMean(p, n - 1);
    }
  }

  /** The failures are the items that fail, each once. */
  lemma {:induction false} FailuresMean(p: Plan, n: nat)
    ensures forall i: nat :: multiset(Failures(p, n))[i] == if i < n && p.run(i).Err? then 1 else 0
  {
    if n > 0 {
      FailuresMean(p, n - 1);
    }
  }

  /**
   * However a run is scheduled: in continue mode the results are the successful outputs in item order and the
   * errors a permutation of the failing items, together as many as there are items; in abort mode an error is
   * returned exactly when some item fails, and it is the error of an executed item.
   */
  lemma ResultDetermined(p: Plan, s: State)
    requires Invariant(p, s) && Waited(p, s)
    ensures !p.abort || (forall i :: 0 <= i < p.n ==> p.run(i).Ok?) ==>
              && ResultOf(p, s).Outputs? && ResultOf(p, s).results == Successes(p, p.n)
              && multiset(ResultOf(p, s).errors) == multiset(Failures(p, p.n))
              && |ResultOf(p, s).results| + |ResultOf(p, s).errors| == p.n
    ensures ResultOf(p, s).Aborts? <==> (p.abort && exists i :: 0 <= i < p.n && p.run(i).Err?)
    ensures ResultOf(p, s).Aborts? ==> s.errors != [] && p.run(s.errors[0]) == Err(ResultOf(p, s).message)
  {
    if s.firstAbortErr.None? {
      forall i | 0 <= i < p.n ensures s.tasks[i] == Done(Succeeded) || s.tasks[i] == Done(Failed) {
        assert s.tasks[i].Done? && s.tasks[i] != Done(Skipped);
        assert s.tasks[i].end == Succeeded || s.tasks[i].end == Failed;
      }
      AllExecuted(p, s);
    }
  }

  lemma AllExecuted(p: Plan, s: State)
    requires Invariant(p, s)
    requires forall i :: 0 <= i < p.n ==> s.tasks[i] == Done(Succeeded) || s.tasks[i] == Done(Failed)
    ensures Collect(s.results) == Successes(p, p.n)
    ensures multiset(s.errors) == multiset(Failures(p, p.n))
    ensures |Collect(s.results)| + |s.errors| == p.n
    ensures s.errors != [] <==> (exists i :: 0 <= i < p.n && p.run(i).Err?)
  {
    hide Holders;
    assert s.results[..p.n] == s.results;
    CollectsOutputs(p, s.results, p.n);
    FailuresMeaning(p, p.n);
    DistinctOnce(s.errors);
    DistinctOnce(Failures(p, p.n));
    forall i: nat ensures multiset(s.errors)[i] == multiset(Failures(p, p.n))[i] {
      assert i in Failures(p, p.n) <==> i in s.errors;
    }
    assert multiset(s.errors) == multiset(Failures(p, p.n));
    assert |multiset(s.errors)| == |multiset(Failures(p, p.n))|;
  }

  /** Any two complete schedules give the same results, and the same errors up to order. */
  lemma SchedulesAgree(p: Plan, a1: seq<Action>, s1: State, a2: seq<Action>, s2: State)
    requires Reaches(p, Start(p), a1, s1) && Reaches(p, Start(p), a2, s2)
    ensures |s1.tasks| == |s2.tasks| == p.n
    ensures Waited(p, s1) && Waited(p, s2) ==>
              var r1, r2 := ResultOf(p, s1), ResultOf(p, s2);
              (r1.Aborts? <==> r2.Aborts?) && (r1.Outputs? ==> r1.results == r2.results && multiset(r1.errors) == multiset(r2.errors))
  {
    StartHolds(p);
    RunKeeps(p, Start(p), a1, s1);
    RunKeeps(p, Start(p), a2, s2);
    if Waited(p, s1) && Waited(p, s2) {
      ResultDetermined(p, s1);
      ResultDetermined(p, s2);
    }
  }
}
