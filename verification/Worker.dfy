/** The results-list protocol of the workers. */
module Worker {
  import opened Graphs

  // The orchestrator dispatches node tasks and pops as many results as it dispatched. A tool-loop handler that has
  // enqueued its successor pops some result from the same list and pushes it back.

  /** A NodeTaskResult: who it is for, and what it says. */
  datatype Result = Result(node: string, payload: Value)

  /** An enqueued or running LLM (or other node) task: tool-loop iteration and retry attempt. */
  datatype Task = Task(node: string, iteration: nat, attempt: nat)

  /** Per node: MaxIterations of the tool loop (0 without one) and MaxRetries. */
  datatype Limits = Limits(iterations: string -> nat, retries: string -> nat)

  datatype System = System(
    toDispatch: seq<string>,      // nodes of the current fan-out not dispatched yet
    pending: nat,                 // results the fan-in still waits for
    tasks: seq<Task>,             // live tasks, in no particular order
    waiting: multiset<string>,    // handlers that enqueued a successor and block on the list
    held: seq<Result>,            // results popped by such handlers and not pushed back yet
    list: seq<Result>,            // LPUSH at the front, BRPOP at the back
    collected: seq<Result>,       // what the current fan-in has popped
    closed: bool,                 // the orchestrator has ended and deleted the list's key
    ghost current: multiset<string>,  // nodes dispatched in the current round
    ghost pushed: multiset<Result>,   // first pushes of the current round (re-pushes not counted)
    ghost lost: seq<Result>,          // results that were on the list when its key was deleted
    ghost continued: nat,             // how often a task has enqueued a successor
    ghost popped: nat,                // how often a waiting handler has popped a result
    ghost history: seq<(multiset<string>, seq<Result>)>)  // earlier rounds: dispatched nodes, collected results

  datatype Step =
    | NextRound(nodes: seq<string>)   // another group, loop body node or downstream node
    | Dispatch                        // enqueue the next node's task
    | DispatchInline(r: Result)       // run the next node in process and push its result
    | Push(i: nat, r: Result)         // task i ends: completed, limit reached or failed
    | Retry(i: nat)                   // task i re-enqueues itself after a provider error
    | Continue(i: nat)                // task i ran its tool calls and enqueued its successor
    | Pop(n: string)                  // a waiting handler pops a result
    | PushBack(i: nat)                // ... and pushes it back
    | Collect                         // the fan-in pops a result
    | FailDispatch                    // the next node cannot be dispatched, or runs in process and fails: no result
    | Close                           // the execution ends between rounds

  ghost function Without<T>(s: seq<T>, i: nat): seq<T>
    requires i < |s|
  {
    s[..i] + s[i + 1..]
  }

  ghost predicate Enabled(lim: Limits, s: System, a: Step) {
    match a
    case NextRound(nodes) => !s.closed && s.toDispatch == [] && s.pending == 0
    case Dispatch => !s.closed && s.toDispatch != []
    case DispatchInline(r) => !s.closed && s.toDispatch != [] && r.node == s.toDispatch[0]
    case Push(i, r) => i < |s.tasks| && r.node == s.tasks[i].node
    case Retry(i) => i < |s.tasks| && s.tasks[i].attempt < lim.retries(s.tasks[i].node)
    case Continue(i) => i < |s.tasks| && s.tasks[i].iteration < lim.iterations(s.tasks[i].node)
    case Pop(n) => n in s.waiting && s.list != []
    case PushBack(i) => i < |s.held|
    case Collect => !s.closed && s.toDispatch == [] && s.pending > 0 && s.list != []
    case FailDispatch => !s.closed && s.toDispatch != []
    case Close => !s.closed && s.toDispatch == [] && s.pending == 0
  }

  ghost function Perform(lim: Limits, s: System, a: Step): System
    requires Enabled(lim, s, a)
  {
    match a
    case NextRound(nodes) =>
      s.(toDispatch := nodes, collected := [], current := multiset{}, pushed := multiset{},
         history := s.history + [(s.current, s.collected)])
    case Dispatch =>
      var n := s.toDispatch[0];
      s.(toDispatch := s.toDispatch[1..], pending := s.pending + 1, tasks := s.tasks + [Task(n, 0, 0)],
         current := s.current + multiset{n})
    case DispatchInline(r) =>
      s.(toDispatch := s.toDispatch[1..], pending := s.pending + 1, list := [r] + s.list,
         current := s.current + multiset{r.node}, pushed := s.pushed + multiset{r})
    case Push(i, r) =>
      s.(tasks := Without(s.tasks, i), list := [r] + s.list, pushed := s.pushed + multiset{r})
    case Retry(i) =>
      s.(tasks := Without(s.tasks, i) + [s.tasks[i].(attempt := s.tasks[i].attempt + 1)])
    case Continue(i) =>
      s.(tasks := Without(s.tasks, i) + [Task(s.tasks[i].node, s.tasks[i].iteration + 1, 0)],
         waiting := s.waiting + multiset{s.tasks[i].node}, continued := s.continued + 1)
    case Pop(n) =>
      s.(waiting := s.waiting - multiset{n}, list := s.list[..|s.list| - 1], held := s.held + [s.list[|s.list| - 1]],
         popped := s.popped + 1)
    case PushBack(i) =>
      s.(held := Without(s.held, i), list := [s.held[i]] + s.list)
    case Collect =>
      s.(pending := s.pending - 1, list := s.list[..|s.list| - 1], collected := s.collected + [s.list[|s.list| - 1]])
    case FailDispatch =>
      s.(toDispatch := [], closed := true, list := [], lost := s.lost + s.list)
    case Close =>
      s.(closed := true, list := [], lost := s.lost + s.list)
  }

  ghost function Initial(): System {
    System([], 0, [], multiset{}, [], [], [], false, multiset{}, multiset{}, [], 0, 0, [])
  }

  // ---------- Conservation ----------

  ghost function NodesOf(rs: seq<Result>): multiset<string> {
    if rs == [] then multiset{} else NodesOf(rs[..|rs| - 1]) + multiset{rs[|rs| - 1].node}
  }

  ghost function TaskNodes(ts: seq<Task>): multiset<string> {
    if ts == [] then multiset{} else TaskNodes(ts[..|ts| - 1]) + multiset{ts[|ts| - 1].node}
  }

  lemma {:induction false} NodesConcat(a: seq<Result>, b: seq<Result>)
    ensures NodesOf(a + b) == NodesOf(a) + NodesOf(b)
  {
    if b == [] {
      assert a + b == a;
    } else {
      assert (a + b)[..|a + b| - 1] == a + b[..|b| - 1];
      NodesConcat(a, b[..|b| - 1]);
    }
  }

  lemma {:induction false} TasksConcat(a: seq<Task>, b: seq<Task>)
    ensures TaskNodes(a + b) == TaskNodes(a) + TaskNodes(b)
  {
    if b == [] {
      assert a + b == a;
    } else {
      assert (a + b)[..|a + b| - 1] == a + b[..|b| - 1];
      TasksConcat(a, b[..|b| - 1]);
    }
  }

  lemma NodesOne(r: Result)
    ensures NodesOf([r]) == multiset{r.node}
  {
    assert [r][..0] == [];
  }

  lemma TasksOne(t: Task)
    ensures TaskNodes([t]) == multiset{t.node}
  {
    assert [t][..0] == [];
  }

  lemma NodesWithout(rs: seq<Result>, i: nat)
    requires i < |rs|
    ensures NodesOf(rs) == NodesOf(Without(rs, i)) + multiset{rs[i].node}
  {
    hide NodesOf;
    var a, x, b := rs[..i], [rs[i]], rs[i + 1..];
    assert rs == (a + x) + b;
    NodesConcat(a, b);
    NodesConcat(a, x);
    NodesConcat(a + x, b);
    NodesOne(rs[i]);
  }

  lemma ItemsWithout(rs: seq<Result>, i: nat)
    requires i < |rs|
    ensures multiset(rs) == multiset(Without(rs, i)) + multiset{rs[i]}
  {
    assert rs == rs[..i] + ([rs[i]] + rs[i + 1..]);
  }

  lemma TasksWithout(ts: seq<Task>, i: nat)
    requires i < |ts|
    ensures TaskNodes(ts) == TaskNodes(Without(ts, i)) + multiset{ts[i].node}
  {
    hide TaskNodes;
    var a, x, b := ts[..i], [ts[i]], ts[i + 1..];
    assert ts == (a + x) + b;
    TasksConcat(a, b);
    TasksConcat(a, x);
    TasksConcat(a + x, b);
    TasksOne(ts[i]);
  }

  /** Results on the list, held between pop and push-back, collected, and deleted with the key are the results pushed. */
  ghost predicate Conserved(s: System) {
    multiset(s.list) + multiset(s.held) + multiset(s.collected) + multiset(s.lost) == s.pushed
  }

  /** Every node dispatched this round either still has its one live task or has pushed its one result. */
  ghost predicate OneResultEach(s: System) {
    TaskNodes(s.tasks) + NodesOf(s.list) + NodesOf(s.held) + NodesOf(s.collected) + NodesOf(s.lost) == s.current
  }

  /** Every earlier fan-in got exactly one result per dispatched node. */
  ghost predicate FullyCollected(round: (multiset<string>, seq<Result>)) {
    NodesOf(round.1) == round.0
  }

  ghost predicate Invariant(lim: Limits, s: System) {
    && Conserved(s) && OneResultEach(s)
    && |s.current| == |s.collected| + s.pending
    && (!s.closed ==> s.lost == [])
    && |s.waiting| + s.popped == s.continued
    && (forall t :: t in s.tasks ==> t.iteration <= lim.iterations(t.node) && t.attempt <= lim.retries(t.node))
    && (forall round :: round in s.history ==> FullyCollected(round))
  }

  lemma {:induction false} NodesSize(rs: seq<Result>)
    ensures |NodesOf(rs)| == |rs|
  {
    if rs != [] {
      NodesSize(rs[..|rs| - 1]);
    }
  }

  lemma {:induction false} TasksSize(ts: seq<Task>)
    ensures |TaskNodes(ts)| == |ts|
  {
    if ts != [] {
      TasksSize(ts[..|ts| - 1]);
    }
  }

  /** What the fan-in still waits for is what runs, is listed, is held, or went with the key. */
  lemma Outstanding(lim: Limits, s: System)
    requires Invariant(lim, s)
    ensures |s.tasks| + |s.list| + |s.held| + |s.lost| == s.pending
  {
    TasksSize(s.tasks);
    NodesSize(s.list);
    NodesSize(s.held);
    NodesSize(s.collected);
    NodesSize(s.lost);
  }

  /** When the fan-in has counted to zero: nothing runs, nothing is listed, held or lost, each node was answered once. */
  lemma RoundComplete(lim: Limits, s: System)
    requires Invariant(lim, s) && s.pending == 0
    ensures s.tasks == [] && s.list == [] && s.held == [] && s.lost == [] && NodesOf(s.collected) == s.current
  {
    Outstanding(lim, s);
  }

  lemma StepKeeps(lim: Limits, s: System, a: Step)
    requires Invariant(lim, s) && Enabled(lim, s, a)
    ensures Invariant(lim, Perform(lim, s, a))
  {
    match a
    case NextRound(nodes) => NextRoundKeeps(lim, s, nodes);
    case Dispatch => DispatchKeeps(lim, s, a);
    case DispatchInline(r) => DispatchKeeps(lim, s, a);
    case Push(i, r) => PushKeeps(lim, s, i, r);
    case Retry(i) => RetryKeeps(lim, s, i);
    case Continue(i) => ContinueKeeps(lim, s, i);
    case Pop(n) => PopKeeps(lim, s, n);
    case PushBack(i) => PushBackKeeps(lim, s, i);
    case Collect => CollectKeeps(lim, s);
    case FailDispatch => DeletionKeeps(lim, s, a);
    case Close => DeletionKeeps(lim, s, a);
  }

  lemma DeletionKeeps(lim: Limits, s: System, a: Step)
    requires Invariant(lim, s) && Enabled(lim, s, a) && (a.FailDispatch? || a.Close?)
    ensures Invariant(lim, Perform(lim, s, a))
  {
    hide NodesOf, TaskNodes, FullyCollected;
    assert s.lost == [] && s.lost + s.list == s.list;
    NothingListed();
  }

  lemma NothingListed()
    ensures NodesOf([]) == multiset{}
  {
  }

  lemma NextRoundKeeps(lim: Limits, s: System, nodes: seq<string>)
    requires Invariant(lim, s) && Enabled(lim, s, NextRound(nodes))
    ensures Invariant(lim, Perform(lim, s, NextRound(nodes)))
  {
    RoundComplete(lim, s);
  }

  lemma DispatchKeeps(lim: Limits, s: System, a: Step)
    requires Invariant(lim, s) && Enabled(lim, s, a) && (a.Dispatch? || a.DispatchInline?)
    ensures Invariant(lim, Perform(lim, s, a))
  {
    if a.Dispatch? {
      DispatchTaskKeeps(lim, s);
    } else {
      DispatchInlineKeeps(lim, s, a);
    }
  }

  lemma DispatchTaskKeeps(lim: Limits, s: System)
    requires Invariant(lim, s) && Enabled(lim, s, Dispatch)
    ensures Invariant(lim, Perform(lim, s, Dispatch))
  {
    hide NodesOf, TaskNodes, FullyCollected;
    TasksConcat(s.tasks, [Task(s.toDispatch[0], 0, 0)]);
    TasksOne(Task(s.toDispatch[0], 0, 0));
  }

  lemma DispatchInlineKeeps(lim: Limits, s: System, a: Step)
    requires Invariant(lim, s) && Enabled(lim, s, a) && a.DispatchInline?
    ensures Invariant(lim, Perform(lim, s, a))
  {
    hide NodesOf, TaskNodes, FullyCollected;
    NodesConcat([a.r], s.list);
    NodesOne(a.r);
  }

  lemma PushKeeps(lim: Limits, s: System, i: nat, r: Result)
    requires Invariant(lim, s) && Enabled(lim, s, Push(i, r))
    ensures Invariant(lim, Perform(lim, s, Push(i, r)))
  {
    hide Conserved, OneResultEach, FullyCollected;
    PushConserves(lim, s, i, r);
    PushAnswers(lim, s, i, r);
  }

  lemma PushConserves(lim: Limits, s: System, i: nat, r: Result)
    requires Conserved(s) && Enabled(lim, s, Push(i, r))
    ensures Conserved(Perform(lim, s, Push(i, r)))
  {
  }

  lemma PushAnswers(lim: Limits, s: System, i: nat, r: Result)
    requires OneResultEach(s) && Enabled(lim, s, Push(i, r))
    ensures OneResultEach(Perform(lim, s, Push(i, r)))
  {
    hide NodesOf, TaskNodes;
    var tasks, list := TaskNodes(Without(s.tasks, i)), NodesOf([r] + s.list);
    TasksWithout(s.tasks, i);
    NodesConcat([r], s.list);
    NodesOne(r);
    assert tasks + list == TaskNodes(s.tasks) + NodesOf(s.list);
    Regroup(tasks + list, NodesOf(s.held), NodesOf(s.collected), NodesOf(s.lost));
  }

  lemma Regroup(a: multiset<string>, b: multiset<string>, c: multiset<string>, d: multiset<string>)
    ensures a + b + c + d == a + (b + c + d)
  {
  }

  lemma TaskReplaced(ts: seq<Task>, i: nat, next: Task)
    requires i < |ts| && next.node == ts[i].node
    ensures TaskNodes(Without(ts, i) + [next]) == TaskNodes(ts)
  {
    hide TaskNodes;
    TasksWithout(ts, i);
    TasksConcat(Without(ts, i), [next]);
    TasksOne(next);
  }

  lemma RetryKeeps(lim: Limits, s: System, i: nat)
    requires Invariant(lim, s) && Enabled(lim, s, Retry(i))
    ensures Invariant(lim, Perform(lim, s, Retry(i)))
  {
    hide NodesOf, TaskNodes, FullyCollected;
    TaskReplaced(s.tasks, i, s.tasks[i].(attempt := s.tasks[i].attempt + 1));
  }

  lemma ContinueKeeps(lim: Limits, s: System, i: nat)
    requires Invariant(lim, s) && Enabled(lim, s, Continue(i))
    ensures Invariant(lim, Perform(lim, s, Continue(i)))
  {
    hide NodesOf, TaskNodes, FullyCollected;
    TaskReplaced(s.tasks, i, Task(s.tasks[i].node, s.tasks[i].iteration + 1, 0));
  }

  /** Moving items between two of five piles leaves the total as it was. */
  lemma Rebalance<T>(
    t: multiset<T>, a: multiset<T>, b: multiset<T>, c: multiset<T>, d: multiset<T>, a': multiset<T>, b': multiset<T>)
    requires a' + b' == a + b
    ensures t + a' + b' + c + d == t + a + b + c + d
    ensures t + a' + c + b' + d == t + a + c + b + d
    ensures a' + b' + c + d == a + b + c + d && a' + c + b' + d == a + c + b + d
  {
    assert t + a' + b' + c == t + (a' + b') + c;
    assert t + a' + c + b' == t + (a' + b') + c;
    assert a' + c + b' == (a' + b') + c;
  }

  /** The last of the list moves to another pile. */
  lemma LastMoves(list: seq<Result>, to: seq<Result>)
    requires list != []
    ensures var (rest, last) := (list[..|list| - 1], list[|list| - 1]);
            && NodesOf(rest) + NodesOf(to + [last]) == NodesOf(list) + NodesOf(to)
            && multiset(rest) + multiset(to + [last]) == multiset(list) + multiset(to)
  {
    hide NodesOf;
    var rest, last := list[..|list| - 1], list[|list| - 1];
    assert list == rest + [last];
    NodesConcat(rest, [last]);
    NodesConcat(to, [last]);
  }

  lemma PopKeeps(lim: Limits, s: System, n: string)
    requires Invariant(lim, s) && Enabled(lim, s, Pop(n))
    ensures Invariant(lim, Perform(lim, s, Pop(n)))
  {
    hide NodesOf, TaskNodes, FullyCollected;
    var s' := Perform(lim, s, Pop(n));
    LastMoves(s.list, s.held);
    Rebalance(multiset{}, multiset(s.list), multiset(s.held), multiset(s.collected), multiset(s.lost), multiset(s'.list), multiset(s'.held));
    Rebalance(TaskNodes(s.tasks), NodesOf(s.list), NodesOf(s.held), NodesOf(s.collected), NodesOf(s.lost), NodesOf(s'.list), NodesOf(s'.held));
  }

  lemma CollectKeeps(lim: Limits, s: System)
    requires Invariant(lim, s) && Enabled(lim, s, Collect)
    ensures Invariant(lim, Perform(lim, s, Collect))
  {
    hide NodesOf, TaskNodes, FullyCollected;
    var s' := Perform(lim, s, Collect);
    LastMoves(s.list, s.collected);
    Rebalance(multiset{}, multiset(s.list), multiset(s.collected), multiset(s.held), multiset(s.lost), multiset(s'.list), multiset(s'.collected));
    Rebalance(TaskNodes(s.tasks), NodesOf(s.list), NodesOf(s.collected), NodesOf(s.held), NodesOf(s.lost), NodesOf(s'.list), NodesOf(s'.collected));
  }

  lemma PushBackKeeps(lim: Limits, s: System, i: nat)
    requires Invariant(lim, s) && Enabled(lim, s, PushBack(i))
    ensures Invariant(lim, Perform(lim, s, PushBack(i)))
  {
    hide NodesOf, TaskNodes, FullyCollected;
    var s' := Perform(lim, s, PushBack(i));
    PushBackConserves(s.list, s.held, i);
    Rebalance(multiset{}, multiset(s.list), multiset(s.held), multiset(s.collected), multiset(s.lost), multiset(s'.list), multiset(s'.held));
    Rebalance(TaskNodes(s.tasks), NodesOf(s.list), NodesOf(s.held), NodesOf(s.collected), NodesOf(s.lost), NodesOf(s'.list), NodesOf(s'.held));
  }

  lemma PushBackConserves(list: seq<Result>, held: seq<Result>, i: nat)
    requires i < |held|
    ensures multiset([held[i]] + list) + multiset(Without(held, i)) == multiset(list) + multiset(held)
    ensures NodesOf([held[i]] + list) + NodesOf(Without(held, i)) == NodesOf(list) + NodesOf(held)
  {
    hide NodesOf;
    NodesWithout(held, i);
    ItemsWithout(held, i);
    NodesConcat([held[i]], list);
    NodesOne(held[i]);
  }

  // ---------- Order ----------

  /** Results in the order in which they came: those collected, then those listed, the oldest first. */
  ghost function InOrder(s: System): seq<Result> {
    s.collected + seq(|s.list|, i requires 0 <= i < |s.list| => s.list[|s.list| - 1 - i])
  }

  /**
   * First in, first out: a pushed result queues behind all others, and the fan-in takes the oldest. Only a waiting handler
   * changes the order: it takes the oldest and puts it behind all others.
   */
  lemma FirstInFirstOut(lim: Limits, s: System, a: Step)
    requires Enabled(lim, s, a) && !a.NextRound? && !a.FailDispatch? && !a.Close?
    ensures var s' := Perform(lim, s, a);
            match a
            case Push(_, r) => InOrder(s') == InOrder(s) + [r]
            case DispatchInline(r) => InOrder(s') == InOrder(s) + [r]
            case PushBack(i) => InOrder(s') == InOrder(s) + [s.held[i]]
            case Pop(_) =>
              var k := |s.collected|;
              InOrder(s') == InOrder(s)[..k] + InOrder(s)[k + 1..] && s'.held == s.held + [InOrder(s)[k]]
            case _ => InOrder(s') == InOrder(s)
  {
    hide InOrder;
    match a
    case Push(_, r) => Queued(s, Perform(lim, s, a), r);
    case DispatchInline(r) => Queued(s, Perform(lim, s, a), r);
    case PushBack(i) => Queued(s, Perform(lim, s, a), s.held[i]);
    case Pop(_) => OldestPopped(s, Perform(lim, s, a));
    case Collect => OldestCollected(s, Perform(lim, s, a));
    case Dispatch => SameOrder(s, Perform(lim, s, a));
    case Retry(_) => SameOrder(s, Perform(lim, s, a));
    case Continue(_) => SameOrder(s, Perform(lim, s, a));
    case NextRound(_) =>
    case FailDispatch =>
    case Close =>
  }

  lemma SameOrder(s: System, s': System)
    requires s'.list == s.list && s'.collected == s.collected
    ensures InOrder(s') == InOrder(s)
  {
  }

  lemma Queued(s: System, s': System, r: Result)
    requires s'.list == [r] + s.list && s'.collected == s.collected
    ensures InOrder(s') == InOrder(s) + [r]
  {
  }

  lemma OldestCollected(s: System, s': System)
    requires s.list != [] && s'.list == s.list[..|s.list| - 1] && s'.collected == s.collected + [s.list[|s.list| - 1]]
    ensures InOrder(s') == InOrder(s)
  {
  }

  lemma OldestPopped(s: System, s': System)
    requires s.list != [] && s'.list == s.list[..|s.list| - 1] && s'.collected == s.collected
    requires s'.held == s.held + [s.list[|s.list| - 1]]
    ensures var k := |s.collected|;
            && InOrder(s') == InOrder(s)[..k] + InOrder(s)[k + 1..] && s'.held == s.held + [InOrder(s)[k]]
  {
  }

  // ---------- Runs ----------

  ghost predicate Steps(lim: Limits, s: System, s': System) {
    exists a :: Enabled(lim, s, a) && s' == Perform(lim, s, a)
  }

  /** An execution of the orchestrator and all handlers, from the start. */
  ghost predicate Run(lim: Limits, ss: seq<System>) {
    && ss != [] && ss[0] == Initial()
    && forall i, j :: 0 <= i < j < |ss| && j == i + 1 ==> Steps(lim, ss[i], ss[j])
  }

  /** At every step of every run, no result is lost or duplicated and each node is owed exactly one. */
  lemma {:induction false} RunKeeps(lim: Limits, ss: seq<System>, k: nat)
    requires Run(lim, ss) && k < |ss|
    ensures Invariant(lim, ss[k])
  {
    hide Invariant, Enabled;
    if k == 0 {
      InitialHolds(lim);
    } else {
      RunKeeps(lim, ss, k - 1);
      assert Steps(lim, ss[k - 1], ss[k]);
      var a :| Enabled(lim, ss[k - 1], a) && ss[k] == Perform(lim, ss[k - 1], a);
      StepKeeps(lim, ss[k - 1], a);
    }
  }

  lemma InitialHolds(lim: Limits)
    ensures Invariant(lim, Initial())
  {
  }

  /**
   * Whenever a fan-in is complete: the list is empty, no handler holds a result, no task is live, and the fan-in and all
   * earlier ones got one result per dispatched node.
   */
  lemma FanInComplete(lim: Limits, ss: seq<System>, k: nat)
    requires Run(lim, ss) && k < |ss| && ss[k].pending == 0
    ensures ss[k].list == [] && ss[k].held == [] && ss[k].tasks == []
    ensures NodesOf(ss[k].collected) == ss[k].current
    ensures forall round :: round in ss[k].history ==> NodesOf(round.1) == round.0
  {
    RunKeeps(lim, ss, k);
    RoundComplete(lim, ss[k]);
  }

  /**
   * When the key is deleted, what is outstanding (live tasks, results listed or held) is what the round had dispatched and
   * not collected. So nothing is outstanding exactly when the execution ends between rounds, or when it is the first node
   * of a round whose dispatch fails.
   */
  lemma CleanDeletionIff(lim: Limits, ss: seq<System>, k: nat, a: Step)
    requires Run(lim, ss) && k < |ss| && Enabled(lim, ss[k], a) && (a.FailDispatch? || a.Close?)
    ensures |ss[k].tasks| + |ss[k].list| + |ss[k].held| == ss[k].pending
    ensures ss[k].tasks == [] && ss[k].list == [] && ss[k].held == [] <==> a.Close? || ss[k].pending == 0
  {
    RunKeeps(lim, ss, k);
    Outstanding(lim, ss[k]);
  }

  lemma RunMore(lim: Limits, ss: seq<System>, a: Step) returns (ss': seq<System>)
    requires Run(lim, ss) && Enabled(lim, ss[|ss| - 1], a)
    ensures Run(lim, ss') && ss' == ss + [Perform(lim, ss[|ss| - 1], a)]
  {
    hide Enabled, Perform;
    ss' := ss + [Perform(lim, ss[|ss| - 1], a)];
    forall i, j | 0 <= i < j < |ss'| && j == i + 1 ensures Steps(lim, ss'[i], ss'[j]) {
      if j < |ss| {
        assert Steps(lim, ss[i], ss[j]);
      }
    }
  }

  ghost predicate LeavesWaiting(s: System, n: string) {
    s.closed && s.tasks == [] && s.list == [] && s.waiting == multiset{n}
  }

  /** A handler may be left waiting for ever: here its own node's result is collected by the fan-in first. */
  lemma HandlerLeftWaiting(lim: Limits, n: string, r: Result)
    requires lim.iterations(n) > 0 && r.node == n
    ensures exists ss: seq<System> :: Run(lim, ss) && |ss| == 7 && LeavesWaiting(ss[6], n)
  {
    hide Run;
    var ss := RunStart(lim);
    ss := RunMore(lim, ss, NextRound([n]));
    ss := RunMore(lim, ss, Dispatch);
    ss := RunMore(lim, ss, Continue(0));
    assert ss[3].tasks == [Task(n, 1, 0)] && ss[3].list == [] && ss[3].waiting == multiset{n} && ss[3].toDispatch == [] && ss[3].pending == 1;
    LeftWaiting(lim, ss, n, r);
  }

  lemma RunStart(lim: Limits) returns (ss: seq<System>)
    ensures Run(lim, ss) && ss == [Initial()]
  {
    ss := [Initial()];
  }

  lemma LeftWaiting(lim: Limits, before: seq<System>, n: string, r: Result)
    requires Run(lim, before) && |before| == 4 && r.node == n
    requires var s := before[3];
             && s.tasks == [Task(n, 1, 0)] && s.list == [] && s.waiting == multiset{n}
             && s.toDispatch == [] && s.pending == 1 && !s.closed
    ensures exists ss: seq<System> :: Run(lim, ss) && |ss| == 7 && LeavesWaiting(ss[6], n)
  {
    hide Run;
    var ss := RunMore(lim, before, Push(0, r));
    ss := RunMore(lim, ss, Collect);
    ss := RunMore(lim, ss, Close);
  }

  /** At any time as many handlers wait as tasks have enqueued successors and not popped since. */
  lemma WaitingCount(lim: Limits, ss: seq<System>, k: nat)
    requires Run(lim, ss) && k < |ss|
    ensures |ss[k].waiting| == ss[k].continued - ss[k].popped
  {
    RunKeeps(lim, ss, k);
  }

  /** In the loop pass one node is dispatched at a time, and the result it waits for is that node's. */
  lemma SingleDispatchMatches(lim: Limits, ss: seq<System>, k: nat, n: string)
    requires Run(lim, ss) && k < |ss| && ss[k].pending == 0 && ss[k].current == multiset{n}
    ensures |ss[k].collected| == 1 && ss[k].collected[0].node == n
  {
    FanInComplete(lim, ss, k);
    NodesSize(ss[k].collected);
    var r := ss[k].collected[0];
    assert ss[k].collected == [r];
    NodesOne(r);
    assert r.node in multiset{n};
  }

  // ---------- Termination and progress ----------

  ghost function TaskCost(lim: Limits, t: Task): nat {
    var (r, a) := (lim.iterations(t.node), lim.retries(t.node));
    (if t.iteration <= r then (r - t.iteration) * (a + 4) else 0) + (if t.attempt <= a then a - t.attempt else 0) + 2
  }

  ghost function TasksCost(lim: Limits, ts: seq<Task>): nat {
    if ts == [] then 0 else TasksCost(lim, ts[..|ts| - 1]) + TaskCost(lim, ts[|ts| - 1])
  }

  ghost function DispatchCost(lim: Limits, ns: seq<string>): nat {
    if ns == [] then 0 else DispatchCost(lim, ns[1..]) + TaskCost(lim, Task(ns[0], 0, 0)) + 1
  }

  /** Each parent pops at most once, so a waiting handler is worth one pop and one push-back. */
  ghost function Measure(lim: Limits, s: System): nat {
    DispatchCost(lim, s.toDispatch) + TasksCost(lim, s.tasks) + 2 * |s.waiting| + 2 * |s.held| + |s.list| +
    if s.closed then 0 else 1
  }

  lemma {:induction false} CostConcat(lim: Limits, a: seq<Task>, b: seq<Task>)
    ensures TasksCost(lim, a + b) == TasksCost(lim, a) + TasksCost(lim, b)
  {
    if b == [] {
      assert a + b == a;
    } else {
      assert (a + b)[..|a + b| - 1] == a + b[..|b| - 1];
      CostConcat(lim, a, b[..|b| - 1]);
    }
  }

  lemma CostWithout(lim: Limits, ts: seq<Task>, i: nat)
    requires i < |ts|
    ensures TasksCost(lim, ts) == TasksCost(lim, Without(ts, i)) + TaskCost(lim, ts[i])
  {
    hide TasksCost, TaskCost;
    CostConcat(lim, ts[..i], ts[i + 1..]);
    CostConcat(lim, ts[..i], [ts[i]]);
    CostConcat(lim, ts[..i] + [ts[i]], ts[i + 1..]);
    CostOne(lim, ts[i]);
    assert ts == (ts[..i] + [ts[i]]) + ts[i + 1..];
  }

  lemma CostOne(lim: Limits, t: Task)
    ensures TasksCost(lim, [t]) == TaskCost(lim, t)
  {
    assert [t][..0] == [];
  }

  /** A successor task costs three less than its parent, which pays for the parent's wait. */
  lemma SuccessorCheaper(lim: Limits, t: Task)
    requires t.iteration < lim.iterations(t.node) && t.attempt <= lim.retries(t.node)
    ensures TaskCost(lim, Task(t.node, t.iteration + 1, 0)) + 2 < TaskCost(lim, t)
  {
    var (k, c) := (lim.iterations(t.node) - t.iteration, lim.retries(t.node) + 4);
    assert k * c == (k - 1) * c + c;
  }

  /** Within a round every step of anyone makes the measure smaller. */
  lemma StepDrops(lim: Limits, s: System, a: Step)
    requires Invariant(lim, s) && Enabled(lim, s, a) && !a.NextRound?
    ensures Measure(lim, Perform(lim, s, a)) < Measure(lim, s)
  {
    hide Invariant, TaskCost;
    match a
    case NextRound(_) =>
    case Dispatch =>
      CostConcat(lim, s.tasks, [Task(s.toDispatch[0], 0, 0)]);
      CostOne(lim, Task(s.toDispatch[0], 0, 0));
    case DispatchInline(r) =>
      CostPositive(lim, Task(r.node, 0, 0));
    case Push(i, r) =>
      CostWithout(lim, s.tasks, i);
      CostPositive(lim, s.tasks[i]);
    case Retry(i) =>
      SuccessorDrops(lim, s, a, i);
    case Continue(i) =>
      SuccessorDrops(lim, s, a, i);
    case Pop(n) =>
    case PushBack(i) =>
    case Collect =>
    case FailDispatch =>
      CostPositive(lim, Task(s.toDispatch[0], 0, 0));
    case Close =>
  }

  lemma CostPositive(lim: Limits, t: Task)
    ensures TaskCost(lim, t) >= 2
  {
  }

  lemma RetryCheaper(lim: Limits, t: Task)
    requires t.attempt < lim.retries(t.node)
    ensures TaskCost(lim, t.(attempt := t.attempt + 1)) < TaskCost(lim, t)
  {
  }

  lemma SuccessorDrops(lim: Limits, s: System, a: Step, i: nat)
    requires Invariant(lim, s) && Enabled(lim, s, a) && (a == Retry(i) || a == Continue(i))
    ensures Measure(lim, Perform(lim, s, a)) < Measure(lim, s)
  {
    hide Conserved, OneResultEach, FullyCollected, DispatchCost, TasksCost, TaskCost;
    var t := s.tasks[i];
    assert t in s.tasks;
    var next := if a.Retry? then t.(attempt := t.attempt + 1) else Task(t.node, t.iteration + 1, 0);
    CostWithout(lim, s.tasks, i);
    CostConcat(lim, Without(s.tasks, i), [next]);
    CostOne(lim, next);
    if a.Continue? {
      SuccessorCheaper(lim, t);
    } else {
      RetryCheaper(lim, t);
    }
  }

  /** A round of any number of steps by anyone is no longer than its measure. */
  lemma {:induction false} RoundsEnd(lim: Limits, ss: seq<System>, i: nat, j: nat)
    requires Run(lim, ss) && i <= j < |ss|
    requires forall k :: i <= k <= j ==> ss[k].history == ss[i].history
    ensures Measure(lim, ss[j]) + (j - i) <= Measure(lim, ss[i])
  {
    hide Invariant, Measure;
    if i < j {
      RoundsEnd(lim, ss, i, j - 1);
      RunKeeps(lim, ss, j - 1);
      assert Steps(lim, ss[j - 1], ss[j]);
      var a :| Enabled(lim, ss[j - 1], a) && ss[j] == Perform(lim, ss[j - 1], a);
      assert ss[j].history == ss[j - 1].history;
      StepDrops(lim, ss[j - 1], a);
    }
  }

  /** No deadlock: a round that is not complete can always take a step, even with parents left waiting. */
  lemma NoDeadlock(lim: Limits, s: System)
    requires Invariant(lim, s) && !s.closed && (s.toDispatch != [] || s.pending > 0)
    ensures exists a :: Enabled(lim, s, a) && !a.NextRound?
  {
    if s.toDispatch != [] {
      assert Enabled(lim, s, Dispatch);
    } else if s.tasks != [] {
      assert Enabled(lim, s, Push(0, Result(s.tasks[0].node, Null)));
    } else if s.held != [] {
      assert Enabled(lim, s, PushBack(0));
    } else {
      NodesSize(s.collected);
      assert s.list != [];
      assert Enabled(lim, s, Collect);
    }
  }
}
