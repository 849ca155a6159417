/** The superagent's outer loop and its bounds. */
module Superagent {
  import opened Options
  import opened Detector
  import opened ToolLoops

  // Tool loops, stuck detection, evaluation and reflection under limits. The loop is proved against a function of its
  // configuration and of what the outside world answers; the bounds are proved of that function.

  datatype Config = Config(
    maxIterations: int, maxTotalCalls: int, maxCallsPerIteration: int, maxRounds: int, maxReflections: int,
    evaluatorDisabled: bool, windowSize: nat, repeatThreshold: int)

  /** The context: running, past its deadline, or cancelled. */
  datatype Context = Live | DeadlineExceeded | Cancelled

  /** An evaluator that failed, with the context at that moment, or its verdict. */
  datatype Verdict = Failed(context: Context) | Verdict(needsMoreWork: bool, stuckDetected: bool)

  /**
   * What the outside answers: the context before an iteration and when its tool loop failed, the tool loops, the evaluator,
   * reflections.
   */
  datatype World = World(
    context: nat -> Context,
    loop: nat -> Env,
    broken: nat -> Context,
    evaluate: nat -> Verdict,
    reflects: nat -> bool,
    hash: (string, string) -> Hash)

  datatype Tally = Tally(iteration: nat, totalCalls: nat, providerCalls: nat, warnings: nat, reflections: nat, log: seq<Event>)

  /** How a run ends; no reason is an error. */
  datatype Exit = Exit(reason: Option<string>, tally: Tally)

  datatype Scan = Scanned(tally: Tally) | Stopped(exit: Exit)

  const START := Tally(0, 0, 0, 0, 0, [])

  function Why(c: Context): Option<string> {
    match c
    case Live => None
    case DeadlineExceeded => Some("timeout")
    case Cancelled => Some("cancelled")
  }

  // ---------- The run as a function ----------

  ghost function SignalOf(cfg: Config, log: seq<Event>): StuckLevel {
    Signal(log, cfg.windowSize, cfg.repeatThreshold)
  }

  /** A warning, a reflection or the end, once a call is in the log. */
  function Responded(world: World, level: StuckLevel, t: Tally): Scan {
    match level
    case StuckNone => Scanned(t)
    case StuckWarn => Scanned(t.(warnings := t.warnings + 1))
    case StuckReflect =>
      if !world.reflects(t.reflections) then Stopped(Exit(None, t))
      else Scanned(t.(log := t.log + [Reset], reflections := t.reflections + 1))
    case StuckForceExit => Stopped(Exit(Some("stuck"), t))
  }

  /** Stuck detection over the calls of one iteration. */
  ghost function ScanCalls(cfg: Config, world: World, calls: seq<Call>, t: Tally): Scan {
    if calls == [] then Scanned(t)
    else
      var log := t.log + [Event.Call(world.hash(calls[0].name, calls[0].arguments))];
      var next := Responded(world, SignalOf(cfg, log), t.(log := log));
      if next.Stopped? then next else ScanCalls(cfg, world, calls[1..], next.tally)
  }

  /** The evaluator's verdict on an iteration. */
  function Evaluated(cfg: Config, world: World, t: Tally): Scan {
    if cfg.evaluatorDisabled then Scanned(t)
    else
      match world.evaluate(t.iteration)
      case Failed(context) => if Why(context).Some? then Stopped(Exit(Why(context), t)) else Scanned(t)
      case Verdict(needsMoreWork, stuckDetected) =>
        if !needsMoreWork then Stopped(Exit(Some("done"), t))
        else if !stuckDetected then Scanned(t)
        else if t.reflections >= cfg.maxReflections then Stopped(Exit(Some("stuck"), t))
        else if !world.reflects(t.reflections) then Stopped(Exit(None, t))
        else Scanned(t.(reflections := t.reflections + 1, log := t.log + [Reset]))
  }

  function LoopEnding(cfg: Config, world: World, iteration: nat): Ending {
    EndingFrom(world.loop(iteration), cfg.maxRounds, cfg.maxCallsPerIteration, 0, 0)
  }

  function AfterToolLoop(cfg: Config, world: World, t: Tally): Tally {
    var ending := LoopEnding(cfg, world, t.iteration);
    t.(totalCalls := t.totalCalls + (if ending.Error? then 0 else ending.totalCalls),
       providerCalls := t.providerCalls + ending.providerCalls)
  }

  function CallsOf(cfg: Config, world: World, iteration: nat): seq<Call> {
    CallsFrom(world.loop(iteration), cfg.maxRounds, cfg.maxCallsPerIteration, 0, 0)
  }

  /** One iteration, up to its last check. */
  ghost function Iteration(cfg: Config, world: World, t: Tally): Scan {
    if Why(world.context(t.iteration)).Some? then Stopped(Exit(Why(world.context(t.iteration)), t))
    else
      var t1 := AfterToolLoop(cfg, world, t);
      if LoopEnding(cfg, world, t.iteration).Error? then Stopped(Exit(Why(world.broken(t.iteration)), t1))
      else if t1.totalCalls >= cfg.maxTotalCalls then Stopped(Exit(Some("max_tool_calls"), t1))
      else
        var scan := ScanCalls(cfg, world, CallsOf(cfg, world, t.iteration), t1);
        if scan.Stopped? then scan
        else
          var verdict := Evaluated(cfg, world, scan.tally);
          if verdict.Scanned? && verdict.tally.reflections > cfg.maxReflections then Stopped(Exit(Some("stuck"), verdict.tally))
          else verdict
  }

  ghost function Run(cfg: Config, world: World, t: Tally): Exit
    decreases if cfg.maxIterations > t.iteration then cfg.maxIterations - t.iteration else 0
  {
    if t.iteration >= cfg.maxIterations then Exit(Some("max_iterations"), t)
    else
      match Iteration(cfg, world, t)
      case Stopped(exit) => exit
      case Scanned(t') => Run(cfg, world, t'.(iteration := t.iteration + 1))
  }

  // ---------- The loop ----------

  class Agent {
    const cfg: Config
    const world: World
    const detector: StuckDetector
    var iteration: nat
    var totalToolCalls: nat
    var reflectionCount: nat
    var warnings: nat
    var providerCalls: nat
    var messages: seq<Message>
    var history: seq<Entry>

    constructor (cfg: Config, world: World, prior: seq<Message>)
      requires cfg.windowSize > 0
      ensures this.cfg == cfg && this.world == world && Valid() && Now() == START
      ensures fresh(detector) && fresh(detector.window) && messages == prior && history == []
    {
      this.cfg, this.world := cfg, world;
      detector := new StuckDetector(cfg.windowSize, cfg.repeatThreshold);
      iteration, totalToolCalls, reflectionCount, warnings, providerCalls := 0, 0, 0, 0, 0;
      messages, history := prior, [];
    }

    ghost predicate Valid()
      reads this, detector, detector.window
    {
      detector.Valid() && detector.windowSize == cfg.windowSize && detector.repeatThreshold == cfg.repeatThreshold
    }

    ghost function Now(): Tally
      reads this, detector
    {
      Tally(iteration, totalToolCalls, providerCalls, warnings, reflectionCount, detector.log)
    }

    /** Reflection: false when the provider fails. */
    method Reflect() returns (ok: bool)
      requires Valid()
      modifies this`reflectionCount, this`messages, detector`breachCount, detector`log
      ensures Valid() && ok == world.reflects(old(reflectionCount))
      ensures Now() == if ok then old(Now()).(reflections := old(reflectionCount) + 1, log := old(detector.log) + [Reset]) else old(Now())
    {
      ok := world.reflects(reflectionCount);
      if ok {
        messages := messages + [Prior("[Reflection]")];
        reflectionCount := reflectionCount + 1;
        detector.ResetBreaches();
      }
    }

    /** What follows from the level of one record. */
    method Respond(level: StuckLevel) returns (stop: Option<Option<string>>)
      requires Valid()
      modifies this`reflectionCount, this`warnings, this`messages, detector`breachCount, detector`log
      ensures Valid()
      ensures match Responded(world, level, old(Now()))
              case Scanned(t) => stop == None && Now() == t
              case Stopped(exit) => stop == Some(exit.reason) && Now() == exit.tally
    {
      match level {
        case StuckNone =>
        case StuckWarn =>
          messages := messages + [Prior("WARNING: You appear to be repeating the same tool calls.")];
          warnings := warnings + 1;
        case StuckReflect =>
          var ok := Reflect();
          if !ok {
            return Some(None);
          }
        case StuckForceExit =>
          return Some(Some("stuck"));
      }
      return None;
    }

    /** Stuck detection over the new entries; Some(reason) stops the run. */
    method DetectStuck(entries: seq<Entry>, ghost calls: seq<Call>) returns (stop: Option<Option<string>>)
      requires Valid() && Records(entries, calls)
      modifies this`reflectionCount, this`warnings, this`messages, detector, detector.window
      ensures Valid()
      ensures match ScanCalls(cfg, world, calls, old(Now()))
              case Scanned(t) => stop == None && Now() == t
              case Stopped(exit) => stop == Some(exit.reason) && Now() == exit.tally
    {
      hide Signal, Ring, Breaches, Recorded, EndingFrom, CallsFrom, Run;
      ghost var spec := ScanCalls(cfg, world, calls, Now());
      assert calls[0..] == calls;
      for i := 0 to |entries|
        invariant Valid() && spec == ScanCalls(cfg, world, calls[i..], Now())
        invariant iteration == old(iteration) && totalToolCalls == old(totalToolCalls) && providerCalls == old(providerCalls)
      {
        assert calls[i..][1..] == calls[i + 1..];
        var level := detector.Record(world.hash(entries[i].name, entries[i].arguments));
        stop := Respond(level);
        if stop.Some? {
          return;
        }
      }
      return None;
    }

    method Evaluate() returns (stop: Option<Option<string>>)
      requires Valid()
      modifies this`reflectionCount, this`messages, detector`breachCount, detector`log
      ensures Valid()
      ensures match Evaluated(cfg, world, old(Now()))
              case Scanned(t) => stop == None && Now() == t
              case Stopped(exit) => stop == Some(exit.reason) && Now() == exit.tally
    {
      if cfg.evaluatorDisabled {
        return None;
      }
      match world.evaluate(iteration) {
        case Failed(context) =>
          return if context == Live then None else Some(Why(context));
        case Verdict(needsMoreWork, stuckDetected) =>
          if !needsMoreWork {
            return Some(Some("done"));
          }
          if stuckDetected {
            if reflectionCount >= cfg.maxReflections {
              return Some(Some("stuck"));
            }
            var ok := Reflect();
            if !ok {
              return Some(None);
            }
          }
          return None;
      }
    }

    method Iterate() returns (stop: Option<Option<string>>)
      requires Valid()
      modifies this, detector, detector.window
      ensures Valid() && iteration == old(iteration)
      ensures match Iteration(cfg, world, old(Now()))
              case Scanned(t) => stop == None && Now() == t
              case Stopped(exit) => stop == Some(exit.reason) && Now() == exit.tally
      ensures |history| - |old(history)| == totalToolCalls - old(totalToolCalls)
    {
      hide ScanCalls, Evaluated, EndingFrom, CallsFrom, Records, Conversation;
      var context := world.context(iteration);
      if context != Live {
        return Some(Why(context));
      }
      var out := RunToolLoop(world.loop(iteration), cfg.maxRounds, cfg.maxCallsPerIteration, messages);
      providerCalls := providerCalls + out.providerCalls;
      if out.ending.Error? {
        return Some(Why(world.broken(iteration)));
      }
      messages := out.messages;
      history := history + out.history;
      totalToolCalls := totalToolCalls + out.ending.totalCalls;
      if totalToolCalls >= cfg.maxTotalCalls {
        return Some(Some("max_tool_calls"));
      }
      stop := DetectStuck(out.history, CallsOf(cfg, world, iteration));
      if stop.Some? {
        return;
      }
      stop := Evaluate();
      if stop.Some? {
        return;
      }
      if reflectionCount > cfg.maxReflections {
        return Some(Some("stuck"));
      }
    }

    method RunAgentLoop() returns (reason: Option<string>)
      requires Valid() && Now() == START && history == []
      modifies this, detector, detector.window
      ensures Exit(reason, Now()) == Run(cfg, world, START)
      ensures |history| == totalToolCalls
    {
      hide Iteration;
      while iteration < cfg.maxIterations
        invariant Valid() && Run(cfg, world, START) == Run(cfg, world, Now())
        invariant |history| == totalToolCalls
        decreases cfg.maxIterations - iteration
      {
        ghost var before := Now();
        var stop := Iterate();
        if stop.Some? {
          return stop.value;
        }
        iteration := iteration + 1;
      }
      return Some("max_iterations");
    }
  }

  // ---------- Bounds ----------

  predicate Sensible(cfg: Config) {
    cfg.maxIterations > 0 && cfg.maxTotalCalls > 0 && cfg.maxCallsPerIteration > 0 && cfg.maxRounds > 0 && cfg.maxReflections >= 0
  }

  ghost function Pending(cfg: Config, t: Tally): nat {
    Breaches(t.log, cfg.windowSize, cfg.repeatThreshold)
  }

  /** A call adds at most one breach, and signals by the number of breaches it finds. */
  lemma OneCall(cfg: Config, log: seq<Event>, hash: Hash)
    ensures var log' := log + [Event.Call(hash)];
            var before, after := Breaches(log, cfg.windowSize, cfg.repeatThreshold), Breaches(log', cfg.windowSize, cfg.repeatThreshold);
            && (SignalOf(cfg, log') == StuckNone ==> after == before)
            && (SignalOf(cfg, log') != StuckNone ==> after == before + 1 && SignalOf(cfg, log') == LevelOf(after))
  {
    assert (log + [Event.Call(hash)])[..|log|] == log;
  }

  lemma Forgiven(cfg: Config, log: seq<Event>)
    ensures Breaches(log + [Reset], cfg.windowSize, cfg.repeatThreshold) == 0
  {
  }

  /**
   * Between records at most one breach is outstanding, so a forced exit never happens: breaches alternate between
   * a warning and a reflection, and every reflection uses up two of them.
   */
  lemma {:induction false} ScanBounds(cfg: Config, world: World, calls: seq<Call>, t: Tally)
    requires Pending(cfg, t) <= 1
    ensures var scan := ScanCalls(cfg, world, calls, t);
            var t' := if scan.Scanned? then scan.tally else scan.exit.tally;
            && t'.iteration == t.iteration && t'.totalCalls == t.totalCalls && t'.providerCalls == t.providerCalls
            && t.reflections <= t'.reflections
            && 2 * (t'.reflections - t.reflections) <= Pending(cfg, t) + |calls|
            && (scan.Scanned? ==>
                  && Pending(cfg, t') <= 1
                  && t'.warnings - t.warnings == t'.reflections - t.reflections + Pending(cfg, t') - Pending(cfg, t)
                  && 2 * (t'.reflections - t.reflections) + Pending(cfg, t') <= Pending(cfg, t) + |calls|)
            && (scan.Stopped? ==> scan.exit.reason == None && !world.reflects(t'.reflections))
  {
    hide Signal, Breaches, SignalOf;
    if calls != [] {
      var log := t.log + [Event.Call(world.hash(calls[0].name, calls[0].arguments))];
      OneCall(cfg, t.log, world.hash(calls[0].name, calls[0].arguments));
      Forgiven(cfg, log);
      var next := Responded(world, SignalOf(cfg, log), t.(log := log));
      assert SignalOf(cfg, log) != StuckForceExit;
      if next.Scanned? {
        ScanBounds(cfg, world, calls[1..], next.tally);
      }
    }
  }

  /** What holds whenever an iteration starts. */
  ghost predicate WithinLimits(cfg: Config, t: Tally) {
    && t.iteration <= cfg.maxIterations && t.totalCalls < cfg.maxTotalCalls && t.reflections <= cfg.maxReflections
    && t.providerCalls <= t.iteration * (cfg.maxRounds + 1) && Pending(cfg, t) <= 1
  }

  /** What holds when a run ends, and what the reason says. */
  ghost predicate Bounded(cfg: Config, world: World, exit: Exit) {
    var t := exit.tally;
    && t.totalCalls <= cfg.maxTotalCalls - 1 + cfg.maxCallsPerIteration
    && t.providerCalls <= cfg.maxIterations * (cfg.maxRounds + 1)
    && t.reflections <= cfg.maxReflections + (cfg.maxCallsPerIteration + 1) / 2
    && (exit.reason == Some("max_tool_calls") <==> t.totalCalls >= cfg.maxTotalCalls)
    && (exit.reason == Some("max_iterations") <==> t.iteration == cfg.maxIterations)
    && (exit.reason == Some("stuck") ==> t.reflections >= cfg.maxReflections)
    && (exit.reason == None ==> !world.reflects(t.reflections) || LoopEnding(cfg, world, t.iteration).Error?)
  }

  lemma {:induction false} CallsCount(env: Env, maxRounds: int, maxCalls: int, k: nat, total: nat)
    ensures var ending := EndingFrom(env, maxRounds, maxCalls, k, total);
            ending.Ending? ==> total + |CallsFrom(env, maxRounds, maxCalls, k, total)| == ending.totalCalls
    decreases if maxRounds > k then maxRounds - k else 0
  {
    hide Breaks;
    if env.respond(k).Complete? {
      var resp := env.respond(k).response;
      if AsksForTools(resp) && k < maxRounds && total + |resp.calls| <= maxCalls && !Breaks(env, resp.calls, total) {
        CallsCount(env, maxRounds, maxCalls, k + 1, total + |resp.calls|);
      }
    }
  }

  lemma MoreRounds(a: nat, b: nat, c: nat)
    requires a <= b
    ensures a * c <= b * c && (a + 1) * c == a * c + c
  {
    assert (b - a) * c >= 0;
    assert b * c == a * c + (b - a) * c;
  }

  lemma IterationBounds(cfg: Config, world: World, t: Tally)
    requires Sensible(cfg) && WithinLimits(cfg, t) && t.iteration < cfg.maxIterations
    ensures var out := Iteration(cfg, world, t);
            && (out.Scanned? ==> WithinLimits(cfg, out.tally.(iteration := t.iteration + 1)))
            && (out.Stopped? ==> Bounded(cfg, world, out.exit))
  {
    hide Breaches, ScanCalls;
    var env := world.loop(t.iteration);
    EndingBounds(env, cfg.maxRounds, cfg.maxCallsPerIteration, 0, 0);
    CallsCount(env, cfg.maxRounds, cfg.maxCallsPerIteration, 0, 0);
    MoreRounds(t.iteration, cfg.maxIterations, cfg.maxRounds + 1);
    MoreRounds(t.iteration + 1, cfg.maxIterations, cfg.maxRounds + 1);
    var t1 := AfterToolLoop(cfg, world, t);
    var calls := CallsOf(cfg, world, t.iteration);
    ScanBounds(cfg, world, calls, t1);
    var scan := ScanCalls(cfg, world, calls, t1);
    if scan.Scanned? {
      Forgiven(cfg, scan.tally.log);
    }
  }

  /** Every run ends within its limits, and its reason says which of them stopped it. */
  lemma {:induction false} RunBounds(cfg: Config, world: World, t: Tally)
    requires Sensible(cfg) && WithinLimits(cfg, t)
    ensures Bounded(cfg, world, Run(cfg, world, t))
    decreases cfg.maxIterations - t.iteration
  {
    hide Iteration, Breaches;
    if t.iteration < cfg.maxIterations {
      IterationBounds(cfg, world, t);
      var out := Iteration(cfg, world, t);
      if out.Scanned? {
        RunBounds(cfg, world, out.tally.(iteration := t.iteration + 1));
      }
    } else {
      MoreRounds(t.iteration, cfg.maxIterations, cfg.maxRounds + 1);
    }
  }

  /** The bounds of a whole run. */
  lemma AgentBounds(cfg: Config, world: World)
    requires Sensible(cfg)
    ensures Bounded(cfg, world, Run(cfg, world, START))
  {
    RunBounds(cfg, world, START);
  }

  // ---------- Why a run ends ----------

  ghost predicate LoopFails(cfg: Config, world: World, i: nat) {
    EndingFrom(world.loop(i), cfg.maxRounds, cfg.maxCallsPerIteration, 0, 0).Error?
  }

  /** The evaluator, if it is asked, fails with this context or gives this verdict. */
  predicate Evaluates(cfg: Config, world: World, i: nat, verdict: Verdict) {
    !cfg.evaluatorDisabled && world.evaluate(i) == verdict
  }

  predicate SaysDone(cfg: Config, world: World, i: nat) {
    !cfg.evaluatorDisabled && world.evaluate(i).Verdict? && !world.evaluate(i).needsMoreWork
  }

  predicate SaysStuck(cfg: Config, world: World, i: nat) {
    !cfg.evaluatorDisabled && world.evaluate(i).Verdict? && world.evaluate(i).needsMoreWork && world.evaluate(i).stuckDetected
  }

  /** This context was met before the iteration, when its tool loop failed, or when its evaluator failed. */
  ghost predicate Met(cfg: Config, world: World, i: nat, c: Context) {
    || world.context(i) == c
    || (LoopFails(cfg, world, i) && world.broken(i) == c)
    || Evaluates(cfg, world, i, Verdict.Failed(c))
  }

  /** Nothing in the iteration itself ends the run. */
  ghost predicate GoesOn(cfg: Config, world: World, i: nat) {
    && world.context(i) == Live && !LoopFails(cfg, world, i) && !SaysDone(cfg, world, i)
    && (cfg.evaluatorDisabled || world.evaluate(i) == Verdict.Failed(Live) || world.evaluate(i).Verdict?)
  }

  /** What the reason of a run that ended in its tally's iteration tells. */
  ghost predicate Because(cfg: Config, world: World, exit: Exit) {
    var (t, i) := (exit.tally, exit.tally.iteration);
    if exit.reason == Some("max_iterations") then i >= cfg.maxIterations
    else if exit.reason == Some("max_tool_calls") then t.totalCalls >= cfg.maxTotalCalls
    else if exit.reason == Some("done") then SaysDone(cfg, world, i)
    else if exit.reason == Some("timeout") then Met(cfg, world, i, DeadlineExceeded)
    else if exit.reason == Some("cancelled") then Met(cfg, world, i, Context.Cancelled)
    else if exit.reason == Some("stuck") then
      t.reflections > cfg.maxReflections || (SaysStuck(cfg, world, i) && t.reflections >= cfg.maxReflections)
    else exit.reason == None && (!world.reflects(t.reflections) || (LoopFails(cfg, world, i) && world.broken(i) == Live))
  }

  lemma IterationTells(cfg: Config, world: World, t: Tally)
    requires Sensible(cfg) && WithinLimits(cfg, t) && t.iteration < cfg.maxIterations
    ensures var out := Iteration(cfg, world, t);
            && (out.Scanned? ==> GoesOn(cfg, world, t.iteration) && out.tally.iteration == t.iteration)
            && (out.Stopped? ==> Because(cfg, world, out.exit) && out.exit.tally.iteration == t.iteration)
            && (out.Stopped? && SaysDone(cfg, world, t.iteration) && world.context(t.iteration) == Live &&
                !LoopFails(cfg, world, t.iteration) && out.exit.reason.Some? ==>
                  out.exit.reason == Some("done") || out.exit.reason == Some("max_tool_calls"))
  {
    hide Breaches, ScanCalls;
    var t1 := AfterToolLoop(cfg, world, t);
    ScanBounds(cfg, world, CallsOf(cfg, world, t.iteration), t1);
  }

  /**
   * Every run: the iterations before the last gave it no reason to end, and its reason is one of those named, for the cause
   * named with it.
   */
  lemma {:induction false} RunTells(cfg: Config, world: World, t: Tally)
    requires Sensible(cfg) && WithinLimits(cfg, t)
    ensures var exit := Run(cfg, world, t);
            && Because(cfg, world, exit)
            && forall j :: t.iteration <= j < exit.tally.iteration ==> GoesOn(cfg, world, j)
    decreases cfg.maxIterations - t.iteration
  {
    hide Iteration, Breaches, GoesOn;
    if t.iteration < cfg.maxIterations {
      IterationTells(cfg, world, t);
      IterationBounds(cfg, world, t);
      var out := Iteration(cfg, world, t);
      if out.Scanned? {
        RunTells(cfg, world, out.tally.(iteration := t.iteration + 1));
      }
    }
  }

  lemma AgentTells(cfg: Config, world: World)
    requires Sensible(cfg)
    ensures var exit := Run(cfg, world, START);
            Because(cfg, world, exit) && forall j :: 0 <= j < exit.tally.iteration ==> GoesOn(cfg, world, j)
  {
    RunTells(cfg, world, START);
  }
}
