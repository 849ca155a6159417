# Brockley's engine: a verified model

Brockley runs graphs of nodes. This project models the hard logic of its engine in Dafny and proves what the design
relies on. `dafny verify dfyconfig.toml` checks everything.

- **Scheduling** (`Graph`, `PortRules`, `Validation`, `Topo`, `Layers`, `Cycles`, `Acyclicity`): validation, topological sort and layering.
- **Forward pass** (`Skips`, `Nodes`, `Forward`, `GroupRules`, `Passes`, `Overreach`, `Dataflow`): concurrent groups of nodes
  as a state machine of critical sections, and the skips that untaken branches propagate.
- **Loops** (`LoopSpec`, `LoopFacts`, `LoopRules`, `Loops`, `InputNodes`): back-edges that run an interval of the graph again.
- **Workers** (`Worker`, `WorkerGroups`, `WorkerRounds`, `WorkerPasses`, `WorkerLoops`): the distributed engine around one
  Redis list per execution, compared with the in-process one.
- **LLM loops** (`ToolLoops`, `ToolRules`, `Detector`, `Superagent`): the tool loop in process and as a chain of tasks, the stuck
  detector and the agent loop.
- **Expressions** (`Tokens`, `Lexer`, `LexRules`, `Spelling`, `Syntax`, `Grammar`, `Recognition`, `Accepted`, `Parser`,
  `Printing`, `Rendering`, `Produced`, `RoundTrip`, `Grouping`, `Evaluation`, `EvalLaws`, `Totality`, `Scoping`).
- **Templates** (`Templates`, `TemplateParsing`, `TemplatePrinting`, `TemplateImage`, `TemplateRules`).
- **Small stateful pieces** (`ForEach`, `RateLimit`, `Streams`).

Code that changes things step by step is a class or a method with its loops, proved against a specification function;
the properties are lemmas about that function. What such functions compute is said once more without them, port by port,
operator by operator and case by case, in `PortRules`, `GroupRules`, `LoopRules`, `ToolRules`, `LexRules`, `Grouping`,
`EvalLaws` and `TemplateRules`. Goroutines and processes are state machines over their steps.

## Assumptions

They are preconditions or parameters in the model, and the claims are made under them.

- Node IDs are unique and edge endpoints exist, as validation checks. Edge IDs are unique, which it does not check, but
  dead edges are kept by ID.
- Executors are functions of the resolved inputs and the state fields they look at; conditions are oracles. For the
  forward pass, no member of a group touches a state field that another member writes, and no back-edge into a node
  without forward in-edges leaves a conditional or a node that conditionals can skip. Every graph whose back-edge targets
  have forward in-edges meets the latter (`Overreach.SafeGraphs`); by `Overreach.BackEdgesHarmlessIff` it is exactly what
  keeps back-edges from adding skips.
- The unlocked read of the skip flags is atomic.
- In the distributed protocol nothing times out or crashes, workers are never short, and node types are registered. Nodes
  that run in process may fail, and tasks may turn out impossible to build.
- A string's characters stand for the bytes of the source text: the lexer skips white space byte by byte, templates trim
  white space characters in UTF-8. The rate limiter's times and tokens are real numbers.
- Limits of the superagent are positive; its window is not empty.

## Where the code differs from what is said about it

The graphs of the examples pass the checks that every execution starts with (`Validation.Accepts`).

- Loops: a comment says input nodes keep their original outputs. Inside a body their outputs are deleted and never come
  back, and downstream of a loop they are overwritten (`InputNodes.InputKeptIff`, `InputNodes.InputOverwritten`); root nodes
  are safe when the back-edge target has a forward in-edge.
- Skips: a lifeless back-edge skips a target that has no forward in-edge (`Skips.BackEdgeOverreach`,
  `Overreach.SkipTheStart`).
- Workers: where the in-process engine records a failed node and goes on, the distributed one ends the execution if the node
  runs in its own process, and deletes the results key with tasks alive (`WorkerRounds.AskThenPick`,
  `WorkerRounds.AskAndPick`). Downstream of a loop it takes a failed task for one without outputs
  (`WorkerLoops.FailureTaken`). A handler may be left waiting for a result (`Worker.HandlerLeftWaiting`), and the history of a
  tool loop lacks the arguments of dispatched calls (`ToolLoops.LLMTask.DispatchAndCollect`).
- Superagent: the third escalation level, a forced exit, cannot occur, since the second resets the detector
  (`Superagent.ScanBounds`).
- Rate limit: the long-run rate can be twice the configured one (`RateLimit.RateBoundReached`); it is the configured one when
  nobody has to sleep (`RateLimit.NominalBound`).
- Templates: a second `#else` in one `#if` makes the parser start over for ever (`TemplateImage.TextEndsIff`).
- Streams: a gap in the call indexes is a nil dereference (`Streams.CrashesIff`), and of an ID or name in two pieces only the
  second is kept (`Streams.SplitNameLost`).
- Expressions: a lambda kept in an array can be applied to itself for ever (`Totality.StoredLambdaNeverEnds`). A lambda
  or ternary whose right end is a pipe ends before a following `.`, which then applies to the whole
  (`RoundTrip.ParensIffNeeded`). The documentation puts `|` below `? :` (docs/expressions/overview.md:80-84), but a pipe behind
  a ternary belongs to its last branch (`Grouping.PipeGroups`).

## Model

| member | source | states |
|---|---|---|
| Acyclicity.DecideThreeWays | engine/graph/validate.go:357-407 | On every graph with unique node IDs and existing endpoints, the depth-first search reports a cycle iff the topological sort fails iff the layering fails iff the forward edges contain a cycle; otherwise the order is a topological order, groups are indexed by longest path, and every forward edge leads to a strictly later group |
| Topo.TopologicalSort | engine/graph/topo.go:11-55 | Returns an order iff the forward edges have no cycle; the order is a permutation of the nodes in which every forward edge points forward, and it starts with all nodes that have no forward in-edge |
| Topo.ReleaseNeighbors | engine/graph/topo.go:37-48 | After a node is emitted and its neighbors are released one by one, each counter equals the number of forward edges from nodes not emitted yet, and exactly the nodes at zero are emitted or queued |
| Topo.KahnStuck | engine/graph/topo.go:50-52 | An empty queue with nodes left over proves a cycle |
| Layers.ParallelGroups | engine/graph/topo.go:59-107 | Groups iff there is no cycle; the groups partition the nodes, and a node is in group k iff the longest forward path ending at it has k edges, whatever order the node set is iterated in |
| Layers.ReadyLongest | engine/graph/topo.go:80-98 | A node becomes ready in round k only when its longest path has exactly k edges |
| Layers.ArcsCrossGroups | engine/graph/topo.go:57-58 | No two nodes of one group are connected: forward edges lead to later groups |
| Cycles.ReportsCycle | engine/graph/validate.go:357-407 | The colouring search reports a cycle iff one exists |
| Cycles.CycleFinder.Dfs | engine/graph/validate.go:375-402 | A search that finds nothing has finished its node and everything it finished before; a search that finds something has a real cycle on its current path, and the path is restored otherwise |
| Graphs.StuckIsCyclic | engine/graph/topo.go:95-97 | A non-empty set in which every node waits for another member contains a cycle |
| Graphs.TopoOrderIsAcyclic | engine/graph/topo.go:50-54 | An order with all forward edges pointing forward rules out cycles |
| Skips.SkipTable.MarkSkipped | engine/orchestrator/orchestrator.go:419-439 | The re-entrant recursion keeps every skip justified and, apart from the targets its callers still have to visit, leaves nothing to skip; the edges of skipped nodes outside the call stack are dead |
| Skips.SkipTable.HasLiveInput | engine/orchestrator/orchestrator.go:424-431 | True iff some forward in-edge is neither dead nor from a skipped node; back-edges are ignored |
| Skips.SkipTable.PropagateSkips | engine/orchestrator/orchestrator.go:404-417 | After a conditional exactly the edges leaving it at a null or missing port are cut in addition; the skipped nodes are exactly the least set closed under the skip rule for all edges cut so far, and the dead edges exactly the cut ones and those out of skipped nodes |
| Skips.SkipTable.MarkBranch | engine/orchestrator/orchestrator.go:406-414 | Cutting one more edge moves from the least set for the old cuts to the least set for the new ones, so completion order of conditionals does not matter |
| Skips.ForcedIsClosed | engine/orchestrator/orchestrator.go:419-439 | The intersection of all closed sets is itself closed: the least fixpoint exists |
| Skips.LeastIsForced | engine/orchestrator/orchestrator.go:419-439 | Any closed set inside all closed sets is that least set |
| Skips.ForcedGrows | engine/orchestrator/orchestrator.go:404-439 | Cutting more edges never un-skips a node |
| Skips.SkipsMean | engine/orchestrator/orchestrator.go:419-439 | The nodes skipped are the least set that obeys the rule written out: some edge into a node is cut or leaves a skipped node, and every forward edge into it is cut or leaves one |
| Skips.ForcedForwardFixedPoint | engine/orchestrator/orchestrator.go:424-438 | Without back-edges, a node is skipped iff it has a forward in-edge and all of them are dead or from skipped nodes |
| Skips.BackEdgeOverreach | engine/orchestrator/orchestrator.go:433-438 | The code skips more than the forward rule in exactly one situation: a lifeless back-edge into a node without forward in-edges |
| Overreach.BackEdgesHarmlessIff | engine/orchestrator/orchestrator.go:404-439 | For every set of branches that conditionals of one execution can cut, back-edges add no skip, iff no back-edge into a node without forward in-edges leaves a conditional or a node that conditionals can skip |
| Overreach.SafeGraphs | engine/orchestrator/orchestrator.go:424-438 | So a graph in which every back-edge target has a forward in-edge is safe, and so is one without conditionals |
| Overreach.SkipTheStart | engine/orchestrator/orchestrator.go:404-439 | On a graph of four nodes that validation accepts: when the conditional does not take its back-edge, the code skips the node the back-edge leads to, which no forward edge leads to, and the node behind it; by the forward rule nothing is skipped |
| NodeRuns.ResolveInputs | engine/orchestrator/orchestrator.go:341-378 | The three loops give every port the value of the last forward edge into it whose source holds its source port (null included), else the last state read on it whose field is present, else its last default, else nothing |
| NodeRuns.ResolvedPort | engine/orchestrator/orchestrator.go:341-378 | The same for every use of the resolution: edges before state reads before defaults, port by port, over the edges of the graph |
| PortRules.PortDetermined | engine/orchestrator/orchestrator.go:341-378 | These rules leave no choice |
| NodeRuns.ApplyStateWrites | engine/orchestrator/orchestrator.go:380-402 | Write bindings apply in turn, each port without an output writing nothing; of every field the result is in closed form: an array has grown by the values at its end, any other value is the last one written, or the first array written grown by the rest |
| NodeRuns.WrittenField | engine/orchestrator/orchestrator.go:380-402 | The same for every use of the state writes |
| NodeRuns.WrittenIsLocal | engine/orchestrator/orchestrator.go:380-402 | A node changes only the fields it writes, and what it makes of a field depends only on that field |
| NodeRuns.ResolveIsLocal | engine/orchestrator/orchestrator.go:341-378 | A node's inputs depend only on its forward predecessors' outputs and the state fields it reads |
| ForwardPass.StepKeeps | engine/orchestrator/orchestrator.go:151-250 | Every launch, resolve, snapshot, commit and propagate step of any goroutine keeps the invariant that ties outputs, state, skips, dead edges and records to what the group should have produced so far |
| ForwardPass.GroupConfluence | engine/orchestrator/orchestrator.go:123-254 | Whatever the interleaving, when the group's WaitGroup is done the world is the group's effect, described without schedules |
| GroupRules.GroupMeans | engine/orchestrator/orchestrator.go:151-250 | What that effect is for each node: a skipped one is recorded as such, an input node is passed over, any other runs its executor on what its ports hold, and its outputs are stored and recorded, or its failure is; nodes outside keep their outputs; exactly the branches that conditionals of the group did not take are cut |
| GroupRules.GroupState | engine/orchestrator/orchestrator.go:151-250 | A state field holds what the one member that ran and writes it gives it, or what it held |
| ForwardPass.EffectIsUnique | engine/orchestrator/orchestrator.go:123-254 | That effect determines outputs, state, skips, dead edges and step records: two worlds with the effect are equal |
| ForwardPass.OneAtATime | engine/orchestrator/orchestrator.go:123-254 | Running one node at a time is one of the schedules, so every interleaving agrees with it |
| ForwardPass.NoDeadlock | engine/orchestrator/orchestrator.go:123-254 | Until the wait returns, some goroutine can take a step |
| ForwardPass.SchedulesEnd | engine/orchestrator/orchestrator.go:123-254 | A group of k nodes takes at most 5k steps under any schedule |
| Passes.ForwardConfluence | engine/orchestrator/orchestrator.go:123-254 | Two executions of the whole forward pass, with their own layerings, group orders and interleavings, end in the same world |
| Passes.LayeringsAgree | engine/graph/topo.go:59-107 | Two layerings of one graph differ at most in the order within groups |
| Passes.LaterCutsDecideNothing | engine/orchestrator/orchestrator.go:136-148 | Skips of a group are decided before it starts: edges cut by its own or later nodes change nothing about it |
| Passes.OneStepPerNode | engine/orchestrator/orchestrator.go:136-246 | After a forward pass every node that is not an input node has exactly one step record (completed, failed or skipped), and nothing else has one |
| Dataflow.ForwardPassConsistent | engine/orchestrator/orchestrator.go:123-254 | After the forward pass every non-input node with outputs holds its executor applied to a state in which some group started and to inputs that agree with resolving over the current outputs |
| Loops.LoopRunner.ExecuteLoops | engine/orchestrator/loops.go:19-318 | Without back-edges nothing happens; a cyclic graph with some fails and changes nothing; otherwise one loop for each back-edge, in graph order, whose body is exactly the interval of the topological order from target to source (empty when the source comes first) and whose downstream part is exactly what the body reaches outside itself, and the loops do what the specification of these plans does. Every body holds all nodes on forward paths from target to source. When it succeeds a consistent dataflow stays consistent, and root outputs survive if every back-edge target has a forward in-edge |
| Loops.LoopRunner.Iterate | engine/orchestrator/loops.go:133-315 | Condition, iteration count, clearing of the body, back-edge injection, body and downstream nodes, as the specification orders them, with every failing exit |
| Loops.LoopRunner.ExecuteBody | engine/orchestrator/loops.go:173-252 | The body runs in order; the injected value overrides the back-edge port; input nodes are passed over; the first failure stops it with the state reached |
| Loops.LoopRunner.ExecuteDownstream | engine/orchestrator/loops.go:256-314 | Downstream nodes run once, in order, after a loop that ran, whatever their skip flags say; the first failure stops it with the state reached |
| LoopRules.IterationMeans | engine/orchestrator/loops.go:155-252 | Of every iteration, completed or failed: body outputs and skip flags are forgotten and the count is set; then the body runs node by node, each on inputs that hold, at the target port of the back-edge, what its source held when the iteration began, and at every other port what the rules of input resolution give; each record, output and state write is stored, up to the first failure |
| LoopRules.IterationsMean | engine/orchestrator/loops.go:135-153 | A loop iterates exactly while its condition, on the outputs of its source and the state, holds and its limit allows |
| LoopRules.LoopMeans | engine/orchestrator/loops.go:254-259 | The downstream part runs iff the iterations ended well and there was one |
| LoopRules.DownstreamMeans | engine/orchestrator/loops.go:256-314 | Downstream nodes run in order on what their ports hold, up to the first failure |
| Loops.BodyOf | engine/orchestrator/loops.go:65-91 | The body is the interval of the topological order from target to source, and empty when the source comes first |
| Loops.FindDownstream | engine/orchestrator/loops.go:93-131 | The breadth-first search returns exactly the nodes reached from the body by forward edges outside it, in topological order and all behind the source |
| Loops.ReachedIsLater | engine/orchestrator/loops.go:96-131 | Everything downstream comes after the source in the topological order |
| Loops.PlanGuarantees | engine/orchestrator/loops.go:133-315 | Any plan made from a topological order with its roots first keeps the dataflow invariant and the root outputs |
| LoopFacts.LoopConsistent | engine/orchestrator/loops.go:133-315 | A completed loop leaves no value computed from an overwritten predecessor, except through the back-edge port, and none computed from a state that the execution never had |
| LoopFacts.LoopsConsistent | engine/orchestrator/loops.go:133-315 | The same for any sequence of loops, nested or overlapping |
| LoopFacts.BodyHoldsPaths | engine/orchestrator/loops.go:65-91 | The interval contains every node on every forward path from the back-edge target to its source |
| LoopFacts.BodyMeans | engine/orchestrator/loops.go:65-84 | The body is exactly the part of the order from the target of the back-edge to its source |
| LoopFacts.BodyHoldsNoRoot | engine/orchestrator/loops.go:165-171 | When the target has a forward in-edge, neither the body nor the downstream part contains a root, because the sort emits all roots first |
| LoopFacts.RootsSurvive | engine/orchestrator/loops.go:165-171 | Outputs of root nodes, the inputs of the execution among them, are the same after all loops |
| InputNodes.InputKeptIff | engine/orchestrator/loops.go:133-315 | An input node keeps its outputs through all loops, whatever its executors do, iff no loop that runs has it in its body or downstream of it |
| InputNodes.InputKeptPlanned | engine/orchestrator/loops.go:50-131 | It keeps them whatever executors and conditions do iff the plan has it in no body and downstream of no loop |
| InputNodes.UntouchedKept | engine/orchestrator/loops.go:165-182 | No executor changes an input node that lies in no body and downstream of no loop that runs |
| InputNodes.InputOverwritten | engine/orchestrator/loops.go:256-314 | A graph of two nodes that validation accepts, on which the loop pass overwrites the outputs of an input node, whatever the caller gave |
| LoopFacts.LoopExit | engine/orchestrator/loops.go:135-156 | A loop stops at its limit or when its condition is false, and the recorded count is the last iteration that ran |
| LoopFacts.BodyRecords | engine/orchestrator/loops.go:173-252 | A completed iteration appends one completed record, with its iteration number, for each body node that is not an input node, in order |
| Worker.StepKeeps | worker/orchestrator.go:230-293 | Every step of the orchestrator (one that fails to dispatch, or ends and deletes the key, among them), of a task or of a waiting tool-loop handler keeps: results on the list + held between pop and re-push + collected + deleted with the key = results pushed; and each dispatched node has one live task or one result |
| Worker.RunKeeps | worker/llm_call.go:283-332 | So at any point of any run, over all rounds, aborted ones too, no result is duplicated, and none is lost but with the key |
| Worker.FanInComplete | worker/orchestrator.go:280-290 | When a fan-in has counted to zero the list is empty, nobody holds a result, no task lives, and this and every earlier fan-in got exactly one result per dispatched node |
| Worker.CleanDeletionIff | worker/orchestrator.go:1169-1207 | When the key is deleted, live tasks, listed and held results together are what is dispatched and not collected; there are none iff the execution ends between rounds or the first dispatch of a round fails |
| Worker.WaitingCount | worker/llm_call.go:283-332 | The handlers left waiting are at any time as many as successors were enqueued and not popped for |
| Worker.FirstInFirstOut | worker/orchestrator.go:801-833 | Results queue in the order in which they are pushed and the fan-in takes the oldest; only a waiting handler moves the oldest behind all others |
| Worker.HandlerLeftWaiting | worker/llm_call.go:283-332 | A run of seven states that ends with a handler waiting, because the fan-in collected the result it waits for |
| Worker.SingleDispatchMatches | worker/orchestrator.go:884-1105 | In the loop pass the one result popped is the dispatched node's own |
| Worker.StepDrops | worker/llm_call.go:283-332 | Every step within a round decreases one measure, because a parent pops and re-pushes at most once |
| Worker.RoundsEnd | worker/orchestrator.go:252-290 | No round is longer than its measure |
| Worker.NoDeadlock | worker/orchestrator.go:801-833 | A round that is not complete can always take a step |
| WorkerGroups.DistributedGroupEffect | worker/orchestrator.go:230-293 | A distributed group either aborts, iff a node that runs in process fails or a task cannot be built, or has the effect of the in-process group on outputs, state, skips and dead edges, in whatever order its results arrive |
| WorkerGroups.AbortsMean | worker/orchestrator.go:330-357 | A group aborts iff some runnable node runs in process (an input, conditional, output or other local node) and its executor fails on what its ports hold, or runs as a task that cannot be built from it |
| WorkerRounds.ReachesFanInIff | worker/orchestrator.go:251-282 | In every interleaving with the handlers, a group gets to its fan-in iff no dispatch of a runnable node of it fails |
| WorkerRounds.AbortLeaves | worker/orchestrator.go:739-771 | An aborted group has dispatched exactly the nodes before the first whose dispatch fails, and that many tasks and results are left or lost |
| WorkerRounds.RoundEffect | worker/orchestrator.go:836-881 | A round of the protocol that collects everything pops one result of each runnable node, and applying them in that order has the effect of the in-process group |
| WorkerRounds.AskThenPick | worker/orchestrator.go:760-771 | On a graph that validation accepts, a group of a task and a failing conditional: the key is deleted while the task lives |
| WorkerRounds.AskAndPick | engine/orchestrator/orchestrator.go:199-216 | In process the same group records the failure and keeps the outputs of the other node |
| WorkerPasses.DistributedConfluence | worker/orchestrator.go:206-228 | A distributed forward pass, with its own layering, interleavings and orders of results, goes through the worlds of any in-process pass (step records apart), and gets through all groups iff no dispatch fails in any of these worlds |
| WorkerLoops.LoopPassAgreesIff | worker/orchestrator.go:884-1110 | The distributed loop pass does what the in-process one does iff at no node that the latter runs a task cannot be built though the node would succeed, or a task downstream of a body fails; otherwise the results they take differ for good, and where the in-process pass completes the distributed one fails |
| WorkerLoops.FailureTaken | worker/orchestrator.go:1068-1107 | On a graph that validation accepts, a failed task downstream of a loop counts as one without outputs and the pass completes, where the in-process pass fails |
| ToolLoops.RunToolLoop | engine/executor/llm_tool_loop.go:146-365 | With a provider that may answer, fail or find the context done at any turn, and tools that may end the loop: iterations, calls, finish reason, error exits and provider calls are those of the specified loop; a result lists the calls made, in order, and its conversation is the prior one followed by rounds of one assistant message and the answers to its calls; an error gives no result |
| ToolLoops.RunCalls | engine/executor/llm_tool_loop.go:199-353 | Fails iff some call has headers that do not resolve or no client; otherwise the i-th call gets the i-th tool message and history entry, with what the interceptor, or else the tool, answered, and an error if it is neither |
| ToolRules.LoopEnds | engine/executor/llm_tool_loop.go:158-200 | Every loop runs n rounds, each answering a response with finish reason tool_calls and some calls that the limits allow and that can all be answered; the next turn at the provider decides: cancelled, an error, the finish reason of a response that is not such a one, limit_reached iff it is and a limit would be exceeded, or an error iff one of its calls cannot be answered; and the calls made are those requested in these rounds |
| ToolRules.AttemptsSettle | worker/llm_call.go:64-75 | Of the attempts at one response in the chain the first that succeeds counts; it fails iff all retries allowed do |
| ToolLoops.LLMTask.ProcessTask | worker/llm_call.go:61-122 | One task of the chain ends with the specified ending of the whole loop, or enqueues a retry while attempts remain, or hands on a state from which the ending is the same |
| ToolLoops.LLMTask.DispatchAndCollect | worker/llm_call.go:126-280 | Unknown tools are answered at once, the others in any order of completion; together exactly the requested IDs are answered, each as often as requested; the history keeps the arguments of unknown tools only |
| ToolLoops.RunChain | worker/llm_call.go:37-123 | The chain of tasks, retries included, ends as the in-process loop does with a provider that fails when the last attempt fails: same iterations, total calls and finish reason, same rounds up to the order of answers |
| ToolLoops.DistinctCallsAnsweredOnce | engine/executor/llm_tool_loop.go:199-353 | With distinct call IDs each requested call gets exactly one tool message, and nothing else is answered |
| ToolLoops.EndingBounds | engine/executor/llm_tool_loop.go:185-190 | A tool loop never exceeds its round and call limits, calls the provider at most once more than there are rounds, and reports a limit only when a further round would have exceeded one |
| Lexing.Lexer.Lex | engine/expression/lexer.go:25-144 | The scanning loop returns the specified tokens with a closing EOF, or fails iff the specification does |
| Lexing.Lexer.LexToken | engine/expression/lexer.go:36-139 | One turn reads exactly the next token, `-` before a digit being a sign iff an operand is expected |
| Lexing.Lexer.LexString | engine/expression/lexer.go:162-197 | A string literal ends at its unescaped quote; known escapes are replaced and unknown ones kept with their backslash |
| Lexing.Lexer.LexNumber | engine/expression/lexer.go:199-227 | The longest integer, or decimal when a digit follows the point |
| LexRules.EscapesRead | engine/expression/lexer.go:168-190 | A string of one escape: n, t, backslash and both quotes are replaced, any other character is kept with its backslash |
| LexRules.QuotesRead | engine/expression/lexer.go:162-197 | Each kind of quote stands for itself inside the other; an open string is an error |
| LexRules.WordsRead | engine/expression/lexer.go:229-249 | true, false and null are words of their own, any other word is a name |
| LexRules.SignsRead | engine/expression/lexer.go:199-205 | A minus before a digit is a sign where an operand is expected, and an operator elsewhere |
| LexRules.NumbersMean | engine/expression/parser.go:332-338 | Integer literals are decimal, with their sign |
| Spelling.ReadsBack | engine/expression/lexer.go:36-139 | A token written with escapes is read back as itself before any text that does not run on |
| Spelling.LexRender | engine/expression/lexer.go:25-160 | Any sequence of well-spelled tokens, with signs only where operands are expected and any whitespace that keeps tokens apart, lexes back to itself |
| Spelling.SpacingLegible | engine/expression/lexer.go:146-160 | A blank only where the previous token would run on is such a spacing |
| Parsing.Parser.ParseExpression | engine/expression/parser.go:55-88 | Leaves the cursor behind the longest pipe expression and returns its tree, or fails iff the grammar does |
| Parsing.Parser.ParseBinary | engine/expression/parser.go:116-234 | The seven operator loops are left-associative and take their operands from the next level |
| Parsing.Parser.ParsePostfix | engine/expression/parser.go:250-321 | Chains of `.`, `?.`, `[...]` and `(...)`; a member call becomes a pipe |
| Parsing.Parser.ParsePrimaryExpr | engine/expression/parser.go:324-389 | Literals, names, greedy lambdas, parentheses, arrays and objects, with the range errors of 64-bit integers and floats |
| Parsing.Parser.ParseObjectFields | engine/expression/parser.go:413-443 | Keys and values in order; names or strings as keys |
| Parsing.ParseInput | engine/expression/parser.go:15-29 | Lexing, one expression, end of input: the result is what the text denotes, and None exactly when it denotes nothing |
| Grammar.ParseFull | engine/expression/parser.go:55-459 | Completeness: every tree that is well formed before a next token is parsed back from its tokens, and nothing beyond it is read |
| Recognition.ParseSound | engine/expression/parser.go:55-459 | Soundness: what is parsed is well formed, and the tokens consumed are exactly its tokens |
| Accepted.ParsesExactly | engine/expression/parser.go:15-29 | The parser accepts exactly the token sequences of well-formed trees followed by the end, and returns that tree |
| Accepted.Unambiguous | engine/expression/parser.go:55-459 | Two well-formed trees with the same tokens are equal |
| Grouping.OperatorsGroup | engine/expression/parser.go:90-234 | In every legible text `x o y o2 z` of names or parenthesised expressions: the operators group as in the list ??, ||, &&, == !=, > >= < <=, + -, * / % from loose to tight, the tighter taking the operand between them, and of equally tight ones the left |
| Grouping.NamesGroup | engine/expression/parser.go:90-234 | The same for the very text with blanks between names and operators |
| Grouping.NegationGroups | engine/expression/parser.go:237-247 | `!` takes the operand behind it with its member accesses, and not what an operator adds |
| Grouping.MembersGroup | engine/expression/parser.go:250-321 | Member access binds tighter than any operator |
| Grouping.ConditionGroups | engine/expression/parser.go:90-114 | `?` takes the whole operator expression before it |
| Grouping.BranchGroups | engine/expression/parser.go:90-114 | `:` takes the whole operator expression behind it |
| Grouping.PipeGroups | engine/expression/parser.go:60-114 | `|` takes the whole operator expression before it; behind a ternary it belongs to the last branch |
| Grouping.AccessRead | engine/expression/parser.go:250-321 | `x.f`, `x?.f` and `x[i]` denote the accesses they look like |
| Grouping.CallRead | engine/expression/parser.go:250-321 | `x(a, b)` denotes the call with these arguments in this order |
| Grouping.FilterRead | engine/expression/parser.go:60-88 | `x | f(a, b)` denotes the filter f on x with these arguments |
| Grouping.MemberCallRead | engine/expression/parser.go:250-321 | `x.f(a, b)` denotes the same filter |
| Grouping.TernaryRead | engine/expression/parser.go:90-114 | `x ? y : z` denotes the ternary with these branches |
| Grouping.ObjectsRead | engine/expression/parser.go:413-443 | `{k: x, "s": y}` denotes the object with these keys and values |
| Grouping.LiteralsRead | engine/expression/parser.go:324-350 | String, integer and float literals denote their values |
| Printing.WriteFaithful | engine/expression/parser.go:55-389 | The tree printed for an expression in any context is well formed there and denotes the expression |
| Printing.IntegerTextBack | engine/expression/parser.go:332-338 | Printed 64-bit integers parse back to themselves |
| Produced.LexedWell | engine/expression/lexer.go:25-144 | Every token the lexer returns is one that printing can spell, or the closing EOF |
| Rendering.TreeWritten | engine/expression/lexer.go:146-160 | In the tokens of any spelled tree, signed numbers stand only where the lexer reads `-` as a sign |
| RoundTrip.PrintedReadsBack | engine/expression/parser.go:15-29 | For every printable expression, lexing and parsing its printed text returns it; this covers lambdas, pipes in branches, negative literals, strings with escapes |
| RoundTrip.AnyTextReadsBack | engine/expression/parser.go:15-29 | The same for every other legible text of a well-formed tree, however it is spaced and parenthesised |
| RoundTrip.ReadPrintRead | engine/expression/parser.go:15-29 | Whatever a text was parsed to, printing it and parsing again gives the same expression |
| RoundTrip.DenotableIffPrintable | engine/expression/parser.go:15-29 | The expressions some text denotes are exactly the printable ones |
| RoundTrip.ParensNeeded | engine/expression/parser.go:237-389 | Where printing adds parentheses, every way of writing the expression there has them |
| RoundTrip.ParensIffNeeded | engine/expression/parser.go:55-389 | Printing parenthesises an operand of any level before any token iff it cannot be written there without; a lambda or ternary whose right end is a pipe stays bare before `.`, `+` and the like |
| TemplateParsing.ParseTemplateInner | engine/expression/template.go:67-161 | On text and positions, the recursive loop returns the specified nodes and position, else sentinel, restart or error, for every template on which it ends |
| TemplateParsing.ReadTag | engine/expression/template.go:86-93 | One tag, trimmed, and where it ends |
| Templates.Terminates | engine/expression/template.go:67-161 | Unless an `#if` with two `#else` is reached, one step per segment is enough and the outcome is the specified one |
| Templates.NeverPasses | engine/expression/template.go:100-127 | An `#if` with two `#else` is never passed from any position before it and in any block: the position goes back to 0 |
| Templates.ParsingEndsIff | engine/expression/template.go:96-127 | Parsing ends iff no reached `#if` has a second `#else` |
| TemplateImage.TextEndsIff | engine/expression/template.go:67-161 | The same stated for the text of a template |
| TemplateImage.SecondElseNeverEnds | engine/expression/template.go:96-127 | A concrete template on which parsing never ends |
| TemplateRules.IfRead | engine/expression/template.go:96-127 | `{{ #if c }}` A `{{ #else }}` B `{{ /if }}` is read as a conditional with condition c, branch A and else branch B |
| TemplateRules.IfOnlyRead | engine/expression/template.go:112-127 | Without `#else` the else branch is empty |
| TemplateRules.EachRead | engine/expression/template.go:129-139 | `{{ #each e }}` A `{{ /each }}` is read as a loop over e with body A |
| TemplateRules.LeavesRead | engine/expression/template.go:70-155 | Text without tags, an expression in braces, and a raw block with its content untouched |
| TemplateRules.Unclosed | engine/expression/template.go:157-160 | An unclosed block is an error |
| TemplatePrinting.PrintedParsesBack | engine/expression/template.go:62-161 | Printing a tree in normal form and parsing the text returns the tree: nested if/else, each and raw blocks |
| TemplateImage.ReadIsNormal | engine/expression/template.go:62-161 | What the parser returns is in normal form |
| TemplateImage.ReadPrintRead | engine/expression/template.go:62-161 | Reading, printing and reading again changes nothing |
| TemplateImage.TemplatesAreNormal | engine/expression/template.go:62-161 | The trees of templates are exactly those in normal form |
| Totality.FirstOrderTotal | engine/expression/eval.go:44-95 | If lambdas stand only as direct arguments of map and filter, evaluation ends with fuel equal to their nesting depth, and no value it yields contains a lambda |
| Totality.FirstOrderResult | engine/expression/eval.go:44-95 | ... and the result is the same for every sufficient fuel |
| Totality.FuelKept | engine/expression/eval.go:44-95 | For any expression, more fuel changes no result |
| Totality.StoredLambdaNeverEnds | engine/expression/eval.go:510-532 | Without the restriction evaluation need not end: a lambda stored in an array and applied to itself exhausts every fuel |
| Totality.OmegaIsWritten | engine/expression/parser.go:15-29 | Some text denotes that expression |
| Totality.ArrayFilterFree | engine/expression/eval.go:458-472 | Filters that move values about make no lambda |
| EvalLaws.TernaryChooses | engine/expression/eval.go:281-290 | A ternary takes its else branch for null, false, the empty string, zero and the empty array, its first branch for every other value, and fails with its condition |
| EvalLaws.LiteralConditions | engine/expression/eval.go:281-290 | So for literal conditions: `true ? t : f` is t, `false ? t : f` is f, and so on |
| EvalLaws.LogicIsTernary | engine/expression/eval.go:184-279 | `a && b` is `a ? b : a`, `a || b` is `a ? a : b`, `!a` is `a ? false : true` |
| EvalLaws.ConditionsNest | engine/expression/eval.go:184-290 | As conditions they nest: `(a && b) ? t : f` is `a ? (b ? t : f) : f`, and likewise for `||` and `!` |
| EvalLaws.Coalesces | engine/expression/eval.go:292-301 | `a ?? b` is b exactly when a is null |
| EvalLaws.DefaultCoalesces | engine/expression/eval.go:292-301 | The filter default does the same when its argument has a value |
| EvalLaws.OperatorsApply | engine/expression/eval.go:210-268 | Other operators apply to the values of both sides, in this order, and fail with them |
| EvalLaws.Names | engine/expression/eval.go:97-118 | Lambda parameters hide the parts of the context; an unknown name is null |
| EvalLaws.ArraysHold | engine/expression/eval.go:321-331 | An array holds the values of its elements, in order, and has a value iff all of them do |
| EvalLaws.IndexFinds | engine/expression/eval.go:157-182 | An index counts from the start, or from the end when negative, and gives null outside |
| EvalLaws.FieldsFind | engine/expression/eval.go:333-344 | A field of an object literal is the value of the last entry with its key, or null |
| EvalLaws.AccessesAgree | engine/expression/eval.go:127-155 | `?.` and `.` agree, and give null where there is no object or no such key |
| EvalLaws.MapsItems | engine/expression/eval.go:510-532 | map gives an array of the same length: in order, what the body makes of each item |
| EvalLaws.FiltersItems | engine/expression/eval.go:545-575 | filter keeps exactly the items, themselves and in order, of which the body, as a condition, holds |
| EvalLaws.MapsFields | engine/expression/eval.go:534-540 | With a text map reads that field of every item |
| EvalLaws.EndsAndReverse | engine/expression/eval.go:458-472 | first and last are the ends of an array and reverse turns it round |
| EvalLaws.SliceCuts | engine/expression/eval.go:684-713 | slice gives the items from start to end, with both cut to the array |
| EvalLaws.KeepsFirsts | engine/expression/eval.go:715-730 | unique keeps exactly the items no earlier one of which has the same key |
| Scoping.Bindings.FilterMap | engine/expression/eval.go:510-532 | The loop over clones of the context computes the specified mapping and leaves the caller's bindings as they were |
| Scoping.Bindings.FilterFilter | engine/expression/eval.go:545-575 | The same for filter, which keeps the items themselves in order |
| Scoping.Bindings.Clone | engine/expression/eval.go:21-32 | A clone has the same bindings and is a different object |
| Scoping.OnlyFreeNamesMatter | engine/expression/eval.go:97-118 | The result of a first-order expression depends only on the names free in it, with map and filter binding their parameter |
| Detector.StuckDetector.Record | engine/executor/superagent.go:69-103 | Signals a breach iff some hash occurs at least repeatThreshold times among the last min(n, windowSize) records; the level is decided by the breaches since the last reset |
| Detector.StuckDetector.Push | engine/executor/superagent.go:74-79 | The ring buffer holds the last min(n, windowSize) records, oldest first from head |
| Detector.StuckDetector.CountHashes | engine/executor/superagent.go:81-85 | The counts are the multiplicities in the filled part |
| Detector.StuckDetector.ResetBreaches | engine/executor/superagent.go:106-108 | A reset forgets the breaches and keeps the window |
| Detector.OldRecordsForgotten | engine/executor/superagent.go:74-79 | Records older than the window have no influence |
| Detector.WideThresholdNeverBreaches | engine/executor/superagent.go:86-94 | A threshold above the window size never signals |
| Superagent.Agent.RunAgentLoop | engine/executor/superagent.go:484-663 | The loop with the real ring buffer and the real tool loop ends with the reason and counters of the specified run, also when a tool loop fails or its context ends, and its history has one entry per counted tool call |
| Superagent.Agent.Respond | engine/executor/superagent.go:573-593 | The answer to one level: nothing, a warning, a reflection with a reset, or the end |
| Superagent.Agent.DetectStuck | engine/executor/superagent.go:571-594 | The pass over an iteration's calls warns, reflects and resets as specified |
| Superagent.ScanBounds | engine/executor/superagent.go:571-594 | Between records at most one breach is outstanding, warnings and reflections alternate, every reflection uses up two breaches, and a forced exit never happens |
| Superagent.AgentBounds | engine/executor/superagent.go:433-663 | For every provider, tool, context and evaluator, failing ones too: total calls <= maxTotalCalls - 1 + maxCallsPerIteration; tool-loop provider calls <= maxIterations * (maxRounds + 1); reflections <= maxReflections + (maxCallsPerIteration + 1) / 2; the reasons max_tool_calls and max_iterations are given exactly when those limits are reached; and an error is a failed reflection or a failed tool loop |
| Superagent.AgentTells | engine/executor/superagent.go:484-663 | Every iteration before the last gave no reason to end, and the reason of a run is true: done only for a verdict that no more work is needed, timeout and cancelled only for a context that was met in that state, stuck only beyond or, on a verdict of being stuck, at the limit of reflections, max_tool_calls and max_iterations at these limits, an error only for a failed reflection or tool loop |
| ForEach.StepKeeps | engine/executor/foreach.go:65-123 | Every critical section of the spawning loop and the goroutines keeps the invariant, at most `concurrency` items running at once |
| ForEach.ResultDetermined | engine/executor/foreach.go:126-144 | In continue mode results are the successful outputs in item order, errors a permutation of the failing items, together as many as items; in abort mode an error is returned iff some item fails, and it is the error of an executed item |
| ForEach.SuccessesMean | engine/executor/foreach.go:126-137 | The successful outputs stand in item order, each at the place the successes before it leave it |
| ForEach.FailuresMean | engine/executor/foreach.go:100-112 | The failures are the failing items, each once |
| ForEach.SchedulesAgree | engine/executor/foreach.go:65-144 | Two complete schedules give the same results, and the same errors up to order |
| ForEach.NoDeadlock | engine/executor/foreach.go:80-83 | The semaphore never deadlocks |
| ForEach.RunsEnd | engine/executor/foreach.go:65-125 | Every schedule is finite |
| RateLimit.TokenBucketLimiter.Wait | engine/provider/ratelimit.go:85-113 | A call refills up to the maximum, takes a token or empties the bucket and waits for the missing part; it is admitted unless it had to wait and was cancelled |
| RateLimit.ServedKeeps | engine/provider/ratelimit.go:85-113 | Tokens stay within [0, maxTokens], and admissions plus remaining credit grow by at most twice the refill |
| RateLimit.RateBound | engine/provider/ratelimit.go:85-113 | A run of T seconds admits at most maxTokens + 2 * refillRate * T calls |
| RateLimit.RateBoundReached | engine/provider/ratelimit.go:90-106 | For every k some run of k / refillRate seconds admits maxTokens + 2k calls, because a wait leaves lastRefill before the sleep |
| RateLimit.RunAccounts | engine/provider/ratelimit.go:85-113 | The exact balance of every run: admissions plus what is left equal the nominal amount plus the missing parts of tokens that admitted calls slept for, less what overflowed or was thrown away |
| RateLimit.NominalBoundIff | engine/provider/ratelimit.go:85-113 | A run of T seconds keeps to maxTokens + refillRate * T iff the slept-for parts are covered by what was lost and left, and exceeds it at most by these parts |
| RateLimit.NominalBound | engine/provider/ratelimit.go:98-101 | The configured rate holds for every run in which no arrival finds less than one token |
| RateLimit.OneSleepExceeds | engine/provider/ratelimit.go:103-112 | One sleep of an admitted call, with a call right behind it, exceeds the configured rate by one |
| Streams.StreamDecoder.DecodeStreamToolCalls | engine/provider/codec_openai.go:153-212 | Chunks without the finish reason only accumulate; the finishing chunk returns the merged calls in index order and empties the accumulator, or crashes iff an index is missing |
| Streams.Absorb | engine/provider/codec_openai.go:177-194 | IDs and names replace, arguments append, per index |
| Streams.AccumulatedAt | engine/provider/codec_openai.go:177-194 | What is accumulated at an index depends only on the fragments at that index |
| Streams.FragmentationInvariant | engine/provider/codec_openai.go:181-209 | The decoder returns these calls iff the fragments mention exactly their indexes and, per index, the last IDs and names that are not empty and the joined arguments are those of the call |
| Streams.CrashesIff | engine/provider/codec_openai.go:199-207 | The decoder crashes iff the indexes mentioned are not 0, 1, 2, ... without a gap |
| Streams.SplitComesBackIff | engine/provider/codec_openai.go:181-209 | Calls whose IDs, names and arguments are cut into any pieces, interleaved in any way across indexes, come back iff no ID and no name was cut |
| Streams.SplitNameLost | engine/provider/codec_openai.go:187-190 | A name that comes in two pieces is returned as its second piece |
| Streams.DecodeAll | engine/provider/codec_openai.go:153-212 | A whole response gives what its fragments together give, however they are spread over chunks |

## Left out

- Superagent.AgentBounds: evaluator, reflection and compaction calls are not counted as provider calls.
- TemplateParsing.ParseTemplateInner: is stated for templates on which parsing ends; for the others `TemplateImage.TextEndsIff` shows that it does not.
- Totality.FirstOrderTotal: operators, comparisons and the filters that yield plain values are parameters that return lambda-free values; numbers, JSON and regular expressions are opaque.
- WorkerGroups.DistributedGroupEffect: step records are left out, because the distributed engine numbers and stores them elsewhere.
- ToolLoops.RunToolLoop: the last response in a result, timeouts of single tool calls (their errors are replies), and an error text's list of tools.
- ToolLoops.RunChain: the chain has no interceptor and its answers are compared up to order.
- Parsing.ParseInput: the values of floats; they keep their text, and only their range is checked.
- WorkerLoops.LoopPassAgreesIff: that each result popped is the dispatched node's is `Worker.SingleDispatchMatches`; missing outputs and absent ones read alike in Go and are apart in the model.
- WorkerRounds.ReachesFanInIff: failures to enqueue a task or to reach Redis.
- Lexing.Lexer.Lex: positions of tokens, used only in error texts.
- Loops.LoopRunner.ExecuteLoops: durations, events and node contexts.
- Rendering of templates: it needs number formatting; parsing and its round trip are modelled.
- I/O: providers, MCP and API tools, Redis delivery, retries and their delays, databases, server, command line, web UI.
- Prompts, evaluator texts, context compaction, secrets.
- The superagent's distributed handler: the in-process loop carries the bounds.
- The distributed copies of input resolution, state writes and skips: they are the in-process functions again.
- Aliasing of Go slices and maps: values do not share memory in the model.
- Validation as a procedure: `Validation.Accepts` states its checks of graphs, without schemas, node names, configurations and condition texts, and with every input port required.
- Buffers, memory store, task tracker, retry policies, step writer, pagination.
