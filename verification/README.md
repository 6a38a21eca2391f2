# The message path of syslog-ng, modelled and proved in Dafny

syslog-ng compiles its configuration into a graph of pipes, sends every message
through that graph, queues it for destinations, and keeps sources from
overrunning them.  This project models that path and proves what it promises.
`dafny verify dfyconfig.toml` checks all of it.

**Log paths.**  `LogExpr` gives log expressions a direct meaning: a list of what
happens to one message, without pipes, links or matched cells.  `CfgTree` is the
compiler on values, `LogPipe` the traversal of a pipe graph with its chain of
path options.  The main theorem (`LogPathTheorem`) says that the compiled graph
does exactly what the expression means.  Its proof has two halves that meet in
the relation `Wiring.Wired`: compiling produces wired pipes (`CompileShape`,
`CompileWires`), and wired pipes run the meaning (`PipeRuns`, `WiringRuns`,
`WiredRuns`).  A continuation stands for what follows an expression, and a
mismatch names the enclosing junction it belongs to by its level, so that the
statement is the same at every nesting depth.  `CfgTreeCompiler` is the compiler
as an object that links pipes in place, including the initialization of
multiplexers, and `LogMultiplexer` its queueing loops; both are proved equal to
the functions, so the theorem is about them.  `LoadedConfig` puts the pieces
together.  `LogStatements`, `LogStatementWires` and `SourceDispatch` add the
sources: a message goes to all log statements that refer to its source, and this
is where the flags of a statement count.  `ForkReading` says what a fork does
branch by branch, so that the dispatch can be stated in terms of statements
alone. `IfChains` covers the if/elif/else builders, `AckBalance` a law of any
graph.  `Brackets` and `CompiledBrackets` are about the options a pipe is handed:
they follow every path through the pipes, whatever the messages do.

**Destination queue.**  `FifoSteps` is the queue as a state machine whose steps
are critical sections; what a producer reads of lists the output thread is
changing may be any number.  `FifoConservation`, `FifoOrder`, `FifoOverflow` and
`FifoWakeups`, on what is dropped and who is notified, are about all runs;
`FifoQueue` is the object with its loops.  `TokenBucket` and `LogQueueThrottle`
model the throttle.

**Flow control.**  `FlowControl` models one source and the pool, `FlowControlRuns`
any number of sources, `LogSource` the objects.  Acknowledgements and rebalancing
run in different threads without a lock, so both are taken apart at every access
to a shared counter.

**Threads.**  `SchedulerPartition`, `Scheduler` and `LogScheduler` model the
parallel scheduler, `SchedulerProgress` shows that it passes everything on,
`MainLoopCall` and `MainLoopTasks` calls into the main thread, `InternalSource`
and `AfInter` the internal() source.

**Scanner.**  `FindCrlf` proves the word-at-a-time search for line ends.

Where a promise does not hold of the code as it is, the project gives a concrete
run and the exact condition under which it holds:

* rewinding the whole backlog puts it behind the output list
  (`RewindAllSwaps`, `RewindAllKeepsLineIff`, `RewindAllInOrderIff`), although the
  queue is meant to be first in, first out;
* the drop calculation keeps only 16 bits of the input length
  (`WideInputIsKept`, `MoveBoundedIff`);
* a rebalancing that meets an acknowledgement half way, or between its own two
  reads, reclaims the same credits twice (`ReclaimedTwice`, `AdvanceCoveredIff`,
  `CarefulIsNeeded`), and a source cannot be closed with a large reclaimed window
  (`ClosedTooEarly`, `CloseOkIff`);
* new tokens are kept in 32 bits, and a clock below one second counts as "never
  checked" (`LongPauseExceedsRate`, `RateBoundIff`, `FirstSecondWaitsInVain`,
  `WaitEarnsIff`);
* the body of an `if` or `elif` may carry `flags(fallback)`; then a condition that
  holds does not run it as long as anything later in the chain matches
  (`FallbackBodyIsSkipped`, `KeepsOrderIff`).

Assumptions that become parameters: what a configured element does with a message
(`Behaviour`), what a called function returns (`Functions`), the racy reads of a
producer (`seen`), clock values, the hash of a partition key, and the address and
byte order of a scanned buffer.  References between named objects are acyclic,
witnessed by a rank; `WellFormed` describes the trees the grammar builds.

## Model

| member | source | states |
|---|---|---|
| `LogPathTheorem.CompiledRunsMeaning` | lib/cfg-tree.c:814-1449 | Compilation preserves meaning: every well-formed log expression compiles, and for every message, path options, state and sufficient call depth, handing the message to the compiled and initialized graph equals performing the direct recursive reading of the expression, including the order of deliveries, every matched cell and the ack count |
| `LogPathTheorem.CompiledPathObserved` | lib/logmpx.c:78-176 | The observable form: exactly the deliveries of the reading, in order and under the right flow control; only the matched cell of the enclosing path may change, and it is cleared exactly when the reading does not match; one outstanding ack per delivery; the traversal ends |
| `SourceDispatch.SourceDispatches` | lib/cfg-tree.c:884-923 | Every configuration of well-formed log statements compiles, and a message of a source performs the fork of the statements that refer to it, in configuration order: up to the first matching final one, fallback statements only if no other matched; for all options, states and sufficient call depths |
| `SourceDispatch.SourceDelivers` | lib/logmpx.c:78-176 | The observable form for a message straight from its source: the deliveries of those statements, one outstanding ack each, and the traversal ends |
| `SourceDispatch.SourceServes` | lib/cfg-tree.c:884-923 | The same without forks, hops and compiled flags: a message straight from its source is delivered by the statements that refer to it and have no matching final statement of their kind in front of them, in configuration order, then by the fallback statements if no other statement matches |
| `SourceDispatch.OnlyFinalStops` | lib/logmpx.c:78-119 | A statement without the final flag never keeps a later statement of its kind from its deliveries, even if both match |
| `ForkReading.ForkDelivers` | lib/logmpx.c:78-119 | What the two passes over the branches of a fork deliver, branch by branch: a branch delivers exactly if no earlier branch of its kind is final and matches, and a fallback branch moreover only if no other branch matches |
| `ForkReading.ForkMatchesIff` | lib/logmpx.c:146-168 | The path around a fork of branches that judge only themselves matches unless the fork propagates and none of its branches matches |
| `ForkReading.TryMatchesIff` | lib/logmpx.c:93-119 | A pass over the branches of a kind matches exactly if one of them does |
| `LogExpr.BranchFlags` | lib/logmpx.c:50-55 | The flags the head pipe of a compiled branch ends up with say final and fallback exactly as the first expressions of the branch do, and nothing else |
| `SourceDispatch.StatementsFeed` | lib/cfg-tree.c:909-919 | The multiplexer behind a source has one hop per reference, in the order of the statements |
| `LogStatementWires.StatementWires` | lib/cfg-tree.c:1118-1182 | Every reference leads through the source join to its statement, whose flags are on the way; destinations are wired once |
| `LogStatementWires.StatementIsDone` | lib/cfg-tree.c:1118-1182 | A well-formed statement compiles; other pipes change only by hops added behind sources |
| `StatementChains.StatementChainsEnd` | lib/logmpx.c:52-55 | Following pipe_next ends in every compiled configuration, so the walk along a branch terminates |
| `LoadedConfig.Load` | lib/cfg-tree.c:1558-1660 | Compiling and starting log statements in place yields a graph that dispatches the messages of every source as the statements say |
| `LoadedConfig.InitializedDispatches` | lib/cfg-tree.c:1632-1668 | The same for the compiled graph after all pipes are initialized |
| `CompileShape.NodeHasShape` | lib/cfg-tree.c:1077-1116 | Every well-formed expression compiles, so the assertion that the last pipe has no successor never fires; older pipes stay untouched; the returned ends are new and still open |
| `CompileWires.NodeWires` | lib/cfg-tree.c:858-1402 | The pipes allocated for an expression, once their open end is linked to what follows, are wired as the expression says, and every destination compiled on the way is wired once and shared |
| `WiredRuns.NodeRuns` | lib/logpipe.c:48-104 | A wired expression followed by anything performs its meaning and then, once per message that reaches its end, what follows, under the matched target and parent link in front of the expression, at any nesting depth |
| `PipeRuns.RunsMultiplexer` | lib/logmpx.c:78-176 | A multiplexer performs the fork of its hops (non-fallback hops in order up to the first matching final one, fallback hops only if none matched, mismatch propagated) and then its successor |
| `PipeRuns.HopsRun` | lib/logmpx.c:93-119 | The two passes over the next hops are the fork of the readings of the hops |
| `PipeRuns.RunsJoin` | lib/logpipe.h:283-290 | Behind the join pipe a mismatch belongs to the path in front of the fork |
| `PipeRuns.RunsMidpoint` | lib/logpipe.h:263-268 | Behind the midpoint of an if a mismatch belongs to the enclosing path and no longer decides the branch |
| `PipeRuns.RunsElement` | lib/logpipe.c:31-42 | A configured pipe forwards, drops and clears the current matched cell, or keeps the message with its ack |
| `MeaningLevels.JudgesOwnPath` | lib/logmpx.c:146-168 | An expression only ever judges the path it stands on |
| `AckBalance.AcksConserved` | lib/logmpx.c:93-175 | Over any pipe graph, compiled or not: a traversal that ends gives up the ack it was handed and leaves one for every delivery |
| `CompiledBrackets.CompiledPathsBalance` | lib/logpipe.h:233-290 | Every path along pipe_next and next hops through a compiled and initialized expression, whatever hops it takes and however junctions and conditionals nest, leaves the last pipe with the matched target and parent link it came in with, and closes no bracket it did not open |
| `CompiledBrackets.ExpressionBalances` | lib/cfg-tree.c:1222-1402 | The same of every expression at the moment it is compiled into any graph built so far |
| `CompiledBrackets.CompiledMidpoint` | lib/logpipe.h:263-268 | Behind the midpoint of a compiled if, whatever path led there, a mismatch clears the matched cell that was current in front of the conditional |
| `CompiledBrackets.NodeBrackets` | lib/cfg-tree.c:858-1402 | The compiler builds graphs whose pipes can be labelled with the forks they are inside of, consistently along every link and every hop |
| `Brackets.PathsFit` | lib/logpipe.h:233-290 | Where labels are consistent, the options that arrive along any path have the chain of parents the label of the pipe says, and no path comes back out of a destination |
| `Brackets.BracketsBalance` | lib/logpipe.h:233-290 | A path between two pipes outside of all forks of an expression leads back to the same matched target and parent link |
| `Brackets.MidpointSeesEnclosing` | lib/logpipe.h:263-268 | Behind a midpoint directly inside an expression the matched target is that of the path around the conditional |
| `IfChains.IfChainTakesFirstMatch` | lib/cfg-tree.c:502-624 | For any number of elif arms, any flags, with or without else, the builders run into no assertion and the chain means the first arm that matches, where an arm with flags(fallback) is tried only if nothing after it matched; a filter decides alone, whatever happens in its body; without a filter the whole block decides |
| `IfChains.KeepsOrderIff` | lib/logmpx.c:93-119 | For given flags, every chain tries its arms in the order they are written, whatever the conditions, bodies and messages, if and only if no arm carries flags(fallback), except the last one in front of an else with the same flag |
| `IfChains.FallbackBodyIsSkipped` | lib/cfg-tree.c:556-590 | A well-formed if whose filter passes and whose body, because of flags(fallback), is not run |
| `IfChains.NestMeansFirstMatch` | lib/cfg-tree.c:1337-1402 | Nested conditionals mean the first arm that matches, fallback arms last; a mismatch inside a taken body never starts another arm |
| `IfChains.BodyMeans` | lib/cfg-tree.c:556-590 | The body of an arm means its children in order, under the flow control of its flags, and is final |
| `IfChains.BuildIfNests` | lib/cfg-tree.c:521-624 | Adding arms one at a time, always to the last dangling if, nests them in order |
| `IfChains.SetFalseBranchNests` | lib/cfg-tree.c:502-556 | Locating the last if along nested else blocks replaces exactly its empty else |
| `CompiledChains.EndsWithin` | lib/logmpx.c:52-55 | Where a measure falls along every link, following pipe_next ends from every pipe within a bound |
| `MultiplexerInit.WalkStep` | lib/logmpx.c:52-55 | Collected flags and flags still ahead stay the flags of the whole chain, also over pipes another multiplexer has already collected into |
| `MultiplexerInit.EndProgress` | lib/logmpx.c:41-63 | When every multiplexer is initialized, each branch head has the flags of its chain and each multiplexer knows whether it has a fallback branch, independently of the order |
| `CfgTreeCompiler.CfgTree.CompileNode` | lib/cfg-tree.c:1410-1449 | In-place compilation reaches the graph, head and tail of the compiler on values |
| `CfgTreeCompiler.CfgTree.CompileReference` | lib/cfg-tree.c:857-970 | References: unresolved ones fail, destinations are compiled once and reached through a multiplexer of their own |
| `CfgTreeCompiler.CfgTree.CompileSequence` | lib/cfg-tree.c:1027-1220 | The children in order, a no-op pipe for an empty sequence, the open tail of destinations |
| `CfgTreeCompiler.CfgTree.CompileChildren` | lib/cfg-tree.c:1073-1117 | The loop itself |
| `CfgTreeCompiler.CfgTree.AttachSource` | lib/cfg-tree.c:884-923 | A source reference: a pipe of its own behind the multiplexer of the source |
| `CfgTreeCompiler.CfgTree.AttachSources` | lib/cfg-tree.c:1118-1142 | All references of a statement, meeting in one source join |
| `CfgTreeCompiler.CfgTree.CompileStatement` | lib/cfg-tree.c:1027-1220 | A top level statement: references, then the rest behind the join, or the flags on the join |
| `CfgTreeCompiler.CfgTree.CompileStatements` | lib/cfg-tree.c:1558-1584 | All statements in order, stopping at the first that fails |
| `CfgTreeCompiler.CfgTree.LinkChild` | lib/cfg-tree.c:1082-1116 | One turn of that loop, including the failing assertion |
| `CfgTreeCompiler.CfgTree.FindLastPipe` | lib/cfg-tree.c:1108-1115 | The walk to the last pipe of a chain without a tail |
| `CfgTreeCompiler.CfgTree.CompileJunction` | lib/cfg-tree.c:1233-1330 | The loop over the branches, and the junction end flag |
| `CfgTreeCompiler.CfgTree.AddBranch` | lib/cfg-tree.c:1253-1295 | One branch: fork on the left, join on the right, errors for mixed junctions |
| `CfgTreeCompiler.CfgTree.CompileConditional` | lib/cfg-tree.c:1337-1402 | Bodies, fork, join and condition: the whole conditional in place |
| `CfgTreeCompiler.CfgTree.CompileBodies` | lib/cfg-tree.c:1349-1360 | True branch, then false branch; a branch that fails or lacks an end fails the conditional |
| `CfgTreeCompiler.CfgTree.CompileCondition` | lib/cfg-tree.c:1369-1383 | The filter, if there is one, and the midpoint in front of the true branch |
| `CfgTreeCompiler.CfgTree.CollectBranchFlags` | lib/logmpx.c:50-55 | The in-place walk leaves the flags of the whole chain in the branch head and changes nothing else |
| `CfgTreeCompiler.CfgTree.InitMultiplexer` | lib/logmpx.c:41-63 | One multiplexer initialized in place |
| `CfgTreeCompiler.CfgTree.Start` | lib/cfg-tree.c:1632-1660 | Initializing all pipes in order of creation gives every branch head the flags of its chain |
| `LogMultiplexer.QueueNextHops` | lib/logmpx.c:78-174 | The nested loops with one shared matched variable compute the two passes |
| `FifoSteps.Next` | lib/logqueue-fifo.c:251-591 | Every step keeps all len and non_flow_controlled_len fields equal to counts over their lists |
| `FifoSteps.DropCounts` | lib/logqueue-fifo.c:178-209 | The drop loop drops exactly as many messages as asked, while it stays inside the list |
| `FifoConservation.RunConserves` | lib/logqueue-fifo.c:178-591 | In every reachable state of every interleaving each pushed message is in exactly one of input, wait, output, backlog, acked and dropped; queued_messages and memory_usage equal the contents up to slow path pushes paused in the callback; a waiting input has its finish callback registered; a registered push callback implies an empty wait list |
| `FifoConservation.StepConserves` | lib/logqueue-fifo.c:178-591 | Each step adds what it pushes and otherwise only moves messages |
| `FifoConservation.StepBooks` | lib/logqueue.c:101-180 | Each step keeps the statistics and the callback conditions, including the unlock inside push_notify |
| `FifoConservation.EmptyMeansEmpty` | lib/logqueue-fifo.c:148-168 | A queue that reports to be empty holds nothing but its backlog |
| `FifoOrder.DeliveredInPushOrder` | lib/logqueue-fifo.c:178-591 | In every run that rewinds the whole backlog only while no producer has messages both in backlog and output, what was acked followed by what is inside is, per producer, exactly what it pushed and was not dropped, in push order |
| `FifoOrder.SurvivorsInPushOrder` | lib/logqueue-fifo.c:316-405 | The same of any state that is conserved and in order |
| `FifoOrder.RunInOrder` | lib/logqueue-fifo.c:316-591 | Such runs stay in order |
| `FifoOrder.PopKeepsLine` | lib/logqueue-fifo.c:450-497 | Popping does not change the line of messages |
| `FifoOrder.AckKeepsLine` | lib/logqueue-fifo.c:502-530 | Acknowledging does not change the line |
| `FifoOrder.RewindKeepsLine` | lib/logqueue-fifo.c:559-591 | Rewinding some messages does not change the line |
| `FifoOrder.RewindAllKeepsLineIff` | lib/logqueue-fifo.c:544-557 | Rewinding the whole backlog keeps the line if and only if the output list or the backlog is empty |
| `FifoOrder.RewindAllInOrderIff` | lib/logqueue-fifo.c:544-557 | After rewinding the whole backlog the queue is in order if and only if no producer had messages in both lists |
| `FifoOrder.RewindAllSwaps` | lib/logqueue-fifo.c:544-557 | A run of five steps after which a younger message is in front of an older one |
| `FifoOverflow.DropsOldest` | lib/logqueue-fifo.c:178-209 | No flow controlled message is dropped, and the dropped ones are the oldest of the others |
| `FifoOverflow.MoveBoundedIff` | lib/logqueue-fifo.c:219-272 | Moving an input keeps the non flow controlled length within max(log_fifo_size, its previous value) if and only if the input is shorter than 2^16 or fits anyway |
| `FifoOverflow.DropsExcess` | lib/logqueue-fifo.c:219-247 | Below 2^16 the number of drops is what exceeds the room left, at most the input |
| `FifoOverflow.SlowPushBounded` | lib/logqueue-fifo.c:297-403 | A slow path push stays within the bound |
| `FifoOverflow.RunBounded` | lib/logqueue-fifo.c:219-403 | In every run without rewinds in which no producer reads a length below the actual one and no input list has 2^16 messages, any number of producers together never get more non flow controlled messages into the queue than log_fifo_size |
| `FifoOverflow.StepBounded` | lib/logqueue-fifo.c:219-497 | Each such step stays within max(log_fifo_size, the previous length) |
| `FifoOverflow.WideInputIsKept` | lib/logqueue-fifo.c:236-247 | A run: 65536 pushes into an empty queue of any smaller size and one move with the right length in view leave all 65536 messages queued |
| `FifoWakeups.SlowPushDropsIff` | lib/logqueue-fifo.c:297-403 | A push without a thread number drops its message if and only if that is not flow controlled and the queue is seen full; otherwise the message is the last one of the wait list |
| `FifoWakeups.FlowControlledIsKept` | lib/logqueue-fifo.c:178-403 | In every run, however full the queue and whatever the producers read, no flow controlled message is dropped |
| `FifoWakeups.EveryThreadPushes` | lib/logqueue-fifo.c:316-403 | Every thread can push: with a number of its own into its input list, unless it is handing that over, and otherwise directly |
| `FifoWakeups.InputIsHandedOver` | lib/logqueue-fifo.c:334-360 | A push into an input list asks for it to be handed over; the hand-over empties it, has to be finished, and leaves it as new |
| `FifoWakeups.PopTakesOne` | lib/logqueue-fifo.c:411-497 | A pop takes exactly one message if there is any, the oldest of output or else of wait, and puts it behind the backlog |
| `FifoWakeups.AckTakes` | lib/logqueue-fifo.c:502-530 | An acknowledgement of n messages takes that many from the head of the backlog, or all there are |
| `FifoWakeups.RewindPutsBack` | lib/logqueue-fifo.c:559-591 | Rewinding n messages puts that many from the end of the backlog in front of output, in order, or all there are |
| `FifoWakeups.CheckItemsRegistersIff` | lib/logqueue.c:151-180 | Looking for messages registers the callback if and only if wait and output are empty, withdraws it otherwise, and changes nothing else |
| `FifoWakeups.StepNotifiesIff` | lib/logqueue.c:101-123 | A step calls the callback if and only if it brings messages while one is registered, and then once |
| `FifoWakeups.SleeperIsWoken` | lib/logqueue.c:101-180 | A consumer that found the queue empty, in any reachable state, is notified exactly once as soon as a message arrives, by the very step that brings it; until then nothing is waiting |
| `FifoWakeups.WithdrawnIsNotCalled` | lib/logqueue.c:125-132 | A consumer that withdraws its callback is not called however many messages arrive |
| `FifoWakeups.CallsAreAskedFor` | lib/logqueue.c:101-180 | In every run the callback is called at most once per look of the consumer |
| `FifoWakeups.EmptyIff` | lib/logqueue-fifo.c:148-168 | In every reachable state with no hand-over under way the queue reports to be empty if and only if nothing is in its input, wait and output lists |
| `FifoQueue.LogQueueFifo.PushTail` | lib/logqueue-fifo.c:316-403 | A push is the fast or the slow step, depending on the thread |
| `FifoQueue.LogQueueFifo.PushToWait` | lib/logqueue-fifo.c:372-403 | The slow path up to the callback: drop, or queue and count |
| `FifoQueue.LogQueueFifo.QueueSlowly` | lib/logqueue-fifo.c:386-396 | The branch that queues: the message at the end of wait, its counters, and the callback |
| `FifoQueue.LogQueueFifo.PushNotify` | lib/logqueue.c:101-123 | A registered callback is unregistered and called once, otherwise nothing happens |
| `FifoQueue.LogQueueFifo.EndSlowPush` | lib/logqueue-fifo.c:397-402 | The counters of a push back from the callback |
| `FifoQueue.DropLoop` | lib/logqueue-fifo.c:183-209 | The drop loop: the cursor never runs off the list, and what it drops and keeps are those of the specification |
| `FifoQueue.LogQueueFifo.DropMessages` | lib/logqueue-fifo.c:178-209 | The drop loop applied to an input list, with its length fields |
| `FifoQueue.LogQueueFifo.AddMessageSizes` | lib/logqueue-fifo.c:122-132 | The sum of message sizes |
| `FifoQueue.LogQueueFifo.DropOverflow` | lib/logqueue-fifo.c:219-263 | The drop decision with its 16-bit length |
| `FifoQueue.LogQueueFifo.SpliceInput` | lib/logqueue-fifo.c:265-272 | The splice and its counters |
| `FifoQueue.LogQueueFifo.MoveUnlocked` | lib/logqueue-fifo.c:251-291 | Drop, splice, count and notify, on the state of the object |
| `FifoQueue.LogQueueFifo.MoveInput` | lib/logqueue-fifo.c:251-291 | An input list moves to the wait list in one critical section |
| `FifoQueue.LogQueueFifo.FinishMove` | lib/logqueue-fifo.c:292-294 | The finish flag is cleared outside the lock |
| `FifoQueue.LogQueueFifo.PopHead` | lib/logqueue-fifo.c:450-497 | The oldest message of output, or of wait when output is empty, moves to the backlog |
| `FifoQueue.LogQueueFifo.AckSome` | lib/logqueue-fifo.c:510-530 | The loop over the head of the backlog |
| `FifoQueue.LogQueueFifo.AckBacklog` | lib/logqueue-fifo.c:502-530 | The loop acknowledges the oldest messages of the backlog |
| `FifoQueue.LogQueueFifo.RewindSome` | lib/logqueue-fifo.c:568-590 | The loop over the tail of the backlog |
| `FifoQueue.LogQueueFifo.RewindBacklog` | lib/logqueue-fifo.c:559-591 | The loop puts the youngest messages back to the head of output, in order |
| `FifoQueue.LogQueueFifo.RewindBacklogAll` | lib/logqueue-fifo.c:544-557 | The backlog goes behind output |
| `FifoQueue.LogQueueFifo.CheckItems` | lib/logqueue.c:151-180 | The callback is registered exactly when wait and output are empty |
| `FifoQueue.LogQueueFifo.IsEmptyRacy` | lib/logqueue-fifo.c:148-168 | The loop over the inputs |
| `FlowControlRuns.RunConserves` | lib/dynamic-window-pool.c:66-79 | In every run of any number of sources, careful or not: free window, in-flight messages and credits on their way add up to the full window of each source, and free pool and dynamic parts to the pool |
| `FlowControlRuns.CarefulRunIsSafe` | lib/logsource.c:52-367 | In every careful run, with acknowledgements and rebalancing interleaved at every access to a shared counter: nothing is overdrawn; what is reclaimed is covered by the dynamic window; no assertion fails; a source at rest has its initial window free |
| `FlowControlRuns.CarefulIsNeeded` | lib/logsource.c:266-303 | A step of the rebalancing keeps a sound state sound if and only if it is careful |
| `FlowControlRuns.CoarseIsCareful` | lib/logsource.c:357-367 | Runs whose rebalancing no acknowledgement interrupts, and which close no source, are careful |
| `FlowControlRuns.StepConserves` | lib/logsource.c:52-367 | Each step conserves the credits of every source and of the pool, whatever the state |
| `FlowControlRuns.ReclaimedTwice` | lib/logsource.c:305-333 | Two runs that reclaim a credit twice, after which the pool assertion fails: rebalancing between the two parts of an acknowledgement, and an acknowledgement between the two reads of the rebalancing |
| `FlowControlRuns.ClosedTooEarly` | lib/logsource.c:227-244 | A run in which closing an idle source finds less free window than its dynamic part |
| `FlowControl.BeginAckKeeps` | lib/logsource.c:52-55 | The first access of an acknowledgement keeps the credit equation and the cover, also during rebalancing; with nothing being reclaimed it books nothing |
| `FlowControl.BookAckKeeps` | lib/logsource.c:63-66 | So does the second |
| `FlowControl.EndAckKeeps` | lib/logsource.c:70-92 | So does the third |
| `FlowControl.AdvanceAccounts` | lib/logsource.c:246-367 | No step of the rebalancing loses a credit between source and pool |
| `FlowControl.AdvanceCoveredIff` | lib/logsource.c:246-367 | Every step of the rebalancing keeps the reclaimed window covered, except that asking credits back does so if and only if what was reclaimed earlier and is not collected is no more than the dynamic window that remains |
| `FlowControl.UncoveredFallsBelow` | lib/logsource.c:305-320 | Without the cover, once everything in flight comes back the pool collects the full window below the initial one |
| `FlowControl.AdvanceSafe` | lib/logsource.c:220-355 | With the cover no assertion fails, and a source with a free credit keeps one |
| `FlowControl.ReallocSound` | lib/logsource.c:357-367 | A rebalancing nobody interrupts keeps all of that |
| `FlowControl.IdleWindow` | lib/logsource.c:551-583 | With nothing in flight at least the initial window is free |
| `FlowControl.CloseOkIff` | lib/logsource.c:227-244 | Closing an idle source meets its assertions if and only if at most the initial window is booked as reclaimed; either way its dynamic window is in the pool afterwards |
| `FlowControl.AckWakes` | lib/logsource.c:70-92 | An acknowledgement that lets a blocked source send again wakes it up |
| `FlowControl.AckFreesIff` | lib/logsource.c:70-92 | After its last access an acknowledgement lets the source send if and only if there is a credit and the source was not suspended or this acknowledgement resumes it; one that reports a suspended destination leaves the suspend flag alone, and one that resumes a blocked source wakes it up |
| `FlowControl.ReclaimsFirst` | lib/logsource.c:305-367 | A rebalancing first gives to the pool what acknowledgements returned for it; while more is asked back nothing else happens, otherwise it balances, and what came back beyond the request is forgotten unless this turn handed something over |
| `FlowControl.GrowsTowardsBalanced` | lib/logsource.c:246-264 | A dynamic window below the balanced one grows to it as far as the pool can offer; the source is woken up if and only if its free window was empty and no longer is |
| `FlowControl.ShrinksToBalanced` | lib/logsource.c:266-303 | A dynamic window above the balanced one shrinks to it, at once or once what is asked back comes in, except that a last free credit is kept |
| `FlowControl.AdvanceWakes` | lib/logsource.c:246-264 | So does a step of the rebalancing |
| `LogSource.DynamicWindowPool.Request` | lib/dynamic-window-pool.c:66-73 | Offers at most what is asked and what is free |
| `LogSource.DynamicWindowPool.ReleaseWindow` | lib/dynamic-window-pool.c:75-79 | Gives back, and whether the assertion holds |
| `LogSource.LogSource.Post` | lib/logsource.c:551-583 | Posting takes one credit and never overdraws |
| `LogSource.LogSource.TakeReclaimed` | lib/logsource.c:52-65 | The first access of an acknowledgement: how an increment is split between reclaim and window |
| `LogSource.LogSource.BookReclaimed` | lib/logsource.c:66-68 | The second access books the reclaimed part |
| `LogSource.LogSource.ReturnWindow` | lib/logsource.c:70-92 | The third returns the rest, resumes and wakes up |
| `LogSource.LogSource.FlowControlAdjust` | lib/logsource.c:70-92 | The three in one go keep the credit equation and the cover |
| `LogSource.LogSource.CollectPending` | lib/logsource.c:308-309 | The first read of the rebalancing |
| `LogSource.LogSource.InspectReclaim` | lib/logsource.c:310-318 | The second read decides, and what was collected goes to the pool |
| `LogSource.LogSource.ClearReclaim` | lib/logsource.c:319-324 | A negative amount is cleared |
| `LogSource.LogSource.RequestWindow` | lib/logsource.c:246-258 | What the pool offers is added to the full window |
| `LogSource.LogSource.GrowWindow` | lib/logsource.c:260-264 | and then to the window, waking up a blocked source |
| `LogSource.LogSource.ReadWindow` | lib/logsource.c:266-271 | The free window is read |
| `LogSource.LogSource.ReclaimDynamic` | lib/logsource.c:273-287 | What it does not cover is asked back |
| `LogSource.LogSource.CutWindow` | lib/logsource.c:289-303 | The rest is given to the pool |
| `LogSource.LogSource.ReclaimInstead` | lib/logsource.c:305-333 | The reads and their consequences in one go |
| `LogSource.LogSource.IncBalanced` | lib/logsource.c:246-264 | Growing in one go |
| `LogSource.LogSource.DecBalanced` | lib/logsource.c:266-303 | Shrinking in one go |
| `LogSource.LogSource.Rebalance` | lib/logsource.c:335-355 | Growing, shrinking or neither |
| `LogSource.LogSource.DynamicWindowRealloc` | lib/logsource.c:357-367 | A rebalancing nobody interrupts: no credit lost, no assertion fails, a free credit remains |
| `SchedulerPartition.RunKeeps` | lib/logscheduler.c:59-147 | In every interleaving exactly one trigger, job or restart is outstanding while flush_running is set and none otherwise, at most one job runs, batches never wait without a flush, the working assertions hold, and messages are passed on in the order of arrival |
| `SchedulerPartition.StepKeeps` | lib/mainloop-io-worker.c:50-102 | Each step keeps that |
| `SchedulerPartition.StepsDrain` | lib/logscheduler.c:59-128 | Every step but an arrival decreases the remaining work |
| `SchedulerPartition.StuckMeansDone` | lib/logscheduler.c:109-128 | A running flush always has a possible step, and without one everything was passed on |
| `Scheduler.RunSendsInOrder` | lib/logscheduler.c:201-242 | In every run, from one thread to one partition, what was passed on, waits or is pending is exactly what was sent, in push order; after a flush and with the partition at rest all of it was passed on |
| `Scheduler.SentInOrder` | lib/logscheduler.c:228-242 | The same of any sound state |
| `Scheduler.MoveKeeps` | lib/logscheduler.c:130-242 | Each step of threads and partitions keeps that |
| `Scheduler.RunDistributes` | lib/logscheduler.c:180-198 | Without a key the k-th message of thread t goes to partition (t mod n + k div max(1, batch size)) mod n, across any number of flushes |
| `Scheduler.ChoiceFollowsCursor` | lib/logscheduler.c:173-198 | Countdown and cursor encode the number of messages sent |
| `Scheduler.RunPlacesByHash` | lib/logscheduler.c:180-187 | With a partition key every message of every run goes to the partition hash mod n, whatever thread sent it, so messages with the same key share one |
| `Scheduler.PushRecords` | lib/logscheduler.c:228-242 | A push records its message with its number and the hash of its key behind everything the thread has sent |
| `SchedulerProgress.EverythingIsPassedOn` | lib/logscheduler.c:59-242 | After any run, once no more messages are pushed: every sequence of further moves of threads and partitions ends within the work that is left, and there each partition has passed on exactly what each thread sent to it, in order |
| `SchedulerProgress.MoveWorks` | lib/logscheduler.c:59-226 | Every move but a push leaves less to do, also the one that hands a batch to a partition |
| `LogScheduler.LogSchedulerPartition.AddBatch` | lib/logscheduler.c:130-147 | Appends a batch and says whether to submit the job |
| `LogScheduler.LogSchedulerPartition.SubmitContinuation` | lib/mainloop-io-worker.c:68-82 | The assertion holds whenever a trigger is due |
| `LogScheduler.LogSchedulerPartition.Work` | lib/logscheduler.c:59-107 | Undisturbed, the drain loops pass on everything in order |
| `LogScheduler.LogSchedulerPartition.PassOn` | lib/logscheduler.c:76-103 | The two inner loops |
| `LogScheduler.LogSchedulerPartition.Complete` | lib/logscheduler.c:109-128 | Restart exactly when batches arrived, otherwise the flush ends with everything passed on |
| `LogScheduler.LogSchedulerPartition.Resubmit` | lib/mainloop-io-worker.c:50-65 | The assertion holds at a restart |
| `LogScheduler.LogSchedulerThreadState.GetPartitionIndex` | lib/logscheduler.c:180-198 | Key, countdown and cursor |
| `LogScheduler.LogSchedulerThreadState.Queue` | lib/logscheduler.c:228-242 | Assigns a message and keeps the distribution |
| `LogScheduler.LogSchedulerThreadState.FlushBatch` | lib/logscheduler.c:201-225 | Every partition receives what was collected for it, in one batch |
| `MainLoopCall.CallsRunOnce` | lib/mainloop-call.c:68-148 | In every run, for every thread: each of its calls is executed exactly once and in order, the last one possibly outstanding; its calls with wait have returned, each of them and in order, the results of their own functions, up to the one it is waiting for; a caller asleep on a finished call is about to be signalled; a queued call has the handler posted or running |
| `MainLoopCall.EveryoneReturns` | lib/mainloop-call.c:68-148 | Where no thread is bound to move, every caller has returned, with the results of all its calls with wait |
| `MainLoopCall.BoundRunsEnd` | lib/mainloop-call.c:68-148 | Whichever steps threads are bound to take, without new calls and spurious wake-ups, they come to an end within the work that is left |
| `MainLoopCall.StepsDrain` | lib/mainloop-call.c:68-148 | Each such step leaves less to do |
| `MainLoopCall.StepKeeps` | lib/mainloop-call.c:68-148 | Each step of callers and handler keeps that |
| `MainLoopCall.NoDeadlock` | lib/mainloop-call.c:68-148 | While a thread is inside a call some thread is bound to move |
| `MainLoopCall.RunExclusive` | lib/mainloop-call.c:68-148 | In every run at most one of the callers and the handler holds the main task lock |
| `MainLoopTasks.TurnsServe` | lib/mainloop-call.c:117-148 | After any number of turns of the drain loop exactly that many call sites from the head of the queue are served, each once: call executed, result stored, pending cleared, caller woken up if it asked for it; nothing else changes |
| `MainLoopTasks.HandlerServesAll` | lib/mainloop-call.c:117-148 | The handler from start to end serves every queued call site and no other |
| `MainLoopTasks.MainTasks.Submit` | lib/mainloop-call.c:91-108 | Fills in a call site and queues it at the head, as a run of the state machine |
| `MainLoopTasks.MainTasks.TakeResult` | lib/mainloop-call.c:101-108 | A caller woken up after its call leaves the waiting loop with the result of that call |
| `MainLoopTasks.MainTasks.ServeHead` | lib/mainloop-call.c:124-146 | One turn of the drain loop |
| `MainLoopTasks.MainTasks.CallHandler` | lib/mainloop-call.c:117-148 | The drain loop in place is the run of the handler |
| `InternalSource.NoStrandedMessage` | lib/afinter.c:111-336 | In every run the queue stays within its capacity, messages are sent in the order of acceptance, and between handlers a waiting message with a free window implies a due post, restart or wake-up, or an acknowledgement about to cause one |
| `InternalSource.StepKeeps` | lib/afinter.c:111-336 | Each step keeps the line, the window, the watches and the events right; the restart handler is never registered twice |
| `InternalSource.AcceptedIsSentOrBlocked` | lib/afinter.c:111-336 | After any run, with nothing further from outside: whichever steps the source takes, it comes to rest within a bound, and there everything accepted has been sent, in order, unless its window or a suspended destination forbids it |
| `InternalSource.ComesToRest` | lib/afinter.c:111-336 | The same from any state that keeps the invariant |
| `InternalSource.SuspendSilences` | lib/logsource.c:190-198 | A suspended source sends at most one more message, the one it had already decided to send, until an acknowledgement resumes it |
| `InternalSource.PostedDropsIff` | lib/afinter.c:549-596 | An internal message is dropped if and only if the queue is full; otherwise it is the last of the queue, and a source that listens is told |
| `InternalSource.AckFreesIff` | lib/logsource.c:70-92 | An acknowledgement frees the source if and only if there is a credit and it was not suspended or this acknowledgement resumes it; one that frees a blocked source is committed to wake it up |
| `AfInter.AFInterSource.MessagePosted` | lib/afinter.c:549-596 | The posting step: queues or drops at capacity, and posts exactly when announced |
| `AfInter.UpdateSteps` | lib/afinter.c:281-336 | The steps of updating the watches announce posts exactly while the window is free, with a restart for waiting messages |
| `AfInter.AFInterSource.UpdateWatches` | lib/afinter.c:281-336 | The same in place |
| `AfInter.AFInterSource.SendNext` | lib/afinter.c:117-129 | One turn of the sending loop |
| `AfInter.AFInterSource.SendAll` | lib/afinter.c:117-129 | The sending loop is a run that sends as many messages as the window allows, oldest first |
| `AfInter.AFInterSource.SourcePost` | lib/afinter.c:111-131 | The whole handler as a run of the state machine; afterwards nothing waits or the source sleeps |
| `FindCrlf.FindCrOrLfOrNul` | lib/find-crlf.c:34-93 | For every buffer, length, address and byte order the result is that of the plain scan: the first CR, LF or NUL below n, or none |
| `FindCrlf.ZeroByteMakesHole` | lib/find-crlf.c:52-70 | A zero byte anywhere in a word leaves a carry hole: no false negatives |
| `FindCrlf.NeverMissed` | lib/find-crlf.c:66-70 | A terminator in any byte of a word raises the alarm |
| `FindCrlf.TestWord` | lib/find-crlf.c:66-70 | The test of one word; an alarm may be false, silence may not |
| `FindCrlf.ScanWords` | lib/find-crlf.c:63-84 | The word loop reads aligned words inside the buffer and passes over no terminator |
| `FindCrlf.ScanBytes` | lib/find-crlf.c:75-92 | The byte loops |
| `TokenBucket.RateBoundIff` | lib/logqueue.c:182-227 | For every run with a monotonic clock: the rate is kept at every point, and would be whatever is popped next, if and only if at every check the 32nd bit of the sum of bucket and new tokens is clear |
| `TokenBucket.RateBound` | lib/logqueue.c:182-227 | In such runs at most throttle + floor(throttle * (t - t0) / 10^9) messages are popped by time t |
| `TokenBucket.RunIsPaid` | lib/logqueue.h:131-145 | Tokens given out are paid for by the time up to the last check |
| `TokenBucket.CheckIsPaidIff` | lib/logqueue.c:192-212 | A check keeps the tokens paid if and only if that bit is clear |
| `TokenBucket.OutOfRangeBreaksRate` | lib/logqueue.c:201-212 | A check that finds it set lets through more than any rate |
| `TokenBucket.BelowZeroIsUnlimited` | lib/logqueue.h:131-145 | A bucket below zero lets everything through |
| `TokenBucket.WrapIsSigned` | lib/logqueue.c:201-211 | Stored in 32 or 64 signed bits, a number is in range and keeps its residue |
| `TokenBucket.UnthrottledNeverBlocks` | lib/logqueue.h:131-145 | In every run without a positive throttle every check grants and every pop takes a message |
| `TokenBucket.IdleCheckIsForgotten` | lib/logqueue.c:192-212 | A check that earns nothing changes only the clock: the next check leads to the same bucket as if it had not been, so the fraction of a token earned meanwhile is not lost |
| `TokenBucket.WaitEarnsOverRuns` | lib/logqueue.c:192-221 | With any number of checks in between, waiting for the returned timeout, and for less than 2^32 / throttle seconds, earns a message: some check up to the last one grants it |
| `TokenBucket.LongPauseExceedsRate` | lib/logqueue.c:201-212 | One million a second and 2147.483648 seconds without a check: any number of messages is let through at once |
| `TokenBucket.WaitEarnsIff` | lib/logqueue.c:192-221 | Waiting for the returned timeout, and for less than 2^32 / throttle seconds, earns a message if and only if the last check was not within the first second of the clock |
| `TokenBucket.GrantedIff` | lib/logqueue.c:192-221 | After any wait, an empty bucket grants a message if and only if the tokens earned are no multiple of 2^32 |
| `TokenBucket.FirstSecondWaitsInVain` | lib/logqueue.c:192-221 | One message a second, first checked half a second after the clock started: the wait is in vain |
| `LogQueueThrottle.LogQueueThrottle.CheckItems` | lib/logqueue.c:182-227 | The check in place, its verdict and its timeout |
| `LogQueueThrottle.LogQueueThrottle.PopHead` | lib/logqueue.h:131-145 | The throttle step of a pop |

## Left out

- CompileStatement: the source join is linked to the rest of the statement once that has been compiled; the moment of this link during compilation is not captured. The pipes of the sources themselves, sources in embedded log statements and catch-all expansion are not modelled.
- Inline destinations whose drivers replace `pipe_next`, named log paths with their metrics pipes, persist names, and pipes that cannot be cloned.
- Filters, parsers, rewrite rules, templates and drivers themselves: they are elements that pass on, reject or consume a message.
- SetFalseBranchNests: the if/elif/else builders are modelled on trees as values, so the in-place exchange of a child and its parent links are not captured.
- CompiledRunsMeaning: the call depth is a bound that is proved sufficient; a junction branch that is a bare destination reference, which the grammar wraps into a sequence, is not well formed here; write protection of messages and the single step hook are not modelled.
- The list of pipes is a sequence that is reassigned, so pointers are indices and object lifetime and reference counts are not modelled, here and in the other parts.
- PushTail: lengths and statistics counters are unbounded integers, except for the 16-bit length in the drop calculation.
- StepBooks: `log_queue_set_parallel_push`, which registers a callback without looking at the length, and the counters of abandoned queues.
- RateBound: signed overflow of the 64-bit product and of the 32-bit sum, which C leaves undefined, wraps around.
- TakeReclaimed: arithmetic as on 64-bit platforms, where the subtraction is signed.
- EndAckKeeps: an acknowledgement returns its credits, clears the suspend flag and wakes up the source in one step; the window counter has no upper limit, and a full window below the initial one does not wrap around; rate measurement and window statistics are not modelled.
- Work: the drain loops of a partition run with nobody adding batches; `SchedulerPartition.RunKeeps` has the interleavings.
- RunKeeps: worker quit is not modelled, so a submit that is refused does not occur.
- RunDistributes: the clamp of the number of partitions, which changes only a local copy, is not modelled; messages pushed by threads without a number bypass the scheduler.
- CallsRunOnce: threads that end while their call is pending, and calls made by the main thread itself.
- NoStrandedMessage: marks are messages like others; stopping the source and the case without an internal source are not modelled.
- FindCrOrLfOrNul: eight byte words; the four byte variant is not modelled.
- Everything that is input or output: sockets, files, the event loop itself, the configuration grammar, formatting, name resolution, process supervision.
