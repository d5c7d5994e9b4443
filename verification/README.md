# graphon: scheduler, response streaming and snapshots

This project models the event-driven graph engine of graphon and proves what it promises.

A workflow graph is executed by workers that take nodes from a ready queue and by one dispatcher
that handles their events. Handling the end of a node marks its out-edges TAKEN or SKIPPED; a
branch node takes the edges of the selected handle and skips the other paths, recursively; a node
runs when all its in-edges are known and one is TAKEN. A response stream coordinator watches the
taken edges, starts the session of a response node as soon as the node is certain to be reached,
and streams the node's template from chunk buffers and from the pool of variables. A run can be
paused, saved, restored and resumed.

How the modules build on each other:

| modules | subject |
|---|---|
| `Templates`, `VariablePool`, `Rendering` | answer templates, their grammar and batch rendering |
| `Graphs`, `Walks`, `GraphBuild`, `GraphInit`, `RootBranches`, `RootReturns`, `RootMarking` | graphs, their tables, inactive roots |
| `Traversal`, `Completion`, `SkipClosure`, `SkipCount`, `FailBranches` | resolving edges: skip propagation and taken edges |
| `Marking`, `Scheduler`, `Runs`, `Semantics`, `Outcomes`, `Termination` | the invariant, handlers, runs, what runs end in, and that they end |
| `HandlerLaws`, `RunHistory`, `PausedRuns`, `PoolLaws` | what handlers do by configuration and marks, what flags and terminal events say of the history, pauses and resumptions, what the pool answers |
| `Interleaving`, `Emission`, `Delivery` | threads at the grain of single queue operations; delivery to the consumer |
| `Paths`, `Coordinator`, `Sessions`, `CoordinatorRuns`, `StoredPaths` | path enumeration, sessions, buffers |
| `Reachability`, `World`, `WorldRuns`, `WorldStreams` | engine and coordinator together |
| `Answers`, `AnswerOrder` | the answer of a run against its stream |
| `Streaming`, `StreamingRuns`, `EngineStreaming` | streaming against batch rendering, for the coordinator and in engine runs |
| `Promptness`, `ChunkLaws` | that sessions hold nothing back, wait for nothing skipped, and lose no chunk |
| `Snapshot` | dump, restore, attach, resume |
| `StateManagers`, `SkipPropagators`, `ResponseCoordinators`, `EdgeProcessors`, `EventHandlers` | the objects that update these states in place, against the functions above |

Functions over values (`Traversal`, `Completion`, `Scheduler`, `Coordinator`) are the
specification; the classes have the fields of the source's objects, and each method is shown to
take the fields to what the specification says. `Traversal.Resolves` is the independent account of
a traversal: it says of every edge and node what it must end as, and counts what was enqueued.
`Semantics` describes the outcome of a run by recursion along the edges, without any schedule.

What is assumed, because the code relies on it: edges have existing ends
(`src/graphon/graph/validation.py:48-73` checks it), and no edge enters the active root
(`Graphs.Wf`). Runs start from a graph whose inactive root branches were marked; the comment at
`src/graphon/graph/graph.py:252-253` says that no edge enters a ROOT node, the filter below it does
not check it. `RootBranches` and `RootReturns` follow the filter: they say what is marked on any
graph, exactly when the recursion returns, and that the result is fit for a run exactly when no edge
enters an inactive root. FAIL_BRANCH nodes have been promoted to BRANCH where runs are concerned
(`Scheduler.Promoted`, done by `Graph.init` only, as `GraphBuild.PromoteFailBranchNodes`; `FailBranches` shows what happens otherwise, and
the handlers of `EventHandlers` are specified without it). Every attempt of a node ends with one
terminal event. Acyclicity is asked for only where a statement needs it. Deferring while paused is
done by the success handler alone, as in the source.

Some parts of the state are history, kept so that statements about runs can be made: the finished
nodes with their handles, the failed nodes, those whose handler raised, the edges in the order in
which they were taken, and the sessions in the order of their starts. The behaviour never depends
on them. A handler that raises at the end of an attempt is a `crash`, one that raises before is
`refused`: the dispatcher records an error and ends.

## Model

| member | source | states |
|---|---|---|
| `Traversal.SkipFromEdge` | src/graphon/graph_engine/graph_traversal/skip_propagator.py:35-66 | Propagation from a skipped edge terminates on every graph, cyclic ones included; it only turns UNKNOWN edges SKIPPED, and only edges out of the head or out of nodes that still waited for an in-edge |
| `Traversal.SkipNode` | src/graphon/graph_engine/graph_traversal/skip_propagator.py:72-87 | Skipping a node whose in-edges are all known terminates with the same effect on edges |
| `Traversal.SkipEdges` | src/graphon/graph_engine/graph_traversal/skip_propagator.py:84-98 | The loop over edges of one resolved node keeps the order "an edge is resolved only after all edges into its tail", on which termination rests |
| `Traversal.MarkIsCausal` | src/graphon/graph_engine/graph_traversal/skip_propagator.py:84-87 | Marking an edge out of a resolved node leaves its head with no resolved out-edge and lowers the number of UNKNOWN edges by one |
| `Traversal.SkipFromEdgeResolves` | src/graphon/graph_engine/graph_traversal/skip_propagator.py:35-66 | The whole effect of marking an edge SKIPPED and propagating: which edges and nodes end with which mark, and that each node whose last in-edge resolves with one TAKEN is enqueued once |
| `Traversal.SkipEdgesResolves` | src/graphon/graph_engine/graph_traversal/skip_propagator.py:89-98 | The same for all unselected edges of a branch |
| `Traversal.TakeEdgesResolves` | src/graphon/graph_engine/graph_traversal/edge_processor.py:137-164 | Taking edges resolves exactly them and hands back every node they release, each once |
| `Traversal.ResolvesTrans` | src/graphon/graph_engine/graph_traversal/edge_processor.py:199-208 | Two traversals one after the other are one traversal of the joint edges; nothing is released twice across them |
| `Traversal.ScheduleAllResolves` | src/graphon/graph_engine/event_management/event_handlers.py:232-234 | Enqueueing what was handed back completes the traversal: every released node has been enqueued once |
| `SkipClosure.SkipEdgesIsLeastClosure` | src/graphon/graph_engine/graph_traversal/skip_propagator.py:53-98 | The nodes skipped are the least set closed under "every in-edge is already skipped, unselected, or leaves a node of the set" |
| `SkipCount.EdgesOnce` | src/graphon/graph_engine/graph_traversal/skip_propagator.py:35-98 | Propagation calls the node routine once for every node that the unselected edges kill and for no other, also on cyclic graphs, although nothing records visited nodes |
| `SkipClosure.SkipOrderIsIrrelevant` | src/graphon/graph_engine/graph_traversal/skip_propagator.py:89-98 | Whatever the order of the unselected edges, marks and executing set end the same and the same nodes are enqueued |
| `Completion.CompletionResolves` | src/graphon/graph_engine/graph_traversal/edge_processor.py:46-208 | Completing a node resolves exactly its out-edges: all TAKEN for a plain node, selected TAKEN and unselected SKIPPED for a branch, although skip propagation runs between the two |
| `Completion.SelectedStaysPending` | src/graphon/graph_engine/graph_traversal/edge_processor.py:199-208 | Skipping the unselected paths resolves no selected edge, also on cyclic graphs |
| `Completion.RemarkIsIdle` | src/graphon/graph_engine/graph_traversal/edge_processor.py:125-128 | Marking the unselected edges a second time changes nothing |
| `FailBranches.UnpromotedBranch` | src/graphon/graph_engine/graph_traversal/edge_processor.py:66-91 | A FAIL_BRANCH node that was not promoted to BRANCH takes the selected edges and skips the others if and only if every out-edge carries the selected handle |
| `FailBranches.UnpromotedCounterexample` | src/graphon/graph/graph.py:485-510 | Such a graph, which the fluent builder makes and validation accepts: a ROOT node leads to a failing node with a fail branch, and that one, on the ordinary handle, to a node that ends SKIPPED and is handed to the scheduler all the same |
| `FailBranches.ExceptionRaises` | src/graphon/graph_engine/event_management/event_handlers.py:305-321 | The exception handler raises if and only if a BRANCH node has a default value, and then changes no mark |
| `Marking.CompletionKeepsMarks` | src/graphon/graph_engine/event_management/event_handlers.py:211-237 | Completing a node keeps the marking invariant, and the nodes it releases were never scheduled before |
| `Marking.MarksAreCausal` | src/graphon/graph_engine/graph_traversal/skip_propagator.py:47-66 | In every state with the invariant skip propagation terminates |
| `Scheduler.HandleKeepsCore` | src/graphon/graph_engine/event_management/event_handlers.py:183-358 | Every handler of a terminal event (success, failure with retry, fail branch, default value or abort, pause) keeps the invariant of marks, places and retry counts, and balances the executing set |
| `Scheduler.CompleteSchedulesOnce` | src/graphon/graph_engine/event_management/event_handlers.py:225-237 | Exactly once: what edge resolution enqueues and defers is each newly active node, one time, whether the skipper or a taken edge released it |
| `Scheduler.ExecutingIsPending` | src/graphon/graph_engine/event_management/event_handlers.py:211-223 | A node that is executing still has all its out-edges to resolve, so its completion is well defined |
| `HandlerLaws.SuccessFinishes` | src/graphon/graph_engine/event_management/event_handlers.py:211-237 | A success that does not raise resolves the out-edges of its node as kind and handle say; in a paused run each node whose last in-edge is one that the node takes is deferred and only what the unselected paths of a branch release is queued, in any other run all released nodes are queued and none is deferred |
| `HandlerLaws.SuccessRaises` | src/graphon/graph_engine/graph_traversal/edge_processor.py:112-114 | A branch that succeeds without a handle makes its handler raise: the run fails and nothing else changes |
| `HandlerLaws.FailureRetries` | src/graphon/graph_engine/error_handler.py:72-79 | A failure of a node configured for retries with tries left: its count grows by one, it is queued again and still executing, and nothing else changes |
| `HandlerLaws.FailureEndsRun` | src/graphon/graph_engine/event_management/event_handlers.py:258-283 | Without tries left and without an error strategy the run has failed; no edge and no other node changes |
| `HandlerLaws.FailureTakesFailBranch` | src/graphon/graph_engine/event_management/event_handlers.py:286-335 | Without tries left, a fail branch made a BRANCH: the node finishes, the edges of the fail branch end TAKEN and its others SKIPPED, and released nodes are queued even while paused |
| `HandlerLaws.FailureTakesDefault` | src/graphon/graph_engine/event_management/event_handlers.py:286-335 | Without tries left, default values on a plain node: the node finishes, all its out-edges end TAKEN, and released nodes are queued even while paused |
| `HandlerLaws.FailureRaises` | src/graphon/graph_engine/event_management/event_handlers.py:305-321 | Without tries left, default values on a BRANCH: the handler raises and no mark changes |
| `HandlerLaws.PauseParks` | src/graphon/graph_engine/event_management/event_handlers.py:247-255 | A requested pause parks its node, UNKNOWN again, and pauses the run; once the run is over or aborted the handler raises |
| `HandlerLaws.ReadyInOrder` | src/graphon/graph_engine/graph_traversal/edge_processor.py:84-91 | Ready nodes are handed back in the order of the last edges that lead to them |
| `HandlerLaws.CategoryInOrder` | src/graphon/graph_engine/graph_state_manager.py:162-188 | A branch takes its selected edges in the order of the edge table |
| `Runs.StepKeepsInv` | src/graphon/graph_engine/orchestration/dispatcher.py:82-145 | Every step of workers, dispatcher, commands and resumption keeps the invariant |
| `Runs.ReachableIsInv` | src/graphon/graph_engine/graph_engine.py:375-378 | Every state of every run from a freshly initialised graph has the invariant |
| `Runs.ScheduledExactlyOnce` | src/graphon/graph_engine/event_management/event_handlers.py:211-237 | In every reachable state a node other than the root has all in-edges known and one TAKEN iff it is in exactly one of executing, finished, failed, paused, deferred; it is SKIPPED iff it is an inactive root or has in-edges, all SKIPPED |
| `Runs.DispatchIsEnabled` | src/graphon/graph_engine/orchestration/dispatcher.py:99-104 | A terminal event in the queue can always be handled |
| `Runs.CompletionIsSound` | src/graphon/graph_engine/graph_state_manager.py:254-266 | When nothing executes, the ready queue is empty, no worker holds a node and no event, not even a chunk, is waiting |
| `Runs.ResumeSchedulesParked` | src/graphon/graph_engine/graph_engine.py:379-385 | Resuming enqueues exactly paused and deferred nodes, each once and the paused ones first, and keeps the invariant: no ready node is lost; the run is not paused any more and nothing is parked, while finished and failed nodes, retry counts and the other flags stay |
| `PausedRuns.DispatchOfSuccess` | src/graphon/graph_engine/event_management/event_handlers.py:227-237 | A dispatched success in a run: deferred are exactly the nodes released by taken edges while the run is paused, and queued exactly the other released ones |
| `PausedRuns.PauseHolds` | src/graphon/graph_engine/event_management/event_handlers.py:227-234 | Between a pause and its resumption no node starts and what is parked stays parked, unless a branch succeeds or a failure goes on by a strategy |
| `PausedRuns.ResumedParksNothing` | src/graphon/graph_engine/graph_engine.py:257-262 | A run that was resumed and not paused again is not paused, and nothing is parked in it |
| `PausedRuns.SuccessAfterResume` | src/graphon/graph_engine/event_management/event_handlers.py:227-234 | So a success handled after a resumption queues every node it releases and defers none |
| `Semantics.NodeMarkAgrees` | src/graphon/graph_engine/event_management/event_handlers.py:183-244 | In every state with the invariant, on an acyclic graph, scheduled nodes are nodes that the recursive semantics executes and SKIPPED ones are not |
| `Semantics.EdgeMarkAgrees` | src/graphon/graph_engine/graph_traversal/edge_processor.py:46-208 | ... and TAKEN and SKIPPED edges are those that it takes and does not take |
| `Semantics.NoStuckNode` | src/graphon/graph_engine/graph_state_manager.py:254-266 | When nothing runs, is parked or has failed, every node has finished or is SKIPPED, and no edge is UNKNOWN |
| `Semantics.QuiescentIsDenotation` | src/graphon/graph_engine/event_management/event_handlers.py:183-335 | Such a state is the one that the recursive semantics describes |
| `Semantics.ScheduleIndependence` | src/graphon/graph_engine/event_management/event_handlers.py:183-244 | Two runs in which branch nodes select the same handles end with the same nodes finished and the same marks, whatever the order of events was |
| `Outcomes.SuccessMeansDone` | src/graphon/graph_engine/graph_engine.py:292-340 | A run that ends with success has finished every node that the semantics executes, skipped all others and resolved every edge |
| `Outcomes.ExhaustedMayStop` | src/graphon/graph_engine/orchestration/dispatcher.py:82-110 | When queue, workers and event queue have nothing left, the dispatcher may end: with the bound on working steps, a run that is left alone can always be ended |
| `Outcomes.PausedMeansDrained` | src/graphon/graph_engine/graph_engine.py:292-305 | A run that ends paused without an error is drained: every scheduled node has finished or is parked |
| `RunHistory.StepFlags` | src/graphon/graph_engine/domain/graph_execution.py:124-153 | What each step does to paused, aborted, error, completed and abandoned: a pause counts only before completion and abort, and only a resumption lifts it |
| `RunHistory.FlagsTell` | src/graphon/graph_engine/domain/graph_execution.py:124-153 | In every state of every run the flags say what has happened: a pause since the last resumption, an abort ever, a failure ever |
| `RunHistory.TerminalEventTells` | src/graphon/graph_engine/graph_engine.py:292-340 | The run ends paused iff a pause has not been resumed; else aborted iff it ever was; else failed iff a node without strategy or a handler failed it; and with success iff none of these has happened |
| `RunHistory.QueueIsFifo` | src/graphon/graph_engine/ready_queue/in_memory.py:30-52 | Over a whole run nodes are dequeued in the order in which they were queued, whoever queued them |
| `Outcomes.HandlerKeepsFlags` | src/graphon/graph_engine/event_management/event_handlers.py:183-335 | Whatever a handler parks or fails, the execution flags say so |
| `Termination.WorkWeighs` | src/graphon/graph_engine/error_handler.py:51-148 | Every dequeue, end of attempt and handled outcome strictly lowers what its node has left, and raises nothing for any other |
| `Termination.HandlingUsesAttempt` | src/graphon/graph_engine/event_management/event_handlers.py:258-358 | A handled success, exception, retry, failure or pause uses up an attempt of its node |
| `Termination.SegmentLength` | src/graphon/graph_engine/orchestration/dispatcher.py:87-110 | Between resumptions a run makes at most three working steps per attempt that the configuration grants |
| `Termination.AttemptsAreBounded` | src/graphon/graph_engine/error_handler.py:72-79 | A node is attempted at most once more than its retry budget |
| `Interleaving.MicroRefines` | src/graphon/graph_engine/orchestration/dispatcher.py:82-145 | Every fine step of workers and dispatcher, with puts, fetches, time-outs, draining and the checks apart, is a step of the coarse model or none |
| `Interleaving.MicroRunProjects` | src/graphon/graph_engine/worker.py:101-118 | Hence every interleaving projects to a coarse run with the same final state |
| `Interleaving.MicroStepKeepsInv` | src/graphon/graph_engine/orchestration/dispatcher.py:82-145 | The invariant, with puts under way accounted for, holds after every fine step |
| `Interleaving.DetectionIsSound` | src/graphon/graph_engine/orchestration/execution_coordinator.py:49-60 | Outside a handler, executing is the disjoint union of queued nodes, held nodes and unhandled terminal events; when the loop head sees completion, no worker holds a node and the event queue is empty; draining after a normal end, without the stop event, finds nothing |
| `Interleaving.DrainFetchesOnlyWhenHalting` | src/graphon/graph_engine/orchestration/dispatcher.py:126-133 | The final drain meets an event only after an abort, an error or the stop event of an abandoned run |
| `GraphInit.MarkDownstreamEdges` | src/graphon/graph/graph.py:274-293 | Marking downstream of a skipped node is skip propagation, because no edge is TAKEN yet |
| `RootBranches.MarkedWhenReturned` | src/graphon/graph/graph.py:229-297 | On any graph, whenever the marking returns: an edge is SKIPPED iff its tail is, a node iff it is an inactive root or has in-edges, all SKIPPED, and nothing else is marked |
| `RootReturns.ReturnsIffNoTrap` | src/graphon/graph/graph.py:274-297 | On any graph the recursion returns, no deeper than the graph has nodes, iff some set that consists of the inactive roots and of exactly the nodes that only its members lead to has no loop whose nodes only its members lead to |
| `RootReturns.ReturnedHasNoTrap` | src/graphon/graph/graph.py:274-297 | At any depth: when it returns, its SKIPPED nodes are such a set |
| `RootReturns.LoopNeverReturns` | src/graphon/graph/graph.py:252-260 | An inactive ROOT node on a loop, which the filter lets through: the recursion never returns |
| `RootBranches.ReturnsOnAcyclic` | src/graphon/graph/graph.py:274-297 | On an acyclic graph it always returns, edges into ROOT nodes or not |
| `RootBranches.FreshIffSources` | src/graphon/graph/graph.py:252-260 | Runs may start from the result iff no edge enters an inactive root |
| `RootReturns.MarkAllIsMarkInactive` | src/graphon/graph/graph.py:229-297 | Without edges into ROOT nodes it returns on cyclic graphs too, and the result satisfies the invariant that runs start from |
| `RootBranches.SkippedIffBlocked` | src/graphon/graph/graph.py:239-297 | On an acyclic graph a node is SKIPPED iff every walk from a source to it passes an inactive root |
| `RootBranches.AncestorsDecide` | src/graphon/graph/graph.py:239-297 | ... which is the promise below for every node iff each inactive root has only inactive roots among its own sources |
| `RootBranches.EdgeIntoRootFails` | src/graphon/graph/graph.py:252-260 | An edge from the active root to another ROOT node: that node is SKIPPED although the active root leads to it, and no run may start from the result |
| `GraphInit.SkippedIffOnlyInactiveSources` | src/graphon/graph/graph.py:239-297 | On an acyclic graph a node is SKIPPED before the run iff every source among its ancestors is an inactive root |
| `GraphInit.ReachableFromRootIsNotSkipped` | src/graphon/graph/graph.py:239-297 | Nothing that the active root reaches is skipped |
| `RootMarking.MarkedGraph.MarkDownstream` | src/graphon/graph/graph.py:274-293 | The recursive method marks in place what the bounded recursion says, on any graph, and reports when the bound was reached |
| `RootMarking.MarkedGraph.MarkInactiveRootBranches` | src/graphon/graph/graph.py:229-297 | The same for all inactive roots in turn, starting from a graph without marks |
| `GraphBuild.BuildEdges` | src/graphon/graph/graph.py:97-140 | Each configuration with two string ends and a usable handle yields one edge, listed once at its source and once at its target, in configuration order; a malformed handle still uses up a number |
| `GraphBuild.BuiltEdgesAre` | src/graphon/graph/graph.py:114-138 | The edge of a configuration leads from its source to its target with its handle, or with "source" if none is given, and is listed at both; a malformed handle gives no edge |
| `GraphBuild.PromoteFailBranchNodes` | src/graphon/graph/graph.py:200-208 | Exactly the nodes with a fail branch become branches; the graph then satisfies what runs ask for |
| `RootBranches.InactiveRootsAre` | src/graphon/graph/graph.py:254-271 | Skipped before a run are all ROOT nodes but the active one, or none if the active root is not a ROOT node |
| `GraphBuild.BuiltIsLinked` | src/graphon/graph/graph.py:115-140 | The tables list exactly the edges that leave and enter each node, and distinct configurations get distinct ids |
| `GraphBuild.DigitsInjective` | src/graphon/graph/graph.py:123-124 | Decimal numbering gives different numbers different ids |
| `StateManagers.ReadyQueue.Dumps` | src/graphon/graph_engine/ready_queue/in_memory.py:79-108 | Dumping drains and refills: the dump lists the queue and the queue is as before |
| `StateManagers.ReadyQueue.Loads` | src/graphon/graph_engine/ready_queue/in_memory.py:110-139 | Loading replaces the contents, and refuses other types and versions without touching the queue |
| `StateManagers.CopyQueue` | src/graphon/graph_engine/ready_queue/in_memory.py:79-139 | What one queue dumps, another loads |
| `StateManagers.GraphStateManager.IsNodeReady` | src/graphon/graph_engine/graph_state_manager.py:65-91 | True iff no edge enters the node, or none of its in-edges is UNKNOWN and one is TAKEN |
| `StateManagers.GraphStateManager.AnalyzeEdgeStates` | src/graphon/graph_engine/graph_state_manager.py:128-147 | The three flags, also for no edges at all |
| `StateManagers.GraphStateManager.CategorizeBranchEdges` | src/graphon/graph_engine/graph_state_manager.py:162-188 | Selected and unselected edges, in order |
| `StateManagers.GraphStateManager.IsExecutionComplete` | src/graphon/graph_engine/graph_state_manager.py:254-266 | True iff the queue and the executing set are empty, the condition of `Runs.CompletionIsSound` |
| `SkipPropagators.SkipPropagator.PropagateSkipFromEdge` | src/graphon/graph_engine/graph_traversal/skip_propagator.py:35-66 | The recursive method terminates, does what the function says and makes the calls that `SkipCount` counts |
| `SkipPropagators.SkipPropagator.PropagateSkipToNode` | src/graphon/graph_engine/graph_traversal/skip_propagator.py:72-87 | As above, for a node |
| `SkipPropagators.SkipPropagator.SkipBranchPaths` | src/graphon/graph_engine/graph_traversal/skip_propagator.py:89-98 | As above, for the unselected edges of a branch; each node that dies is processed once |
| `EdgeProcessors.EdgeProcessor.ProcessTakenEdge` | src/graphon/graph_engine/graph_traversal/edge_processor.py:137-164 | Marks the edge, reports it to the coordinator and finds whether the head is ready, in that order |
| `EdgeProcessors.EdgeProcessor.ProcessNodeSuccess` | src/graphon/graph_engine/graph_traversal/edge_processor.py:46-135 | New marks, ready nodes, coordinator and events; a branch without a handle raises and changes nothing |
| `EdgeProcessors.EdgeProcessor.HandleBranchCompletion` | src/graphon/graph_engine/graph_traversal/edge_processor.py:175-208 | The same after the unselected paths have been skipped; the coordinator sees the marks of that moment |
| `EventHandlers.EventHandler.Dispatch` | src/graphon/graph_engine/event_management/event_handlers.py:91-393 | Every event takes engine state, flags, pool, outputs, coordinator and collected stream events to what the specification of runs says; a chunk of a closed stream and an update with a malformed selector raise and change only the flags |
| `EventHandlers.EventHandler.OnChunk` | src/graphon/graph_engine/event_management/event_handlers.py:155-167 | What the coordinator sends for the chunk is collected; a closed stream makes the handler raise and changes nothing else |
| `EventHandlers.EventHandler.OnVariableUpdated` | src/graphon/graph_engine/event_management/event_handlers.py:170-180 | In mid-attempt the value in the pool is overwritten, or the handler raises for a selector of other than two parts |
| `EventHandlers.EventHandler.UpdateResponseOutputs` | src/graphon/graph_engine/event_management/event_handlers.py:391-393 | The outputs of a response node are merged one by one: answers are appended, other keys replaced |
| `EventHandlers.EventHandler.UpdateVariables` | src/graphon/graph_engine/command_processing/command_handlers.py:45-71 | The update command stores its values one after the other and skips malformed selectors |
| `World.LastUpdateCounts` | src/graphon/graph_engine/command_processing/command_handlers.py:45-71 | ... so that of every variable the last update counts, and the others keep their values |
| `PoolLaws.GetPart` | src/graphon/runtime/variable_pool.py:215-254 | A longer selector reads a field of what its prefix reads, or an attribute of a file; scalars have no parts |
| `PoolLaws.StoreAnswers` | src/graphon/graph_engine/event_management/event_handlers.py:373-389 | Once the outputs of a node are stored, node id and variable name read as the output, and longer selectors as its parts |
| `PoolLaws.StoreKeepsOthers` | src/graphon/graph_engine/event_management/event_handlers.py:373-389 | ... and any selector that names none of them reads as before |
| `PoolLaws.StepAnswers` | src/graphon/graph_engine/event_management/event_handlers.py:155-335 | After a step of the engine the pool answers the selectors of a node with the outputs of its success or of its error strategy, and an updated variable with its value; every other selector reads as before |
| `PoolLaws.ReadsUntilOverwritten` | src/graphon/graph_engine/event_management/event_handlers.py:373-389 | Over a whole run, a variable reads as it was stored until a step writes that variable again |
| `PoolLaws.StepMerges` | src/graphon/runtime/graph_runtime_state.py:709-718 | A response node that succeeds or goes on by a strategy appends its answer and replaces its other outputs; no other step changes the outputs of the run |
| `EventHandlers.EventHandler.OnNodeSucceeded` | src/graphon/graph_engine/event_management/event_handlers.py:183-244 | Outputs reach the pool, waiting sessions are flushed, edges are resolved, response outputs are merged, ready nodes are enqueued or, while paused, deferred |
| `EventHandlers.EventHandler.OnNodeException` | src/graphon/graph_engine/event_management/event_handlers.py:286-335 | Like a success, by fail branch or default value, but ready nodes are enqueued even while paused |
| `EventHandlers.EventHandler.OnNodeFailed` | src/graphon/graph_engine/event_management/event_handlers.py:258-283 | Retry, exception or the end of the run, as the error handler answers |
| `EventHandlers.EventHandler.OnNodeRetry` | src/graphon/graph_engine/event_management/event_handlers.py:338-358 | The node leaves the executing set, its count grows by one and it is queued again |
| `EventHandlers.EventHandler.OnNodePauseRequested` | src/graphon/graph_engine/event_management/event_handlers.py:247-255 | The node is parked and UNKNOWN again; after completion or an abort the handler raises |
| `EventHandlers.EventHandler.ResumeParked` | src/graphon/graph_engine/graph_engine.py:354-385 | Clearing the pause and the resume loop with its set of seen nodes: core and flags become those of a resumed run, in which `Runs.ResumeSchedulesParked` holds |
| `EventHandlers.HandlingIsOps` | src/graphon/graph_engine/event_management/event_handlers.py:155-237 | What a handler does to the coordinator is the sequence of operations that engine runs are made of |
| `Paths.FindAllPathsIsExact` | src/graphon/graph_engine/response_coordinator/coordinator.py:196-221 | Path enumeration terminates and returns exactly the simple paths from the root to the target, each once |
| `Paths.FindFromFinds` | src/graphon/graph_engine/response_coordinator/coordinator.py:196-221 | The same for the recursion with a partial path and visited nodes |
| `Paths.RemoveTaken` | src/graphon/graph_engine/response_coordinator/path.py:25-28 | Removing an edge when it is taken keeps a stored path equal to its original minus the edges taken; this needs distinct edges |
| `Paths.BuiltPathsAreDistinct` | src/graphon/graph_engine/response_coordinator/coordinator.py:162-182 | Stored paths have distinct edges |
| `StoredPaths.ApplyKeepsStored` | src/graphon/graph_engine/response_coordinator/coordinator.py:247-286 | Every coordinator operation keeps: each stored path is the original minus the edges taken, and a session is pending iff no path has become empty |
| `Paths.BlocksIffDecides` | src/graphon/graph_engine/response_coordinator/coordinator.py:234-245 | The edges that hold a session back are exactly those out of branches, containers, response nodes and nodes that assign one of the variables of its template by its first two parts |
| `StoredPaths.StartableMeansPath` | src/graphon/graph_engine/response_coordinator/coordinator.py:162-182 | A session can start iff something was taken and on some simple root path all edges out of such nodes have been; no other edge is waited for |
| `StoredPaths.EmptyPathIsStartable` | src/graphon/graph_engine/response_coordinator/coordinator.py:265-280 | An edge empties a stored path iff with it some root path has all blocking edges taken |
| `Reachability.ExtendPath` | src/graphon/graph_engine/graph_traversal/edge_processor.py:137-164 | A taken edge to a node not scheduled before extends a simple path of taken edges to another one |
| `Reachability.StepKeepsReached` | src/graphon/graph_engine/event_management/event_handlers.py:211-234 | In every state of a run each scheduled node is reached from the root by a simple path of taken edges |
| `Reachability.DecidedIsNotSkipped` | src/graphon/graph_engine/graph_traversal/skip_propagator.py:53-87 | A node on a walk from the root whose branch edges have been taken keeps an in-edge that is not skipped |
| `World.StartedIsNotSkipped` | src/graphon/graph_engine/response_coordinator/coordinator.py:252-255 | A response node whose session has started is not SKIPPED: "deterministically reachable" holds |
| `World.ScheduledIsStarted` | src/graphon/graph_engine/response_coordinator/coordinator.py:247-286 | Every scheduled response node other than the root has had its session started |
| `World.SkipReleasesStarted` | src/graphon/graph_engine/graph_traversal/edge_processor.py:199-208 | Inside a branch completion, response nodes enqueued by the skipper had been started by edges taken earlier |
| `World.ReportsInOrder` | src/graphon/graph_engine/graph_traversal/edge_processor.py:84-135 | A handler reports the edges to the coordinator in the order in which it takes them, and a success flushes before that |
| `World.WorldStepKeepsOk` | src/graphon/graph_engine/event_management/event_handlers.py:155-358 | Every step of engine and coordinator together keeps all invariants of both; started sessions and log only grow |
| `World.StartedAfterDeciders` | src/graphon/graph_engine/response_coordinator/coordinator.py:234-245 | A session starts only when on some simple root path every branch, container and response node and every assigner of its variables has finished |
| `WorldRuns.InitialisedIsOk` | src/graphon/graph/graph.py:339-371 | A graph with its inactive roots marked starts with all invariants of engine and coordinator |
| `WorldRuns.StartedIsNeverSkipped` | src/graphon/graph_engine/response_coordinator/coordinator.py:252-286 | ... nor in any later state of any run |
| `WorldRuns.StartsExactlyWhenReachable` | src/graphon/graph_engine/response_coordinator/coordinator.py:247-286 | A session has started iff something was taken and on some simple root path the edges out of branches, containers, response nodes and assigners of its variables have been; it waits for no other node |
| `WorldRuns.DominatorSpeaksFirst` | src/graphon/graph_engine/response_coordinator/coordinator.py:288-321 | If every root path to one response node passes through another, all output of the latter comes first |
| `WorldRuns.DominatorHasStarted` | src/graphon/graph_engine/response_coordinator/coordinator.py:288-321 | ... and the latter has started whenever the former has |
| `WorldRuns.HandlersAreFeasible` | src/graphon/graph_engine/response_coordinator/coordinator.py:323-340 | The coordinator stops a handler exactly when a chunk arrives for a closed stream |
| `WorldRuns.DispatcherGoesOn` | src/graphon/graph_engine/orchestration/dispatcher.py:99-104 | In every state with the invariants the next event can be handled, or its handler raises and the dispatcher records the error |
| `Answers.AnswerIsConcatenation` | src/graphon/runtime/graph_runtime_state.py:709-718 | In every state of every run the answer among the outputs is the concatenation of the answers of the response nodes that have completed, in the order of their completion |
| `Answers.AnswersOnce` | src/graphon/graph_engine/event_management/event_handlers.py:183-244 | A response node contributes to the answer iff it has finished, and never twice |
| `Answers.AnswerIsStreamInOrder` | src/graphon/runtime/graph_runtime_state.py:709-718 | If each response node answers what it has streamed, the answers in order are the sessions in order iff the nodes completed in the order in which their sessions started; then the answer of the run is its stream |
| `Answers.OrderTells` | src/graphon/runtime/graph_runtime_state.py:709-718 | Two different orders are told apart by what the nodes say, so only equal orders make answer and stream agree whatever the nodes say |
| `AnswerOrder.OrdersCanDiffer` | src/graphon/runtime/graph_runtime_state.py:709-718 | A run from an initialised graph in which each node answers what it has streamed, and the answer is yx where the stream is xy |
| `WorldRuns.WorldStartedIsOk` | src/graphon/graph_engine/graph_engine.py:366-378 | Registering the response nodes and scheduling the root establishes all invariants |
| `WorldStreams.WorldRunIsCoordRun` | src/graphon/graph_engine/event_management/event_handlers.py:155-237 | The coordinator's part of an engine run is the run of the coordinator under exactly the operations that the handled events ask for, with every engine state found in it in order, so what is proved of coordinator runs holds in the engine, also between two moments |
| `WorldStreams.EngineDelivers` | src/graphon/graph_engine/response_coordinator/coordinator.py:589-683 | For instance: a closed stream that an engine run has read to its end was delivered whole, once, and nothing more of it ever is |
| `EngineStreaming.HandlerShowsMilder` | src/graphon/graph_engine/event_management/event_handlers.py:211-237 | What the coordinator is shown within a handler, before and between the reports of taken edges, skips no node that is not SKIPPED once the event has been handled |
| `EngineStreaming.EngineSessionIsExact` | src/graphon/graph_engine/response_coordinator/coordinator.py:383-558 | In every state of every engine run: a session that is over has sent each text, and for each variable its meaning less what was delivered of the stream before, if the engine states after the events handled while it could send fit that meaning |
| `EngineStreaming.EngineStreamsTemplates` | src/graphon/graph_engine/response_coordinator/coordinator.py:383-558 | ... and so its chunks add up to its template rendered at once iff nothing of its variables had been delivered before their turn |
| `EngineStreaming.EngineFirstReference` | src/graphon/graph_engine/response_coordinator/coordinator.py:383-558 | That is so if the session is the first to reference, once, what chunk events stream before it is over |
| `EngineStreaming.RenderAnswer` | src/graphon/nodes/answer/answer_node.py:31-43 | The answer that the node renders in one piece, from the pool of the engine state in which a worker runs it, is the rendering of its parsed answer, and under the conditions above it equals what the session of the node streams iff nothing of its variables was delivered before |
| `Promptness.SessionsArePrompt` | src/graphon/graph_engine/response_coordinator/coordinator.py:507-558 | In every state of every engine run the active session is at a variable of an open stream, all chunks of which have been sent on |
| `Promptness.WaitsForRunning` | src/graphon/graph_engine/event_management/event_handlers.py:155-237 | After a handled chunk or success it waits for a variable whose source is not SKIPPED and of which the pool has no value |
| `Promptness.StartsPastSkipped` | src/graphon/graph_engine/graph_traversal/edge_processor.py:199-208 | A session that starts within a handler has passed every variable whose source is SKIPPED afterwards, by this very branch included |
| `Promptness.SkippedSourceIsSilent` | src/graphon/graph_engine/response_coordinator/coordinator.py:383-440 | A session sends nothing for a variable whose source is SKIPPED while it may send |
| `Promptness.FailureSendsNothing` | src/graphon/graph_engine/event_management/event_handlers.py:258-335 | A failure, also one that stores default values, makes no active session go on: that waits for the next chunk or success |
| `ChunkLaws.BuffersHoldWhatCame` | src/graphon/graph_engine/response_coordinator/coordinator.py:323-340 | In every state of every engine run a buffer holds exactly the chunks that have come, in order, and the stream is closed iff a final one is among them |
| `ChunkLaws.SentOnIsWhatCame` | src/graphon/graph_engine/response_coordinator/coordinator.py:589-642 | What has been sent on of a stream is a prefix of what has come, without repetition, and all of it when the active session is at a variable of the stream |
| `ChunkLaws.RefusedExactly` | src/graphon/graph_engine/response_coordinator/coordinator.py:589-606 | A handler raises in mid-attempt exactly for a chunk of a stream of which a final chunk has been handled, and for an update whose selector has not two parts |
| `CoordinatorRuns.CoordRunIsOk` | src/graphon/graph_engine/response_coordinator/coordinator.py:288-585 | Over any run: events are ordered by session start and segment, nobody waits while no session is active, each buffer is delivered once and in order, each response node has one session |
| `CoordinatorRuns.DrainedIsDelivered` | src/graphon/graph_engine/response_coordinator/coordinator.py:589-683 | A closed stream read to its end has been delivered whole, once, and nothing of it is ever delivered again |
| `Sessions.TryFlushKeepsOrder` | src/graphon/graph_engine/response_coordinator/coordinator.py:507-585 | Flushing, through the mutual recursion with ending sessions, keeps sessions in turn |
| `Sessions.TryFlushDelivers` | src/graphon/graph_engine/response_coordinator/coordinator.py:412-461 | What is delivered of each buffer is exactly its prefix up to its position |
| `Sessions.PassedSegmentsAreDrained` | src/graphon/graph_engine/response_coordinator/coordinator.py:442-461 | A variable on a closed stream that a session has passed has been delivered completely |
| `Sessions.RunSendsSegments` | src/graphon/graph_engine/response_coordinator/coordinator.py:342-487 | Every event belongs to its segment: texts come from the response node, buffered chunks keep text, flag and sender, a pooled value is attributed to its node or, for other prefixes, to the response node; only the last segment is final |
| `Sessions.FlushEndsAll` | src/graphon/graph_engine/response_coordinator/coordinator.py:507-585 | If every variable of the active and the waiting templates is resolvable, one flush ends all sessions |
| `ResponseCoordinators.ResponseStreamCoordinator.TryFlush` | src/graphon/graph_engine/response_coordinator/coordinator.py:507-558 | The method, its loop and its recursion do what the function says |
| `ResponseCoordinators.ResponseStreamCoordinator.EndSession` | src/graphon/graph_engine/response_coordinator/coordinator.py:560-585 | The next waiting session becomes active and is flushed; for any other node than the active one nothing happens |
| `ResponseCoordinators.ResponseStreamCoordinator.ProcessVariableSegment` | src/graphon/graph_engine/response_coordinator/coordinator.py:383-461 | All unread chunks in order, then on an open stream the value of the pool; complete iff closed or valued |
| `ResponseCoordinators.ResponseStreamCoordinator.OnEdgeTaken` | src/graphon/graph_engine/response_coordinator/coordinator.py:247-286 | Every response node is updated in turn and its session started when a path is empty |
| `ResponseCoordinators.ResponseStreamCoordinator.ActiveOrQueueSession` | src/graphon/graph_engine/response_coordinator/coordinator.py:288-321 | A session is started at most once: at once, or behind the waiting ones |
| `ResponseCoordinators.ResponseStreamCoordinator.PopStreamChunk` | src/graphon/graph_engine/response_coordinator/coordinator.py:616-642 | The next unread chunk, if any; the position moves by one |
| `ResponseCoordinators.ResponseStreamCoordinator.AppendStreamChunk` | src/graphon/graph_engine/response_coordinator/coordinator.py:589-614 | The chunk is appended; a closed stream refuses it and nothing changes |
| `ResponseCoordinators.ResponseStreamCoordinator.InterceptChunk` | src/graphon/graph_engine/response_coordinator/coordinator.py:323-340 | Append, close on a final chunk, flush |
| `ResponseCoordinators.ResponseStreamCoordinator.Register` | src/graphon/graph_engine/response_coordinator/coordinator.py:116-129 | A node is registered once, with its paths and its session |
| `Streaming.RunStaysOnTrack` | src/graphon/graph_engine/response_coordinator/coordinator.py:507-548 | However far a session gets, each segment before its index has sent its text, or its variable's meaning less what was delivered before |
| `Streaming.DeliveredSplits` | src/graphon/graph_engine/response_coordinator/coordinator.py:412-461 | What was delivered of a stream is what was delivered before a segment's turn followed by what the segment sent |
| `Streaming.RenderedIffNothingBefore` | src/graphon/graph_engine/response_coordinator/coordinator.py:383-461 | Such a session has sent its rendered template iff nothing of its variables was delivered before their turn |
| `StreamingRuns.SessionIsExact` | src/graphon/graph_engine/response_coordinator/coordinator.py:383-558 | Over any run of the coordinator, a session that is over has sent each text, and for each variable its meaning less what earlier sessions and segments delivered of it, if its streams are closed with their value or absent, and a variable whose source is skipped means nothing |
| `StreamingRuns.StreamingRefinesBatch` | src/graphon/graph_engine/response_coordinator/coordinator.py:383-558 | ... and so, where the variables resolve and no literal text names a value, it has sent what rendering its template at once gives iff nothing of its variables was delivered before their turn |
| `StreamingRuns.FirstReferenceIsWhole` | src/graphon/graph_engine/response_coordinator/coordinator.py:383-558 | That is so if the session is the first to reference, once, what is streamed before it is over |
| `StreamingRuns.ApplyFollows` | src/graphon/graph_engine/response_coordinator/coordinator.py:247-585 | Each operation keeps a session on track through flushes, chunks, other sessions and edges |
| `Templates.MatchIsPattern` | src/graphon/nodes/base/variable_template_parser.py:9-15 | The deterministic matcher finds a placeholder iff the string starts with one of the bounded grammar |
| `Templates.PrintParse` | src/graphon/nodes/base/template.py:62-111 | Printing undoes parsing for every string |
| `Templates.ParsePrint` | src/graphon/nodes/base/template.py:157-159 | Reparsing the print of a template gives it back iff the template is in normal form, a condition on single segments and neighbours |
| `Templates.NoneCrosses` | src/graphon/nodes/base/template.py:44-45 | No placeholder can begin in a text and end in the variable printed after it |
| `Rendering.FromAnswerTemplate` | src/graphon/nodes/base/template.py:62-111 | The loop over split parts yields the parsed template; its fallback for unknown keys is never reached |
| `Rendering.SelectorsByKey` | src/graphon/nodes/base/variable_template_parser.py:83-101 | Each key with at least two parts gets its selector, the others are dropped |
| `Rendering.KeyToSelector` | src/graphon/nodes/base/variable_template_parser.py:91-99 | Stripping the hashes of a captured key and splitting it at dots gives the selector back |
| `Rendering.ConvertTemplate` | src/graphon/runtime/variable_pool.py:343-351 | Batch rendering of a string is the rendering of its parsed template, including literal texts that happen to resolve |
| `Emission.ConsumerReceivesPrefix` | src/graphon/graph_engine/event_management/event_manager.py:147-169 | However collecting and consuming interleave, the consumer has a prefix of the list, and the generator stops only after completion with the whole list delivered |
| `Delivery.DeliveryIsComplete` | src/graphon/graph_engine/orchestration/dispatcher.py:82-145 | However workers, dispatcher and consumer interleave: when the generator stops, the dispatcher has ended and every collected event was delivered, once and in order |
| `Emission.ConsumerEnds` | src/graphon/graph_engine/event_management/event_manager.py:155-169 | After completion the generator ends, within a number of steps bounded by what is left |
| `Emission.LockRunIsOk` | src/graphon/graph_engine/event_management/event_manager.py:18-71 | In any run of any number of threads the lock keeps its invariant |
| `Emission.WriterIsAlone` | src/graphon/graph_engine/event_management/event_manager.py:18-71 | A writer is never inside with a reader or another writer, and no writer sleeps unless a reader is there to wake it |
| `Snapshot.RebuiltMap` | src/graphon/graph_engine/domain/graph_execution.py:231-241 | A map listed in any order and rebuilt is the same map |
| `Snapshot.CoordRoundTrip` | src/graphon/graph_engine/response_coordinator/coordinator.py:708-793 | Dumping and loading the coordinator gives it back, sessions remade from their nodes' templates included |
| `Snapshot.MarksRestored` | src/graphon/runtime/graph_runtime_state.py:413-427 | All marks of the attached graph are replaced by those of the snapshot, whatever they were |
| `Snapshot.RestoreRoundTrip` | src/graphon/runtime/graph_runtime_state.py:768-815 | For a paused and drained run: marks, queue, retry counts, flags, parked nodes, pool, sessions, stored paths and streams are the same after dump, restore and attach |
| `Snapshot.SnapshotIsFaithful` | src/graphon/runtime/graph_runtime_state.py:768-961 | In any run, the restored state equals the saved one and satisfies every invariant of runs |
| `Snapshot.RestoredResumes` | src/graphon/graph_engine/graph_engine.py:354-385 | Resuming the restored state schedules exactly the paused and deferred nodes, each once, and the run is not paused any more; an error or an abort stays recorded |
| `Snapshot.ApplyKeepsBelongs` | src/graphon/graph_engine/response_coordinator/coordinator.py:694-706 | Sessions always belong to nodes of the graph and every buffer has a position, so a snapshot can always be loaded |

## Left out

- Node bodies, I/O, clocks, sleeps, logging, layers, token counts, execution limits and worker scaling: a node attempt is an arbitrary sequence of chunks, variable updates and reports that are passed on, and one terminal event.
- Loop and iteration child engines: their events are only collected.
- JSON, pydantic, UUIDs, execution ids and exception classes: snapshots are records of lists, an error is a flag. The pool is saved and restored as one value.
- Events other than stream chunks in the collected list: their order is that of the `collect` calls and plays no part in the statements. Events that are only passed on (started, in-loop, agent logs) are one event, `Collected`.
- Outputs of a run other than text: an output is merged by the text of its value.
- `activate_session`, which nothing calls, and `get_streaming_text_selector` of node types other than Answer: text chunks carry the selector of the response node's answer.
- `from_end_outputs` and `VariableTemplateParser.format`: they add no property of a new kind.
- The attribute values of files: a file value carries a table of the attributes that `get` may return.
- Response sessions and paths as shared mutable objects: the coordinator's fields hold them as values, so aliasing between them is not modelled; nothing in the source shares them.
- A snapshot taken before a graph is attached, which omits the coordinator, and resuming a run whose nodes are still executing.
- The number of handled failures, which tells a partial success from a success.
- Workers' stop events and the thread joins: steps may stop coming at any time, which the safety statements allow.
- The filter `eid in self.edges` of the adjacency lookups: the tables of a linked graph list existing edges only.
- The set of registered response nodes iterates in some fixed order, which the classes keep as a sequence and the functions take as an argument; the statements hold for every order.
- Node executions are reduced to their retry counts and the graph execution to its flags: their own states, ids and messages steer nothing.
- Emission.ConsumerReceivesPrefix: takes as given that nothing is collected once completion is marked; `Delivery.DeliveryIsComplete` proves that of the dispatcher (`src/graphon/graph_engine/orchestration/dispatcher.py:116-120`).
- Termination.SegmentLength: counts dequeues, ends of attempts and handled outcomes; chunks, updates and commands are not bounded, because a node may send any number of the former and a caller of the latter.
- Snapshot.CoordRoundTrip: leaves out the ids of node executions that the coordinator keeps to stamp events with.
- RootMarking.MarkedGraph.MarkDownstream: bounds the recursion by a number, as the interpreter bounds its stack; what a graph looks like after the bound was hit is not modelled, since the error discards it.
- Interleaving.MicroRefines: is about the engine without the coordinator, which only the dispatcher thread touches. The stop event is set at most once in a run and the join that follows may time out; the dispatcher goes on as modelled.
