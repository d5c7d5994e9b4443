/** The event handlers, the error handler and the start of an engine as objects
    (event_handlers.py, error_handler.py, graph_execution.py, graph_engine.py). */
module EventHandlers {
  import opened Templates
  import opened VariablePool
  import opened Graphs
  import opened Traversal
  import opened Completion
  import opened Scheduler
  import opened Runs
  import opened Coordinator
  import opened CoordinatorRuns
  import opened Reachability
  import opened World
  import opened StateManagers
  import opened ResponseCoordinators
  import opened EdgeProcessors

  /** What handling the event does to the coordinator and to the collected stream events. */
  function CoordAfter(g: Graph, c: Core, ev: Event, pool: Pool, order: seq<NodeId>, co: Coord,
      log: seq<Emitted>): (Coord, seq<Emitted>)
    requires Wf(g) && (Midway(ev) || Pending(g, c.s.edge, ev.node, Out(g, ev.node)))
    requires !(ev.Chunk? && ev.selector in co.streams.closed)
  {
    match ev
    case Chunk(n, sel, text, isFinal) =>
      var (r, evs) := InterceptChunk(EnvOf(g, c.s, pool), co, sel, BufferedChunk(n, text, isFinal));
      (r, log + evs)
    case Succeeded(_, _, _) =>
      var (c1, evs) := TryFlush(EnvOf(g, c.s, pool), co);
      AfterReports(g, c, ev, pool, order, c1, log + evs)
    case Failed(_) => AfterReports(g, c, ev, pool, order, co, log)
    case _ => (co, log)
  }

  function AfterReports(g: Graph, c: Core, ev: Event, pool: Pool, order: seq<NodeId>, co: Coord,
      log: seq<Emitted>): (Coord, seq<Emitted>)
    requires Wf(g) && Pending(g, c.s.edge, ev.node, Out(g, ev.node))
  {
    match CompletedWith(g, c, ev)
    case Some(handle) => Told(g, c.s, ev.node, handle, AsBranch(g, ev), pool, order, co, log)
    case None => (co, log)
  }

  /** The reports of the edges that the node takes, and what they add to the log. */
  function Told(g: Graph, s: State, n: NodeId, handle: string, branch: bool, pool: Pool, order: seq<NodeId>,
      co: Coord, log: seq<Emitted>): (Coord, seq<Emitted>)
    requires Wf(g) && Pending(g, s.edge, n, Out(g, n))
  {
    var (r, evs) := ReportEdges(EnvOf(g, AfterSkips(g, s, n, handle, branch), pool), co, TakenList(g, n, handle),
      order);
    (r, log + evs)
  }

  lemma ReportsFollow(g: Graph, c: Core, ev: Event, pool: Pool, order: seq<NodeId>, co: Coord, log: seq<Emitted>)
    requires Wf(g) && Pending(g, c.s.edge, ev.node, Out(g, ev.node)) && Feasible(g, co, TakenOps(g, c, ev, pool, order))
    ensures RunOps(g, co, log, TakenOps(g, c, ev, pool, order)) == AfterReports(g, c, ev, pool, order, co, log)
  {
    hide CompletedWith, AfterSkips, EnvOf, Pending, ReportEdges;
    var handle := CompletedWith(g, c, ev);
    if handle.Some? {
      ReportsAreOps(g, EnvOf(g, AfterSkips(g, c.s, ev.node, handle.value, AsBranch(g, ev)), pool), co, log,
        TakenList(g, ev.node, handle.value), order);
    }
  }

  /** That is what `World` lets a step do. */
  lemma HandlingIsOps(g: Graph, c: Core, ev: Event, pool: Pool, order: seq<NodeId>, co: Coord, log: seq<Emitted>)
    requires Wf(g) && (Midway(ev) || Pending(g, c.s.edge, ev.node, Out(g, ev.node)))
    requires Feasible(g, co, OpsFor(g, c, ev, pool, order))
    ensures !(ev.Chunk? && ev.selector in co.streams.closed)
    ensures RunOps(g, co, log, OpsFor(g, c, ev, pool, order)) == CoordAfter(g, c, ev, pool, order, co, log)
  {
    hide Pending, EnvOf, TryFlush, CompletedWith, AfterReports, InterceptChunk, TakenOps;
    var ops := OpsFor(g, c, ev, pool, order);
    match ev
    case Chunk(_, _, _, _) => assert ops[1..] == [];
    case Succeeded(_, _, _) =>
      var rest := TakenOps(g, c, ev, pool, order);
      assert ops[1..] == rest;
      var (c1, evs) := TryFlush(EnvOf(g, c.s, pool), co);
      ReportsFollow(g, c, ev, pool, order, c1, log + evs);
    case Failed(_) => ReportsFollow(g, c, ev, pool, order, co, log);
    case _ =>
  }

  lemma SuccessCompletes(g: Graph, c: Core, n: NodeId, handle: string, outputs: map<string, Value>)
    ensures var h := if IsBranch(g, n) then handle else "";
      CompletedWith(g, c, Succeeded(n, handle, outputs)) == if IsBranch(g, n) && h == "" then None else Some(h)
  {
  }

  lemma ExceptionCompletes(g: Graph, c: Core, n: NodeId)
    requires HandleNodeFailure(g, n, RetryCount(c, n)) == Exception
    ensures var h := if Strategy(g, n) == FailBranch then "fail-branch" else "";
      CompletedWith(g, c, Failed(n)) == if IsBranch(g, n) && h == "" then None else Some(h)
  {
  }

  class EventHandler {
    const sm: GraphStateManager
    const ep: EdgeProcessor
    const rc: ResponseStreamCoordinator
    var flags: Flags                     // of the graph execution
    var retries: map<NodeId, nat>        // retry counts of the node executions
    var paused: set<NodeId>              // of the suspension state
    var deferred: set<NodeId>
    var pool: Pool
    var outputs: map<string, string>     // of the run, by their text
    var refused: bool                    // the last handler raised in mid-attempt
    var log: seq<Emitted>                // collected stream events
    var finished: map<NodeId, string>    // history, as in `Core`
    var failed: set<NodeId>
    var crashed: set<NodeId>
    var taken: seq<EdgeId>

    ghost function View(): Core
      reads this, sm, sm.queue
    {
      Core(sm.View(), finished, failed, crashed, paused, deferred, retries, taken)
    }

    predicate Wired() { ep.sm == sm && ep.rc == rc && ep.Wired() }

    constructor (sm: GraphStateManager, ep: EdgeProcessor, rc: ResponseStreamCoordinator, pool: Pool)
      requires ep.sm == sm && ep.rc == rc && ep.Wired()
      ensures this.sm == sm && this.ep == ep && this.rc == rc && Wired() && this.pool == pool && outputs == map[]
      ensures log == []
      ensures View() == Core(sm.View(), map[], {}, {}, {}, {}, map[], []) && flags == Flags(false, false, false, false)
    {
      this.sm, this.ep, this.rc, this.pool := sm, ep, rc, pool;
      flags := Flags(false, false, false, false);
      retries, paused, deferred, outputs, refused, log := map[], {}, {}, map[], false, [];
      finished, failed, crashed, taken := map[], {}, {}, [];
    }

    // ---------- pieces of the handlers ----------

    method EnqueueReady(ready: seq<NodeId>)
      modifies sm, sm.queue
      ensures sm.View() == ScheduleAll(old(sm.View()), ready)
    {
      assert ready[0..] == ready;
      for i := 0 to |ready|
        invariant ScheduleAll(sm.View(), ready[i..]) == ScheduleAll(old(sm.View()), ready)
      {
        assert ready[i..][1..] == ready[i + 1..];
        sm.EnqueueNode(ready[i]);
        sm.StartExecution(ready[i]);
      }
      assert ready[|ready|..] == [];
    }

    method RegisterDeferred(ready: seq<NodeId>)
      modifies this`deferred
      ensures deferred == old(deferred) + Elems(ready)
    {
      for i := 0 to |ready|
        invariant deferred == old(deferred) + Elems(ready[..i])
      {
        deferred := deferred + {ready[i]};
        assert ready[..i + 1] == ready[..i] + [ready[i]];
      }
      assert ready[..|ready|] == ready;
    }

    /** A handler that raises: the dispatcher marks the execution failed. */
    method Raise(n: NodeId)
      modifies this`crashed, this`flags
      ensures (View(), flags) == Crash(old(View()), old(flags), n)
    {
      crashed := crashed + {n};
      flags := flags.(error := true, completed := true);
    }

    /** The end of a completion: ready nodes are deferred or scheduled, the node stops. */
    method Conclude(n: NodeId, handle: string, ready: seq<NodeId>, defer: bool, ghost c: Core, ghost o: Outcome)
      requires o.Done? && sm.View() == o.state && ready == o.ready && View() == c.(s := o.state)
      modifies this`deferred, this`finished, this`taken, sm, sm.queue
      ensures View() == Complete(sm.g, c, n, handle, o, defer)
    {
      hide ScheduleAll;
      if defer { RegisterDeferred(ready); } else { EnqueueReady(ready); }
      sm.FinishExecution(n);
      finished := finished[n := handle];
      taken := taken + TakenList(sm.g, n, handle);
    }

    /** `_update_response_outputs`: one output after the other. */
    method UpdateResponseOutputs(n: NodeId, produced: map<string, Value>)
      modifies this`outputs
      ensures outputs == if Kind(sm.g, n) == Response then MergeOutputs(old(outputs), produced) else old(outputs)
    {
      if Kind(sm.g, n) != Response { return; }
      var keys, done := produced.Keys, {};
      while keys != {}
        invariant keys + done == produced.Keys && keys !! done
        invariant outputs.Keys == old(outputs).Keys + done
        invariant forall k :: k in outputs ==>
          outputs[k] == (if k in done then MergeOutputs(old(outputs), produced)[k] else old(outputs)[k])
        decreases keys
      {
        var k :| k in keys;
        outputs := outputs[k := if k == "answer" && k in outputs then outputs[k] + produced[k].markdown
          else produced[k].markdown];
        keys, done := keys - {k}, done + {k};
      }
    }

    /** What edge processing answers for the node. */
    ghost function Answer(n: NodeId, handle: string, branch: bool): Outcome
      requires Wf(sm.g) && Pending(sm.g, sm.edge, n, Out(sm.g, n))
      reads sm, sm.queue
    {
      if branch then Completion.HandleBranchCompletion(sm.g, sm.View(), n, handle)
      else Completion.ProcessNodeSuccess(sm.g, sm.View(), n, handle)
    }

    /** Edge processing, and the events that it collects. */
    method ProcessEdges(n: NodeId, handle: string, branch: bool) returns (ok: bool, ready: seq<NodeId>)
      requires Wired() && Wf(sm.g) && Pending(sm.g, sm.edge, n, Out(sm.g, n))
      modifies this`log, sm, sm.queue, ep.sp, rc
      ensures rc.responses == old(rc.responses)
      ensures ok == old(Answer(n, handle, branch)).Done? == !((branch || IsBranch(sm.g, n)) && handle == "")
      ensures ok ==>
        && sm.View() == old(Answer(n, handle, branch)).state && ready == old(Answer(n, handle, branch)).ready
        && (rc.View(), log) ==
           Told(sm.g, old(sm.View()), n, handle, branch, pool, old(rc.responses), old(rc.View()), old(log))
      ensures !ok ==> sm.View() == old(sm.View()) && rc.View() == old(rc.View()) && log == old(log)
    {
      hide Pending, ReportEdges, EnvOf, Completion.HandleBranchCompletion, Completion.ProcessNodeSuccess;
      RaisingMeans(sm.g, sm.View(), n, handle);
      var events: seq<Emitted>;
      if branch {
        ok, ready, events := ep.HandleBranchCompletion(n, handle, pool);
      } else {
        ok, ready, events := ep.ProcessNodeSuccess(n, handle, pool);
      }
      assert events == [] ==> log + events == log;
      log := log + events;
    }

    /** Edge processing and what follows from it, for a success and for an exception. */
    method CompleteNode(n: NodeId, handle: string, branch: bool, defer: bool, produced: map<string, Value>)
      requires Wired() && Wf(sm.g) && Pending(sm.g, sm.edge, n, Out(sm.g, n))
      modifies this`log, this`deferred, this`finished, this`taken, this`crashed, this`flags, this`outputs,
               sm, sm.queue, ep.sp, rc
      ensures rc.responses == old(rc.responses)
      ensures var o := old(Answer(n, handle, branch));
        && (o.Raised? <==> (branch || IsBranch(sm.g, n)) && handle == "")
        && ((View(), flags) == if o.Raised? then Crash(old(View()), old(flags), n)
                               else (Complete(sm.g, old(View()), n, handle, o, defer), old(flags)))
        && (outputs == if o.Done? && Kind(sm.g, n) == Response then MergeOutputs(old(outputs), produced)
          else old(outputs))
        && ((rc.View(), log) == if o.Raised? then (old(rc.View()), old(log))
             else Told(sm.g, old(sm.View()), n, handle, branch, pool, old(rc.responses), old(rc.View()), old(log)))
    {
      hide Pending, Told, Complete, MergeOutputs, Completion.HandleBranchCompletion, Completion.ProcessNodeSuccess;
      ghost var c, o := View(), Answer(n, handle, branch);
      var ok, ready := ProcessEdges(n, handle, branch);
      if ok {
        Conclude(n, handle, ready, defer, c, o);
        UpdateResponseOutputs(n, produced);
      } else {
        Raise(n);
      }
    }

    // ---------- handlers ----------

    /** The handler of an event in mid-attempt raises: the dispatcher marks the execution failed. */
    method Refuse()
      modifies this`refused, this`flags
      ensures refused && flags == old(flags).(error := true, completed := true)
    {
      refused := true;
      flags := flags.(error := true, completed := true);
    }

    method OnChunk(n: NodeId, sel: Selector, text: string, isFinal: bool)
      modifies this`log, this`refused, this`flags, rc
      ensures View() == old(View()) && rc.responses == old(rc.responses)
      ensures if sel in old(rc.closed) then
                refused && flags == old(flags).(error := true, completed := true) &&
                rc.View() == old(rc.View()) && log == old(log)
              else
                var (r, evs) := InterceptChunk(EnvOf(sm.g, sm.View(), pool), old(rc.View()), sel,
                  BufferedChunk(n, text, isFinal));
                rc.View() == r && log == old(log) + evs && refused == old(refused) && flags == old(flags)
    {
      var ok, events := rc.InterceptChunk(EnvOf(sm.g, sm.View(), pool), sel, BufferedChunk(n, text, isFinal));
      if !ok {
        Refuse();
        return;
      }
      log := log + events;
    }

    /** An update overwrites the value in the pool; `add` raises for a malformed selector. */
    method OnVariableUpdated(sel: Selector, value: Value)
      modifies this`pool, this`refused, this`flags
      ensures View() == old(View())
      ensures if |sel| != 2 then refused && flags == old(flags).(error := true, completed := true) && pool == old(pool)
              else pool == old(pool)[(sel[0], sel[1]) := value] && refused == old(refused) && flags == old(flags)
    {
      if |sel| != 2 {
        Refuse();
        return;
      }
      pool := pool[(sel[0], sel[1]) := value];
    }

    /** `UpdateVariablesCommandHandler`: the updates are stored one after the other; one whose
        selector the pool refuses is skipped. */
    method UpdateVariables(updates: seq<(Selector, Value)>)
      modifies this`pool
      ensures pool == UpdatedPool(old(pool), updates)
    {
      assert updates[0..] == updates;
      for i := 0 to |updates|
        invariant UpdatedPool(pool, updates[i..]) == UpdatedPool(old(pool), updates)
      {
        assert updates[i..][0] == updates[i] && updates[i..][1..] == updates[i + 1..];
        var (sel, value) := updates[i];
        if |sel| == 2 { pool := pool[(sel[0], sel[1]) := value]; }
      }
      assert updates[|updates|..] == [];
    }

    /** The outputs reach the pool, and whatever sessions can send now is collected. */
    method StoreAndFlush(n: NodeId, produced: map<string, Value>)
      modifies this`pool, this`log, rc
      ensures rc.responses == old(rc.responses) && pool == Store(old(pool), n, produced) && View() == old(View())
      ensures var (r, evs) := TryFlush(EnvOf(sm.g, sm.View(), pool), old(rc.View()));
        rc.View() == r && log == old(log) + evs
    {
      hide TryFlush, EnvOf, Store;
      pool := Store(pool, n, produced);
      var events := rc.TryFlush(EnvOf(sm.g, sm.View(), pool));
      log := log + events;
    }

    method OnNodeSucceeded(n: NodeId, handle: string, produced: map<string, Value>)
      requires Wired() && Wf(sm.g) && Pending(sm.g, sm.edge, n, Out(sm.g, n))
      modifies this, sm, sm.queue, ep.sp, rc
      ensures rc.responses == old(rc.responses) && pool == Store(old(pool), n, produced)
      ensures (View(), flags) == OnSucceeded(sm.g, old(View()), old(flags), n, handle)
      ensures (rc.View(), log) == CoordAfter(sm.g, old(View()), Succeeded(n, handle, produced), pool, old(rc.responses),
                                             old(rc.View()), old(log))
      ensures outputs == OutputsAfter(sm.g, old(View()), Succeeded(n, handle, produced), map[], old(outputs))
      ensures refused == old(refused)
    {
      hide Pending, Told, EnvOf, Store, Completion.HandleBranchCompletion, Completion.ProcessNodeSuccess, Complete,
        TryFlush;
      StoreAndFlush(n, produced);
      SuccessCompletes(sm.g, View(), n, handle, produced);
      hide CompletedWith, MergeOutputs;
      CompleteNode(n, if IsBranch(sm.g, n) then handle else "", IsBranch(sm.g, n), flags.paused, produced);
    }

    /** `handle_node_failure` has answered with an exception event. */
    method OnNodeException(n: NodeId, produced: map<string, Value>)
      requires Wired() && Wf(sm.g) && Pending(sm.g, sm.edge, n, Out(sm.g, n))
      requires HandleNodeFailure(sm.g, n, RetryCount(View(), n)) == Exception
      modifies this, sm, sm.queue, ep.sp, rc
      ensures rc.responses == old(rc.responses) && pool == Store(old(pool), n, produced)
      ensures (View(), flags) == OnException(sm.g, old(View()), old(flags), n)
      ensures (rc.View(), log) == AfterReports(sm.g, old(View()), Failed(n), pool, old(rc.responses), old(rc.View()),
        old(log))
      ensures outputs == OutputsAfter(sm.g, old(View()), Failed(n), produced, old(outputs)) && refused == old(refused)
    {
      hide Pending, Told, Store, Completion.HandleBranchCompletion, Completion.ProcessNodeSuccess, Complete;
      pool := Store(pool, n, produced);
      var branch := Strategy(sm.g, n) == FailBranch;
      ExceptionCompletes(sm.g, View(), n);
      hide CompletedWith, MergeOutputs, HandleNodeFailure;
      CompleteNode(n, if branch then "fail-branch" else "", branch, false, produced);
    }

    method OnNodeRetry(n: NodeId)
      modifies this`retries, sm, sm.queue
      ensures View() == OnRetry(old(View()), n)
    {
      retries := retries[n := (if n in retries then retries[n] else 0) + 1];
      sm.FinishExecution(n);
      sm.EnqueueNode(n);
      sm.StartExecution(n);
    }

    method OnNodeFailed(n: NodeId, produced: map<string, Value>)
      requires Wired() && Wf(sm.g) && Pending(sm.g, sm.edge, n, Out(sm.g, n))
      modifies this, sm, sm.queue, ep.sp, rc
      ensures rc.responses == old(rc.responses) && pool == PoolAfter(sm.g, old(View()), Failed(n), produced, old(pool))
      ensures (View(), flags) == OnFailed(sm.g, old(View()), old(flags), n)
      ensures (rc.View(), log) == AfterReports(sm.g, old(View()), Failed(n), pool, old(rc.responses), old(rc.View()),
        old(log))
      ensures outputs == OutputsAfter(sm.g, old(View()), Failed(n), produced, old(outputs)) && refused == old(refused)
    {
      hide Pending, OnException, OnRetry, Store, Told;
      match HandleNodeFailure(sm.g, n, if n in retries then retries[n] else 0)
      case Retry => OnNodeRetry(n);
      case Exception => OnNodeException(n, produced);
      case Fatal => FailRun(n);
    }

    method FailRun(n: NodeId)
      modifies this`flags, this`failed, sm`executing
      ensures View() ==
        old(View()).(s := old(sm.View()).(executing := old(sm.executing) - {n}), failed := old(failed) + {n})
      ensures flags == old(flags).(error := true, completed := true)
    {
      flags := flags.(error := true, completed := true);
      sm.FinishExecution(n);
      failed := failed + {n};
    }

    /** `pause` raises once the execution has completed or was aborted. */
    method OnNodePauseRequested(n: NodeId)
      modifies this, sm
      ensures (View(), flags) == OnPauseRequested(old(View()), old(flags), n)
      ensures pool == old(pool) && log == old(log) && outputs == old(outputs) && refused == old(refused)
    {
      if flags.completed || flags.aborted {
        Raise(n);
        return;
      }
      flags := flags.(paused := true);
      sm.FinishExecution(n);
      sm.node := sm.node[n := Unknown];
      paused := paused + {n};
    }

    /** `dispatch`: the new state is that of the specification; pool, outputs, coordinator and the
        collected events follow. A handler that raises in mid-attempt changes nothing else.
        `produced` are the outputs of an exception strategy. */
    method Dispatch(ev: Event, produced: map<string, Value>)
      requires Wired() && Wf(sm.g) && (Midway(ev) || Pending(sm.g, sm.edge, ev.node, Out(sm.g, ev.node)))
      modifies this, sm, sm.queue, ep.sp, rc
      ensures rc.responses == old(rc.responses)
      ensures refused == (old(refused) || Refuses(old(rc.View()), ev))
      ensures Refuses(old(rc.View()), ev) ==>
        && View() == old(View()) && flags == old(flags).(error := true, completed := true)
        && pool == old(pool) && outputs == old(outputs) && rc.View() == old(rc.View()) && log == old(log)
      ensures !Refuses(old(rc.View()), ev) ==>
        && (View(), flags) == HandleEvent(sm.g, old(View()), old(flags), ev)
        && pool == PoolAfter(sm.g, old(View()), ev, produced, old(pool))
        && outputs == OutputsAfter(sm.g, old(View()), ev, produced, old(outputs))
        && (rc.View(), log) == CoordAfter(sm.g, old(View()), ev, pool, old(rc.responses), old(rc.View()), old(log))
    {
      hide Pending, OnSucceeded, OnFailed, OnPauseRequested, AfterReports, Store, TryFlush, InterceptChunk, EnvOf,
        MergeOutputs;
      match ev
      case Chunk(n, sel, text, isFinal) => OnChunk(n, sel, text, isFinal);
      case Updated(_, sel, value) => OnVariableUpdated(sel, value);
      case Collected(_) =>
      case Succeeded(n, handle, out) => OnNodeSucceeded(n, handle, out);
      case Failed(n) => OnNodeFailed(n, produced);
      case PauseRequested(n) => OnNodePauseRequested(n);
    }

    // ---------- starting and resuming ----------

    /** `run` and the resume loop of `_start_execution`; the parked nodes come in any order. Core and
        flags of an engine `e` become those of the resumed one. */
    method ResumeParked(pausedNodes: seq<NodeId>, deferredNodes: seq<NodeId>, ghost e: Engine)
      requires e.core == View() && e.flags == flags
      modifies this`paused, this`deferred, this`flags, sm, sm.queue
      ensures var r := Resumed(e, pausedNodes, deferredNodes); View() == r.core && flags == r.flags
      ensures !flags.paused && paused == {} && deferred == {}
    {
      paused, deferred := {}, {};
      flags := flags.(paused := false);
      var nodes := pausedNodes + deferredNodes;
      var seen: set<NodeId> := {};
      assert nodes[0..] == nodes;
      for i := 0 to |nodes|
        invariant ResumeNodes(sm.View(), nodes[i..], seen) == ResumeNodes(old(sm.View()), nodes, {})
        invariant paused == {} && deferred == {} && flags == old(flags).(paused := false)
      {
        assert nodes[i..][1..] == nodes[i + 1..];
        if nodes[i] in seen { continue; }
        seen := seen + {nodes[i]};
        sm.EnqueueNode(nodes[i]);
        sm.StartExecution(nodes[i]);
      }
      assert nodes[|nodes|..] == [];
    }
  }
}
