/** Sessions hold nothing back: what can be sent is sent by the handler that makes it so, and a
    variable whose source is SKIPPED is not waited for (coordinator.py, event_handlers.py). */
module Promptness {
  import opened Templates
  import opened VariablePool
  import opened Graphs
  import opened Traversal
  import opened Completion
  import opened Marking
  import opened Scheduler
  import opened Runs
  import opened Coordinator
  import opened Sessions
  import opened CoordinatorRuns
  import opened StoredPaths
  import opened Reachability
  import opened World
  import opened WorldRuns
  import opened WorldStreams
  import opened Streaming
  import opened StreamingRuns
  import opened EngineStreaming

  /** The active session, if any, is at a variable of whose open stream it has read everything. */
  ghost predicate Prompt(c: Coord) {
    c.active.Some? ==>
      var s := c.active.value;
      && s.index < |s.template| && s.template[s.index].Variable?
      && var sel := s.template[s.index].selector; sel !in c.streams.closed && Unread(c.streams, sel) == []
  }

  /** ... whose source is not skipped and of which the pool has no value. */
  ghost predicate Blocked(env: Env, c: Coord) {
    Prompt(c) && (c.active.Some? ==>
      var s := c.active.value;
      var sel := s.template[s.index].selector;
      !SourceSkipped(env, sel) && Get(env.pool, sel).None?)
  }

  // ---------- operations ----------

  lemma ReadAllIsRead(st: Streams, sel: Selector)
    ensures Unread(ReadAll(st, sel), sel) == [] && ReadAll(st, sel).closed == st.closed
  {
  }

  lemma {:induction false} RunBlocks(env: Env, c: Coord)
    requires c.active.Some?
    ensures var r := RunSegments(env, c).0; IsComplete(r.active.value) || Blocked(env, r)
    decreases |c.active.value.template| - c.active.value.index
  {
    hide VariableEvents, Get, ReadAll, Unread;
    var s := c.active.value;
    if s.index < |s.template| {
      match s.template[s.index]
      case Text(_) => RunBlocks(env, Advance(c));
      case Variable(sel) =>
        if SourceSkipped(env, sel) {
          RunBlocks(env, Advance(c));
        } else if VariableCompletes(env, c.streams, sel) {
          RunBlocks(env, Advance(c.(streams := ReadAll(c.streams, sel))));
        } else {
          ReadAllIsRead(c.streams, sel);
        }
    }
  }

  lemma {:induction false} FlushBlocks(env: Env, c: Coord)
    ensures Blocked(env, TryFlush(env, c).0)
    decreases |c.waiting|
  {
    hide Blocked, RunSegments;
    if c.active.None? {
      IdleIsBlocked(env, c);
    } else {
      var c1 := RunSegments(env, c).0;
      RunBlocks(env, c);
      if IsComplete(c1.active.value) {
        if c.waiting == [] {
          IdleIsBlocked(env, c1.(ended := c.ended + 1, active := None));
        } else {
          FlushBlocks(env, c1.(ended := c.ended + 1, active := Some(c.waiting[0]), waiting := c.waiting[1..]));
        }
      }
    }
  }

  lemma IdleIsBlocked(env: Env, c: Coord)
    requires c.active.None?
    ensures Blocked(env, c)
  {
  }

  /** A session stays blocked for whoever sees fewer nodes as skipped. */
  lemma BlockedForMilder(env: Env, late: Env, c: Coord)
    requires Milder(env, late) && Blocked(late, c)
    ensures Blocked(env, c)
  {
  }

  lemma SameBlocked(env: Env, c: Coord, r: Coord)
    requires r.active == c.active && r.streams == c.streams
    ensures Blocked(env, c) <==> Blocked(env, r)
    ensures Prompt(c) <==> Prompt(r)
  {
  }

  /** Taken edges start sessions, or queue them behind the active one. */
  lemma {:induction false} EdgeBlocks(env: Env, late: Env, c: Coord, e: EdgeId, order: seq<NodeId>)
    requires Milder(env, late)
    ensures Blocked(env, c) ==> Blocked(env, OnEdgeTaken(late, c, e, order).0)
    ensures Prompt(c) ==> Prompt(OnEdgeTaken(late, c, e, order).0)
    decreases |order|
  {
    hide Blocked, Prompt, Milder, OnEdgeTakenFor;
    if order != [] {
      EdgeBlocksFor(env, late, c, e, order[0]);
      EdgeBlocks(env, late, OnEdgeTakenFor(late, c, e, order[0]).0, e, order[1..]);
    }
  }

  lemma EdgeBlocksFor(env: Env, late: Env, c: Coord, e: EdgeId, n: NodeId)
    requires Milder(env, late)
    ensures Blocked(env, c) ==> Blocked(env, OnEdgeTakenFor(late, c, e, n).0)
    ensures Prompt(c) ==> Prompt(OnEdgeTakenFor(late, c, e, n).0)
  {
    hide Blocked, Prompt, Milder, TryFlush;
    var r := OnEdgeTakenFor(late, c, e, n).0;
    if n in c.paths && n in c.pending && [] in RemoveFromAll(c.paths[n], e) && c.active.None? {
      var c1 := c.(paths := c.paths[n := RemoveFromAll(c.paths[n], e)], pending := c.pending - {n},
                   started := c.started + [n], active := Some(c.pending[n]));
      FlushBlocks(late, c1);
      BlockedForMilder(env, late, TryFlush(late, c1).0);
      BlockedIsPrompt(env, r);
    } else {
      SameBlocked(env, c, r);
    }
  }

  lemma BlockedIsPrompt(env: Env, c: Coord)
    requires Blocked(env, c)
    ensures Prompt(c)
  {
  }

  lemma MilderItself(env: Env)
    ensures Milder(env, env)
  {
  }

  /** Every operation of the coordinator leaves it prompt. */
  lemma ApplyKeepsPrompt(g: Graph, c: Coord, op: Op)
    requires Wf(g) && Valid(c, op) && Prompt(c)
    ensures Prompt(Apply(g, c, op).0)
  {
    hide Prompt, TryFlush, OnEdgeTaken, Milder;
    match op
    case RegisterNode(n) => SameBlocked(Env({}, {}, map[]), c, Register(g, c, n));
    case Flush(env) => FlushBlocks(env, c); BlockedIsPrompt(env, TryFlush(env, c).0);
    case ChunkIn(env, sel, chunk) =>
      ChunkBlocks(env, c, sel, chunk);
      BlockedIsPrompt(env, InterceptChunk(env, c, sel, chunk).0);
    case EdgeIn(env, e, order) => MilderItself(env); EdgeBlocks(env, env, c, e, order);
  }

  lemma ChunkBlocks(env: Env, c: Coord, sel: Selector, chunk: BufferedChunk)
    requires sel !in c.streams.closed
    ensures Blocked(env, InterceptChunk(env, c, sel, chunk).0)
  {
    hide Blocked, TryFlush;
    var st := Append(c.streams, sel, chunk);
    FlushBlocks(env, c.(streams := if chunk.isFinal then Close(st, sel) else st));
  }

  lemma {:induction false} RunOpsKeepPrompt(g: Graph, c: Coord, log: seq<Emitted>, ops: seq<Op>)
    requires Wf(g) && Feasible(g, c, ops) && Prompt(c)
    ensures Prompt(RunOps(g, c, log, ops).0)
    decreases |ops|
  {
    hide Prompt, Apply, Valid;
    if ops != [] {
      ApplyKeepsPrompt(g, c, ops[0]);
      RunOpsKeepPrompt(g, Apply(g, c, ops[0]).0, log + Apply(g, c, ops[0]).1, ops[1..]);
    }
  }

  // ---------- engine runs ----------

  lemma StepKeepsPrompt(g: Graph, w: World, m: Move, r: World)
    requires Wf(g) && WorldNext(g, w, m.step, m.outputs, m.order, r) && Prompt(w.co)
    ensures Prompt(r.co)
  {
    hide Prompt, WorldNext, MoveOps, RunOps, Feasible;
    StepRunsOps(g, w, m, r);
    RunOpsKeepPrompt(g, w.co, w.log, MoveOps(g, w, m));
  }

  /** In every state of every engine run the active session is at a variable whose stream is open, and
      every chunk of it that has come has been sent on. */
  lemma {:induction false} SessionsArePrompt(g: Graph, inactive: set<NodeId>, trace: seq<World>, moves: seq<Move>,
      i: nat)
    requires EngineRun(g, inactive, trace, moves) && i < |trace|
    ensures Prompt(trace[i].co)
  {
    hide Prompt, WorldNext, Fresh, WorldStarted;
    if i == 0 {
      var s, pool, order :|
        Fresh(g, inactive, s) && Elems(order) == ResponseNodes(g) && trace[0] == WorldStarted(g, s, pool, order);
      StartIsPrompt(g, s, pool, order);
    } else {
      SessionsArePrompt(g, inactive, trace, moves, i - 1);
      StepKeepsPrompt(g, trace[i - 1], moves[i - 1], trace[i]);
    }
  }

  lemma StartIsPrompt(g: Graph, s: State, pool: Pool, order: seq<NodeId>)
    requires Wf(g)
    ensures Prompt(WorldStarted(g, s, pool, order).co)
  {
    hide RunOps, Feasible, Started;
    RegistrationsAreFeasible(g, INITIAL, order);
    RunOpsKeepPrompt(g, INITIAL, [], Registrations(order));
  }

  /** What was SKIPPED before the unselected paths were is so afterwards. */
  lemma SkipsShowMilder(g: Graph, inactive: set<NodeId>, c: Core, n: NodeId, handle: string, branch: bool, pool: Pool)
    requires Wf(g) && CoreOk(g, inactive, c) && Pending(g, c.s.edge, n, Out(g, n))
    ensures Milder(EnvOf(g, c.s, pool), EnvOf(g, AfterSkips(g, c.s, n, handle, branch), pool))
  {
    hide AfterSkips, Pending, EdgeOk, NodeOk, Exclusive, Active, On, Retried, EdgesResolved;
    var m := AfterSkips(g, c.s, n, handle, branch);
    SkipsResolve(g, c.s, n, handle, branch);
    ListsReleased(Queued(c.s, m), [], Released(g, c.s.edge, m.edge));
    forall k | k in g.nodes && NodeMark(c.s, k) == Skipped ensures NodeMark(m, k) == Skipped {
      assert SkipOk(g, c.s, inactive, k);
      SkippedIsSettled(g, inactive, c.s, k);
    }
  }

  lemma {:induction false} EdgeOpsBlock(g: Graph, env: Env, late: Env, c: Coord, log: seq<Emitted>, es: seq<EdgeId>,
      order: seq<NodeId>)
    requires Wf(g) && Milder(env, late) && Feasible(g, c, EdgeOps(late, es, order)) && Blocked(env, c)
    ensures Blocked(env, RunOps(g, c, log, EdgeOps(late, es, order)).0)
    decreases |es|
  {
    hide Blocked, Milder, OnEdgeTaken;
    if es != [] {
      EdgeBlocks(env, late, c, es[0], order);
      assert EdgeOps(late, es, order)[1..] == EdgeOps(late, es[1..], order);
      var (c1, evs) := OnEdgeTaken(late, c, es[0], order);
      EdgeOpsBlock(g, env, late, c1, log + evs, es[1..], order);
    }
  }

  lemma HandledBlocks(g: Graph, inactive: set<NodeId>, c: Core, ev: Event, pool: Pool, order: seq<NodeId>, co: Coord,
      log: seq<Emitted>)
    requires Wf(g) && CoreOk(g, inactive, c) && (ev.Chunk? || ev.Succeeded?)
    requires Midway(ev) || Pending(g, c.s.edge, ev.node, Out(g, ev.node))
    requires Feasible(g, co, OpsFor(g, c, ev, pool, order))
    ensures Blocked(EnvOf(g, c.s, pool), RunOps(g, co, log, OpsFor(g, c, ev, pool, order)).0)
  {
    hide CoreOk, Pending, Blocked, EnvOf, CompletedWith, AfterSkips, TryFlush, TakenList, Milder, InterceptChunk;
    var env, ops := EnvOf(g, c.s, pool), OpsFor(g, c, ev, pool, order);
    if ev.Chunk? {
      assert ops[1..] == [];
      ChunkBlocks(env, co, ev.selector, BufferedChunk(ev.node, ev.text, ev.isFinal));
    } else {
      var rest := TakenOps(g, c, ev, pool, order);
      assert ops[1..] == rest;
      FlushBlocks(env, co);
      var (c1, evs) := TryFlush(env, co);
      match CompletedWith(g, c, ev)
      case None =>
      case Some(h) =>
        var late := EnvOf(g, AfterSkips(g, c.s, ev.node, h, AsBranch(g, ev)), pool);
        SkipsShowMilder(g, inactive, c, ev.node, h, AsBranch(g, ev), pool);
        EdgeOpsBlock(g, env, late, c1, log + evs, TakenList(g, ev.node, h), order);
    }
  }

  /** After the dispatcher has handled a chunk or a success, the active session waits for a variable
      whose source was not SKIPPED when the handler began, and of which neither an unread chunk nor a
      value in the pool is there. */
  lemma WaitsForRunning(g: Graph, inactive: set<NodeId>, w: World, m: Move, r: World)
    requires Wf(g) && WorldOk(g, inactive, w) && WorldNext(g, w, m.step, m.outputs, m.order, r) && m.step.Dispatch?
    ensures w.e.events != []
    ensures (w.e.events[0].Chunk? || w.e.events[0].Succeeded?) && r.co.active.Some? ==>
      var s := r.co.active.value;
      && s.index < |s.template| && s.template[s.index].Variable?
      && var sel := s.template[s.index].selector;
         && (Prefix(sel) in g.nodes ==> NodeMark(w.e.core.s, Prefix(sel)) != Skipped)
         && sel !in r.co.streams.closed && Unread(r.co.streams, sel) == [] && Get(r.pool, sel) == None
  {
    hide CoreOk, Reached, CoordOk, Stored, InOrder, Pending, HandleEvent, OpsFor, RunOps, Feasible, PoolAfter,
      OutputsAfter, Get, Unread;
    EventWaits(g, w, m, r);
    var ev := w.e.events[0];
    if ev.Chunk? || ev.Succeeded? {
      HandledBlocks(g, inactive, w.e.core, ev, r.pool, m.order, w.co, w.log);
    }
  }

  // ---------- sessions that start within a handler ----------

  lemma AnswerKeepsNodes(g: Graph, s: State, n: NodeId, h: string)
    requires Wf(g) && Pending(g, s.edge, n, Out(g, n)) && (IsBranch(g, n) ==> h != "")
    ensures var o := if IsBranch(g, n) then HandleBranchCompletion(g, s, n, h) else ProcessNodeSuccess(g, s, n, h);
      o.Done? && o.state.node == AfterSkips(g, s, n, h, IsBranch(g, n)).node
  {
    hide Pending, SkipEdges, TakeEdges, Wf, RemarkSkipped;
  }

  lemma HandledIsComplete(g: Graph, c: Core, f: Flags, ev: Event)
    requires Wf(g) && Promoted(g) && !Midway(ev) && Pending(g, c.s.edge, ev.node, Out(g, ev.node))
    requires CompletedWith(g, c, ev).Some?
    ensures var n, h := ev.node, CompletedWith(g, c, ev).value;
      var o := if IsBranch(g, n) then HandleBranchCompletion(g, c.s, n, h) else ProcessNodeSuccess(g, c.s, n, h);
      && AsBranch(g, ev) == IsBranch(g, n) && (IsBranch(g, n) ==> h != "") && o.Done?
      && exists defer :: HandleEvent(g, c, f, ev).0 == Complete(g, c, n, h, o, defer)
  {
    hide Pending, Complete, Wf, HandleBranchCompletion, ProcessNodeSuccess;
    var n, h := ev.node, CompletedWith(g, c, ev).value;
    assert AsBranch(g, ev) == IsBranch(g, n) && (IsBranch(g, n) ==> h != "");
    RaisingMeans(g, c.s, n, h);
    var o := if IsBranch(g, n) then HandleBranchCompletion(g, c.s, n, h) else ProcessNodeSuccess(g, c.s, n, h);
    assert HandleEvent(g, c, f, ev).0 == Complete(g, c, n, h, o, ev.Succeeded? && f.paused);
  }

  /** Completing a node skips nobody once its unselected paths have been skipped. */
  lemma CompletionShowsSkips(g: Graph, c: Core, f: Flags, ev: Event, pool: Pool)
    requires Wf(g) && Promoted(g) && !Midway(ev) && Pending(g, c.s.edge, ev.node, Out(g, ev.node))
    requires CompletedWith(g, c, ev).Some?
    ensures Milder(EnvOf(g, HandleEvent(g, c, f, ev).0.s, pool),
                   EnvOf(g, AfterSkips(g, c.s, ev.node, CompletedWith(g, c, ev).value, AsBranch(g, ev)), pool))
  {
    hide Pending, AfterSkips, Wf, Complete, HandleEvent, HandleBranchCompletion, ProcessNodeSuccess, CompletedWith,
      Promoted;
    var n, h := ev.node, CompletedWith(g, c, ev).value;
    HandledIsComplete(g, c, f, ev);
    AnswerKeepsNodes(g, c.s, n, h);
    var o := if IsBranch(g, n) then HandleBranchCompletion(g, c.s, n, h) else ProcessNodeSuccess(g, c.s, n, h);
    CompleteSkipsNobody(g, c, n, h, o, true);
    CompleteSkipsNobody(g, c, n, h, o, false);
  }

  lemma CompleteSkipsNobody(g: Graph, c: Core, n: NodeId, handle: string, o: Outcome, defer: bool)
    requires o.Done?
    ensures var r := Complete(g, c, n, handle, o, defer);
      forall k :: NodeMark(r.s, k) == Skipped ==> NodeMark(o.state, k) == Skipped
  {
    ScheduleAllEffect(o.state, o.ready);
    hide ScheduleAll;
    var s1 := if defer then o.state else ScheduleAll(o.state, o.ready);
    assert Complete(g, c, n, handle, o, defer).s.node == s1.node;
    forall k ensures NodeMark(Complete(g, c, n, handle, o, defer).s, k) == NodeMark(s1, k) {
    }
  }

  /** A session numbered `k` or later is blocked, if it is active. */
  ghost predicate NewBlocked(k: nat, env: Env, c: Coord) {
    c.active.Some? && c.ended >= k ==> Blocked(env, c)
  }

  lemma {:induction false} EdgeBlocksNew(k: nat, env: Env, c: Coord, e: EdgeId, order: seq<NodeId>)
    requires NewBlocked(k, env, c)
    ensures NewBlocked(k, env, OnEdgeTaken(env, c, e, order).0)
    decreases |order|
  {
    hide NewBlocked, OnEdgeTakenFor;
    if order != [] {
      EdgeBlocksNewFor(k, env, c, e, order[0]);
      EdgeBlocksNew(k, env, OnEdgeTakenFor(env, c, e, order[0]).0, e, order[1..]);
    }
  }

  lemma EdgeBlocksNewFor(k: nat, env: Env, c: Coord, e: EdgeId, n: NodeId)
    requires NewBlocked(k, env, c)
    ensures NewBlocked(k, env, OnEdgeTakenFor(env, c, e, n).0)
  {
    hide Blocked, TryFlush;
    var r := OnEdgeTakenFor(env, c, e, n).0;
    if n in c.paths && n in c.pending && [] in RemoveFromAll(c.paths[n], e) && c.active.None? {
      FlushBlocks(env, c.(paths := c.paths[n := RemoveFromAll(c.paths[n], e)], pending := c.pending - {n},
                          started := c.started + [n], active := Some(c.pending[n])));
    } else {
      SameBlocked(env, c, r);
    }
  }

  lemma {:induction false} EdgeOpsBlockNew(g: Graph, k: nat, env: Env, c: Coord, log: seq<Emitted>, es: seq<EdgeId>,
      order: seq<NodeId>)
    requires Wf(g) && Feasible(g, c, EdgeOps(env, es, order)) && NewBlocked(k, env, c)
    ensures NewBlocked(k, env, RunOps(g, c, log, EdgeOps(env, es, order)).0)
    decreases |es|
  {
    hide NewBlocked, OnEdgeTaken;
    if es != [] {
      EdgeBlocksNew(k, env, c, es[0], order);
      assert EdgeOps(env, es, order)[1..] == EdgeOps(env, es[1..], order);
      var (c1, evs) := OnEdgeTaken(env, c, es[0], order);
      EdgeOpsBlockNew(g, k, env, c1, log + evs, es[1..], order);
    }
  }

  /** Of a flush none is new: every session that may be active then had started. */
  lemma FlushStartsNone(env: Env, late: Env, c: Coord, log: seq<Emitted>)
    requires CoordOk(c, log)
    ensures NewBlocked(|c.started|, late, c) && NewBlocked(|c.started|, late, TryFlush(env, c).0)
  {
    hide Blocked, TryFlush, Sorted, Bounded, AllDelivered, OneSessionEach;
    TryFlushKeepsOk(env, c, log);
    TryFlushFrame(env, c);
  }

  lemma HandledBlocksNew(g: Graph, c: Core, ev: Event, pool: Pool, order: seq<NodeId>, co: Coord, log: seq<Emitted>,
      late: Env)
    requires Wf(g) && CoordOk(co, log) && Pending(g, c.s.edge, ev.node, Out(g, ev.node))
    requires ev.Succeeded? || ev.Failed?
    requires CompletedWith(g, c, ev).Some? ==>
      late == EnvOf(g, AfterSkips(g, c.s, ev.node, CompletedWith(g, c, ev).value, AsBranch(g, ev)), pool)
    requires Feasible(g, co, OpsFor(g, c, ev, pool, order))
    ensures NewBlocked(|co.started|, late, RunOps(g, co, log, OpsFor(g, c, ev, pool, order)).0)
  {
    hide Pending, NewBlocked, EnvOf, CompletedWith, AfterSkips, TryFlush, TakenList, CoordOk;
    var k, ops, rest := |co.started|, OpsFor(g, c, ev, pool, order), TakenOps(g, c, ev, pool, order);
    var env := EnvOf(g, c.s, pool);
    FlushStartsNone(env, late, co, log);
    var (c1, evs) := if ev.Succeeded? then TryFlush(env, co) else (co, []);
    var log1 := if ev.Succeeded? then log + evs else log;
    assert ev.Succeeded? ==> ops[1..] == rest;
    assert RunOps(g, co, log, ops) == RunOps(g, c1, log1, rest);
    match CompletedWith(g, c, ev)
    case None =>
    case Some(h) => EdgeOpsBlockNew(g, k, late, c1, log1, TakenList(g, ev.node, h), order);
  }

  /** A session that starts while an event is handled has gone past every variable whose source is
      SKIPPED once the event has been handled, this event's own unselected paths included. */
  lemma StartsPastSkipped(g: Graph, inactive: set<NodeId>, w: World, m: Move, r: World)
    requires Wf(g) && Promoted(g) && WorldOk(g, inactive, w) && WorldNext(g, w, m.step, m.outputs, m.order, r)
    requires m.step.Dispatch? && r.co.active.Some? && r.co.ended >= |w.co.started|
    requires w.e.events != [] && (w.e.events[0].Succeeded? || w.e.events[0].Failed?)
    requires CompletedWith(g, w.e.core, w.e.events[0]).Some?
    ensures var s := r.co.active.value;
      && s.index < |s.template| && s.template[s.index].Variable?
      && var sel := s.template[s.index].selector;
         && (Prefix(sel) in g.nodes ==> NodeMark(r.e.core.s, Prefix(sel)) != Skipped)
         && sel !in r.co.streams.closed && Unread(r.co.streams, sel) == [] && Get(r.pool, sel) == None
  {
    hide CoreOk, Reached, CoordOk, Stored, InOrder, Pending, HandleEvent, OpsFor, RunOps, Feasible, PoolAfter,
      OutputsAfter, Get, Unread, CompletedWith, AfterSkips;
    var c, ev := w.e.core, w.e.events[0];
    var late := EnvOf(g, AfterSkips(g, c.s, ev.node, CompletedWith(g, c, ev).value, AsBranch(g, ev)), r.pool);
    HandledBlocksNew(g, c, ev, r.pool, m.order, w.co, w.log, late);
    CompletionShowsSkips(g, c, w.e.flags, ev, r.pool);
    BlockedForMilder(EnvOf(g, r.e.core.s, r.pool), late, r.co);
  }

  // ---------- failures ----------

  lemma {:induction false} EdgesOnlyQueue(env: Env, c: Coord, e: EdgeId, order: seq<NodeId>)
    requires c.active.Some?
    ensures OnEdgeTaken(env, c, e, order).1 == [] && OnEdgeTaken(env, c, e, order).0.active == c.active
    decreases |order|
  {
    if order != [] { EdgesOnlyQueue(env, OnEdgeTakenFor(env, c, e, order[0]).0, e, order[1..]); }
  }

  lemma {:induction false} EdgeOpsOnlyQueue(g: Graph, env: Env, c: Coord, log: seq<Emitted>, es: seq<EdgeId>,
      order: seq<NodeId>)
    requires Wf(g) && Feasible(g, c, EdgeOps(env, es, order)) && c.active.Some?
    ensures RunOps(g, c, log, EdgeOps(env, es, order)).1 == log
    ensures RunOps(g, c, log, EdgeOps(env, es, order)).0.active == c.active
    decreases |es|
  {
    hide OnEdgeTaken;
    if es != [] {
      EdgesOnlyQueue(env, c, es[0], order);
      assert EdgeOps(env, es, order)[1..] == EdgeOps(env, es[1..], order);
      assert log + [] == log;
      EdgeOpsOnlyQueue(g, env, OnEdgeTaken(env, c, es[0], order).0, log, es[1..], order);
    }
  }

  /** A failure, also one that goes on by an error strategy and stores its outputs, makes no active
      session go on: that waits for the next chunk or success. */
  lemma FailureSendsNothing(g: Graph, w: World, m: Move, r: World)
    requires Wf(g) && WorldNext(g, w, m.step, m.outputs, m.order, r) && m.step.Dispatch?
    requires w.e.events != [] && w.e.events[0].Failed? && w.co.active.Some?
    ensures r.log == w.log && r.co.active == w.co.active
  {
    hide Pending, HandleEvent, PoolAfter, OutputsAfter, EnvOf, AfterSkips, TakenList;
    var c, ev := w.e.core, w.e.events[0];
    match CompletedWith(g, c, ev)
    case None =>
    case Some(h) =>
      hide CompletedWith;
      var env := EnvOf(g, AfterSkips(g, c.s, ev.node, h, AsBranch(g, ev)), r.pool);
      EdgeOpsOnlyQueue(g, env, w.co, w.log, TakenList(g, ev.node, h), m.order);
  }

  /** A variable whose source is SKIPPED while the session may send is passed over: the session sends
      nothing for it. */
  lemma SkippedSourceIsSilent(g: Graph, inactive: set<NodeId>, trace: seq<World>, moves: seq<Move>, i: nat, f: Focus,
      j: nat, l: nat)
    requires EngineRun(g, inactive, trace, moves) && i < |trace| && trace[i].co.ended > f.k
    requires IsSession(g, trace[i].co.started, f) && FitsEngine(g, trace, moves, i, f)
    requires j < |f.template| && f.template[j].Variable? && Prefix(f.template[j].selector) in g.nodes
    requires l < i && moves[l].step.Dispatch? && trace[l].co.ended <= f.k <= trace[l + 1].co.ended
    requires NodeMark(trace[l + 1].e.core.s, Prefix(f.template[j].selector)) == Skipped
    ensures SegmentText(trace[i].log, f.k, j) == ""
  {
    hide SegmentText, EarlierText, EngineRun, IsSession, SegmentsText, Get;
    EngineSessionIsExact(g, inactive, trace, moves, i, f);
    assert Fulfilled(trace[i].log, f.k, f.template, f.meaning, j);
    assert FitsWorld(g, trace[l + 1], f);
    assert FitsVariable(g, trace[l + 1], f.meaning, f.template[j].selector);
  }
}
