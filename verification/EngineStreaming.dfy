/** Streaming inside engine runs: what the handlers show the coordinator is what the engine holds
    once the event has been handled, so the conditions on streaming can be read off its states. */
module EngineStreaming {
  import opened Templates
  import opened VariablePool
  import opened Graphs
  import opened Traversal
  import opened Completion
  import opened Marking
  import opened Scheduler
  import opened Runs
  import opened Paths
  import opened Coordinator
  import opened Sessions
  import opened CoordinatorRuns
  import opened StoredPaths
  import opened Reachability
  import opened World
  import opened WorldRuns
  import opened Streaming
  import opened StreamingRuns
  import Rendering

  // ---------- a skipped node stays skipped ----------

  /** What is SKIPPED once the unselected paths have been skipped is SKIPPED after the completion. */
  lemma CompletionKeepsSkips(g: Graph, s: State, n: NodeId, handle: string, d: EdgeId)
    requires Wf(g) && Pending(g, s.edge, n, Out(g, n)) && (IsBranch(g, n) ==> handle != "")
    requires EdgeMark(AfterSkips(g, s, n, handle, IsBranch(g, n)).edge, d) == Skipped
    ensures var o := if IsBranch(g, n) then HandleBranchCompletion(g, s, n, handle)
      else ProcessNodeSuccess(g, s, n, handle);
      o.Done? && EdgeMark(o.state.edge, d) == Skipped
  {
    if IsBranch(g, n) {
      hide Pending, SkipEdges;
      CategoryIsPending(g, s.edge, n, Out(g, n), handle, false);
      var m := SkipEdges(g, s, n, Unselected(g, n, handle));
      SkipEdgesResolves(g, s, n, Unselected(g, n, handle));
      SelectedStaysPending(g, s, n, handle, m);
      RemarkIsIdle(m.edge, Unselected(g, n, handle));
      assert d in Selected(g, n, handle) ==> d in Elems(Selected(g, n, handle));
      TakingKeepsOthers(g, m.edge, Selected(g, n, handle), d);
    } else {
      TakingKeepsOthers(g, s.edge, Out(g, n), d);
    }
  }

  lemma {:induction false} SchedulingKeepsEdges(s: State, ns: seq<NodeId>)
    ensures ScheduleAll(s, ns).edge == s.edge
    decreases |ns|
  {
    if ns != [] { SchedulingKeepsEdges(Schedule(s, ns[0]), ns[1..]); }
  }

  lemma HandlingKeepsSkips(g: Graph, c: Core, f: Flags, ev: Event, d: EdgeId)
    requires Wf(g) && Promoted(g) && !Midway(ev) && Pending(g, c.s.edge, ev.node, Out(g, ev.node))
    ensures match CompletedWith(g, c, ev)
      case Some(h) =>
        EdgeMark(AfterSkips(g, c.s, ev.node, h, AsBranch(g, ev)).edge, d) == Skipped ==>
          EdgeMark(HandleEvent(g, c, f, ev).0.s.edge, d) == Skipped
      case None => HandleEvent(g, c, f, ev).0.s.edge == c.s.edge
  {
    var n := ev.node;
    hide Pending, AfterSkips, HandleBranchCompletion, ProcessNodeSuccess, ScheduleAll, TakenList, Wf;
    match CompletedWith(g, c, ev)
    case Some(h) =>
      assert AsBranch(g, ev) == IsBranch(g, n) && (IsBranch(g, n) ==> h != "");
      if EdgeMark(AfterSkips(g, c.s, n, h, IsBranch(g, n)).edge, d) == Skipped {
        CompletionKeepsSkips(g, c.s, n, h, d);
        var o := if IsBranch(g, n) then HandleBranchCompletion(g, c.s, n, h) else ProcessNodeSuccess(g, c.s, n, h);
        SchedulingKeepsEdges(o.state, o.ready);
      }
    case None =>
      RaisingMeans(g, c.s, n, "");
  }

  /** A node that is SKIPPED before or within the handler of an event is SKIPPED after it. */
  lemma NodesStaySkipped(g: Graph, inactive: set<NodeId>, c: Core, m: State, skip: set<EdgeId>, r: Core, n: NodeId)
    requires Wf(g) && CoreOk(g, inactive, c) && CoreOk(g, inactive, r)
    requires EdgesResolved(g, c.s.edge, m.edge, {}, skip) && NodesResolved(g, c.s, m, Elems(Queued(c.s, m)))
    requires forall d :: d in g.edges && EdgeMark(m.edge, d) == Skipped ==> EdgeMark(r.s.edge, d) == Skipped
    requires n in g.nodes && (NodeMark(c.s, n) == Skipped || NodeMark(m, n) == Skipped)
    ensures NodeMark(r.s, n) == Skipped
  {
    hide EdgeOk, NodeOk, Exclusive, Active, On, Retried;
    assert SkipOk(g, c.s, inactive, n) && SkipOk(g, r.s, inactive, n);
    if NodeMark(c.s, n) == Skipped {
      if n !in inactive {
        forall d | d in g.edges && Head(g, d) == n ensures EdgeMark(r.s.edge, d) == Skipped {
          assert EdgeMark(c.s.edge, d) == Skipped && EdgeMark(m.edge, d) == Skipped;
        }
      }
    } else {
      assert Dies(g, c.s.edge, m.edge, n);
      forall d | d in g.edges && Head(g, d) == n ensures EdgeMark(r.s.edge, d) == Skipped {
        assert EdgeMark(m.edge, d) == Skipped;
      }
    }
  }

  lemma SkipsResolve(g: Graph, s: State, n: NodeId, handle: string, branch: bool)
    requires Wf(g) && Pending(g, s.edge, n, Out(g, n))
    ensures Resolves(g, s, AfterSkips(g, s, n, handle, branch), {},
                     if branch then Elems(Unselected(g, n, handle)) else {}, [])
  {
    hide Resolves, SkipEdges, Pending, Wf;
    if branch {
      CategoryIsPending(g, s.edge, n, Out(g, n), handle, false);
      SkipEdgesResolves(g, s, n, Unselected(g, n, handle));
    } else {
      NothingResolves(g, s);
    }
  }

  // ---------- what the coordinator is shown ----------

  /** `late` shows the same nodes and pool, and at least as many nodes as SKIPPED. */
  ghost predicate Milder(env: Env, late: Env) {
    env.nodes == late.nodes && env.pool == late.pool && env.skipped <= late.skipped
  }

  /** Before the reports of taken edges and between them the coordinator sees fewer SKIPPED nodes
      than there are once the event has been handled. */
  lemma HandlerShowsMilder(g: Graph, inactive: set<NodeId>, c: Core, f: Flags, ev: Event, pool: Pool)
    requires Wf(g) && Promoted(g) && !Midway(ev) && Pending(g, c.s.edge, ev.node, Out(g, ev.node))
    requires CoreOk(g, inactive, c) && CoreOk(g, inactive, HandleEvent(g, c, f, ev).0)
    ensures var late := EnvOf(g, HandleEvent(g, c, f, ev).0.s, pool);
      && Milder(EnvOf(g, c.s, pool), late)
      && match CompletedWith(g, c, ev)
         case Some(h) => Milder(EnvOf(g, AfterSkips(g, c.s, ev.node, h, AsBranch(g, ev)), pool), late)
         case None => true
  {
    hide CoreOk, Pending, HandleEvent, CompletedWith, AfterSkips, Wf, Promoted;
    var r := HandleEvent(g, c, f, ev).0;
    var handle := CompletedWith(g, c, ev);
    var m := if handle.Some? then AfterSkips(g, c.s, ev.node, handle.value, AsBranch(g, ev)) else c.s;
    var skip := if handle.Some? && AsBranch(g, ev) then Elems(Unselected(g, ev.node, handle.value)) else {};
    if handle.Some? {
      SkipsResolve(g, c.s, ev.node, handle.value, AsBranch(g, ev));
    } else {
      NothingResolves(g, c.s);
    }
    hide EdgesResolved, NodesResolved;
    forall d | d in g.edges && EdgeMark(m.edge, d) == Skipped ensures EdgeMark(r.s.edge, d) == Skipped {
      HandlingKeepsSkips(g, c, f, ev, d);
    }
    forall n | n in g.nodes && (NodeMark(c.s, n) == Skipped || NodeMark(m, n) == Skipped)
      ensures NodeMark(r.s, n) == Skipped
    {
      NodesStaySkipped(g, inactive, c, m, skip, r, n);
    }
  }

  lemma MilderFits(env: Env, late: Env, st: Streams, r: Streams, f: Focus)
    requires Milder(env, late) && r.buffers == st.buffers && r.closed == st.closed && FitsFocus(late, r, f)
    ensures FitsFocus(env, st, f)
  {
    forall i | 0 <= i < |f.template| && f.template[i].Variable?
      ensures FitsAt(env, st, f.meaning, f.template[i].selector)
    {
      assert FitsAt(late, r, f.meaning, f.template[i].selector);
    }
  }

  // ---------- the operations of one event ----------

  /** The condition of `StreamingRuns.ApplyFollows`, for one operation after the other. */
  ghost predicate AllFit(g: Graph, c: Coord, ops: seq<Op>, f: Focus)
    requires Wf(g)
    decreases |ops|
  {
    ops == [] ||
    (Valid(c, ops[0])
     && (c.ended <= f.k <= Apply(g, c, ops[0]).0.ended ==> FitsOp(c, ops[0], f))
     && (ops[0].ChunkIn? && c.ended <= f.k ==> ops[0].selector in f.streamed)
     && AllFit(g, Apply(g, c, ops[0]).0, ops[1..], f))
  }

  lemma {:induction false} OpsGrow(g: Graph, c: Coord, log: seq<Emitted>, ops: seq<Op>)
    requires Wf(g) && Feasible(g, c, ops)
    ensures var r := RunOps(g, c, log, ops).0; c.started <= r.started && c.ended <= r.ended
    decreases |ops|
  {
    hide Apply, Valid;
    if ops != [] {
      var (c1, evs) := Apply(g, c, ops[0]);
      StartsGrowOnce(g, c, ops[0]);
      OpsGrow(g, c1, log + evs, ops[1..]);
    }
  }

  lemma {:induction false} OpsFollow(g: Graph, c: Coord, log: seq<Emitted>, ops: seq<Op>, starts: seq<NodeId>, f: Focus)
    requires Wf(g) && Feasible(g, c, ops) && AllFit(g, c, ops, f) && Followed(g, c, log, starts, f)
    requires RunOps(g, c, log, ops).0.started <= starts
    ensures Followed(g, RunOps(g, c, log, ops).0, RunOps(g, c, log, ops).1, starts, f)
    decreases |ops|
  {
    hide Apply, Valid, Followed, FitsOp;
    if ops != [] {
      var (c1, evs) := Apply(g, c, ops[0]);
      OpsGrow(g, c1, log + evs, ops[1..]);
      ApplyFollows(g, c, ops[0], log, starts, f);
      OpsFollow(g, c1, log + evs, ops[1..], starts, f);
    }
  }

  // Flushes and edges leave buffers alone.

  lemma {:induction false} FlushKeepsBuffers(env: Env, c: Coord)
    ensures var r := TryFlush(env, c).0.streams; r.buffers == c.streams.buffers && r.closed == c.streams.closed
    decreases |c.waiting|
  {
    if c.active.Some? {
      var c1 := RunSegments(env, c).0;
      RunKeepsBuffers(env, c);
      if IsComplete(c1.active.value) && c.waiting != [] {
        FlushKeepsBuffers(env, c1.(ended := c.ended + 1, active := Some(c.waiting[0]), waiting := c.waiting[1..]));
      }
    }
  }

  lemma {:induction false} EdgeKeepsBuffers(env: Env, c: Coord, e: EdgeId, order: seq<NodeId>)
    ensures var r := OnEdgeTaken(env, c, e, order).0.streams;
      r.buffers == c.streams.buffers && r.closed == c.streams.closed
    decreases |order|
  {
    hide TryFlush;
    if order != [] {
      var n := order[0];
      if n in c.paths && n in c.pending {
        FlushKeepsBuffers(env, c.(paths := c.paths[n := RemoveFromAll(c.paths[n], e)], pending := c.pending - {n},
                                  started := c.started + [n], active := Some(c.pending[n])));
      }
      EdgeKeepsBuffers(env, OnEdgeTakenFor(env, c, e, n).0, e, order[1..]);
    }
  }

  ghost predicate IsQuiet(op: Op, late: Env) {
    (op.Flush? || op.EdgeIn?) && Milder(op.env, late)
  }

  lemma QuietKeepsBuffers(g: Graph, c: Coord, op: Op, late: Env)
    requires Wf(g) && Valid(c, op) && IsQuiet(op, late)
    ensures !op.ChunkIn?
    ensures var r := Apply(g, c, op).0.streams; r.buffers == c.streams.buffers && r.closed == c.streams.closed
  {
    hide TryFlush, OnEdgeTaken;
    if op.Flush? { FlushKeepsBuffers(op.env, c); } else { EdgeKeepsBuffers(op.env, c, op.edge, op.order); }
  }

  /** Flushes and edges fit if streams and pool do once the event has been handled. */
  lemma {:induction false} QuietOpsFit(g: Graph, c: Coord, log: seq<Emitted>, ops: seq<Op>, f: Focus, late: Env)
    requires Wf(g) && Feasible(g, c, ops) && forall i :: 0 <= i < |ops| ==> IsQuiet(ops[i], late)
    requires c.ended <= f.k <= RunOps(g, c, log, ops).0.ended ==> FitsFocus(late, c.streams, f)
    ensures AllFit(g, c, ops, f)
    ensures var r := RunOps(g, c, log, ops).0.streams; r.buffers == c.streams.buffers && r.closed == c.streams.closed
    decreases |ops|
  {
    hide Apply, Valid, FitsFocus, IsQuiet;
    if ops != [] {
      var (c1, evs) := Apply(g, c, ops[0]);
      assert IsQuiet(ops[0], late) && forall i :: 0 <= i < |ops[1..]| ==> ops[1..][i] == ops[i + 1];
      QuietKeepsBuffers(g, c, ops[0], late);
      StartsGrowOnce(g, c, ops[0]);
      OpsGrow(g, c1, log + evs, ops[1..]);
      if c.ended <= f.k <= RunOps(g, c, log, ops).0.ended {
        QuietFits(c, ops[0], late, f);
        SameBuffersFit(late, c.streams, c1.streams, f);
      }
      QuietOpsFit(g, c1, log + evs, ops[1..], f, late);
    }
  }

  lemma QuietFits(c: Coord, op: Op, late: Env, f: Focus)
    requires IsQuiet(op, late) && FitsFocus(late, c.streams, f)
    ensures FitsOp(c, op, f)
  {
    MilderFits(op.env, late, c.streams, c.streams, f);
    hide FitsFocus;
  }

  /** Streams, pool and marks of an engine state fit what a variable means: nothing, if its source is
      SKIPPED, and no chunk of it has come; the whole stream, once it is closed; the value in the pool,
      if it is there while no chunk has come. */
  ghost predicate FitsVariable(g: Graph, w: World, v: Meaning, sel: Selector) {
    var chunks := Buffer(w.co.streams, sel);
    && (Prefix(sel) in g.nodes && NodeMark(w.e.core.s, Prefix(sel)) == Skipped ==> v(sel) == "" && chunks == [])
    && (sel in w.co.streams.closed ==> Concat(Texts(chunks)) == v(sel))
    && (sel !in w.co.streams.closed && Get(w.pool, sel).Some? ==>
          Get(w.pool, sel).value.markdown == v(sel) && chunks == [])
  }

  ghost predicate FitsWorld(g: Graph, w: World, f: Focus) {
    forall i :: 0 <= i < |f.template| && f.template[i].Variable? ==>
      FitsVariable(g, w, f.meaning, f.template[i].selector)
  }

  /** That is what the session asks of what it is shown. */
  lemma FitsWorldIsFitsFocus(g: Graph, w: World, f: Focus)
    ensures FitsWorld(g, w, f) <==> FitsFocus(EnvOf(g, w.e.core.s, w.pool), w.co.streams, f)
  {
    var env := EnvOf(g, w.e.core.s, w.pool);
    forall sel ensures FitsVariable(g, w, f.meaning, sel) <==> FitsAt(env, w.co.streams, f.meaning, sel) {
    }
    hide FitsVariable, FitsAt;
  }

  lemma EdgeOpsAreQuiet(env: Env, es: seq<EdgeId>, order: seq<NodeId>, late: Env)
    requires Milder(env, late)
    ensures forall i :: 0 <= i < |EdgeOps(env, es, order)| ==> IsQuiet(EdgeOps(env, es, order)[i], late)
  {
  }

  /** What the end of an attempt asks of the coordinator. */
  lemma EndsAreQuiet(g: Graph, inactive: set<NodeId>, c: Core, f: Flags, ev: Event, pool: Pool, order: seq<NodeId>)
    requires Wf(g) && Promoted(g) && !Midway(ev) && Pending(g, c.s.edge, ev.node, Out(g, ev.node))
    requires CoreOk(g, inactive, c) && CoreOk(g, inactive, HandleEvent(g, c, f, ev).0)
    ensures var late, ops := EnvOf(g, HandleEvent(g, c, f, ev).0.s, pool), OpsFor(g, c, ev, pool, order);
      forall i :: 0 <= i < |ops| ==> IsQuiet(ops[i], late)
  {
    hide CoreOk, Pending, HandleEvent, CompletedWith, AfterSkips, EnvOf, Milder, TakenList, Wf, Promoted;
    var late := EnvOf(g, HandleEvent(g, c, f, ev).0.s, pool);
    HandlerShowsMilder(g, inactive, c, f, ev, pool);
    match CompletedWith(g, c, ev)
    case Some(h) =>
      var env := EnvOf(g, AfterSkips(g, c.s, ev.node, h, AsBranch(g, ev)), pool);
      EdgeOpsAreQuiet(env, TakenList(g, ev.node, h), order, late);
    case None =>
  }

  /** Handling an event keeps the session on track, if the state after it fits. */
  lemma DispatchFollows(g: Graph, inactive: set<NodeId>, w: World, outputs: map<string, Value>, order: seq<NodeId>,
      r: World, starts: seq<NodeId>, f: Focus)
    requires Wf(g) && Promoted(g) && WorldNext(g, w, Dispatch, outputs, order, r)
    requires CoreOk(g, inactive, w.e.core) && CoreOk(g, inactive, r.e.core)
    requires Followed(g, w.co, w.log, starts, f) && r.co.started <= starts
    requires w.co.ended <= f.k <= r.co.ended ==> FitsWorld(g, r, f)
    requires w.e.events[0].Chunk? && w.co.ended <= f.k ==> w.e.events[0].selector in f.streamed
    ensures Followed(g, r.co, r.log, starts, f)
  {
    hide CoreOk, Pending, Followed, Apply, Valid, FitsFocus, EnvOf, PoolAfter;
    var ev := w.e.events[0];
    var ops := OpsFor(g, w.e.core, ev, r.pool, order);
    FitsWorldIsFitsFocus(g, r, f);
    hide FitsWorld;
    if Midway(ev) {
      MidwayFits(g, w, outputs, order, r, f);
    } else {
      hide OpsFor, HandleEvent;
      var late := EnvOf(g, r.e.core.s, r.pool);
      EndsAreQuiet(g, inactive, w.e.core, w.e.flags, ev, r.pool, order);
      if w.co.ended <= f.k <= r.co.ended { FitsBefore(g, w, ops, r, late, f); }
      QuietOpsFit(g, w.co, w.log, ops, f, late);
    }
    OpsFollow(g, w.co, w.log, ops, starts, f);
  }

  /** Quiet operations leave buffers alone, so what fits after them fits before. */
  lemma FitsBefore(g: Graph, w: World, ops: seq<Op>, r: World, late: Env, f: Focus)
    requires Wf(g) && Feasible(g, w.co, ops) && (r.co, r.log) == RunOps(g, w.co, w.log, ops)
    requires forall i :: 0 <= i < |ops| ==> IsQuiet(ops[i], late)
    requires FitsFocus(late, r.co.streams, f)
    ensures FitsFocus(late, w.co.streams, f)
  {
    hide FitsFocus, IsQuiet, RunOps, Feasible;
    QuietOpsKeepBuffers(g, w.co, w.log, ops, late);
    SameBuffersFit(late, r.co.streams, w.co.streams, f);
  }

  lemma {:induction false} QuietOpsKeepBuffers(g: Graph, c: Coord, log: seq<Emitted>, ops: seq<Op>, late: Env)
    requires Wf(g) && Feasible(g, c, ops) && forall i :: 0 <= i < |ops| ==> IsQuiet(ops[i], late)
    ensures var r := RunOps(g, c, log, ops).0.streams; r.buffers == c.streams.buffers && r.closed == c.streams.closed
    decreases |ops|
  {
    hide Apply, Valid, IsQuiet;
    if ops != [] {
      var (c1, evs) := Apply(g, c, ops[0]);
      assert IsQuiet(ops[0], late) && forall i :: 0 <= i < |ops[1..]| ==> ops[1..][i] == ops[i + 1];
      QuietKeepsBuffers(g, c, ops[0], late);
      QuietOpsKeepBuffers(g, c1, log + evs, ops[1..], late);
    }
  }

  lemma ChunkFits(g: Graph, c: Coord, log: seq<Emitted>, op: Op, f: Focus)
    requires Wf(g) && op.ChunkIn? && Feasible(g, c, [op])
    requires c.ended <= f.k <= RunOps(g, c, log, [op]).0.ended ==>
      FitsFocus(op.env, RunOps(g, c, log, [op]).0.streams, f)
    requires c.ended <= f.k ==> op.selector in f.streamed
    ensures AllFit(g, c, [op], f)
  {
    hide FitsFocus, TryFlush, Append, Close;
    assert [op][1..] == [];
    assert RunOps(g, c, log, [op]).0 == Apply(g, c, op).0;
    var st := Append(c.streams, op.selector, op.chunk);
    var st2 := if op.chunk.isFinal then Close(st, op.selector) else st;
    FlushKeepsBuffers(op.env, c.(streams := st2));
    if c.ended <= f.k <= Apply(g, c, op).0.ended { SameBuffersFit(op.env, Apply(g, c, op).0.streams, st2, f); }
  }

  /** A chunk: the streams after the event are those with the chunk. */
  lemma MidwayFits(g: Graph, w: World, outputs: map<string, Value>, order: seq<NodeId>, r: World, f: Focus)
    requires Wf(g) && WorldNext(g, w, Dispatch, outputs, order, r) && Midway(w.e.events[0])
    requires w.co.ended <= f.k <= r.co.ended ==> FitsWorld(g, r, f)
    requires w.e.events[0].Chunk? && w.co.ended <= f.k ==> w.e.events[0].selector in f.streamed
    ensures AllFit(g, w.co, OpsFor(g, w.e.core, w.e.events[0], r.pool, order), f)
  {
    hide FitsFocus, RunOps, Feasible, EnvOf, Pending, FitsWorld;
    var ev := w.e.events[0];
    FitsWorldIsFitsFocus(g, r, f);
    if ev.Chunk? {
      var chunk := BufferedChunk(ev.node, ev.text, ev.isFinal);
      ChunkFits(g, w.co, w.log, ChunkIn(EnvOf(g, w.e.core.s, r.pool), ev.selector, chunk), f);
    }
  }

  // ---------- engine runs ----------

  /** While session `k` may send, the states in which events have just been handled fit it. */
  ghost predicate FitsEngine(g: Graph, trace: seq<World>, moves: seq<Move>, i: nat, f: Focus)
    requires i <= |moves| && |trace| == |moves| + 1
  {
    forall j :: 0 <= j < i && moves[j].step.Dispatch? && trace[j].co.ended <= f.k <= trace[j + 1].co.ended ==>
      FitsWorld(g, trace[j + 1], f)
  }

  /** The selectors of the chunk events handled before session `k` was over. */
  ghost function ChunkedUntil(trace: seq<World>, moves: seq<Move>, i: nat, k: nat): set<Selector>
    requires i <= |moves| && |trace| == |moves| + 1
  {
    set j | 0 <= j < i && ChunkHandled(trace[j], moves[j]) && trace[j].co.ended <= k :: trace[j].e.events[0].selector
  }

  predicate ChunkHandled(w: World, m: Move) {
    m.step.Dispatch? && w.e.events != [] && w.e.events[0].Chunk?
  }

  /** A run as the engine makes it, from an initialised graph. */
  ghost predicate EngineRun(g: Graph, inactive: set<NodeId>, trace: seq<World>, moves: seq<Move>) {
    && Wf(g) && Promoted(g) && IsWorldRun(g, trace, moves)
    && exists s, pool, order ::
         Fresh(g, inactive, s) && Elems(order) == ResponseNodes(g) && trace[0] == WorldStarted(g, s, pool, order)
  }

  lemma EngineRunIsOk(g: Graph, inactive: set<NodeId>, trace: seq<World>, moves: seq<Move>, i: nat, j: nat)
    requires EngineRun(g, inactive, trace, moves) && i <= j < |trace|
    ensures WorldOk(g, inactive, trace[j]) && trace[i].co.started <= trace[j].co.started && trace[i].log <= trace[j].log
  {
    hide WorldOk, WorldNext, Fresh, WorldStarted;
    var s, pool, order :|
      Fresh(g, inactive, s) && Elems(order) == ResponseNodes(g) && trace[0] == WorldStarted(g, s, pool, order);
    WorldStartedIsOk(g, inactive, s, pool, order);
    WorldRunKeepsOk(g, inactive, trace, moves, i, j);
  }

  lemma {:induction false} RegistrationsFit(g: Graph, c: Coord, order: seq<NodeId>, f: Focus)
    requires Wf(g) && Feasible(g, c, Registrations(order))
    ensures AllFit(g, c, Registrations(order), f)
    decreases |order|
  {
    if order != [] {
      assert Registrations(order)[1..] == Registrations(order[1..]);
      RegistrationsFit(g, Register(g, c, order[0]), order[1..], f);
    }
  }

  lemma StartFollowed(g: Graph, s: State, pool: Pool, order: seq<NodeId>, starts: seq<NodeId>, f: Focus)
    requires Wf(g) && IsSession(g, starts, f) && WorldStarted(g, s, pool, order).co.started <= starts
    ensures Followed(g, WorldStarted(g, s, pool, order).co, [], starts, f)
  {
    hide Followed, RunOps, Feasible, AllFit, Started, IsSession;
    InitialFollows(g, starts, f);
    RegistrationsAreFeasible(g, INITIAL, order);
    RegistrationsFit(g, INITIAL, order, f);
    RegistrationsSendNothing(g, INITIAL, order);
    OpsFollow(g, INITIAL, [], Registrations(order), starts, f);
  }

  lemma StepFollows(g: Graph, inactive: set<NodeId>, w: World, m: Move, r: World, starts: seq<NodeId>, f: Focus)
    requires Wf(g) && Promoted(g) && WorldNext(g, w, m.step, m.outputs, m.order, r)
    requires WorldOk(g, inactive, w) && WorldOk(g, inactive, r)
    requires Followed(g, w.co, w.log, starts, f) && r.co.started <= starts
    requires m.step.Dispatch? && w.co.ended <= f.k <= r.co.ended ==> FitsWorld(g, r, f)
    requires ChunkHandled(w, m) && w.co.ended <= f.k ==> w.e.events[0].selector in f.streamed
    ensures Followed(g, r.co, r.log, starts, f)
  {
    hide CoreOk, Reached, CoordOk, Stored, InOrder, Followed, FitsWorld, Next, RunOps, Feasible, AllFit;
    match m.step
    case Dispatch =>
      assert w.e.events != [] by { EventWaits(g, w, m, r); }
      DispatchFollows(g, inactive, w, m.outputs, m.order, r, starts, f);
    case Resume(_, _) =>
      RegistrationsFit(g, w.co, m.order, f);
      OpsFollow(g, w.co, w.log, Registrations(m.order), starts, f);
    case _ =>
  }

  lemma EventWaits(g: Graph, w: World, m: Move, r: World)
    requires Wf(g) && WorldNext(g, w, m.step, m.outputs, m.order, r) && m.step.Dispatch?
    ensures w.e.events != []
  {
    hide Pending, HandleEvent, Feasible, RunOps, OpsFor, PoolAfter;
  }

  lemma {:induction false} EngineFollows(g: Graph, inactive: set<NodeId>, trace: seq<World>, moves: seq<Move>, i: nat,
      n: nat, f: Focus)
    requires EngineRun(g, inactive, trace, moves) && i <= n < |trace|
    requires IsSession(g, trace[n].co.started, f) && FitsEngine(g, trace, moves, n, f)
    requires ChunkedUntil(trace, moves, n, f.k) <= f.streamed
    ensures Followed(g, trace[i].co, trace[i].log, trace[n].co.started, f)
    decreases i
  {
    hide WorldOk, Followed, FitsWorld, IsSession, Fresh, ChunkHandled, WorldNext;
    EngineRunIsOk(g, inactive, trace, moves, i, n);
    if i == 0 {
      hide WorldStarted;
      var s, pool, order :|
        Fresh(g, inactive, s) && Elems(order) == ResponseNodes(g) && trace[0] == WorldStarted(g, s, pool, order);
      StartFollowed(g, s, pool, order, trace[n].co.started, f);
      NothingLogged(g, s, pool, order);
    } else {
      EngineFollows(g, inactive, trace, moves, i - 1, n, f);
      EngineRunIsOk(g, inactive, trace, moves, i - 1, i - 1);
      EngineRunIsOk(g, inactive, trace, moves, i - 1, i);
      ChunkIsCounted(trace, moves, n, f, i - 1);
      StepFollows(g, inactive, trace[i - 1], moves[i - 1], trace[i], trace[n].co.started, f);
    }
  }

  lemma NothingLogged(g: Graph, s: State, pool: Pool, order: seq<NodeId>)
    requires Wf(g)
    ensures WorldStarted(g, s, pool, order).log == []
  {
    hide Started, RunOps, Feasible;
  }

  lemma ChunkIsCounted(trace: seq<World>, moves: seq<Move>, n: nat, f: Focus, j: nat)
    requires j < n <= |moves| && |trace| == |moves| + 1 && ChunkedUntil(trace, moves, n, f.k) <= f.streamed
    ensures ChunkHandled(trace[j], moves[j]) && trace[j].co.ended <= f.k ==> trace[j].e.events[0].selector in f.streamed
  {
    if ChunkHandled(trace[j], moves[j]) && trace[j].co.ended <= f.k {
      assert trace[j].e.events[0].selector in ChunkedUntil(trace, moves, n, f.k);
    }
  }

  /** In any state of any engine run in which session `k` is over: each of its text segments has
      sent its text, and each variable what it means less what was delivered of its stream before. */
  lemma EngineSessionIsExact(g: Graph, inactive: set<NodeId>, trace: seq<World>, moves: seq<Move>, i: nat, f: Focus)
    requires EngineRun(g, inactive, trace, moves) && i < |trace| && trace[i].co.ended > f.k
    requires IsSession(g, trace[i].co.started, f) && FitsEngine(g, trace, moves, i, f)
    ensures Exact(trace[i].log, f.k, f.template, f.meaning, |f.template|)
    ensures SentBy(trace[i].log, f.k) == SegmentsText(trace[i].log, f.k, |f.template|)
  {
    hide EngineRun, Followed, Exact, FitsWorld, ChunkHandled;
    IsARun(g, inactive, trace, moves);
    var h := f.(streamed := ChunkedUntil(trace, moves, i, f.k));
    SameSession(g, trace, moves, i, f, h);
    EngineFollows(g, inactive, trace, moves, i, i, h);
    OverIsExact(g, trace[i].co, trace[i].log, trace[i].co.started, h);
  }

  lemma IsARun(g: Graph, inactive: set<NodeId>, trace: seq<World>, moves: seq<Move>)
    requires EngineRun(g, inactive, trace, moves)
    ensures |trace| == |moves| + 1
  {
    hide WorldNext, WorldStarted, Fresh;
  }

  lemma SameSession(g: Graph, trace: seq<World>, moves: seq<Move>, i: nat, f: Focus, h: Focus)
    requires i <= |moves| && |trace| == |moves| + 1 && h == f.(streamed := h.streamed)
    ensures IsSession(g, trace[i].co.started, f) ==> IsSession(g, trace[i].co.started, h)
    ensures FitsEngine(g, trace, moves, i, f) ==> FitsEngine(g, trace, moves, i, h)
  {
    hide Fits, EnvOf;
  }

  /** Streaming against batch rendering in engine runs. When session `k` is over, its chunks add up
      to what rendering its template at once gives, from any pool in which the variables resolve to
      their meanings, exactly when nothing of its variables had been delivered before their turn. */
  lemma EngineStreamsTemplates(g: Graph, inactive: set<NodeId>, trace: seq<World>, moves: seq<Move>, i: nat, f: Focus,
      pool: Pool)
    requires EngineRun(g, inactive, trace, moves) && i < |trace| && trace[i].co.ended > f.k
    requires IsSession(g, trace[i].co.started, f) && FitsEngine(g, trace, moves, i, f)
    requires PlainTexts(pool, f.template) && AllResolve(pool, f.meaning, f.template)
    ensures SentBy(trace[i].log, f.k) == Rendering.Render(pool, f.template) <==>
      NothingBefore(trace[i].log, f.k, f.template, |f.template|)
  {
    hide EngineRun, FitsEngine, IsSession, PlainTexts, AllResolve, Exact, NothingBefore;
    EngineSessionIsExact(g, inactive, trace, moves, i, f);
    RenderedIffNothingBefore(trace[i].log, f.k, f.template, f.meaning);
    RenderToIsRender(pool, f.meaning, f.template, |f.template|);
    assert f.template[..|f.template|] == f.template;
  }

  /** That is so if the session is the first to reference what is streamed before it is over. */
  lemma EngineFirstReference(g: Graph, inactive: set<NodeId>, trace: seq<World>, moves: seq<Move>, i: nat, f: Focus)
    requires EngineRun(g, inactive, trace, moves) && i < |trace|
    requires FirstHere(g, trace[i].co.started, f) && FitsEngine(g, trace, moves, i, f)
    requires f.streamed == ChunkedUntil(trace, moves, i, f.k)
    ensures NothingBefore(trace[i].log, f.k, f.template, |f.template|)
  {
    hide EngineRun, FitsEngine, NothingBefore, AllOwned, Track, Orderly;
    IsARun(g, inactive, trace, moves);
    EngineFollows(g, inactive, trace, moves, i, i, f);
    FirstHereIsNothingBefore(g, trace[i].co.started, f, trace[i].log);
  }

  /** What the variables mean to a node that reads them from the pool. */
  function MeaningIn(pool: Pool): Meaning {
    sel => if Get(pool, sel).Some? then Get(pool, sel).value.markdown else ""
  }

  ghost predicate HasValues(pool: Pool, t: seq<Segment>) {
    forall i :: 0 <= i < |t| && t[i].Variable? ==> Get(pool, t[i].selector).Some?
  }

  /** An answer node renders its answer at once, from the pool of the state in which a worker runs
      it (`AnswerNode._run`). If streams and pool fit that pool while the session of the node may
      send, the session streams the same text exactly when nothing of its variables was delivered
      before their turn. */
  method RenderAnswer(pool: Pool, answer: string, ghost g: Graph, ghost inactive: set<NodeId>, ghost trace: seq<World>,
      ghost moves: seq<Move>, ghost j: nat, ghost i: nat, ghost k: nat) returns (markdown: string)
    requires EngineRun(g, inactive, trace, moves) && j < |trace| && i < |trace| && k < trace[i].co.ended
    requires k < |trace[i].co.started| && Template(g, trace[i].co.started[k]) == Parse(answer)
    requires trace[i].co.started[k] in trace[j].e.held && pool == trace[j].pool
    requires |trace| == |moves| + 1
    ensures markdown == Rendering.Render(pool, Parse(answer))
    ensures var f := Focus(k, Parse(answer), MeaningIn(pool), {});
      FitsEngine(g, trace, moves, i, f) && PlainTexts(pool, f.template) && HasValues(pool, f.template) ==>
        (markdown == SentBy(trace[i].log, k) <==> NothingBefore(trace[i].log, k, f.template, |f.template|))
  {
    markdown := Rendering.ConvertTemplate(pool, answer);
    hide EngineRun, FitsEngine, NothingBefore, Get;
    ghost var f := Focus(k, Parse(answer), MeaningIn(pool), {});
    if FitsEngine(g, trace, moves, i, f) && PlainTexts(pool, f.template) && HasValues(pool, f.template) {
      EngineStreamsTemplates(g, inactive, trace, moves, i, f, pool);
    }
  }
}
