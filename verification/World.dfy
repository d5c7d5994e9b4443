/** The engine and the response coordinator together. Sessions start exactly when a response node
    is certain to be reached: never too early, since it will not be skipped, and never too late,
    since it starts before the node can run. */
module World {
  import opened Templates
  import opened VariablePool
  import opened Graphs
  import opened Traversal
  import opened Completion
  import opened Marking
  import opened Scheduler
  import opened Runs
  import Walks
  import opened Paths
  import opened Coordinator
  import opened Sessions
  import opened CoordinatorRuns
  import opened StoredPaths
  import opened Reachability

  /** `outputs` are those of the run, which response nodes add to, by their text. */
  datatype World = World(e: Engine, co: Coord, pool: Pool, outputs: map<string, string>, log: seq<Emitted>)

  // ---------- what the handlers ask of the coordinator ----------

  /** `_store_node_outputs`. */
  function Store(pool: Pool, n: NodeId, outputs: map<string, Value>): Pool {
    pool + map v | v in outputs :: (n, v) := outputs[v]
  }

  function EnvOf(g: Graph, s: State, pool: Pool): Env {
    Env(g.nodes.Keys, (set n | n in g.nodes && NodeMark(s, n) == Skipped), pool)
  }

  /** The marks once the unselected paths have been skipped, if the node completes as a branch. */
  function AfterSkips(g: Graph, s: State, n: NodeId, handle: string, branch: bool): State
    requires Wf(g) && Pending(g, s.edge, n, Out(g, n))
  {
    if !branch then s
    else
      CategoryIsPending(g, s.edge, n, Out(g, n), handle, false);
      SkipEdges(g, s, n, Unselected(g, n, handle))
  }

  /** A success goes by the execution type of the node, an exception by its error strategy. */
  predicate AsBranch(g: Graph, ev: Event) {
    if ev.Failed? then Strategy(g, ev.node) == FailBranch else IsBranch(g, ev.node)
  }

  function EdgeOps(env: Env, es: seq<EdgeId>, order: seq<NodeId>): (ops: seq<Op>)
    ensures |ops| == |es| && forall i :: 0 <= i < |es| ==> ops[i] == EdgeIn(env, es[i], order)
    decreases |es|
  {
    if es == [] then [] else [EdgeIn(env, es[0], order)] + EdgeOps(env, es[1..], order)
  }

  /** The reports of taken edges while the event is handled. */
  function TakenOps(g: Graph, c: Core, ev: Event, pool: Pool, order: seq<NodeId>): seq<Op>
    requires Wf(g) && Pending(g, c.s.edge, ev.node, Out(g, ev.node))
  {
    match CompletedWith(g, c, ev)
    case Some(handle) => EdgeOps(EnvOf(g, AfterSkips(g, c.s, ev.node, handle, AsBranch(g, ev)), pool),
      TakenList(g, ev.node, handle), order)
    case None => []
  }

  /** The events in mid-attempt whose handlers raise: a chunk for a closed stream, and an update
      whose selector has not exactly two parts. */
  predicate Refuses(co: Coord, ev: Event) {
    (ev.Chunk? && ev.selector in co.streams.closed) || (ev.Updated? && |ev.selector| != 2)
  }

  /** An update overwrites a value. Outputs reach the pool first; a success is then flushed, and
      taken edges are reported. `outputs` are those that an exception strategy produces. */
  function PoolAfter(g: Graph, c: Core, ev: Event, outputs: map<string, Value>, pool: Pool): Pool {
    match ev
    case Succeeded(n, _, out) => Store(pool, n, out)
    case Updated(_, sel, value) => if |sel| == 2 then pool[(sel[0], sel[1]) := value] else pool
    case Failed(n) => if HandleNodeFailure(g, n, RetryCount(c, n)) == Exception then Store(pool, n, outputs) else pool
    case _ => pool
  }

  /** `UpdateVariablesCommandHandler`: a malformed selector is skipped. */
  function UpdatedPool(pool: Pool, updates: seq<(Selector, Value)>): Pool
    decreases |updates|
  {
    if updates == [] then pool
    else
      var (sel, value) := updates[0];
      UpdatedPool(if |sel| == 2 then pool[(sel[0], sel[1]) := value] else pool, updates[1..])
  }

  /** The last update of each variable counts; the others keep their values. */
  lemma {:induction false} LastUpdateCounts(pool: Pool, updates: seq<(Selector, Value)>, n: string, v: string)
    ensures var r := UpdatedPool(pool, updates);
      if exists i :: 0 <= i < |updates| && updates[i].0 == [n, v] then
        (n, v) in r && exists i :: IsLastUpdate(updates, [n, v], i) && r[(n, v)] == updates[i].1
      else ((n, v) in r <==> (n, v) in pool) && ((n, v) in r ==> r[(n, v)] == pool[(n, v)])
    decreases |updates|
  {
    if updates != [] {
      var (sel, value) := updates[0];
      var pool1, rest := if |sel| == 2 then pool[(sel[0], sel[1]) := value] else pool, updates[1..];
      LastUpdateCounts(pool1, rest, n, v);
      if exists i :: 0 <= i < |rest| && rest[i].0 == [n, v] {
        var i :| IsLastUpdate(rest, [n, v], i) && UpdatedPool(pool1, rest)[(n, v)] == rest[i].1;
        assert IsLastUpdate(updates, [n, v], i + 1) && updates[i + 1] == rest[i];
      } else {
        assert forall i :: 0 < i < |updates| ==> updates[i] == rest[i - 1];
        if sel == [n, v] { assert IsLastUpdate(updates, [n, v], 0); }
        assert |sel| == 2 ==> sel == [sel[0], sel[1]];
      }
    }
  }

  ghost predicate IsLastUpdate(updates: seq<(Selector, Value)>, sel: Selector, i: int) {
    0 <= i < |updates| && updates[i].0 == sel && forall j :: i < j < |updates| ==> updates[j].0 != sel
  }

  /** `merge_response_outputs`: answers are appended, other outputs replace earlier ones. */
  function MergeOutputs(before: map<string, string>, outputs: map<string, Value>): map<string, string> {
    before + map k | k in outputs ::
      if k == "answer" && k in before then before[k] + outputs[k].markdown else outputs[k].markdown
  }

  function OutputsAfter(g: Graph, c: Core, ev: Event, outputs: map<string, Value>,
      before: map<string, string>): map<string, string> {
    if CompletedWith(g, c, ev).None? || Kind(g, ev.node) != Response then before
    else MergeOutputs(before, if ev.Succeeded? then ev.outputs else outputs)
  }

  function OpsFor(g: Graph, c: Core, ev: Event, pool: Pool, order: seq<NodeId>): seq<Op>
    requires Wf(g) && (Midway(ev) || Pending(g, c.s.edge, ev.node, Out(g, ev.node)))
  {
    match ev
    case Chunk(n, sel, text, isFinal) => [ChunkIn(EnvOf(g, c.s, pool), sel, BufferedChunk(n, text, isFinal))]
    case Succeeded(_, _, _) => [Flush(EnvOf(g, c.s, pool))] + TakenOps(g, c, ev, pool, order)
    case Failed(_) => TakenOps(g, c, ev, pool, order)
    case _ => []
  }

  ghost predicate Feasible(g: Graph, c: Coord, ops: seq<Op>)
    requires Wf(g)
    decreases |ops|
  {
    ops == [] || (Valid(c, ops[0]) && Feasible(g, Apply(g, c, ops[0]).0, ops[1..]))
  }

  ghost function RunOps(g: Graph, c: Coord, log: seq<Emitted>, ops: seq<Op>): (Coord, seq<Emitted>)
    requires Wf(g) && Feasible(g, c, ops)
    decreases |ops|
  {
    if ops == [] then (c, log)
    else
      var (c1, evs) := Apply(g, c, ops[0]);
      RunOps(g, c1, log + evs, ops[1..])
  }

  /** `register` for every response node; a second time it changes nothing. */
  ghost function Registrations(order: seq<NodeId>): (ops: seq<Op>)
    ensures |ops| == |order| && forall i :: 0 <= i < |ops| ==> ops[i] == RegisterNode(order[i])
    decreases |order|
  {
    if order == [] then [] else [RegisterNode(order[0])] + Registrations(order[1..])
  }

  ghost function ResponseNodes(g: Graph): set<NodeId> {
    set n | n in g.nodes && Kind(g, n) == Response
  }

  /** One step of the whole. `order` is the iteration order over response nodes. */
  ghost predicate WorldNext(g: Graph, w: World, step: Step, outputs: map<string, Value>, order: seq<NodeId>, r: World)
    requires Wf(g)
  {
    && Next(g, w.e, step, r.e)
    && match step
       case Dispatch =>
         var ev := w.e.events[0];
         !Refuses(w.co, ev) &&
         var pool := PoolAfter(g, w.e.core, ev, outputs, w.pool);
         var ops := OpsFor(g, w.e.core, ev, pool, order);
         multiset(order) == multiset(w.co.registered) && Feasible(g, w.co, ops) &&
         r.pool == pool && r.outputs == OutputsAfter(g, w.e.core, ev, outputs, w.outputs) &&
         (r.co, r.log) == RunOps(g, w.co, w.log, ops)
       case Refuse => Refuses(w.co, w.e.events[0]) && r == w.(e := r.e)
       case Resume(_, _) =>
         Elems(order) == ResponseNodes(g) && Feasible(g, w.co, Registrations(order)) &&
         r.pool == w.pool && r.outputs == w.outputs && (r.co, r.log) == RunOps(g, w.co, w.log, Registrations(order))
       case UpdateCommand(updates) => r == w.(e := r.e, pool := UpdatedPool(w.pool, updates))
       case _ => r == w.(e := r.e)
  }

  // ---------- the invariant ----------

  /** Every simple path from the root to `n` visits `d`. */
  ghost predicate Dominates(g: Graph, d: NodeId, n: NodeId) {
    forall p :: IsSimplePath(g, g.root, p, n) ==> Visits(g, p, d)
  }

  ghost predicate Visits(g: Graph, p: seq<EdgeId>, d: NodeId) {
    exists i :: 0 <= i <= |p| && NodeAt(g, g.root, p, i) == d
  }

  /** A session starts after those of the response nodes that every path to it visits. */
  ghost predicate StartsInOrder(g: Graph, started: seq<NodeId>, k: nat)
    requires k < |started|
  {
    forall d :: Kind(g, d) == Response && d != g.root && d != started[k] && Dominates(g, d, started[k]) ==>
      d in started[..k]
  }

  ghost predicate InOrder(g: Graph, started: seq<NodeId>) {
    forall k :: 0 <= k < |started| ==> StartsInOrder(g, started, k)
  }

  ghost predicate WorldOk(g: Graph, inactive: set<NodeId>, w: World)
    requires Wf(g)
  {
    && Inv(g, inactive, w.e)
    && Reached(g, w.e.core)
    && CoordOk(w.co, w.log)
    && w.co.registered == ResponseNodes(g)
    && Stored(g, w.co, Elems(w.e.core.taken))
    && InOrder(g, w.co.started)
  }

  // ---------- operations keep the coordinator's part ----------

  function ReportedAll(ops: seq<Op>): set<EdgeId>
    decreases |ops|
  {
    if ops == [] then {} else Reported(ops[0]) + ReportedAll(ops[1..])
  }

  /** Operations that register nobody new. */
  ghost predicate Settledly(c: Coord, ops: seq<Op>) {
    forall i :: 0 <= i < |ops| && ops[i].RegisterNode? ==> ops[i].node in c.registered
  }

  lemma {:induction false} RunOpsKeeps(g: Graph, c: Coord, log: seq<Emitted>, ops: seq<Op>, gone: set<EdgeId>)
    requires Wf(g) && Feasible(g, c, ops) && CoordOk(c, log) && Stored(g, c, gone) && Settledly(c, ops)
    ensures var (r, l) := RunOps(g, c, log, ops);
      && CoordOk(r, l) && Stored(g, r, gone + ReportedAll(ops))
      && c.started <= r.started && r.registered == c.registered && log <= l
    decreases |ops|
  {
    hide Apply, Stored, Reported, WellQueued, Sorted, Bounded, AllDelivered;
    if ops == [] {
      assert gone + ReportedAll(ops) == gone;
    } else {
      var (c1, evs) := Apply(g, c, ops[0]);
      ApplyKeepsOk(g, c, ops[0], log);
      ApplyKeepsStored(g, c, gone, ops[0]);
      if ops[0].RegisterNode? { RegisterAgain(g, c, ops[0]); }
      forall i | 0 <= i < |ops[1..]| && ops[1..][i].RegisterNode? ensures ops[1..][i].node in c1.registered {
        assert ops[1..][i] == ops[i + 1];
      }
      RunOpsKeeps(g, c1, log + evs, ops[1..], gone + Reported(ops[0]));
      assert gone + Reported(ops[0]) + ReportedAll(ops[1..]) == gone + ReportedAll(ops);
    }
  }

  lemma RegisterAgain(g: Graph, c: Coord, op: Op)
    requires Wf(g) && op.RegisterNode? && op.node in c.registered
    ensures Apply(g, c, op) == (c, [])
  {
  }

  lemma {:induction false} ReportedByEdgeOps(env: Env, es: seq<EdgeId>, order: seq<NodeId>)
    ensures ReportedAll(EdgeOps(env, es, order)) == Elems(es)
    decreases |es|
  {
    if es != [] {
      ElemsCons(es);
      ReportedByEdgeOps(env, es[1..], order);
      assert EdgeOps(env, es, order)[1..] == EdgeOps(env, es[1..], order);
    }
  }

  lemma TakenOpsReport(g: Graph, c: Core, ev: Event, pool: Pool, order: seq<NodeId>)
    requires Wf(g) && Pending(g, c.s.edge, ev.node, Out(g, ev.node))
    ensures ReportedAll(TakenOps(g, c, ev, pool, order)) == Elems(TakenOn(g, c, ev))
    ensures forall i :: 0 <= i < |TakenOps(g, c, ev, pool, order)| ==> !TakenOps(g, c, ev, pool, order)[i].RegisterNode?
  {
    hide Pending, Wf, CompletedWith, AfterSkips, EnvOf, TakenList, ReportedAll, EdgeOps;
    match CompletedWith(g, c, ev)
    case Some(handle) =>
      var env := EnvOf(g, AfterSkips(g, c.s, ev.node, handle, AsBranch(g, ev)), pool);
      ReportedByEdgeOps(env, TakenList(g, ev.node, handle), order);
    case None => NothingReported();
  }

  lemma NothingReported()
    ensures ReportedAll([]) == {} && Elems<EdgeId>([]) == {}
  {
    var none: seq<EdgeId> := [];
    assert Elems(none) == {};
  }

  lemma FlushReportsNothing(env: Env, ops: seq<Op>)
    ensures ReportedAll([Flush(env)] + ops) == ReportedAll(ops)
  {
    assert ([Flush(env)] + ops)[1..] == ops;
  }

  lemma MidwayTakesNothing(g: Graph, c: Core, ev: Event, pool: Pool, order: seq<NodeId>)
    requires Wf(g) && Midway(ev)
    ensures ReportedAll(OpsFor(g, c, ev, pool, order)) == Elems(TakenOn(g, c, ev))
    ensures forall i :: 0 <= i < |OpsFor(g, c, ev, pool, order)| ==> !OpsFor(g, c, ev, pool, order)[i].RegisterNode?
  {
    hide CompletedWith, EnvOf, Wf;
    NothingReported();
    ChunkCompletesNothing(g, c, ev);
    var ops := OpsFor(g, c, ev, pool, order);
    if ev.Chunk? { assert ops[1..] == []; }
  }

  lemma ChunkCompletesNothing(g: Graph, c: Core, ev: Event)
    ensures Midway(ev) || ev.PauseRequested? ==> CompletedWith(g, c, ev) == None
  {
  }

  /** The coordinator is told of exactly the edges that the handler takes. */
  lemma ReportedIsTaken(g: Graph, c: Core, ev: Event, pool: Pool, order: seq<NodeId>)
    requires Wf(g) && (Midway(ev) || Pending(g, c.s.edge, ev.node, Out(g, ev.node)))
    ensures ReportedAll(OpsFor(g, c, ev, pool, order)) == Elems(TakenOn(g, c, ev))
    ensures forall i :: 0 <= i < |OpsFor(g, c, ev, pool, order)| ==> !OpsFor(g, c, ev, pool, order)[i].RegisterNode?
  {
    hide Pending, Wf, CompletedWith, EnvOf, TakenOps, TakenList, ReportedAll;
    NothingReported();
    if Midway(ev) {
      MidwayTakesNothing(g, c, ev, pool, order);
    } else {
      TakenOpsReport(g, c, ev, pool, order);
      FlushReportsNothing(EnvOf(g, c.s, pool), TakenOps(g, c, ev, pool, order));
      ChunkCompletesNothing(g, c, ev);
    }
  }

  /** The edges that the operations report, in order. */
  function ReportsOf(ops: seq<Op>): seq<EdgeId>
    decreases |ops|
  {
    if ops == [] then [] else (if ops[0].EdgeIn? then [ops[0].edge] else []) + ReportsOf(ops[1..])
  }

  lemma {:induction false} ReportsOfEdgeOps(env: Env, es: seq<EdgeId>, order: seq<NodeId>)
    ensures ReportsOf(EdgeOps(env, es, order)) == es
    decreases |es|
  {
    if es != [] {
      ReportsOfEdgeOps(env, es[1..], order);
      assert EdgeOps(env, es, order)[1..] == EdgeOps(env, es[1..], order);
      assert [es[0]] + es[1..] == es;
    }
  }

  /** ... in the order in which they are taken, and after the flush. */
  lemma ReportsInOrder(g: Graph, c: Core, ev: Event, pool: Pool, order: seq<NodeId>)
    requires Wf(g) && !Midway(ev) && Pending(g, c.s.edge, ev.node, Out(g, ev.node))
    ensures ReportsOf(OpsFor(g, c, ev, pool, order)) == TakenOn(g, c, ev)
    ensures ev.Succeeded? ==> OpsFor(g, c, ev, pool, order)[0].Flush?
  {
    hide Pending, Wf, CompletedWith, AfterSkips, EnvOf, TakenList, EdgeOps;
    match CompletedWith(g, c, ev)
    case Some(handle) =>
      var env := EnvOf(g, AfterSkips(g, c.s, ev.node, handle, AsBranch(g, ev)), pool);
      ReportsOfEdgeOps(env, TakenList(g, ev.node, handle), order);
      if ev.Succeeded? {
        var flush := Flush(EnvOf(g, c.s, pool));
        assert ([flush] + EdgeOps(env, TakenList(g, ev.node, handle), order))[1..]
            == EdgeOps(env, TakenList(g, ev.node, handle), order);
      } else {
        ChunkCompletesNothing(g, c, ev);
      }
    case None =>
      if ev.Succeeded? { assert OpsFor(g, c, ev, pool, order)[1..] == []; }
  }

  // ---------- sessions and scheduled nodes ----------

  /** A session that was started belongs to a node that is not skipped. */
  lemma StartedIsNotSkipped(g: Graph, inactive: set<NodeId>, w: World, r: NodeId)
    requires Wf(g) && WorldOk(g, inactive, w) && r in w.co.started
    ensures NodeMark(w.e.core.s, r) != Skipped
  {
    hide CoreOk, Startable, IsSimplePath;
    var taken := Elems(w.e.core.taken);
    StartedIsStartable(g, w.co, taken, r);
    if r == g.root {
      RootIsNotSkipped(g, inactive, w.e.core);
    } else {
      StartableMeansPath(g, taken, r);
      var p :| IsSimplePath(g, g.root, p, r) && BlockersGone(g, taken, r, p);
      assert Decided(g, taken, p);
      PathIsWalk(g, p, r);
      DecidedIsNotSkipped(g, inactive, w.e.core, p, r);
    }
  }

  lemma PathIsWalk(g: Graph, p: seq<EdgeId>, r: NodeId)
    requires IsSimplePath(g, g.root, p, r)
    ensures Walks.IsWalk(g, g.root, p, r)
  {
  }

  lemma RootIsNotSkipped(g: Graph, inactive: set<NodeId>, c: Core)
    requires Wf(g) && CoreOk(g, inactive, c)
    ensures NodeMark(c.s, g.root) != Skipped
  {
    assert SkipOk(g, c.s, inactive, g.root);
  }

  lemma StartedIsStartable(g: Graph, c: Coord, gone: set<EdgeId>, r: NodeId)
    requires Wf(g) && OneSessionEach(c) && Stored(g, c, gone)
    ensures r in c.started ==> r in c.registered
    ensures r in c.registered ==> (r in c.started <==> Startable(g, gone, r))
  {
    assert r in c.started <==> r in Elems(c.started);
    if r in c.registered { assert StoredAt(g, c, gone, r); }
  }

  ghost predicate DecidedBefore(g: Graph, finished: set<NodeId>, r: NodeId, p: seq<EdgeId>) {
    forall e :: e in p && Decides(g, Tail(g, e), r) ==> Tail(g, e) in finished
  }

  /** A session starts only when on some simple path from the root all such nodes have finished. */
  lemma StartedAfterDeciders(g: Graph, inactive: set<NodeId>, w: World, r: NodeId)
    requires Wf(g) && WorldOk(g, inactive, w) && r in w.co.started && r != g.root
    ensures exists p :: IsSimplePath(g, g.root, p, r) && DecidedBefore(g, w.e.core.finished.Keys, r, p)
  {
    hide CoreOk, Startable, IsSimplePath;
    var taken := Elems(w.e.core.taken);
    StartedIsStartable(g, w.co, taken, r);
    StartableMeansPath(g, taken, r);
    var p :| IsSimplePath(g, g.root, p, r) && BlockersGone(g, taken, r, p);
    forall e | e in p && Decides(g, Tail(g, e), r) ensures Tail(g, e) in w.e.core.finished {
      PathIsWalk(g, p, r);
      PathEdge(g, p, r, e);
      TakenTailFinished(g, inactive, w.e.core, e);
    }
    assert DecidedBefore(g, w.e.core.finished.Keys, r, p);
  }

  lemma PathEdge(g: Graph, p: seq<EdgeId>, r: NodeId, e: EdgeId)
    requires Walks.IsWalk(g, g.root, p, r) && e in p
    ensures e in g.edges
  {
    var i :| 0 <= i < |p| && p[i] == e;
    WalkTail(g, g.root, p, r, i);
  }

  lemma TakenTailFinished(g: Graph, inactive: set<NodeId>, c: Core, e: EdgeId)
    requires CoreOk(g, inactive, c) && e in g.edges && e in Elems(c.taken)
    ensures Tail(g, e) in c.finished
  {
    assert EdgeOk(g, c.s, c.finished, e);
  }

  /** A path of taken edges makes the session of its end start. */
  lemma TakenPathIsStartable(g: Graph, taken: set<EdgeId>, r: NodeId)
    requires Wf(g) && TakenPath(g, taken, r) && r != g.root
    ensures Startable(g, taken, r)
  {
    var p :| TakenPathBy(g, taken, r, p);
    assert BlockersGone(g, taken, r, p);
    assert p[0] in p;
    StartableMeansPath(g, taken, r);
  }

  /** Every scheduled response node, other than the root, has had its session started. */
  lemma ScheduledIsStarted(g: Graph, inactive: set<NodeId>, w: World, r: NodeId)
    requires Wf(g) && WorldOk(g, inactive, w) && r in Active(w.e.core) && Kind(g, r) == Response && r != g.root
    ensures r in w.co.started
  {
    hide Inv, Startable, CoordOk;
    CoordHasOneSessionEach(w.co, w.log);
    TakenPathIsStartable(g, Elems(w.e.core.taken), r);
    StartedIsStartable(g, w.co, Elems(w.e.core.taken), r);
    assert r in g.nodes;
  }

  lemma CoordHasOneSessionEach(c: Coord, log: seq<Emitted>)
    requires CoordOk(c, log)
    ensures OneSessionEach(c) && Sorted(log)
  {
  }

  /** Within the handler of a branch node: the response nodes that skipping the unselected paths
      enqueues had their sessions started by edges taken before. */
  lemma SkipReleasesStarted(g: Graph, inactive: set<NodeId>, w: World, n: NodeId, handle: string, r: NodeId)
    requires Wf(g) && WorldOk(g, inactive, w) && Pending(g, w.e.core.s.edge, n, Out(g, n))
    requires r in Queued(w.e.core.s, AfterSkips(g, w.e.core.s, n, handle, true)) && Kind(g, r) == Response
    ensures r in w.co.started
  {
    hide CoreOk, Startable, CoordOk, Reached;
    var s := w.e.core.s;
    var m := AfterSkips(g, s, n, handle, true);
    CategoryIsPending(g, s.edge, n, Out(g, n), handle, false);
    SkipEdgesResolves(g, s, n, Unselected(g, n, handle));
    ListsReleased(Queued(s, m), [], Released(g, s.edge, m.edge));
    var d := ReleasedByTaken(g, inactive, w.e.core, m.edge, Elems(Unselected(g, n, handle)), r);
    ExtendPath(g, inactive, w.e.core, d, Elems(w.e.core.taken));
    TakenPathIsStartable(g, Elems(w.e.core.taken), r);
    CoordHasOneSessionEach(w.co, w.log);
    StartedIsStartable(g, w.co, Elems(w.e.core.taken), r);
  }

  lemma ReleasedByTaken(g: Graph, inactive: set<NodeId>, c: Core, m: Marks, skip: set<EdgeId>,
      r: NodeId) returns (d: EdgeId)
    requires Wf(g) && CoreOk(g, inactive, c) && EdgesResolved(g, c.s.edge, m, {}, skip) && r in Released(g, c.s.edge, m)
    ensures d in g.edges && Head(g, d) == r && r != g.root && r in g.nodes
    ensures Tail(g, d) in Active(c) && r !in Active(c) && d in Elems(c.taken)
  {
    assert NodeOk(g, c.s, Active(c), On(c), r);
    d :| d in g.edges && Head(g, d) == r && EdgeMark(m, d) == Taken;
    assert EdgeOk(g, c.s, c.finished, d);
  }

  // ---------- the order of starts ----------

  /** The new sessions of a step start after those of the response nodes on all their paths. */
  lemma NewStartsInOrder(g: Graph, inactive: set<NodeId>, w: World, r: World, k: nat)
    requires Wf(g) && WorldOk(g, inactive, w) && Inv(g, inactive, r.e) && Grows(w.e.core, r.e.core)
    requires OneSessionEach(r.co) && Stored(g, r.co, Elems(r.e.core.taken)) && w.co.started <= r.co.started
    requires |w.co.started| <= k < |r.co.started|
    ensures StartsInOrder(g, r.co.started, k)
  {
    hide Inv, CoreOk, Startable, IsSimplePath, CoordOk, Active;
    var n := r.co.started[k];
    var taken := Elems(r.e.core.taken);
    StartedIsStartable(g, r.co, taken, n);
    forall d | Kind(g, d) == Response && d != g.root && d != n && Dominates(g, d, n) ensures d in r.co.started[..k] {
      DominatesRoot(g, d);
      if n != g.root {
        StartableMeansPath(g, taken, n);
        var p :| IsSimplePath(g, g.root, p, n) && BlockersGone(g, taken, n, p);
        assert Visits(g, p, d);
        PassedResponseWasActive(g, inactive, w.e.core, r, n, p, d);
        ScheduledIsStarted(g, inactive, w, d);
        assert w.co.started == r.co.started[..|w.co.started|];
      }
    }
  }

  lemma DominatesRoot(g: Graph, d: NodeId)
    ensures Dominates(g, d, g.root) ==> d == g.root
  {
    if Dominates(g, d, g.root) {
      OnlyTheEmptyPath(g, g.root, []);
      assert Visits(g, [], d);
    }
  }

  /** An edge out of a response node blocks, so the node had been scheduled. */
  lemma PassedResponseWasActive(g: Graph, inactive: set<NodeId>, c: Core, r: World, n: NodeId, p: seq<EdgeId>,
      d: NodeId)
    requires Wf(g) && Inv(g, inactive, r.e) && Grows(c, r.e.core) && IsSimplePath(g, g.root, p, n)
    requires BlockersGone(g, Elems(r.e.core.taken), n, p) && Visits(g, p, d) && d != n && Kind(g, d) == Response
    ensures d in Active(c)
  {
    var i :| 0 <= i <= |p| && NodeAt(g, g.root, p, i) == d;
    if i == |p| {
      if p != [] { WalkTail(g, g.root, p, n, 0); }
    } else {
      WalkTail(g, g.root, p, n, i);
      assert p[i] in p && Decides(g, Tail(g, p[i]), n);
      assert EdgeOk(g, r.e.core.s, r.e.core.finished, p[i]);
    }
  }

  lemma StartsStayInOrder(g: Graph, inactive: set<NodeId>, w: World, r: World)
    requires Wf(g) && WorldOk(g, inactive, w) && Inv(g, inactive, r.e) && Grows(w.e.core, r.e.core)
    requires OneSessionEach(r.co) && Stored(g, r.co, Elems(r.e.core.taken)) && w.co.started <= r.co.started
    ensures InOrder(g, r.co.started)
  {
    hide Inv, Reached, CoordOk, Stored, Grows, OneSessionEach;
    forall k | 0 <= k < |r.co.started| ensures StartsInOrder(g, r.co.started, k) {
      if k < |w.co.started| {
        assert StartsInOrder(g, w.co.started, k);
        assert r.co.started[..k] == w.co.started[..k] && r.co.started[k] == w.co.started[k];
      } else {
        NewStartsInOrder(g, inactive, w, r, k);
      }
    }
  }

  // ---------- steps and runs ----------

  /** What handling an event does to the coordinator. */
  lemma HandlingFollows(g: Graph, co: Coord, log: seq<Emitted>, c: Core, ev: Event, pool: Pool, order: seq<NodeId>)
    requires Wf(g) && (Midway(ev) || Pending(g, c.s.edge, ev.node, Out(g, ev.node)))
    requires Feasible(g, co, OpsFor(g, c, ev, pool, order)) && CoordOk(co, log) && Stored(g, co, Elems(c.taken))
    ensures var (r, l) := RunOps(g, co, log, OpsFor(g, c, ev, pool, order));
      && CoordOk(r, l) && r.registered == co.registered && co.started <= r.started && log <= l
      && Stored(g, r, Elems(c.taken + TakenOn(g, c, ev)))
  {
    hide *;
    ReportedIsTaken(g, c, ev, pool, order);
    RegistersNobody(co, OpsFor(g, c, ev, pool, order));
    RunOpsKeeps(g, co, log, OpsFor(g, c, ev, pool, order), Elems(c.taken));
    ElemsConcat(c.taken, TakenOn(g, c, ev));
  }

  lemma RegistersNobody(c: Coord, ops: seq<Op>)
    requires forall i :: 0 <= i < |ops| ==> !ops[i].RegisterNode?
    ensures Settledly(c, ops)
  {
  }

  lemma ElemsConcat<T>(a: seq<T>, b: seq<T>)
    ensures Elems(a + b) == Elems(a) + Elems(b)
  {
  }

  /** What registering the response nodes again does to it. */
  lemma RegisteringFollows(g: Graph, co: Coord, log: seq<Emitted>, order: seq<NodeId>, gone: set<EdgeId>)
    requires Wf(g) && Feasible(g, co, Registrations(order)) && CoordOk(co, log) && Stored(g, co, gone)
    requires Elems(order) == co.registered
    ensures var (r, l) := RunOps(g, co, log, Registrations(order));
      CoordOk(r, l) && r.registered == co.registered && co.started <= r.started && log <= l && Stored(g, r, gone)
  {
    hide CoordOk, Stored, Feasible, RunOps, Wf;
    assert forall i :: 0 <= i < |order| ==> order[i] in Elems(order);
    ReportedByRegistrations(order);
    RunOpsKeeps(g, co, log, Registrations(order), gone);
    assert gone + {} == gone;
  }

  /** What a step does to the coordinator. */
  lemma CoordinatorFollows(g: Graph, inactive: set<NodeId>, w: World, step: Step, outputs: map<string, Value>,
      order: seq<NodeId>, r: World)
    requires Wf(g) && WorldOk(g, inactive, w) && WorldNext(g, w, step, outputs, order, r)
    ensures CoordOk(r.co, r.log) && r.co.registered == w.co.registered && w.co.started <= r.co.started && w.log <= r.log
    ensures Stored(g, r.co, Elems(r.e.core.taken))
  {
    hide Inv, Reached, CoordOk, Stored, Feasible, RunOps, InOrder, OpsFor, PoolAfter, OutputsAfter, Registrations,
      HandleEvent, Resumed;
    StepGrows(g, inactive, w.e, step, r.e);
    var c := w.e.core;
    match step
    case Dispatch =>
      var ev := w.e.events[0];
      HandlingFollows(g, w.co, w.log, c, ev, PoolAfter(g, c, ev, outputs, w.pool), order);
    case Resume(_, _) =>
      RegisteringFollows(g, w.co, w.log, order, Elems(c.taken));
      assert c.taken + [] == c.taken;
    case _ => assert c.taken + [] == c.taken;
  }

  lemma {:induction false} ReportedByRegistrations(order: seq<NodeId>)
    ensures ReportedAll(Registrations(order)) == {}
    decreases |order|
  {
    if order != [] {
      ReportedByRegistrations(order[1..]);
      assert Registrations(order)[1..] == Registrations(order[1..]);
    }
  }

  lemma WorldStepKeepsOk(g: Graph, inactive: set<NodeId>, w: World, step: Step, outputs: map<string, Value>,
      order: seq<NodeId>, r: World)
    requires Wf(g) && Promoted(g) && WorldOk(g, inactive, w) && WorldNext(g, w, step, outputs, order, r)
    ensures WorldOk(g, inactive, r) && w.co.started <= r.co.started && w.log <= r.log
  {
    hide Inv, Reached, CoordOk, Stored, Grows, Next, InOrder;
    StepGrows(g, inactive, w.e, step, r.e);
    StepKeepsInv(g, inactive, w.e, step, r.e);
    StepKeepsReached(g, inactive, w.e, step, r.e);
    CoordinatorFollows(g, inactive, w, step, outputs, order, r);
    CoordHasOneSessionEach(r.co, r.log);
    StartsStayInOrder(g, inactive, w, r);
  }
}
